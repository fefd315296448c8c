/** From the reads of a socket to messages: what the flag word, the metadata and
the sender of each read come to, stated on the reads themselves.

Bit 0x8000 of the flags marks a notification, bit 0x80 the last read of a
message. */
module Reads {
  import opened Wire
  import opened Addresses
  import opened Notifications
  import opened Reassembling

  /** What one read of a kernel socket may find. */
  predicate Readable(r: Read) { r.Got? && 1 <= |r.bytes| <= RECV_WINDOW }

  ghost predicate AllGot(rs: seq<Read>) {
    forall i :: 0 <= i < |rs| ==> rs[i].Got?
  }

  function Records(e: Endian, wantAddr: bool, rs: seq<Read>): (records: seq<Record>)
    requires AllGot(rs)
    ensures |records| == |rs|
  {
    if rs == [] then [] else [RecordOf(e, wantAddr, rs[0])] + Records(e, wantAddr, rs[1..])
  }

  lemma {:induction false} RecordsSplit(e: Endian, wantAddr: bool, x: seq<Read>, y: seq<Read>)
    requires AllGot(x) && AllGot(y)
    ensures AllGot(x + y)
    ensures Records(e, wantAddr, x + y) == Records(e, wantAddr, x) + Records(e, wantAddr, y)
  {
    if x == [] {
      assert x + y == y;
    } else {
      assert (x + y)[0] == x[0] && (x + y)[1..] == x[1..] + y;
      RecordsSplit(e, wantAddr, x[1..], y);
    }
  }

  function Bytes(rs: seq<Read>): seq<byte>
    requires AllGot(rs)
  {
    if rs == [] then [] else rs[0].bytes + Bytes(rs[1..])
  }

  /** The reads of one message: none is a notification, and only the last ends a record. */
  ghost predicate OneMessage(rs: seq<Read>) {
    && rs != [] && AllGot(rs)
    && (forall i :: 0 <= i < |rs| ==> 1 <= |rs[i].bytes| <= 65536 && rs[i].flags & 0x8000 == 0)
    && (forall i :: 0 <= i < |rs| ==> (rs[i].flags & 0x80 != 0 <==> i == |rs| - 1))
  }

  /** What the reads `rs` of one message make: their bytes behind what was held,
      with the stream and association of the last read, the number that its PPID
      is in network order, and its sender where that is asked for. */
  predicate Makes(e: Endian, wantAddr: bool, held: seq<byte>, rs: seq<Read>, out: Output)
    requires rs != [] && AllGot(rs)
  {
    var last := rs[|rs| - 1];
    var ppid := Ne32(e, last.sinfo.ppid);
    && out.Message? && out.data == held + Bytes(rs)
    && out.info.stream == last.sinfo.stream && out.info.assocId == last.sinfo.assocId
    && out.info.ppid == Number4(ppid[0], ppid[1], ppid[2], ppid[3])
    && (wantAddr && FromRaw(e, last.from).Ok? ==> out.addr == Some(FromRaw(e, last.from).addr))
    && (out.addr.Some? ==> wantAddr && FromRaw(e, last.from).Ok?)
  }

  lemma NumberInNetworkOrder(s: seq<byte>)
    requires |s| == 4
    ensures FromBytesBe32(s) == Number4(s[0], s[1], s[2], s[3])
  {
    Be32RoundTrip(0, s);
    NetworkBytes(0, FromBytesBe32(s));
  }

  /** One read that is no notification, as a record. */
  lemma ReadRecord(e: Endian, wantAddr: bool, r: Read)
    requires r.Got? && r.flags & 0x8000 == 0
    ensures var d := RecordOf(e, wantAddr, r);
            && d.Data? && d.payload == r.bytes && (d.eor <==> r.flags & 0x80 != 0)
            && (d.eor ==>
                  forall held: seq<byte> :: Makes(e, wantAddr, held, [r], Message(held + r.bytes, d.info, d.addr)))
  {
    NumberInNetworkOrder(Ne32(e, r.sinfo.ppid));
    assert Bytes([r]) == r.bytes + [];
  }

  /** The reads of one message let out exactly that message and leave nothing behind. */
  lemma {:induction false} MessageFromReads(e: Endian, wantAddr: bool, held: seq<byte>, rs: seq<Read>)
    requires OneMessage(rs)
    ensures var outs := Delivered(held, Records(e, wantAddr, rs));
            |outs| == 1 && Makes(e, wantAddr, held, rs, outs[0])
    ensures Buffered(held, Records(e, wantAddr, rs)) == []
    decreases |rs|
  {
    var r, rest := rs[0], rs[1..];
    var records := Records(e, wantAddr, rs);
    assert records[0] == RecordOf(e, wantAddr, r) && records[1..] == Records(e, wantAddr, rest);
    ReadRecord(e, wantAddr, r);
    if rest == [] {
      assert rs == [r] && records[0].eor;
      assert Makes(e, wantAddr, held, [r], Message(held + r.bytes, records[0].info, records[0].addr));
    } else {
      OneMessageRest(rs);
      assert !records[0].eor;
      MessageFromReads(e, wantAddr, held + r.bytes, rest);
      Prepend(e, wantAddr, held, rs, Delivered(held + r.bytes, Records(e, wantAddr, rest))[0]);
    }
  }

  lemma Prepend(e: Endian, wantAddr: bool, held: seq<byte>, rs: seq<Read>, out: Output)
    requires AllGot(rs) && |rs| > 1 && Makes(e, wantAddr, held + rs[0].bytes, rs[1..], out)
    ensures Makes(e, wantAddr, held, rs, out)
  {
    assert rs[1..][|rs| - 2] == rs[|rs| - 1];
    Regroup(held, rs[0].bytes, Bytes(rs[1..]));
  }

  lemma OneMessageRest(rs: seq<Read>)
    requires OneMessage(rs) && rs[1..] != []
    ensures OneMessage(rs[1..])
  {
    forall i | 0 <= i < |rs[1..]|
      ensures rs[1..][i].Got? && 1 <= |rs[1..][i].bytes| <= 65536 && rs[1..][i].flags & 0x8000 == 0
      ensures rs[1..][i].flags & 0x80 != 0 <==> i == |rs[1..]| - 1
    {
      assert rs[1..][i] == rs[i + 1];
    }
  }

  /** One message after the other. */
  function Joined(groups: seq<seq<Read>>): seq<Read> {
    if groups == [] then [] else groups[0] + Joined(groups[1..])
  }

  ghost predicate AllMessages(groups: seq<seq<Read>>) {
    forall i :: 0 <= i < |groups| ==> OneMessage(groups[i])
  }

  /** From reads to messages: reads that are message after message let out
      exactly those messages, in order, and leave nothing behind. */
  lemma {:induction false} MessagesFromReads(e: Endian, wantAddr: bool, groups: seq<seq<Read>>)
    requires AllMessages(groups)
    ensures AllGot(Joined(groups))
    ensures var outs := Delivered([], Records(e, wantAddr, Joined(groups)));
            |outs| == |groups| && forall i :: 0 <= i < |groups| ==> Makes(e, wantAddr, [], groups[i], outs[i])
    ensures Buffered([], Records(e, wantAddr, Joined(groups))) == []
  {
    if groups != [] {
      var first, rest := groups[0], Joined(groups[1..]);
      assert OneMessage(first);
      MessagesFromReads(e, wantAddr, groups[1..]);
      MessageFromReads(e, wantAddr, [], first);
      RecordsSplit(e, wantAddr, first, rest);
      Resume([], Records(e, wantAddr, first), Records(e, wantAddr, rest));
      var outs, more := Delivered([], Records(e, wantAddr, Joined(groups))), Delivered([], Records(e, wantAddr, rest));
      forall i | 0 <= i < |groups| ensures Makes(e, wantAddr, [], groups[i], outs[i]) {
        if i > 0 {
          assert outs[i] == more[i - 1] && groups[i] == groups[1..][i - 1];
        }
      }
    }
  }

  /** The reads without, and only, those marked as notifications. */
  function DataReads(rs: seq<Read>): (data: seq<Read>)
    requires AllGot(rs)
    ensures AllGot(data)
  {
    if rs == [] then [] else (if rs[0].flags & 0x8000 == 0 then [rs[0]] else []) + DataReads(rs[1..])
  }

  function NoticeEvents(e: Endian, rs: seq<Read>): seq<Output>
    requires AllGot(rs)
  {
    if rs == [] then [] else
    (if rs[0].flags & 0x8000 != 0 then [Event(Parse(e, rs[0].bytes))] else []) + NoticeEvents(e, rs[1..])
  }

  lemma {:induction false} NoticesApart(e: Endian, wantAddr: bool, rs: seq<Read>)
    requires AllGot(rs)
    ensures DataOnly(Records(e, wantAddr, rs)) == Records(e, wantAddr, DataReads(rs))
    ensures Notices(Records(e, wantAddr, rs)) == NoticeEvents(e, rs)
  {
    if rs != [] {
      NoticesApart(e, wantAddr, rs[1..]);
      assert Records(e, wantAddr, rs)[1..] == Records(e, wantAddr, rs[1..]);
      if rs[0].flags & 0x8000 == 0 {
        assert ([rs[0]] + DataReads(rs[1..]))[1..] == DataReads(rs[1..]);
      } else {
        assert [] + DataReads(rs[1..]) == DataReads(rs[1..]);
      }
    }
  }

  /** Notifications anywhere among the reads, marked as ending a record or not:
      the messages are those of the other reads, and each notification surfaces
      in order, parsed from its own bytes. */
  lemma MessagesAmongNotices(e: Endian, wantAddr: bool, rs: seq<Read>, groups: seq<seq<Read>>)
    requires AllGot(rs) && AllMessages(groups) && DataReads(rs) == Joined(groups)
    ensures var outs := Delivered([], Records(e, wantAddr, rs));
            && Events(outs) == NoticeEvents(e, rs)
            && |Messages(outs)| == |groups|
            && forall i :: 0 <= i < |groups| ==> Makes(e, wantAddr, [], groups[i], Messages(outs)[i])
  {
    NoticesApart(e, wantAddr, rs);
    NoticesTransparent([], Records(e, wantAddr, rs));
    MessagesFromReads(e, wantAddr, groups);
  }
}
