/** Cutting messages into fragments and putting them together again.

The kernel delivers a message as one or more fragments of at most one read
window, the last one marked, with notifications anywhere between them.
*/
module Fragmentation {
  import opened Wire
  import opened Addresses
  import opened Reassembling

  /** A data record as one read can return it. */
  predicate Fits(r: Record) {
    r.Data? ==> 1 <= |r.payload| <= RECV_WINDOW
  }

  ghost predicate AllFit(rs: seq<Record>) {
    forall i :: 0 <= i < |rs| ==> Fits(rs[i])
  }

  ghost predicate AllData(rs: seq<Record>) {
    forall i :: 0 <= i < |rs| ==> rs[i].Data?
  }

  /** Fragments of a message whose end has not come yet. */
  ghost predicate Open(rs: seq<Record>) {
    forall i :: 0 <= i < |rs| ==> rs[i].Data? && !rs[i].eor
  }

  /** `run` is one way to cut the message `m` into fragments. */
  ghost predicate Cuts(run: seq<Record>, m: Output) {
    && m.Message? && run != [] && AllFit(run)
    && Open(run[..|run| - 1]) && run[|run| - 1].Data? && run[|run| - 1].eor
    && DataBytes(run) == m.data
    && run[|run| - 1].info == m.info && run[|run| - 1].addr == m.addr
  }

  ghost predicate AllCut(runs: seq<seq<Record>>, ms: seq<Output>) {
    |runs| == |ms| && forall i :: 0 <= i < |runs| ==> Cuts(runs[i], ms[i])
  }

  function Flatten(runs: seq<seq<Record>>): seq<Record> {
    if runs == [] then [] else runs[0] + Flatten(runs[1..])
  }

  lemma {:induction false} DataBytesSplit(x: seq<Record>, y: seq<Record>)
    ensures DataBytes(x + y) == DataBytes(x) + DataBytes(y)
  {
    if x == [] {
      assert x + y == y;
    } else {
      assert (x + y)[0] == x[0] && (x + y)[1..] == x[1..] + y;
      DataBytesSplit(x[1..], y);
      Regroup(if x[0].Data? then x[0].payload else [], DataBytes(x[1..]), DataBytes(y));
    }
  }

  lemma {:induction false} OpenAccumulates(b: seq<byte>, run: seq<Record>)
    requires Open(run)
    ensures Buffered(b, run) == b + DataBytes(run) && Delivered(b, run) == []
    decreases |run|
  {
    if run != [] {
      OpenAccumulates(b + run[0].payload, run[1..]);
      Regroup(b, run[0].payload, DataBytes(run[1..]));
    }
  }

  lemma SingleBytes(r: Record)
    requires r.Data?
    ensures DataBytes([r]) == r.payload
  {
  }

  /** One cut message comes out whole and leaves the buffer empty. */
  lemma RunDelivers(run: seq<Record>, m: Output)
    requires Cuts(run, m)
    ensures Buffered([], run) == [] && Delivered([], run) == [m]
  {
    var head, last := run[..|run| - 1], run[|run| - 1];
    assert run == head + [last];
    OpenAccumulates([], head);
    Extend([], head, last);
    assert [] + DataBytes(head) == DataBytes(head);
    DataBytesSplit(head, [last]);
    SingleBytes(last);
    assert m == Message(DataBytes(head) + last.payload, last.info, last.addr);
  }

  lemma {:induction false} RunsDeliver(runs: seq<seq<Record>>, ms: seq<Output>)
    requires AllCut(runs, ms)
    ensures Buffered([], Flatten(runs)) == [] && Delivered([], Flatten(runs)) == ms
  {
    if runs != [] {
      RunDelivers(runs[0], ms[0]);
      RunsDeliver(runs[1..], ms[1..]);
      Resume([], runs[0], Flatten(runs[1..]));
      assert ms == [ms[0]] + ms[1..];
    }
  }

  lemma Widen(before: seq<Record>, r: Record)
    requires Open(before) && AllFit(before) && r.Data? && !r.eor && Fits(r)
    ensures Open(before + [r]) && AllFit(before + [r])
    ensures DataBytes(before + [r]) == DataBytes(before) + r.payload
  {
    DataBytesSplit(before, [r]);
    SingleBytes(r);
  }

  lemma Close(before: seq<Record>, r: Record)
    requires Open(before) && AllFit(before) && r.Data? && r.eor && Fits(r)
    ensures Cuts(before + [r], Message(DataBytes(before) + r.payload, r.info, r.addr))
  {
    DataBytesSplit(before, [r]);
    SingleBytes(r);
    assert (before + [r])[..|before|] == before;
  }

  /** Every sequence of data records is some messages, cut, and the fragments
      of one that is still open: the messages are the ones let out, and the
      buffer is what the open fragments hold. */
  lemma {:induction false} SplitRuns(before: seq<Record>, ds: seq<Record>)
    returns (runs: seq<seq<Record>>, tail: seq<Record>)
    requires Open(before) && AllFit(before) && AllFit(ds) && AllData(ds)
    ensures before + ds == Flatten(runs) + tail
    ensures Open(tail) && AllFit(tail)
    ensures AllCut(runs, Delivered(DataBytes(before), ds))
    ensures Buffered(DataBytes(before), ds) == DataBytes(tail)
    decreases |ds|
  {
    if ds == [] {
      runs, tail := [], before;
      assert before + ds == before == [] + before;
    } else if !ds[0].eor {
      Widen(before, ds[0]);
      runs, tail := SplitRuns(before + [ds[0]], ds[1..]);
      Shift(before, ds);
      assert Delivered(DataBytes(before), ds) == Delivered(DataBytes(before + [ds[0]]), ds[1..]);
    } else {
      Close(before, ds[0]);
      var more, end := SplitRuns([], ds[1..]);
      runs, tail := [before + [ds[0]]] + more, end;
      Shift(before, ds);
      assert [] + ds[1..] == ds[1..];
      ConsRun(before + [ds[0]], Emit(DataBytes(before), ds[0])[0], more, Delivered([], ds[1..]));
      Regroup(before + [ds[0]], Flatten(more), tail);
    }
  }

  lemma Shift(before: seq<Record>, ds: seq<Record>)
    requires ds != []
    ensures before + ds == (before + [ds[0]]) + ds[1..]
  {
  }

  lemma ConsRun(run: seq<Record>, m: Output, runs: seq<seq<Record>>, ms: seq<Output>)
    requires Cuts(run, m) && AllCut(runs, ms)
    ensures AllCut([run] + runs, [m] + ms)
    ensures Flatten([run] + runs) == run + Flatten(runs)
  {
  }

  lemma {:induction false} BytesBoundRecords(rs: seq<Record>)
    requires AllData(rs) && AllFit(rs)
    ensures |rs| <= |DataBytes(rs)|
  {
    if rs != [] {
      assert Fits(rs[0]);
      BytesBoundRecords(rs[1..]);
    }
  }

  lemma {:induction false} DataOnlyKeeps(rs: seq<Record>)
    requires AllFit(rs)
    ensures AllFit(DataOnly(rs)) && AllData(DataOnly(rs))
  {
    if rs != [] {
      assert Fits(rs[0]);
      DataOnlyKeeps(rs[1..]);
    }
  }

  ghost predicate Fragments(rs: seq<Record>, ms: seq<Output>) {
    exists runs :: AllCut(runs, ms) && DataOnly(rs) == Flatten(runs)
  }

  /** The round trip, both ways. Records let out exactly the messages `ms` and
      leave the buffer empty if and only if their data is a cutting of `ms`;
      the notifications among them surface in order in any case. */
  lemma FragmentationRoundTrip(rs: seq<Record>, ms: seq<Output>)
    requires AllFit(rs)
    ensures Messages(Delivered([], rs)) == ms && Buffered([], rs) == [] <==> Fragments(rs, ms)
    ensures Events(Delivered([], rs)) == Notices(rs)
  {
    NoticesTransparent([], rs);
    if Fragments(rs, ms) {
      var runs :| AllCut(runs, ms) && DataOnly(rs) == Flatten(runs);
      RunsDeliver(runs, ms);
    }
    if Messages(Delivered([], rs)) == ms && Buffered([], rs) == [] {
      DataOnlyKeeps(rs);
      var runs, tail := SplitRuns([], DataOnly(rs));
      assert [] + DataOnly(rs) == DataOnly(rs);
      BytesBoundRecords(tail);
      assert Flatten(runs) + tail == Flatten(runs);
    }
  }

  /** ... and so on every prefix of the records: what has been let out by then
      is a prefix of all that will be, which fixes how messages and
      notifications interleave. */
  lemma DeliveredPrefix(b: seq<byte>, rs: seq<Record>, k: nat)
    requires k <= |rs|
    ensures Delivered(b, rs[..k]) <= Delivered(b, rs)
    ensures Messages(Delivered(b, rs[..k])) == Delivered(b, DataOnly(rs[..k]))
    ensures Events(Delivered(b, rs[..k])) == Notices(rs[..k])
  {
    assert rs == rs[..k] + rs[k..];
    Resume(b, rs[..k], rs[k..]);
    NoticesTransparent(b, rs[..k]);
  }

  /** A message of any size can be cut: here into full windows and a rest. */
  function Chop(data: seq<byte>, info: RecvInfo, addr: Option<SocketAddr>): (run: seq<Record>)
    requires data != []
    ensures run != [] && AllFit(run)
    decreases |data|
  {
    if |data| <= RECV_WINDOW then [Data(data, true, info, addr)]
    else [Data(data[..RECV_WINDOW], false, info, addr)] + Chop(data[RECV_WINDOW..], info, addr)
  }

  lemma {:induction false} ChopCuts(data: seq<byte>, info: RecvInfo, addr: Option<SocketAddr>)
    requires data != []
    ensures Cuts(Chop(data, info, addr), Message(data, info, addr))
    decreases |data|
  {
    var run := Chop(data, info, addr);
    if |data| <= RECV_WINDOW {
      SingleBytes(run[0]);
    } else {
      var rest := data[RECV_WINDOW..];
      ChopCuts(rest, info, addr);
      var more := Chop(rest, info, addr);
      assert run == [run[0]] + more && run[1..] == more;
      assert data == data[..RECV_WINDOW] + rest;
      assert run[..|run| - 1] == [run[0]] + more[..|more| - 1];
    }
  }
}
