/** Reassembly of messages from the reads of a socket: `src/recv.rs`. */
module Reassembling {
  import opened Wire
  import opened Addresses
  import opened Notifications

  const RECV_WINDOW: nat := 65536
  const MSG_NOTIFICATION: bv32 := 0x8000
  const MSG_EOR: bv32 := 0x80
  const EAGAIN: int := 11

  datatype RecvInfo = RecvInfo(stream: u16, ppid: u32, assocId: i32)

  /** `sctp_sndrcvinfo` as the kernel fills it: the PPID still in network order. */
  datatype SndRcvInfo =
    SndRcvInfo(stream: u16, ssn: u16, flags: bv16, ppid: u32, context: u32, timeToLive: u32,
               tsn: u32, cumTsn: u32, assocId: i32)

  datatype SctpError = Io(errno: int) | PeerShutdown | NotConnected | InvalidData

  /** The outcome of one read folded through the accumulator. */
  datatype Step =
    | WouldBlock
    | More
    | Notified(notification: Notification)
    | Complete(data: seq<byte>, info: RecvInfo, addr: Option<SocketAddr>)
    | Failed(error: SctpError)

  /** What `sctp_recvmsg` returns: an error, or bytes with flags, metadata and the sender. */
  datatype Read =
    | Errno(code: int)
    | Got(bytes: seq<byte>, flags: bv32, sinfo: SndRcvInfo, from: Storage)

  /** A read that carries something, with its flags and metadata decoded. */
  datatype Record =
    | Data(payload: seq<byte>, eor: bool, info: RecvInfo, addr: Option<SocketAddr>)
    | Notice(notification: Notification)

  /** What a caller is handed. */
  datatype Output =
    | Message(data: seq<byte>, info: RecvInfo, addr: Option<SocketAddr>)
    | Event(notification: Notification)

  function Classify(e: Endian, chunk: seq<byte>, flags: bv32, sinfo: SndRcvInfo, addr: Option<SocketAddr>): Record {
    if flags & MSG_NOTIFICATION != 0 then Notice(Parse(e, chunk))
    else Data(chunk, flags & MSG_EOR != 0, RecvInfo(sinfo.stream, FromBe32(e, sinfo.ppid), sinfo.assocId), addr)
  }

  function Sender(e: Endian, wantAddr: bool, from: Storage): Option<SocketAddr> {
    if !wantAddr then None else
    match FromRaw(e, from)
    case Ok(a) => Some(a)
    case UnsupportedFamily(_) => None
  }

  function RecordOf(e: Endian, wantAddr: bool, r: Read): Record
    requires r.Got?
  {
    Classify(e, r.bytes, r.flags, r.sinfo, Sender(e, wantAddr, r.from))
  }

  /** A simple accumulator over records: the buffer after a record. */
  function Keep(buf: seq<byte>, r: Record): seq<byte> {
    match r
    case Notice(_) => buf
    case Data(payload, eor, _, _) => if eor then [] else buf + payload
  }

  /** ... and what the record lets out. */
  function Emit(buf: seq<byte>, r: Record): seq<Output> {
    match r
    case Notice(n) => [Event(n)]
    case Data(payload, eor, info, addr) => if eor then [Message(buf + payload, info, addr)] else []
  }

  /** What a step lets out. */
  function Shown(step: Step): seq<Output> {
    match step
    case Notified(n) => [Event(n)]
    case Complete(data, info, addr) => [Message(data, info, addr)]
    case _ => []
  }

  /** The step that stands for what a record lets out. */
  function StepOf(outputs: seq<Output>): (step: Step)
    requires |outputs| <= 1
    ensures Shown(step) == outputs && !step.WouldBlock? && !step.Failed?
  {
    if outputs == [] then More
    else match outputs[0]
         case Message(data, info, addr) => Complete(data, info, addr)
         case Event(n) => Notified(n)
  }

  /** Accumulation state of one socket. */
  class Reassembly {
    /** Payload of the message being reassembled. */
    var buf: seq<byte>
    /** Reusable read buffer; holds what earlier reads left in it. */
    var scratch: seq<byte>

    constructor ()
      ensures buf == [] && scratch == []
    {
      buf, scratch := [], [];
    }

    /** `push_chunk`. */
    method PushChunk(e: Endian, chunk: seq<byte>, flags: bv32, sinfo: SndRcvInfo, addr: Option<SocketAddr>)
      returns (step: Step)
      modifies this`buf
      ensures var r := Classify(e, chunk, flags, sinfo, addr);
              buf == Keep(old(buf), r) && step == StepOf(Emit(old(buf), r))
    {
      if flags & MSG_NOTIFICATION != 0 {
        return Notified(Parse(e, chunk));
      }
      buf := buf + chunk;
      if flags & MSG_EOR != 0 {
        var info := RecvInfo(sinfo.stream, FromBe32(e, sinfo.ppid), sinfo.assocId);
        var taken := buf;
        buf := [];
        step := Complete(taken, info, addr);
      } else {
        step := More;
      }
    }

    /** `recv_step`, given what the read returned. Bytes that earlier reads
        left in the scratch buffer never reach the accumulator. */
    method RecvStep(e: Endian, wantAddr: bool, r: Read) returns (step: Step)
      requires r.Got? ==> |r.bytes| <= RECV_WINDOW
      modifies this
      ensures |scratch| == if |old(scratch)| < 65536 then 65536 else |old(scratch)|
      ensures r == Errno(11) ==> step == WouldBlock && buf == old(buf)
      ensures r.Errno? && r.code != 11 ==> step == Failed(Io(r.code)) && buf == old(buf)
      ensures r.Got? && r.bytes == [] ==> step == Failed(PeerShutdown) && buf == old(buf)
      ensures r.Got? && r.bytes != [] ==>
                var rec := RecordOf(e, wantAddr, r);
                buf == Keep(old(buf), rec) && step == StepOf(Emit(old(buf), rec))
    {
      if |scratch| < RECV_WINDOW {
        scratch := scratch + Zeros(RECV_WINDOW - |scratch|);
      }
      if r.Errno? {
        return if r.code == EAGAIN then WouldBlock else Failed(Io(r.code));
      }
      var n := |r.bytes|;
      scratch := r.bytes + scratch[n..];
      if n == 0 {
        return Failed(PeerShutdown);
      }
      assert scratch[..n] == r.bytes;
      step := PushChunk(e, scratch[..n], r.flags, r.sinfo, Sender(e, wantAddr, r.from));
    }
  }

  /** On a one-to-many socket a record carries the address its sender was
      encoded with; an unknown family, or an association, gives none. */
  lemma SenderIsDecoded(e: Endian, a: SocketAddr, rest: seq<byte>, from: Storage)
    requires |rest| == STORAGE_SIZE - Size(a)
    ensures Sender(e, true, Encode(e, a) + rest) == Some(a)
    ensures Sender(e, true, from).None? <==> At16(e, from, 0) != 2 && At16(e, from, 0) != 10
    ensures Sender(e, false, from).None?
  {
    DecodeEncode(e, a, rest);
  }

  // ---- whole sequences of records

  /** The buffer after the records `rs`, started from `b`. */
  function Buffered(b: seq<byte>, rs: seq<Record>): seq<byte>
    decreases |rs|
  {
    if rs == [] then b else Buffered(Keep(b, rs[0]), rs[1..])
  }

  /** Everything the records `rs` let out, in order, started from `b`. */
  function Delivered(b: seq<byte>, rs: seq<Record>): seq<Output>
    decreases |rs|
  {
    if rs == [] then [] else Emit(b, rs[0]) + Delivered(Keep(b, rs[0]), rs[1..])
  }

  /** Stopping anywhere and going on from the buffer loses nothing. */
  lemma {:induction false} Resume(b: seq<byte>, x: seq<Record>, y: seq<Record>)
    ensures Buffered(b, x + y) == Buffered(Buffered(b, x), y)
    ensures Delivered(b, x + y) == Delivered(b, x) + Delivered(Buffered(b, x), y)
    decreases |x|
  {
    if x == [] {
      assert x + y == y;
    } else {
      var b' := Keep(b, x[0]);
      assert (x + y)[0] == x[0] && (x + y)[1..] == x[1..] + y;
      Resume(b', x[1..], y);
      Regroup(Emit(b, x[0]), Delivered(b', x[1..]), Delivered(Buffered(b, x), y));
    }
  }

  lemma Extend(b: seq<byte>, rs: seq<Record>, r: Record)
    ensures Buffered(b, rs + [r]) == Keep(Buffered(b, rs), r)
    ensures Delivered(b, rs + [r]) == Delivered(b, rs) + Emit(Buffered(b, rs), r)
  {
    Resume(b, rs, [r]);
    assert Delivered(Buffered(b, rs), [r]) == Emit(Buffered(b, rs), r) + [];
  }

  function Messages(outs: seq<Output>): seq<Output> {
    if outs == [] then [] else (if outs[0].Message? then [outs[0]] else []) + Messages(outs[1..])
  }

  function Events(outs: seq<Output>): seq<Output> {
    if outs == [] then [] else (if outs[0].Event? then [outs[0]] else []) + Events(outs[1..])
  }

  function DataOnly(rs: seq<Record>): seq<Record> {
    if rs == [] then [] else (if rs[0].Data? then [rs[0]] else []) + DataOnly(rs[1..])
  }

  function Notices(rs: seq<Record>): seq<Output> {
    if rs == [] then [] else (if rs[0].Notice? then [Event(rs[0].notification)] else []) + Notices(rs[1..])
  }

  /** Notifications, wherever they come between fragments, surface in order
      and change nothing about the messages. */
  lemma {:induction false} NoticesTransparent(b: seq<byte>, rs: seq<Record>)
    ensures Buffered(b, rs) == Buffered(b, DataOnly(rs))
    ensures Messages(Delivered(b, rs)) == Delivered(b, DataOnly(rs))
    ensures Events(Delivered(b, rs)) == Notices(rs)
    decreases |rs|
  {
    if rs != [] {
      var r, rest := rs[0], rs[1..];
      var b' := Keep(b, r);
      NoticesTransparent(b', rest);
      var out := Emit(b, r);
      if out == [] {
        assert out + Delivered(b', rest) == Delivered(b', rest);
      } else {
        assert (out + Delivered(b', rest))[1..] == Delivered(b', rest);
      }
      if r.Data? {
        assert ([r] + DataOnly(rest))[1..] == DataOnly(rest);
      } else {
        assert [] + DataOnly(rest) == DataOnly(rest);
        assert [] + Messages(Delivered(b', rest)) == Messages(Delivered(b', rest));
      }
    }
  }

  /** The bytes of all data records, and of all messages, in order. */
  function DataBytes(rs: seq<Record>): seq<byte> {
    if rs == [] then [] else (if rs[0].Data? then rs[0].payload else []) + DataBytes(rs[1..])
  }

  function MessageBytes(outs: seq<Output>): seq<byte> {
    if outs == [] then [] else (if outs[0].Message? then outs[0].data else []) + MessageBytes(outs[1..])
  }

  lemma {:induction false} MessageBytesSplit(x: seq<Output>, y: seq<Output>)
    ensures MessageBytes(x + y) == MessageBytes(x) + MessageBytes(y)
  {
    if x == [] {
      assert x + y == y;
    } else {
      assert (x + y)[0] == x[0] && (x + y)[1..] == x[1..] + y;
      MessageBytesSplit(x[1..], y);
      Regroup(if x[0].Message? then x[0].data else [], MessageBytes(x[1..]), MessageBytes(y));
    }
  }

  lemma RecordBytes(b: seq<byte>, r: Record)
    ensures MessageBytes(Emit(b, r)) + Keep(b, r) == b + if r.Data? then r.payload else []
  {
  }

  /** Byte conservation: what was let out and what is still buffered is what came in. */
  lemma {:induction false} BytesConserved(b: seq<byte>, rs: seq<Record>)
    ensures MessageBytes(Delivered(b, rs)) + Buffered(b, rs) == b + DataBytes(rs)
    decreases |rs|
  {
    if rs != [] {
      var r, rest := rs[0], rs[1..];
      var added := if r.Data? then r.payload else [];
      var b', out := Keep(b, r), Emit(b, r);
      var m, outs, left, bytes := MessageBytes(out), Delivered(b', rest), Buffered(b', rest), DataBytes(rest);
      calc {
        MessageBytes(out + outs) + left;
        { MessageBytesSplit(out, outs); }
        (m + MessageBytes(outs)) + left;
        { Regroup(m, MessageBytes(outs), left); }
        m + (MessageBytes(outs) + left);
        { BytesConserved(b', rest); }
        m + (b' + bytes);
        { Regroup(m, b', bytes); }
        (m + b') + bytes;
        { RecordBytes(b, r); }
        (b + added) + bytes;
        { Regroup(b, added, bytes); }
        b + (added + bytes);
      }
    }
  }
}
