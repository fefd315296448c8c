/** The receive loops as a caller meets them when nothing else runs:
`SctpAssociation::recv_msg`, `SctpAssociation::recv` and `SctpServer::recv`.

With no new arrivals a call comes to a return or to its wait; what is queued is
the measure.
*/
module ReceiveCalls {
  import opened Wire
  import opened Addresses
  import opened Notifications
  import opened Reassembling
  import opened Reads
  import Association
  import Sockets

  class KernelSocket {
    var queue: seq<Read>
    var soError: Option<int>
    var peerShut: bool

    ghost predicate Valid()
      reads this
    {
      soError != Some(EAGAIN) && forall i :: 0 <= i < |queue| ==> Readable(queue[i])
    }

    /** What is queued, decoded. */
    ghost function Unread(e: Endian, wantAddr: bool): seq<Record>
      requires Valid()
      reads this
    {
      Records(e, wantAddr, queue)
    }

    /** `sctp_recvmsg`: the queue first, then the socket error, once, then the end of the peer's data. */
    method RecvMsg() returns (r: Read)
      requires Valid()
      modifies this
      ensures Valid() && peerShut == old(peerShut)
      ensures old(queue) != [] ==> r == old(queue)[0] && queue == old(queue)[1..] && soError == old(soError)
      ensures old(queue) == [] ==> queue == [] && soError == None
      ensures old(queue) == [] && old(soError).Some? ==> r == Errno(old(soError).value)
      ensures old(queue) == [] && old(soError).None? && peerShut ==> r.Got? && r.bytes == []
      ensures old(queue) == [] && old(soError).None? && !peerShut ==> r == Errno(EAGAIN)
    {
      if queue != [] {
        r := queue[0];
        queue := queue[1..];
      } else if soError.Some? {
        r := Errno(soError.value);
        soError := None;
      } else if peerShut {
        r := Got([], 0, SndRcvInfo(0, 0, 0, 0, 0, 0, 0, 0, 0), Zeros(STORAGE_SIZE));
      } else {
        r := Errno(EAGAIN);
      }
    }
  }

  datatype CallResult = Returned(out: Output) | Error(error: SctpError) | Parked

  /** From bytes to the end: a read ends the association exactly if it is
      flagged as a notification and its bytes start with an association change
      to lost, shutdown complete or cannot start. */
  lemma BytesDecideEnd(e: Endian, wantAddr: bool, r: Read)
    requires r.Got?
    ensures Sockets.IsEnding(RecordOf(e, wantAddr, r)) <==> r.flags & 0x8000 != 0 && EncodesEnd(e, r.bytes)
  {
    EndsExactly(e, r.bytes);
  }

  /** Of the records `recs`, `taken` have gone into a buffer that held `b`:
      `rest` is left, and the buffer is now `buf`. */
  ghost predicate Progress(recs: seq<Record>, b: seq<byte>, taken: seq<Record>, rest: seq<Record>, buf: seq<byte>) {
    recs == taken + rest && buf == Buffered(b, taken)
  }

  lemma TakeOne(recs: seq<Record>, b: seq<byte>, taken: seq<Record>, rest: seq<Record>, buf: seq<byte>)
    requires Progress(recs, b, taken, rest, buf) && rest != []
    ensures Progress(recs, b, taken + [rest[0]], rest[1..], Keep(buf, rest[0]))
    ensures Delivered(b, taken + [rest[0]]) == Delivered(b, taken) + Emit(buf, rest[0])
  {
    assert rest == [rest[0]] + rest[1..];
    Regroup(taken, [rest[0]], rest[1..]);
    Extend(b, taken, rest[0]);
  }

  /** One read and its accumulation. While something is queued it takes one
      record; then it reports what the empty queue hides. */
  method ReadStep(e: Endian, wantAddr: bool, socket: KernelSocket, state: Reassembly,
                  ghost recs: seq<Record>, ghost b: seq<byte>, ghost taken: seq<Record>)
    returns (step: Step, ghost taken': seq<Record>)
    requires socket.Valid() && Progress(recs, b, taken, socket.Unread(e, wantAddr), state.buf)
    requires Delivered(b, taken) == []
    modifies socket, state
    ensures socket.Valid() && Progress(recs, b, taken', socket.Unread(e, wantAddr), state.buf)
    ensures Delivered(b, taken') == Shown(step) && socket.peerShut == old(socket.peerShut)
    ensures old(socket.queue) != [] ==>
              && |socket.queue| < |old(socket.queue)| && socket.soError == old(socket.soError)
              && !step.WouldBlock? && !step.Failed?
    ensures old(socket.queue) == [] ==>
              && socket.queue == [] && taken' == taken && socket.soError == None
              && step == (if old(socket.soError).Some? then Failed(Io(old(socket.soError).value))
                          else if socket.peerShut then Failed(PeerShutdown)
                          else WouldBlock)
  {
    taken' := taken;
    if socket.queue != [] {
      ghost var rest := socket.Unread(e, wantAddr);
      TakeOne(recs, b, taken, rest, state.buf);
      taken' := taken + [rest[0]];
      assert Delivered(b, taken') == Emit(state.buf, rest[0]);
    }
    var read := socket.RecvMsg();
    step := state.RecvStep(e, wantAddr, read);
  }

  /** What a receive that has read all that is queued comes to: the socket error
      first, then the peer's shutdown, then the end, and otherwise its wait. */
  predicate IsDrained(soError: Option<int>, peerShut: bool, ended: bool, r: CallResult) {
    match r
    case Returned(_) => false
    case Error(Io(v)) => soError == Some(v)
    case Error(PeerShutdown) => soError.None? && peerShut
    case Error(NotConnected) => soError.None? && !peerShut && ended
    case Error(InvalidData) => false
    case Parked => soError.None? && !peerShut && !ended
  }

  class SctpAssociation {
    const e: Endian
    const socket: KernelSocket
    const recvState: Reassembly
    /** The cached readable bit. */
    var readable: bool
    /** `ended` is closed. */
    var ended: bool

    constructor (e: Endian, socket: KernelSocket)
      ensures this.e == e && this.socket == socket && fresh(recvState)
      ensures recvState.buf == [] && readable && !ended
    {
      this.e, this.socket := e, socket;
      recvState := new Reassembly();
      readable, ended := true, false;
    }

    /** `recv_msg`. A returned output is the only one that the records taken
        amount to, and the buffer is what they leave; otherwise they amount to
        none, and nothing is left to take. */
    method RecvMsg() returns (r: CallResult, ghost taken: seq<Record>)
      requires socket.Valid()
      modifies this, socket, recvState
      ensures socket.Valid()
      ensures Progress(old(socket.Unread(e, false)), old(recvState.buf),
                       taken, socket.Unread(e, false), recvState.buf)
      ensures Delivered(old(recvState.buf), taken) == if r.Returned? then [r.out] else []
      ensures ended == (old(ended) || (r.Returned? && Association.EndsIt(r.out)))
      ensures !r.Returned? && old(readable) ==>
                socket.queue == [] && IsDrained(old(socket.soError), socket.peerShut, ended, r)
      ensures !old(readable) ==> r.Parked? && taken == []
      ensures readable <==> !r.Parked?
      ensures socket.peerShut == old(socket.peerShut)
      ensures socket.soError == if r.Returned? || !old(readable) then old(socket.soError) else None
    {
      ghost var recs, b := socket.Unread(e, false), recvState.buf;
      taken := [];
      while true
        invariant socket.Valid() && Progress(recs, b, taken, socket.Unread(e, false), recvState.buf)
        invariant Delivered(b, taken) == []
        invariant ended == old(ended) && socket.peerShut == old(socket.peerShut)
        invariant readable ==> old(readable) && socket.soError == old(socket.soError)
        invariant !old(readable) ==> taken == [] && socket.soError == old(socket.soError)
        invariant !readable && old(readable) ==>
                    socket.queue == [] && !ended && !socket.peerShut && old(socket.soError) == socket.soError == None
        decreases |socket.queue|, if readable then 1 else 0
      {
        if !readable {
          return Parked, taken;
        }
        var step;
        step, taken := ReadStep(e, false, socket, recvState, recs, b, taken);
        match step {
          case WouldBlock =>
            if ended {
              return Error(NotConnected), taken;
            }
            readable := false;
          case More =>
          case Notified(n) =>
            if Ends(n) {
              ended := true;
            }
            return Returned(Event(n)), taken;
          case Complete(data, info, addr) =>
            return Returned(Message(data, info, addr)), taken;
          case Failed(error) =>
            return Error(error), taken;
        }
      }
    }

    /** `recv`: skips notifications. The records taken amount to the skipped
        notifications and, if the call returns one, the message behind them;
        otherwise nothing is left to take. */
    method Recv() returns (r: CallResult, ghost taken: seq<Record>, ghost skipped: seq<Output>)
      requires socket.Valid()
      modifies this, socket, recvState
      ensures socket.Valid()
      ensures Progress(old(socket.Unread(e, false)), old(recvState.buf),
                       taken, socket.Unread(e, false), recvState.buf)
      ensures Delivered(old(recvState.buf), taken) == skipped + if r.Returned? then [r.out] else []
      ensures AllEvents(skipped) && (r.Returned? ==> r.out.Message?)
      ensures ended <==> old(ended) || HasEnding(skipped)
      ensures !r.Returned? && old(readable) ==>
                socket.queue == [] && IsDrained(old(socket.soError), socket.peerShut, ended, r)
      ensures !old(readable) ==> r.Parked? && taken == []
    {
      ghost var recs, b := socket.Unread(e, false), recvState.buf;
      taken, skipped := [], [];
      while true
        invariant socket.Valid() && Progress(recs, b, taken, socket.Unread(e, false), recvState.buf)
        invariant Delivered(b, taken) == skipped && AllEvents(skipped)
        invariant ended <==> old(ended) || HasEnding(skipped)
        invariant readable == old(readable) && socket.peerShut == old(socket.peerShut)
        invariant socket.soError == old(socket.soError) && (!readable ==> taken == [])
        decreases |socket.queue|
      {
        ghost var rest, buf := socket.Unread(e, false), recvState.buf;
        ghost var more: seq<Record>;
        r, more := RecvMsg();
        Chain(recs, b, taken, rest, buf, more, socket.Unread(e, false), recvState.buf);
        taken := taken + more;
        if !r.Returned? {
          assert skipped + [] == skipped;
          return;
        }
        assert Delivered(b, taken) == skipped + [r.out];
        if r.out.Message? {
          return;
        }
        EndingOfOne(skipped, r.out);
        skipped := skipped + [r.out];
      }
    }
  }

  ghost predicate AllEvents(outs: seq<Output>) {
    forall i :: 0 <= i < |outs| ==> outs[i].Event?
  }

  ghost predicate HasEnding(outs: seq<Output>) {
    exists i :: 0 <= i < |outs| && Association.EndsIt(outs[i])
  }

  lemma EndingOfOne(outs: seq<Output>, out: Output)
    ensures HasEnding(outs + [out]) <==> HasEnding(outs) || Association.EndsIt(out)
  {
    if HasEnding(outs) {
      var i :| 0 <= i < |outs| && Association.EndsIt(outs[i]);
      assert (outs + [out])[i] == outs[i];
    }
    assert (outs + [out])[|outs|] == out;
  }

  /** Taking `more` after `taken` is taking both. */
  lemma Chain(recs: seq<Record>, b: seq<byte>, taken: seq<Record>, rest: seq<Record>, buf: seq<byte>,
              more: seq<Record>, rest': seq<Record>, buf': seq<byte>)
    requires Progress(recs, b, taken, rest, buf) && Progress(rest, buf, more, rest', buf')
    ensures Progress(recs, b, taken + more, rest', buf')
    ensures Delivered(b, taken + more) == Delivered(b, taken) + Delivered(buf, more)
    ensures Delivered(buf, more) != [] ==> |rest'| < |rest|
  {
    Regroup(taken, more, rest');
    Resume(b, taken, more);
  }

  /** What a receive on a one-to-many socket returns. */
  datatype ServerResult =
    | ServerData(data: seq<byte>, info: RecvInfo, addr: SocketAddr)
    | ServerEvent(notification: Notification)
    | ServerError(error: SctpError)
    | ServerParked

  class SctpServer {
    const e: Endian
    const socket: KernelSocket
    const recvState: Reassembly
    var readable: bool

    constructor (e: Endian, socket: KernelSocket)
      ensures this.e == e && this.socket == socket && fresh(recvState)
      ensures recvState.buf == [] && readable
    {
      this.e, this.socket := e, socket;
      recvState := new Reassembly();
      readable := true;
    }

    /** `SctpServer::recv`. As on an association, except that a message whose
        sender has no usable address is taken and turned into an error. */
    method Recv() returns (r: ServerResult, ghost taken: seq<Record>)
      requires socket.Valid()
      modifies this, socket, recvState
      ensures socket.Valid()
      ensures Progress(old(socket.Unread(e, true)), old(recvState.buf),
                       taken, socket.Unread(e, true), recvState.buf)
      ensures var outs := Delivered(old(recvState.buf), taken);
              match r
              case ServerData(data, info, addr) => outs == [Message(data, info, Some(addr))]
              case ServerEvent(n) => outs == [Event(n)]
              case ServerError(error) =>
                if error.InvalidData? then |outs| == 1 && outs[0].Message? && outs[0].addr.None? else outs == []
              case ServerParked => outs == []
      ensures old(readable) ==>
                match r
                case ServerError(Io(v)) => socket.queue == [] && old(socket.soError) == Some(v)
                case ServerError(PeerShutdown) => socket.queue == [] && old(socket.soError).None? && socket.peerShut
                case ServerError(NotConnected) => false
                case ServerParked => socket.queue == [] && old(socket.soError).None? && !socket.peerShut
                case _ => true
      ensures !old(readable) ==> r.ServerParked? && taken == []
      ensures readable <==> !r.ServerParked?
      ensures socket.peerShut == old(socket.peerShut)
    {
      ghost var recs, b := socket.Unread(e, true), recvState.buf;
      taken := [];
      while true
        invariant socket.Valid() && Progress(recs, b, taken, socket.Unread(e, true), recvState.buf)
        invariant Delivered(b, taken) == [] && socket.peerShut == old(socket.peerShut)
        invariant readable ==> old(readable) && socket.soError == old(socket.soError)
        invariant !old(readable) ==> taken == []
        invariant !readable && old(readable) ==> socket.queue == [] && !socket.peerShut && old(socket.soError).None?
        decreases |socket.queue|, if readable then 1 else 0
      {
        if !readable {
          return ServerParked, taken;
        }
        var step;
        step, taken := ReadStep(e, true, socket, recvState, recs, b, taken);
        match step {
          case WouldBlock =>
            readable := false;
          case More =>
          case Notified(n) =>
            return ServerEvent(n), taken;
          case Complete(data, info, addr) =>
            match addr {
              case Some(a) => return ServerData(data, info, a), taken;
              case None => return ServerError(InvalidData), taken;
            }
          case Failed(error) =>
            return ServerError(error), taken;
        }
      }
    }
  }
}
