/** One socket shared by any number of receiving and sending tasks:
`recv_msg` and `send_with` of `src/association.rs` as steps, and `recv` and
`send_with` of `src/server.rs`, which do the same on a one-to-many socket
without `ended` and without waiting for errors.

A task runs alone between two steps; other tasks, the kernel and the reactor
may run between any two. A receive takes the lock for one read and its
accumulation (one step) and looks at `ended` outside of it (other steps). The
only place where a call can be dropped is where it waits.
*/
module Association {
  import opened Wire
  import opened Notifications
  import opened Reassembling
  import opened Sockets
  import opened SendPath

  datatype RecvResult = Received(out: Output) | RecvError(error: SctpError)

  datatype RecvPc =
    | RWait                      // at `readable().await`
    | RGuard(epoch: nat)         // readable, about to read
    | RBlocked(epoch: nat)       // the read said WouldBlock, about to look at `ended`
    | RClearing(epoch: nat)      // `ended` was open, about to clear
    | RHold(out: Output)         // has an output, about to close `ended` if it ends, and return
    | RDone(result: RecvResult)
    | RDropped

  datatype SendResult = Sent(bytes: nat) | SendError(error: SctpError)

  datatype SendPc =
    | SWait                              // at the `select!`
    | SGuard(seen: Bits, epoch: nat)     // ready, about to send
    | SBlocked(seen: Bits, epoch: nat)   // the send said WouldBlock, about to clear
    | SDone(result: SendResult)
    | SDropped

  datatype State = State(
    sock: Sock,
    buf: seq<byte>,                  // `recv_state`
    ended: bool,                     // the semaphore is closed
    recvs: map<nat, RecvPc>,         // one entry per call of `recv_msg`
    sends: map<nat, SendPc>,         // one entry per call of `send_with`
    jobs: map<nat, SendCall>,        // the arguments of each send
    log: seq<Output>,                // outputs in the order of the lock ...
    who: seq<nat>,                   // ... and the call that has each
    taken: seq<Record>,              // records read so far
    wire: seq<(nat, Frame)>)         // messages the kernel accepted, with the call that sent each

  datatype RecvAct = RStart | RWake | RRead | RCheck | RClear | RFinish | RDrop

  /** What the kernel answers a send. */
  datatype Answer = Accept(roomLeft: bool) | Block | Refuse(takesError: bool, errno: int)

  datatype SendAct = SStart(call: SendCall) | SWake | STry(answer: Answer) | SClear | SQuit | SDrop

  datatype Action =
    | World(k: Kernel)
    | Recv(id: nat, r: RecvAct)
    | Send(id: nat, s: SendAct)

  function Fresh(sock: Sock): State {
    State(sock, [], false, map[], map[], map[], [], [], [], [])
  }

  // ---- receiving

  predicate RecvEnabled(s: State, id: nat, a: RecvAct) {
    if a.RStart? then id !in s.recvs else
    id in s.recvs &&
    match a
    case RWake => s.recvs[id].RWait? && s.sock.ready.Reads()
    case RRead => s.recvs[id].RGuard?
    case RCheck => s.recvs[id].RBlocked?
    case RClear => s.recvs[id].RClearing?
    case RFinish => s.recvs[id].RHold?
    case RDrop => s.recvs[id].RWait?
  }

  predicate EndsIt(out: Output) { out.Event? && Ends(out.notification) }

  /** Taking a record off the queue into the accumulator. */
  function TakeStep(s: State, id: nat): State
    requires s.sock.queue != []
  {
    var r := s.sock.queue[0];
    var out := Emit(s.buf, r);
    s.(sock := s.sock.(queue := s.sock.queue[1..]), buf := Keep(s.buf, r), taken := s.taken + [r],
       log := s.log + out, who := if out == [] then s.who else s.who + [id],
       recvs := s.recvs[id := if out == [] then RWait else RHold(out[0])])
  }

  /** Where a read of an empty queue leaves a receive: the socket error, the
      peer's shutdown, or nothing for now. */
  function NothingQueued(s: Sock, epoch: nat): RecvPc {
    if s.soError.Some? then RDone(RecvError(Io(s.soError.value)))
    else if s.peerShut then RDone(RecvError(PeerShutdown))
    else RBlocked(epoch)
  }

  /** One read and its accumulation, under the lock. */
  function ReadStep(s: State, id: nat, epoch: nat): State {
    if s.sock.queue != [] then TakeStep(s, id)
    else s.(sock := TakeError(s.sock), recvs := s.recvs[id := NothingQueued(s.sock, epoch)])
  }

  function RecvStep(s: State, id: nat, a: RecvAct): State
    requires RecvEnabled(s, id, a)
  {
    match a
    case RStart => s.(recvs := s.recvs[id := RWait])
    case RWake => s.(recvs := s.recvs[id := RGuard(s.sock.epoch)])
    case RRead => ReadStep(s, id, s.recvs[id].epoch)
    case RCheck =>
      s.(recvs := s.recvs[id := if s.ended then RDone(RecvError(NotConnected)) else RClearing(s.recvs[id].epoch)])
    case RClear => s.(sock := Clear(s.sock, s.recvs[id].epoch, READ), recvs := s.recvs[id := RWait])
    case RFinish =>
      s.(ended := s.ended || (!s.sock.many && EndsIt(s.recvs[id].out)),
         recvs := s.recvs[id := RDone(Received(s.recvs[id].out))])
    case RDrop => s.(recvs := s.recvs[id := RDropped])
  }

  // ---- sending

  predicate Writable(s: State) { s.sock.ready.Writes() || (!s.sock.many && s.sock.ready.e) }

  predicate SendEnabled(s: State, id: nat, a: SendAct) {
    if a.SStart? then id !in s.sends && (a.call.to.Some? <==> s.sock.many) else
    id in s.sends && id in s.jobs &&
    match a
    case SWake => s.sends[id].SWait? && Writable(s)
    case STry(Accept(_)) => s.sends[id].SGuard? && s.sock.room && !s.sock.over
    case STry(Block) => s.sends[id].SGuard? && !s.sock.room && !s.sock.over
    case STry(Refuse(takesError, errno)) =>
      s.sends[id].SGuard? && errno != EAGAIN && (takesError ==> s.sock.soError.Some?)
    case SClear => s.sends[id].SBlocked?
    case SQuit => s.sends[id].SWait? && !Writable(s) && s.ended
    case SDrop => s.sends[id].SWait?
  }

  function SendStep(s: State, id: nat, a: SendAct): State
    requires SendEnabled(s, id, a)
  {
    match a
    case SStart(call) => s.(sends := s.sends[id := SWait], jobs := s.jobs[id := call])
    case SWake =>
      var seen := Bits(false, s.sock.ready.w, !s.sock.many && s.sock.ready.e, false);
      s.(sends := s.sends[id := SGuard(seen, s.sock.epoch)])
    case STry(Accept(roomLeft)) =>
      s.(sock := s.sock.(room := roomLeft), wire := s.wire + [(id, Handed(s.jobs[id]))],
         sends := s.sends[id := SDone(Sent(|s.jobs[id].data|))])
    case STry(Block) => s.(sends := s.sends[id := SBlocked(s.sends[id].seen, s.sends[id].epoch)])
    case STry(Refuse(takesError, errno)) =>
      s.(sock := if takesError then TakeError(s.sock) else s.sock,
         sends := s.sends[id := SDone(SendError(Io(if takesError then s.sock.soError.value else errno)))])
    case SClear =>
      s.(sock := Clear(s.sock, s.sends[id].epoch, s.sends[id].seen), sends := s.sends[id := SWait])
    case SQuit => s.(sends := s.sends[id := SDone(SendError(NotConnected))])
    case SDrop => s.(sends := s.sends[id := SDropped])
  }

  // ---- runs

  predicate Enabled(s: State, a: Action) {
    match a
    case World(k) => Possible(s.sock, k)
    case Recv(id, r) => RecvEnabled(s, id, r)
    case Send(id, x) => SendEnabled(s, id, x)
  }

  function Next(s: State, a: Action): State
    requires Enabled(s, a)
  {
    match a
    case World(k) => s.(sock := Happen(s.sock, k))
    case Recv(id, r) => RecvStep(s, id, r)
    case Send(id, x) => SendStep(s, id, x)
  }

  predicate IsRun(s: State, run: seq<Action>)
    decreases |run|
  {
    run == [] || (Enabled(s, run[0]) && IsRun(Next(s, run[0]), run[1..]))
  }

  /** The state at the end of a run. */
  function After(s: State, run: seq<Action>): State
    requires IsRun(s, run)
    decreases |run|
  {
    if run == [] then s else After(Next(s, run[0]), run[1..])
  }

  /** A receive that has not returned and was not dropped. */
  predicate Live(p: RecvPc) { !p.RDone? && !p.RDropped? }

  /** At most one receive is in progress. */
  ghost predicate OneReceiver(s: State) {
    forall i, j :: i in s.recvs && j in s.recvs && Live(s.recvs[i]) && Live(s.recvs[j]) ==> i == j
  }

  /** A run in which receives are made one at a time. */
  ghost predicate SerialRun(s: State, run: seq<Action>)
    decreases |run|
  {
    OneReceiver(s) && (run == [] || (Enabled(s, run[0]) && SerialRun(Next(s, run[0]), run[1..])))
  }
}
