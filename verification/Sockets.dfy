/** A kernel SCTP socket and its readiness in the runtime.

What is assumed of the kernel:
- a receive drains the queue before it reports the socket error, and reading
  the socket error takes it;
- a send on an association that is over is refused, never told to wait;
- an association that ends queues the notification that says so, and on a
  socket of its own nothing is queued behind it;
- whatever makes the socket readable, writable, failed or hung up raises an edge;
- a hang-up comes, if at all, with the end of the association, and stays;
- the socket error is never the one that asks a call to wait.

What is assumed of the runtime: cached readiness bits that an edge sets with a
new epoch, and a clear that takes effect only while the epoch is the one the
guard was given. `repoll` tells two reactors apart: one that reports what the
edges said, and one that asks the socket again when it gets to them.

The runtime also keeps bits that no guard clears, for a socket closed in one
direction or both. A hang-up, which closes both, is the bit `h`. It counts a
direction as closed on two more readings: the peer's shutdown together with
readable closes reading, and an error reported alone or together with writable
closes writing. These only add wake-ups, so leaving them out costs the positive
results nothing. The runs that show a call waiting for good are therefore stated
for sockets without a hang-up and without a shutdown of the peer; in them the
error is taken before it is reported, is never raised, or comes with readable.
Where a result is an if-and-only-if, its second half is about these bits alone.
*/
module Sockets {
  import opened Wire
  import opened Notifications
  import opened Reassembling
  import opened Fragmentation

  /** Readable, writable, error, hung up. */
  datatype Bits = Bits(r: bool, w: bool, e: bool, h: bool) {
    function Or(that: Bits): Bits { Bits(r || that.r, w || that.w, e || that.e, h || that.h) }
    function Minus(that: Bits): Bits { Bits(r && !that.r, w && !that.w, e && !that.e, h && !that.h) }
    predicate Any() { r || w || e || h }

    /** What a wait for reading, or for writing, is woken by. */
    predicate Reads() { r || h }
    predicate Writes() { w || h }
  }

  const READ := Bits(true, false, false, false)
  const WRITE := Bits(false, true, false, false)
  const NONE := Bits(false, false, false, false)

  datatype Sock = Sock(
    queue: seq<Record>,     // what a receive finds
    queued: seq<Record>,    // everything that was ever queued
    soError: Option<int>,   // the one-shot socket error
    room: bool,             // the send buffer takes a message
    over: bool,             // the association has ended
    peerShut: bool,         // the peer sends no more
    failed: bool,           // it ended with a socket error
    hup: bool,              // it ended with a hang-up
    takenEarly: bool,       // that error was taken before its edge was reported
    pending: Bits,          // edges the reactor has not seen
    ready: Bits,            // cached readiness
    epoch: nat,
    repoll: bool,
    many: bool)             // one-to-many: `over` is about one association and stays false

  function Poll(s: Sock): Bits {
    Bits(s.queue != [] || s.peerShut, s.room && !s.over, s.soError.Some?, s.hup)
  }

  predicate IsEnding(r: Record) { r.Notice? && Ends(r.notification) }

  datatype Kernel =
    | Arrive(record: Record)
    | MakeRoom
    | PeerShuts
    | End(notification: Notification, error: Option<int>, hup: bool)
    | Nudge(bits: Bits)
    | Deliver

  predicate Possible(s: Sock, k: Kernel) {
    match k
    case Arrive(r) => !s.over && Fits(r) && (IsEnding(r) ==> s.many)
    case MakeRoom => !s.over
    case PeerShuts => true
    case End(n, error, _) => !s.many && !s.over && Ends(n) && error != Some(0) && error != Some(EAGAIN)
    case Nudge(bits) => bits.h ==> s.hup
    case Deliver => true
  }

  /** What a delivery reports. */
  function Reported(s: Sock): Bits {
    if !s.pending.Any() then NONE else if s.repoll then Poll(s) else s.pending
  }

  function Happen(s: Sock, k: Kernel): Sock {
    match k
    case Arrive(r) => s.(queue := s.queue + [r], queued := s.queued + [r], pending := s.pending.Or(READ))
    case MakeRoom => s.(room := true, pending := s.pending.Or(WRITE))
    case PeerShuts => s.(peerShut := true, pending := s.pending.Or(READ))
    case End(n, error, hup) =>
      s.(queue := s.queue + [Notice(n)], queued := s.queued + [Notice(n)], over := true, hup := hup,
         soError := error, failed := error.Some?, pending := s.pending.Or(Bits(true, false, error.Some?, hup)))
    case Nudge(bits) => s.(pending := s.pending.Or(bits))
    case Deliver =>
      var bits := Reported(s);
      s.(ready := s.ready.Or(bits), pending := NONE, epoch := if bits.Any() then s.epoch + 1 else s.epoch)
  }

  /** Reading the socket error takes it, if there is one. */
  function TakeError(s: Sock): Sock {
    s.(soError := None, takenEarly := s.takenEarly || (s.repoll && s.pending.e && s.soError.Some?))
  }

  /** `clear_ready` of a guard given out in epoch `k` for `bits`. */
  function Clear(s: Sock, k: nat, bits: Bits): Sock {
    if k == s.epoch then s.(ready := s.ready.Minus(bits)) else s
  }

  /** On an association that is over, writable is still reported from before. */
  predicate StaleWritable(s: Sock) { s.ready.w || (!s.repoll && s.pending.w) }

  // ---- what every step of the kernel and the reactor keeps

  /** An edge is on its way that will set the error bit. */
  predicate ErrorComing(s: Sock) { s.pending.e && (s.repoll ==> s.soError.Some?) }

  /** Whatever a receive or a send could act on has its bit set, or on the way. */
  predicate Signalled(s: Sock) {
    && (s.queue != [] || s.peerShut ==> s.ready.r || s.pending.r)
    && (s.room && !s.over ==> s.ready.w || s.pending.w)
    && (s.failed ==> s.ready.e || ErrorComing(s) || s.takenEarly)
    && (s.hup <==> s.ready.h || s.pending.h)
  }

  /** The ending notification of an association is there exactly when it is over, once, and last. */
  ghost predicate EndsLast(s: Sock) {
    && (s.many ==> !s.over)
    && (s.soError.Some? ==> s.failed) && (s.failed ==> s.over) && (s.takenEarly ==> s.repoll)
    && (s.hup ==> s.over) && (s.takenEarly ==> s.over && s.soError.None?)
    && (s.over ==> s.queued != [] && IsEnding(s.queued[|s.queued| - 1]))
    && (!s.many ==> forall i :: 0 <= i < |s.queued| && IsEnding(s.queued[i]) ==> s.over && i == |s.queued| - 1)
  }

  ghost predicate Sound(s: Sock) {
    Signalled(s) && EndsLast(s) && AllFit(s.queued)
  }

  /** A receive that found nothing in epoch `k` and has not cleared yet: what
      came since is still on its way. */
  predicate ReadLag(s: Sock, k: nat) {
    k <= s.epoch && (k == s.epoch && (s.queue != [] || s.peerShut) ==> s.pending.r)
  }

  /** The same for a send that found no room and is about to clear `seen`. */
  predicate WriteLag(s: Sock, k: nat, seen: Bits) {
    && !seen.r && !seen.h && k <= s.epoch
    && (k == s.epoch && s.room && !s.over ==> s.pending.w)
    && (k == s.epoch && s.failed && seen.e ==> ErrorComing(s) || s.takenEarly)
  }

  lemma KernelKeepsSound(s: Sock, k: Kernel)
    requires Sound(s) && Possible(s, k)
    ensures Sound(Happen(s, k))
  {
  }

  lemma KernelKeepsLags(s: Sock, k: Kernel, epoch: nat, seen: Bits)
    requires Possible(s, k) && EndsLast(s)
    ensures ReadLag(s, epoch) ==> ReadLag(Happen(s, k), epoch)
    ensures WriteLag(s, epoch, seen) ==> WriteLag(Happen(s, k), epoch, seen)
  {
  }

  lemma ClearKeepsSound(s: Sock, k: nat, seen: Bits)
    requires Sound(s)
    ensures ReadLag(s, k) ==> Sound(Clear(s, k, READ))
    ensures WriteLag(s, k, seen) ==> Sound(Clear(s, k, seen))
  {
  }

  lemma TakeErrorKeepsSound(s: Sock)
    requires Sound(s)
    ensures Sound(TakeError(s))
  {
  }

  /** The kernel and the reactor only add. */
  lemma HappenAdds(s: Sock, k: Kernel)
    ensures s.ready.r ==> Happen(s, k).ready.r
    ensures s.ready.w ==> Happen(s, k).ready.w
    ensures s.ready.e ==> Happen(s, k).ready.e
    ensures s.ready.h ==> Happen(s, k).ready.h
  {
    match k {
      case Arrive(_) => assert Happen(s, k).ready == s.ready;
      case MakeRoom => assert Happen(s, k).ready == s.ready;
      case PeerShuts => assert Happen(s, k).ready == s.ready;
      case End(_, _, _) => assert Happen(s, k).ready == s.ready;
      case Nudge(_) => assert Happen(s, k).ready == s.ready;
      case Deliver => assert Happen(s, k).ready == s.ready.Or(Reported(s));
    }
  }

  lemma HappenQueues(s: Sock, k: Kernel)
    ensures s.queue <= Happen(s, k).queue
  {
    match k {
      case Arrive(r) => Longer(s.queue, r);
      case End(n, _, _) => Longer(s.queue, Notice(n));
      case MakeRoom =>
      case PeerShuts =>
      case Nudge(_) =>
      case Deliver =>
    }
  }

  lemma Longer(q: seq<Record>, r: Record)
    ensures q <= q + [r]
  {
  }

  /** Registering a socket: the reactor polls it once, whatever it holds by then. */
  function Register(s: Sock): Sock {
    s.(pending := Poll(s), ready := NONE)
  }
}
