/** Waiting for the outcome of a connect: `established`, `outcome`, `probe` and
`check_so_error` of `src/association.rs`, as steps.

The socket error is read in one step and the socket polled in the next (what a
run asked of the kernel, and when, is `Asks`); the kernel and the reactor may
run between any two. An association that comes up makes the socket writable
(`MakeRoom`); one that does not ends (`End`).
*/
module Connecting {
  import opened Wire
  import opened Notifications
  import opened Reassembling
  import opened Fragmentation
  import opened Sockets
  import Association
  import AssociationProofs
  import AssociationTheorems
  import Wakeups

  /** Where the call stands. `via` is the epoch of the writable guard, or None
      if it was woken readable. */
  datatype Pc =
    | Waiting
    | Checking(via: Option<nat>)
    | Probing(via: Option<nat>)
    | Clearing(epoch: nat)
    | Established
    | Failed(error: SctpError)
    | Dropped

  datatype State = State(
    sock: Sock,
    pc: Pc,
    both: bool,          // readable is still waited for
    early: bool)         // woken readable with nothing decided

  datatype Action = World(k: Kernel) | WakeWritable | WakeReadable | Check | Probe | ClearReady | Drop

  predicate Enabled(c: State, a: Action) {
    match a
    case World(k) => Possible(c.sock, k)
    case WakeWritable => c.pc.Waiting? && c.sock.ready.Writes()
    case WakeReadable => c.pc.Waiting? && !c.sock.ready.Writes() && c.both && c.sock.ready.Reads()
    case Check => c.pc.Checking?
    case Probe => c.pc.Probing?
    case ClearReady => c.pc.Clearing?
    case Drop => c.pc.Waiting?
  }

  function ProbeStep(c: State): State
    requires c.pc.Probing?
  {
    var poll := Poll(c.sock);
    if poll.w then c.(pc := Established)
    else if poll.e || poll.h then c.(pc := Pc.Failed(NotConnected))
    else
      c.(pc := if c.pc.via.Some? then Clearing(c.pc.via.value) else Waiting,
         early := c.early || (c.pc.via.None? && !c.sock.over))
  }

  function Next(c: State, a: Action): State
    requires Enabled(c, a)
  {
    match a
    case World(k) => c.(sock := Happen(c.sock, k))
    case WakeWritable => c.(pc := Checking(Some(c.sock.epoch)))
    case WakeReadable => c.(pc := Checking(None), both := false)
    case Check =>
      if c.sock.soError.Some? then
        c.(sock := TakeError(c.sock), pc := Pc.Failed(Io(c.sock.soError.value)))
      else c.(pc := Probing(c.pc.via))
    case Probe => ProbeStep(c)
    case ClearReady => c.(sock := Clear(c.sock, c.pc.epoch, WRITE), pc := Waiting)
    case Drop => c.(pc := Dropped)
  }

  predicate IsRun(c: State, run: seq<Action>)
    decreases |run|
  {
    run == [] || (Enabled(c, run[0]) && IsRun(Next(c, run[0]), run[1..]))
  }

  function After(c: State, run: seq<Action>): State
    requires IsRun(c, run)
    decreases |run|
  {
    if run == [] then c else After(Next(c, run[0]), run[1..])
  }

  /** A connect just begun on a registered socket: nothing decided, nothing readable. */
  ghost predicate Begins(c: State) {
    && Sound(c.sock) && c.sock.queued == [] && c.sock.queue == [] && c.sock.soError.None?
    && !c.sock.room && !c.sock.over && !c.sock.peerShut && !c.sock.failed && !c.sock.takenEarly && !c.sock.hup
    && !c.sock.ready.r && !c.sock.pending.r && !c.sock.many
    && c.pc.Waiting? && c.both && !c.early
  }

  /** The outcome is decided: the association came up, or it ended. */
  predicate Decided(s: Sock) { s.room || s.over }

  // ---- what every step keeps

  /** What a run asks of the kernel: the socket error, or to poll the socket, as it then is. */
  datatype Asked = CheckAt(sock: Sock) | ProbeAt(sock: Sock)

  function AsksNow(c: State, a: Action): seq<Asked> {
    match a
    case Check => [CheckAt(c.sock)]
    case Probe => [ProbeAt(c.sock)]
    case _ => []
  }

  function Asks(c: State, run: seq<Action>): seq<Asked>
    requires IsRun(c, run)
    decreases |run|
  {
    if run == [] then [] else AsksNow(c, run[0]) + Asks(Next(c, run[0]), run[1..])
  }

  /** What a poll of the socket reports to a call that looks for writable. */
  predicate ShowsWritable(s: Sock) { s.room && !s.over }
  predicate ShowsFailed(s: Sock) { !ShowsWritable(s) && (s.soError.Some? || s.hup) }
  predicate ShowsNothing(s: Sock) { !ShowsWritable(s) && !ShowsFailed(s) }

  /** The last question was for the socket error. */
  predicate LastChecked(asks: seq<Asked>, error: Option<int>) {
    |asks| >= 1 && asks[|asks| - 1].CheckAt? && asks[|asks| - 1].sock.soError == error
  }

  /** The last two found no socket error and then polled the socket. */
  predicate LastProbed(asks: seq<Asked>) {
    |asks| >= 2 && asks[|asks| - 1].ProbeAt? && LastChecked(asks[..|asks| - 1], None)
  }

  /** Where the call stands is what the answers to its last questions say. */
  predicate Accounted(p: Pc, asks: seq<Asked>) {
    match p
    case Probing(_) => LastChecked(asks, None)
    case Established => LastProbed(asks) && ShowsWritable(asks[|asks| - 1].sock)
    case Failed(Io(v)) => LastChecked(asks, Some(v))
    case Failed(NotConnected) => LastProbed(asks) && ShowsFailed(asks[|asks| - 1].sock)
    case Failed(_) => false
    case Clearing(_) => LastProbed(asks) && ShowsNothing(asks[|asks| - 1].sock)
    case _ => asks == [] || (LastProbed(asks) && ShowsNothing(asks[|asks| - 1].sock))
  }

  predicate Lag(s: Sock, p: Pc) {
    match p
    case Checking(via) => via.Some? ==> via.value <= s.epoch
    case Probing(via) => via.Some? ==> via.value <= s.epoch
    case Clearing(k) => WriteLag(s, k, WRITE)
    case _ => true
  }

  /** The socket is sound, no record was taken, and the socket error was read only to fail. */
  ghost predicate Intact(c: State) {
    && Sound(c.sock) && c.sock.queue == c.sock.queued && Lag(c.sock, c.pc)
    && c.sock.soError != Some(0)
    && (!c.pc.Failed? ==> !c.sock.takenEarly && (c.sock.failed ==> c.sock.soError.Some?))
    && (c.pc.Established? ==> c.sock.room) && (c.pc.Failed? ==> c.sock.over)
    && (c.pc.Failed? && c.pc.error.Io? ==> c.pc.error.errno != 0 && c.sock.soError.None?)
  }

  /** Once readable is no longer waited for, it was woken too early, or the
      association ended with neither a socket error nor a hang-up; until the call woken
      by it has looked. */
  predicate Blinded(c: State) {
    c.both || c.early || (c.sock.over && !c.sock.failed && !c.sock.hup)
    || c.pc == Checking(None) || c.pc == Probing(None)
    || c.pc.Established? || c.pc.Failed?
  }

  ghost predicate Inv(c: State) { Intact(c) && Blinded(c) }

  lemma WorldKeepsIntact(c: State, k: Kernel)
    requires Intact(c) && Possible(c.sock, k)
    ensures Intact(Next(c, World(k)))
  {
    KernelKeepsSound(c.sock, k);
    KernelKeepsLags(c.sock, k, if c.pc.Clearing? then c.pc.epoch else 0, WRITE);
    WorldKeepsError(c.sock, k);
  }

  lemma WorldKeepsError(s: Sock, k: Kernel)
    requires Possible(s, k) && EndsLast(s) && s.queue == s.queued
    ensures var t := Happen(s, k);
            && t.queue == t.queued && s.epoch <= t.epoch && t.takenEarly == s.takenEarly
            && (s.over ==> t.over && t.soError == s.soError && t.failed == s.failed)
            && (s.soError != Some(0) ==> t.soError != Some(0))
            && ((s.failed ==> s.soError.Some?) ==> (t.failed ==> t.soError.Some?))
            && (s.room ==> t.room)
  {
    match k {
      case Arrive(_) =>
      case MakeRoom =>
      case PeerShuts =>
      case End(_, _, _) =>
      case Nudge(_) =>
      case Deliver =>
    }
  }

  lemma CallKeepsIntact(c: State, a: Action)
    requires Intact(c) && Enabled(c, a) && !a.World?
    ensures Intact(Next(c, a))
  {
  }

  lemma StepKeepsAccounted(c: State, a: Action, asks: seq<Asked>)
    requires Accounted(c.pc, asks) && Enabled(c, a)
    ensures Accounted(Next(c, a).pc, asks + AsksNow(c, a))
  {
    match a {
      case Check => CheckAccounted(c, asks);
      case Probe => ProbeAccounted(c, asks);
      case _ =>
        assert asks + [] == asks;
    }
  }

  lemma CheckAccounted(c: State, asks: seq<Asked>)
    requires c.pc.Checking?
    ensures Accounted(Next(c, Check).pc, asks + [CheckAt(c.sock)])
  {
  }

  lemma ProbeAccounted(c: State, asks: seq<Asked>)
    requires c.pc.Probing? && LastChecked(asks, None)
    ensures Accounted(Next(c, Probe).pc, asks + [ProbeAt(c.sock)])
  {
    var now := asks + [ProbeAt(c.sock)];
    assert now[..|now| - 1] == asks;
  }

  lemma {:induction false} RunKeepsAccounted(c: State, run: seq<Action>, asks: seq<Asked>)
    requires Accounted(c.pc, asks) && IsRun(c, run)
    ensures Accounted(After(c, run).pc, asks + Asks(c, run))
    decreases |run|
  {
    if run == [] {
      assert asks + [] == asks;
    } else {
      StepKeepsAccounted(c, run[0], asks);
      RunKeepsAccounted(Next(c, run[0]), run[1..], asks + AsksNow(c, run[0]));
      Regroup(asks, AsksNow(c, run[0]), Asks(Next(c, run[0]), run[1..]));
    }
  }

  lemma StepKeepsBlinded(c: State, a: Action)
    requires Blinded(c) && Intact(c) && Enabled(c, a)
    ensures Blinded(Next(c, a))
  {
  }

  lemma StepKeepsAll(c: State, a: Action)
    requires Inv(c) && Enabled(c, a)
    ensures Inv(Next(c, a))
  {
    StepKeepsBlinded(c, a);
    if a.World? {
      WorldKeepsIntact(c, a.k);
    } else {
      CallKeepsIntact(c, a);
    }
  }

  lemma {:induction false} RunKeepsAll(c: State, run: seq<Action>)
    requires Inv(c) && IsRun(c, run)
    ensures Inv(After(c, run))
    decreases |run|
  {
    if run != [] {
      StepKeepsAll(c, run[0]);
      RunKeepsAll(Next(c, run[0]), run[1..]);
    }
  }

  // ---- results

  /** In every run, by what the socket held when it was asked: the call has
      failed with a socket error if and only if it asked for it last and found
      that very one; it has succeeded if and only if it last found no error and
      then, polling, the socket writable; and it has failed with NotConnected if
      and only if it found no error and then an error or a hang-up. What it
      reports is so: a success has a socket that came up, a failure one whose
      association is over, and an error that was reported was taken. */
  lemma OutcomeIsSound(c: State, run: seq<Action>, v: int)
    requires Begins(c) && IsRun(c, run)
    ensures var t, asks := After(c, run), Asks(c, run);
            && (t.pc == Pc.Failed(Io(v)) <==> LastChecked(asks, Some(v)))
            && (t.pc.Established? <==> LastProbed(asks) && ShowsWritable(asks[|asks| - 1].sock))
            && (t.pc == Pc.Failed(NotConnected) <==> LastProbed(asks) && ShowsFailed(asks[|asks| - 1].sock))
            && (t.pc.Failed? ==> t.pc.error.Io? || t.pc.error.NotConnected?)
            && (t.pc.Established? ==> t.sock.room)
            && (t.pc.Failed? ==> t.sock.over)
            && (t.pc == Pc.Failed(Io(v)) ==> v != 0 && t.sock.soError.None?)
  {
    RunKeepsAll(c, run);
    RunKeepsAccounted(c, run, []);
    assert [] + Asks(c, run) == Asks(c, run);
  }

  /** What wakes the call: writable or hung up, or readable as long as it is waited for. */
  predicate Wakes(c: State) {
    var soon := Happen(c.sock, Deliver).ready;
    soon.Writes() || (c.both && soon.Reads())
  }

  /** A call that waits can go on, once the reactor has got to its edges, exactly if it is woken. */
  lemma WakesMeansEnabled(c: State)
    requires c.pc.Waiting?
    ensures var t := Next(c, World(Deliver));
            Wakes(c) <==> Enabled(t, WakeWritable) || Enabled(t, WakeReadable)
  {
  }

  /** In every run: a call that waits with the outcome decided is woken, unless
      the association ended without a hang-up and readable is no longer waited
      for, because the call was woken readable too early or the end left no
      socket error. */
  lemma WaitsOnlyUndecided(c: State, run: seq<Action>)
    requires Begins(c) && IsRun(c, run)
    ensures var t := After(c, run);
            t.pc.Waiting? && Decided(t.sock) ==>
              Wakes(t) || (t.sock.over && !t.sock.hup && !t.both && (t.early || !t.sock.failed))
  {
    RunKeepsAll(c, run);
    var t := After(c, run);
    if t.pc.Waiting? && t.sock.over {
      assert t.sock.queue != [];
    }
  }

  /** Before the outcome nothing makes the socket readable. */
  predicate Calm(c: State, a: Action) {
    a.World? && !Decided(c.sock) ==>
      !a.k.Arrive? && !a.k.PeerShuts? && !(a.k.Nudge? && a.k.bits.r)
  }

  predicate CalmRun(c: State, run: seq<Action>)
    requires IsRun(c, run)
    decreases |run|
  {
    run == [] || (Calm(c, run[0]) && CalmRun(Next(c, run[0]), run[1..]))
  }

  predicate NothingEarly(c: State) {
    && !c.early
    && (!Decided(c.sock) ==> !c.sock.ready.r && !c.sock.pending.r && c.sock.queue == [] && !c.sock.peerShut)
    && (c.pc == Checking(None) || c.pc == Probing(None) ==> Decided(c.sock))
  }

  lemma StepKeepsNothingEarly(c: State, a: Action)
    requires NothingEarly(c) && Enabled(c, a) && Calm(c, a)
    ensures NothingEarly(Next(c, a))
  {
    if a.World? {
      WorldKeepsNothingEarly(c, a.k);
    }
  }

  lemma WorldKeepsNothingEarly(c: State, k: Kernel)
    requires NothingEarly(c) && Possible(c.sock, k) && Calm(c, World(k))
    ensures NothingEarly(c.(sock := Happen(c.sock, k)))
  {
  }

  lemma {:induction false} CalmKeepsNothingEarly(c: State, run: seq<Action>)
    requires NothingEarly(c) && IsRun(c, run) && CalmRun(c, run)
    ensures NothingEarly(After(c, run))
    decreases |run|
  {
    if run != [] {
      StepKeepsNothingEarly(c, run[0]);
      CalmKeepsNothingEarly(Next(c, run[0]), run[1..]);
    }
  }

  /** If nothing is readable before the outcome, and a refusal comes with a
      socket error or a hang-up, the call never waits with the outcome decided. */
  lemma NeverStranded(c: State, run: seq<Action>)
    requires Begins(c) && IsRun(c, run) && CalmRun(c, run)
    ensures var t := After(c, run);
            t.pc.Waiting? && Decided(t.sock) && (t.sock.over ==> t.sock.failed || t.sock.hup) ==> Wakes(t)
  {
    WaitsOnlyUndecided(c, run);
    CalmKeepsNothingEarly(c, run);
  }

  /** The wait prefers writable: readable is used up only when it is not. */
  lemma PrefersWritable(c: State, a: Action)
    requires Enabled(c, a) && c.both && !Next(c, a).both
    ensures c.pc.Waiting? && c.sock.ready.Reads() && !c.sock.ready.Writes()
  {
  }

  // ---- exactly when the outcome goes unnoticed

  predicate ConnectWoken(c: State) { c.pc.Waiting? && Decided(c.sock) ==> Wakes(c) }

  /** The steps by which a call comes to wait for nothing, each without a
      hang-up and with no stale report of writable: the association ends when
      readable is no longer waited for; a call woken readable finds it over with
      no error left; or a call woken writable, and readable before, clears after
      the end. */
  predicate Misses(c: State, a: Action) {
    match a
    case World(End(_, _, hup)) => c.pc.Waiting? && !c.both && !hup && !StaleWritable(c.sock)
    case Probe =>
      && c.pc == Probing(None) && !c.both && c.sock.over && !c.sock.hup && c.sock.soError.None?
      && !StaleWritable(c.sock)
    case ClearReady =>
      && c.pc.Clearing? && !c.both && c.sock.over && !c.sock.hup
      && !StaleWritable(Clear(c.sock, c.pc.epoch, WRITE))
    case _ => false
  }

  predicate WokenThroughout(c: State, run: seq<Action>)
    requires IsRun(c, run)
    decreases |run|
  {
    ConnectWoken(c) && (run == [] || WokenThroughout(Next(c, run[0]), run[1..]))
  }

  predicate Missed(c: State, run: seq<Action>)
    requires IsRun(c, run)
    decreases |run|
  {
    run != [] && (Misses(c, run[0]) || Missed(Next(c, run[0]), run[1..]))
  }

  predicate Stuck(c: State) {
    c.pc.Waiting? && c.sock.over && !c.sock.hup && !c.both && !StaleWritable(c.sock)
  }

  lemma WokenUnlessStuck(c: State)
    requires Intact(c)
    ensures ConnectWoken(c) <==> !Stuck(c)
  {
  }

  lemma StepMisses(c: State, a: Action)
    requires Inv(c) && Enabled(c, a)
    ensures Misses(c, a) ==> !ConnectWoken(Next(c, a))
    ensures ConnectWoken(c) && !Misses(c, a) ==> ConnectWoken(Next(c, a))
  {
    StepKeepsAll(c, a);
    WokenUnlessStuck(c);
    WokenUnlessStuck(Next(c, a));
    StepSticks(c, a);
  }

  lemma StepSticks(c: State, a: Action)
    requires Intact(c) && Enabled(c, a)
    ensures Misses(c, a) ==> Stuck(Next(c, a))
    ensures Stuck(Next(c, a)) ==> Stuck(c) || Misses(c, a)
  {
    if a.World? {
      WorldSticks(c, a.k);
    }
  }

  lemma WorldSticks(c: State, k: Kernel)
    requires Possible(c.sock, k)
    ensures Misses(c, World(k)) ==> Stuck(c.(sock := Happen(c.sock, k)))
    ensures Stuck(c.(sock := Happen(c.sock, k))) ==> Stuck(c) || Misses(c, World(k))
  {
  }

  lemma {:induction false} WokenExactly(c: State, run: seq<Action>)
    requires Inv(c) && IsRun(c, run)
    ensures WokenThroughout(c, run) <==> ConnectWoken(c) && !Missed(c, run)
    decreases |run|
  {
    if run != [] {
      StepKeepsAll(c, run[0]);
      StepMisses(c, run[0]);
      WokenExactly(Next(c, run[0]), run[1..]);
    }
  }

  /** In a run of a connect the call is woken in every state in which it waits
      with the outcome decided, if and only if no step of the run is a miss. */
  lemma WokenUnlessMissed(c: State, run: seq<Action>)
    requires Begins(c) && IsRun(c, run)
    ensures WokenThroughout(c, run) <==> !Missed(c, run)
  {
    WokenExactly(c, run);
  }

  // ---- readiness and the queue are left to the association

  lemma WorldKeepsReadiness(c: State, k: Kernel)
    requires Possible(c.sock, k)
    ensures c.sock.ready.r ==> Next(c, World(k)).sock.ready.r
    ensures c.sock.ready.w ==> Next(c, World(k)).sock.ready.w
    ensures c.sock.queue <= Next(c, World(k)).sock.queue
  {
    HappenAdds(c.sock, k);
    HappenQueues(c.sock, k);
  }

  lemma CallKeepsReadiness(c: State, a: Action)
    requires Enabled(c, a) && !a.World?
    ensures Next(c, a).sock.ready.r == c.sock.ready.r
    ensures a.ClearReady? || Next(c, a).sock.ready.w == c.sock.ready.w
    ensures Next(c, a).sock.queue == c.sock.queue
  {
    match a {
      case WakeWritable =>
      case WakeReadable =>
      case Check =>
      case Probe => assert ProbeStep(c).sock == c.sock;
      case ClearReady =>
      case Drop =>
    }
  }

  /** In every run the call clears the writable bit only after a poll that saw
      nothing, and if the socket has become writable since, an edge that sets
      the bit again is on the way. */
  lemma WritableKept(c: State, run: seq<Action>, a: Action)
    requires Begins(c) && IsRun(c, run) && Enabled(After(c, run), a)
    requires After(c, run).sock.ready.w && !Next(After(c, run), a).sock.ready.w
    ensures var t := After(c, run);
            var asks := Asks(c, run);
            && a.ClearReady? && LastProbed(asks) && ShowsNothing(asks[|asks| - 1].sock)
            && (t.sock.room && !t.sock.over ==> Happen(Next(t, a).sock, Deliver).ready.w)
  {
    RunKeepsAll(c, run);
    RunKeepsAccounted(c, run, []);
    assert [] + Asks(c, run) == Asks(c, run);
    ClearsWritable(After(c, run), a);
  }

  lemma ClearsWritable(t: State, a: Action)
    requires Intact(t) && Enabled(t, a) && t.sock.ready.w && !Next(t, a).sock.ready.w
    ensures a.ClearReady? && (t.sock.room && !t.sock.over ==> Happen(Next(t, a).sock, Deliver).ready.w)
  {
    if a.World? {
      WorldKeepsReadiness(t, a.k);
    } else {
      CallKeepsReadiness(t, a);
    }
  }

  lemma StepKeepsReadable(c: State, a: Action)
    requires Enabled(c, a)
    ensures c.sock.ready.r ==> Next(c, a).sock.ready.r
    ensures c.sock.queue <= Next(c, a).sock.queue
  {
    if a.World? {
      WorldKeepsReadiness(c, a.k);
    } else {
      CallKeepsReadiness(c, a);
    }
  }

  /** Over any run it never clears the readable bit and takes no record. */
  lemma {:induction false} ReadableKept(c: State, run: seq<Action>)
    requires IsRun(c, run)
    ensures c.sock.ready.r ==> After(c, run).sock.ready.r
    ensures c.sock.queue <= After(c, run).sock.queue
    decreases |run|
  {
    if run != [] {
      StepKeepsReadable(c, run[0]);
      ReadableKept(Next(c, run[0]), run[1..]);
    }
  }

  /** What a successful connect hands over is a socket on which nothing was
      read and no event lost: every result about associations applies to it. */
  lemma HandsOverIntact(c: State, run: seq<Action>)
    requires Begins(c) && IsRun(c, run) && After(c, run).pc.Established?
    ensures AssociationProofs.Untouched(After(c, run).sock)
    ensures AssociationProofs.Inv(Association.Fresh(After(c, run).sock))
  {
    RunKeepsAll(c, run);
    AssociationProofs.FreshKeepsAll(After(c, run).sock);
  }

  /** From the connect through any later run: what is queued wakes receives,
      room wakes sends, and what was queued, before the connect returned or
      after, is handed out exactly. */
  lemma ConnectThenUse(c: State, connect: seq<Action>, use: seq<Association.Action>)
    requires Begins(c) && IsRun(c, connect) && After(c, connect).pc.Established?
    requires Association.IsRun(Association.Fresh(After(c, connect).sock), use)
    ensures var t := Association.After(Association.Fresh(After(c, connect).sock), use);
            && (t.sock.queue != [] ==> Wakeups.SoonReady(t).r)
            && (t.sock.room && !t.sock.over ==> Wakeups.SoonReady(t).w)
            && Delivered([], t.sock.queued) == t.log + Delivered(t.buf, t.sock.queue)
  {
    HandsOverIntact(c, connect);
    var sock := After(c, connect).sock;
    Wakeups.QueuedWakesReceives(sock, use);
    Wakeups.NoStrandedSend(sock, use);
    AssociationTheorems.Conservation(sock, use);
  }

  // ---- where the results end

  lemma {:induction false} Continue(c: State, run: seq<Action>, a: Action)
    requires IsRun(c, run) && Enabled(After(c, run), a)
    ensures IsRun(c, run + [a]) && After(c, run + [a]) == Next(After(c, run), a)
    decreases |run|
  {
    if run == [] {
      assert [a][1..] == [] && run + [a] == [a];
    } else {
      Continue(Next(c, run[0]), run[1..], a);
      assert (run + [a])[0] == run[0] && (run + [a])[1..] == run[1..] + [a];
    }
  }

  const ECONNREFUSED := 111

  function Start(repoll: bool): State {
    State(Sock([], [], None, false, false, false, false, false, false, NONE, NONE, 0, repoll, false),
          Waiting, true, false)
  }

  /** Readable once before the outcome, and the refusal that follows is not noticed. */
  lemma EarlyReadableStrands(repoll: bool, r: Record, n: Notification) returns (run: seq<Action>)
    requires Fits(r) && !IsEnding(r) && Ends(n)
    ensures Begins(Start(repoll)) && IsRun(Start(repoll), run)
    ensures var t := After(Start(repoll), run);
            t.pc.Waiting? && t.sock.over && t.sock.failed && !Wakes(t) && t.early
            && !t.sock.hup && !t.sock.peerShut && Reported(t.sock).e && Reported(t.sock).r && !Reported(t.sock).w
  {
    var c := Start(repoll);
    run := [];
    Continue(c, run, World(Arrive(r)));
    run := run + [World(Arrive(r))];
    Continue(c, run, World(Deliver));
    run := run + [World(Deliver)];
    Continue(c, run, WakeReadable);
    run := run + [WakeReadable];
    Continue(c, run, Check);
    run := run + [Check];
    Continue(c, run, Probe);
    run := run + [Probe];
    Continue(c, run, World(End(n, Some(ECONNREFUSED), false)));
    run := run + [World(End(n, Some(ECONNREFUSED), false))];
  }

  /** An end that leaves neither a socket error nor a hang-up, which is not what
      the source expects of a refusal, is not noticed either. */
  lemma EndWithoutErrorStrands(repoll: bool, n: Notification) returns (run: seq<Action>)
    requires Ends(n)
    ensures Begins(Start(repoll)) && IsRun(Start(repoll), run)
    ensures var t := After(Start(repoll), run);
            && t.pc.Waiting? && t.sock.over && !Wakes(t) && !t.early
            && t.sock.soError.None? && !t.sock.hup && !t.sock.peerShut
  {
    var c := Start(repoll);
    run := [];
    Continue(c, run, World(End(n, None, false)));
    run := run + [World(End(n, None, false))];
    Continue(c, run, World(Deliver));
    run := run + [World(Deliver)];
    Continue(c, run, WakeReadable);
    run := run + [WakeReadable];
    Continue(c, run, Check);
    run := run + [Check];
    Continue(c, run, Probe);
    run := run + [Probe];
  }
}
