/** Runs that show where the wake-up results of an association end. */
module AssociationLimits {
  import opened Wire
  import opened Notifications
  import opened Reassembling
  import opened Fragmentation
  import opened Sockets
  import opened SendPath
  import opened Association
  import opened AssociationProofs
  import opened Wakeups

  /** The association is lost. */
  const LOST := AssocChange(CommLost, 0, 1, 1, 1)
  const ECONNRESET := 104

  /** A connected socket with room, just registered. */
  function Connected(repoll: bool): Sock {
    Register(Sock([], [], None, true, false, false, false, false, false, NONE, NONE, 0, repoll, false))
  }

  lemma {:induction false} Append(s: State, x: seq<Action>, y: seq<Action>)
    requires IsRun(s, x) && IsRun(After(s, x), y)
    ensures IsRun(s, x + y) && After(s, x + y) == After(After(s, x), y)
    decreases |x|
  {
    if x == [] {
      assert x + y == y;
    } else {
      Append(Next(s, x[0]), x[1..], y);
      assert (x + y)[0] == x[0] && (x + y)[1..] == x[1..] + y;
    }
  }

  /** A receive waits on an association that has ended, with no hang-up and no
      shutdown of the peer, no bit set and no edge on the way. */
  predicate Stranded(s: State, id: nat) {
    && s.ended && id in s.recvs && s.recvs[id].RWait?
    && s.sock.over && s.sock.queue == [] && !s.sock.hup && !s.sock.peerShut
    && !s.sock.ready.Reads() && !s.sock.pending.Any()
  }

  /** Only the notification that the association is over is left to read, and
      two receives are about to read. */
  predicate TwoAtTheEnd(s: State, i: nat, j: nat) {
    && i != j && i in s.recvs && j in s.recvs
    && s.recvs[i] == RGuard(s.sock.epoch) && s.recvs[j] == RGuard(s.sock.epoch)
    && |s.sock.queue| == 1 && IsEnding(s.sock.queue[0]) && !s.ended && !s.sock.many
    && s.sock.over && s.sock.soError.None? && !s.sock.peerShut && !s.sock.hup
    && !s.sock.ready.h && !s.sock.pending.Any()
  }

  /** From every such state: one reads the notification; before it closes
      `ended`, the other finds nothing queued, sees `ended` open and clears (the
      first of the two steps that spoil). It then waits for good. */
  lemma TwoAtTheEndStrand(s: State, i: nat, j: nat) returns (run: seq<Action>)
    requires TwoAtTheEnd(s, i, j)
    ensures IsRun(s, run) && Stranded(After(s, run), j)
    ensures After(s, run).sends == s.sends && After(s, run).sock.failed == s.sock.failed
  {
    run := [];
    Continue(s, run, Recv(i, RRead));
    run := run + [Recv(i, RRead)];
    Continue(s, run, Recv(j, RRead));
    run := run + [Recv(j, RRead)];
    Continue(s, run, Recv(j, RCheck));
    run := run + [Recv(j, RCheck)];
    Continue(s, run, Recv(j, RClear));
    run := run + [Recv(j, RClear)];
    Continue(s, run, Recv(i, RFinish));
    run := run + [Recv(i, RFinish)];
  }

  /** Such states are reached, on either kind of reactor, as the source
      describes it: the error of the end is handed to a concurrent send. */
  lemma TwoReceivesCanStrand(repoll: bool, n: Notification, call: SendCall) returns (run: seq<Action>)
    requires Ends(n) && call.to.None?
    ensures Untouched(Connected(repoll)) && IsRun(Fresh(Connected(repoll)), run)
    ensures var t := After(Fresh(Connected(repoll)), run);
            && Stranded(t, 2) && Spoiled(Fresh(Connected(repoll)), run)
            && t.sock.failed && 3 in t.sends && t.sends[3] == SDone(SendError(Io(ECONNRESET)))
  {
    var s := Fresh(Connected(repoll));
    run := Prepare(s, repoll, n, call);
    var t := After(s, run);
    var more := TwoAtTheEndStrand(t, 1, 2);
    Append(s, run, more);
    run := run + more;
    StrandedWasSpoiled(Connected(repoll), run, 2);
  }

  /** Whoever is stranded is so because of a step that spoiled. */
  lemma StrandedWasSpoiled(sock: Sock, run: seq<Action>, id: nat)
    requires Untouched(sock) && IsRun(Fresh(sock), run) && Stranded(After(Fresh(sock), run), id)
    ensures Spoiled(Fresh(sock), run)
  {
    WokenUnlessSpoiled(sock, run);
  }

  /** Both receives woken by the edge of the end, with only its notification
      queued and the error taken by a send that was woken before. */
  lemma Prepare(s: State, repoll: bool, n: Notification, call: SendCall) returns (run: seq<Action>)
    requires s == Fresh(Connected(repoll)) && Ends(n) && call.to.None?
    ensures IsRun(s, run)
    ensures var t := After(s, run);
            && TwoAtTheEnd(t, 1, 2) && t.sock.failed
            && 3 in t.sends && t.sends[3] == SDone(SendError(Io(ECONNRESET)))
  {
    run := SendTakesError(s, repoll, n, call);
    Continue(s, run, Recv(1, RStart));
    run := run + [Recv(1, RStart)];
    Continue(s, run, Recv(2, RStart));
    run := run + [Recv(2, RStart)];
    Continue(s, run, Recv(1, RWake));
    run := run + [Recv(1, RWake)];
    Continue(s, run, Recv(2, RWake));
    run := run + [Recv(2, RWake)];
  }

  lemma SendTakesError(s: State, repoll: bool, n: Notification, call: SendCall) returns (run: seq<Action>)
    requires s == Fresh(Connected(repoll)) && Ends(n) && call.to.None?
    ensures IsRun(s, run)
    ensures var t := After(s, run);
            && t.recvs == map[] && t.sends == map[3 := SDone(SendError(Io(ECONNRESET)))] && !t.ended
            && t.sock.queue == [Notice(n)] && t.sock.over && t.sock.failed && t.sock.soError.None? && !t.sock.many
            && !t.sock.peerShut && !t.sock.hup && t.sock.ready.r && !t.sock.ready.h && !t.sock.pending.Any()
  {
    run := WakeOne(s, repoll, call);
    Continue(s, run, World(End(n, Some(ECONNRESET), false)));
    run := run + [World(End(n, Some(ECONNRESET), false))];
    Continue(s, run, Send(3, STry(Refuse(true, 0))));
    run := run + [Send(3, STry(Refuse(true, 0)))];
    Continue(s, run, World(Deliver));
    run := run + [World(Deliver)];
  }

  lemma WakeOne(s: State, repoll: bool, call: SendCall) returns (run: seq<Action>)
    requires s == Fresh(Connected(repoll)) && call.to.None?
    ensures IsRun(s, run)
    ensures var t := After(s, run);
            && t.recvs == map[] && t.sends == map[3 := SGuard(WRITE, 1)] && t.jobs == map[3 := call] && !t.ended
            && t.sock == Connected(repoll).(pending := NONE, ready := WRITE, epoch := 1)
  {
    run := [];
    Continue(s, run, Send(3, SStart(call)));
    run := run + [Send(3, SStart(call))];
    Continue(s, run, World(Deliver));
    run := run + [World(Deliver)];
    Continue(s, run, Send(3, SWake));
    run := run + [Send(3, SWake)];
  }

  /** The end came after a receive had found nothing and seen `ended` open; its
      notification is queued, the reactor will ask the socket again, and another
      receive, woken before, is about to read. */
  predicate StaleGuard(s: State, i: nat, j: nat) {
    && i != j && i in s.recvs && j in s.recvs
    && s.recvs[i].RGuard? && s.recvs[j] == RClearing(s.sock.epoch)
    && |s.sock.queue| == 1 && IsEnding(s.sock.queue[0]) && !s.ended && !s.sock.many && s.sock.repoll
    && s.sock.over && s.sock.soError.None? && !s.sock.peerShut && !s.sock.hup && !s.sock.ready.h
  }

  /** From every such state: the one clears a bit that the edge of the end would
      set again; the other reads the notification without it (the second of the
      two steps that spoil); and the reactor finds nothing left to report. No
      clear comes between that read and the close of `ended`. */
  lemma StaleGuardStrands(s: State, i: nat, j: nat) returns (run: seq<Action>)
    requires StaleGuard(s, i, j)
    ensures IsRun(s, run) && Stranded(After(s, run), j)
  {
    run := [];
    Continue(s, run, Recv(j, RClear));
    run := run + [Recv(j, RClear)];
    Continue(s, run, Recv(i, RRead));
    run := run + [Recv(i, RRead)];
    Continue(s, run, Recv(i, RFinish));
    run := run + [Recv(i, RFinish)];
    Continue(s, run, World(Deliver));
    run := run + [World(Deliver)];
  }

  /** Such states are reached where the reactor asks the socket again. */
  lemma StaleGuardCanStrand(r: Record) returns (run: seq<Action>)
    requires Fits(r) && r.Data?
    ensures Untouched(Connected(true)) && IsRun(Fresh(Connected(true)), run)
    ensures Stranded(After(Fresh(Connected(true)), run), 2)
  {
    var s := Fresh(Connected(true));
    run := OneRecordForThree(s, r);
    Continue(s, run, Recv(3, RRead));
    run := run + [Recv(3, RRead)];
    Continue(s, run, Recv(2, RRead));
    run := run + [Recv(2, RRead)];
    Continue(s, run, Recv(2, RCheck));
    run := run + [Recv(2, RCheck)];
    Continue(s, run, World(End(LOST, None, false)));
    run := run + [World(End(LOST, None, false))];
    var more := StaleGuardStrands(After(s, run), 1, 2);
    Append(s, run, more);
    run := run + more;
  }

  /** Three receives woken by one record. */
  lemma OneRecordForThree(s: State, r: Record) returns (run: seq<Action>)
    requires s == Fresh(Connected(true)) && Fits(r) && r.Data?
    ensures IsRun(s, run)
    ensures var t := After(s, run);
            var p := RGuard(1);
            && t.recvs == map[1 := p, 2 := p, 3 := p] && !t.ended
            && t.sock == Connected(true).(queue := [r], queued := [r], pending := NONE,
                                          ready := Bits(true, true, false, false), epoch := 1)
  {
    run := [];
    Continue(s, run, Recv(1, RStart));
    run := run + [Recv(1, RStart)];
    Continue(s, run, Recv(2, RStart));
    run := run + [Recv(2, RStart)];
    Continue(s, run, Recv(3, RStart));
    run := run + [Recv(3, RStart)];
    Continue(s, run, World(Arrive(r)));
    run := run + [World(Arrive(r))];
    Continue(s, run, World(Deliver));
    run := run + [World(Deliver)];
    Continue(s, run, Recv(1, RWake));
    run := run + [Recv(1, RWake)];
    Continue(s, run, Recv(2, RWake));
    run := run + [Recv(2, RWake)];
    Continue(s, run, Recv(3, RWake));
    run := run + [Recv(3, RWake)];
  }

  /** Nobody receives, and the reactor asks the socket again: a send that holds a
      guard from before the loss takes the socket error, the reactor finds no
      error left to report, and a send that waited before the loss goes on
      waiting. Only a receive, which reads the notification, would end it. */
  lemma SendStrandsWithoutReceive(call: SendCall) returns (run: seq<Action>)
    requires call.to.None?
    ensures Untouched(Connected(true)) && IsRun(Fresh(Connected(true)), run)
    ensures var t := After(Fresh(Connected(true)), run);
            && t.sock.over && t.sock.failed && t.sock.takenEarly
            && 1 in t.sends && t.sends[1].SWait? && !Writable(t) && !t.sock.pending.Any()
            && !t.ended && t.recvs == map[] && t.sock.queue == [Notice(LOST)] && !t.sock.hup && !t.sock.peerShut
  {
    var s := Fresh(Connected(true));
    run := FillRoom(s, call);
    Continue(s, run, World(End(LOST, Some(ECONNRESET), false)));
    run := run + [World(End(LOST, Some(ECONNRESET), false))];
    Continue(s, run, Send(2, STry(Refuse(true, 0))));
    run := run + [Send(2, STry(Refuse(true, 0)))];
    Continue(s, run, World(Deliver));
    run := run + [World(Deliver)];
  }

  /** The same where the loss leaves neither a socket error nor a hang-up. */
  lemma SendStrandsWithoutError(call: SendCall) returns (run: seq<Action>)
    requires call.to.None?
    ensures Untouched(Connected(true)) && IsRun(Fresh(Connected(true)), run)
    ensures var t := After(Fresh(Connected(true)), run);
            && t.sock.over && !t.sock.failed && !t.sock.takenEarly
            && 1 in t.sends && t.sends[1].SWait? && !Writable(t) && !t.sock.pending.Any()
            && !t.ended && t.recvs == map[] && t.sock.queue == [Notice(LOST)] && !t.sock.hup && !t.sock.peerShut
  {
    var s := Fresh(Connected(true));
    run := FillRoom(s, call);
    Continue(s, run, World(End(LOST, None, false)));
    run := run + [World(End(LOST, None, false))];
    Continue(s, run, World(Deliver));
    run := run + [World(Deliver)];
  }

  /** Three sends woken together: the third fills the buffer, the first waits,
      the second has yet to try. */
  lemma FillRoom(s: State, call: SendCall) returns (run: seq<Action>)
    requires s == Fresh(Connected(true)) && call.to.None?
    ensures IsRun(s, run)
    ensures var t := After(s, run);
            && 1 in t.sends && t.sends[1].SWait? && 2 in t.sends && t.sends[2].SGuard? && 2 in t.jobs
            && t.recvs == map[] && !t.ended
            && t.sock == Connected(true).(room := false, pending := NONE, epoch := 1)
  {
    run := WakeThree(s, call);
    Continue(s, run, Send(3, STry(Accept(false))));
    run := run + [Send(3, STry(Accept(false)))];
    Continue(s, run, Send(1, STry(Block)));
    run := run + [Send(1, STry(Block))];
    Continue(s, run, Send(1, SClear));
    run := run + [Send(1, SClear)];
  }

  lemma WakeThree(s: State, call: SendCall) returns (run: seq<Action>)
    requires s == Fresh(Connected(true)) && call.to.None?
    ensures IsRun(s, run)
    ensures var t := After(s, run);
            var p := SGuard(WRITE, 1);
            && t.sends == map[1 := p, 2 := p, 3 := p] && t.jobs == map[1 := call, 2 := call, 3 := call]
            && t.recvs == map[] && !t.ended
            && t.sock == Connected(true).(pending := NONE, ready := WRITE, epoch := 1)
  {
    run := [];
    Continue(s, run, Send(1, SStart(call)));
    run := run + [Send(1, SStart(call))];
    Continue(s, run, Send(2, SStart(call)));
    run := run + [Send(2, SStart(call))];
    Continue(s, run, Send(3, SStart(call)));
    run := run + [Send(3, SStart(call))];
    Continue(s, run, World(Deliver));
    run := run + [World(Deliver)];
    Continue(s, run, Send(1, SWake));
    run := run + [Send(1, SWake)];
    Continue(s, run, Send(2, SWake));
    run := run + [Send(2, SWake)];
    Continue(s, run, Send(3, SWake));
    run := run + [Send(3, SWake)];
  }
}
