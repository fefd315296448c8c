/** Who is woken, over all runs: no call waits while its answer is decided, or
exactly when one does; and after the end every call returns. */
module Wakeups {
  import opened Sockets
  import opened Association
  import opened AssociationProofs
  import AssociationTheorems

  // ---- with any number of calls

  /** The readiness once the reactor has got to the edges raised so far. */
  function SoonReady(s: State): Bits { Happen(s.sock, Deliver).ready }

  /** What being woken means: once the reactor has got to the edges raised so far,
      a receive that waits can go on exactly if readable or a hang-up is cached;
      a send, if writable, a hang-up or, on an association, an error is, and
      otherwise only by `ended`. */
  lemma WokenMeansEnabled(s: State, id: nat)
    ensures var t := Next(s, World(Deliver));
            && (id in s.recvs && s.recvs[id].RWait? ==> (Enabled(t, Recv(id, RWake)) <==> SoonReady(s).Reads()))
            && (id in s.sends && s.sends[id].SWait? && id in s.jobs ==>
                  && (Enabled(t, Send(id, SWake)) <==> SoonReady(s).Writes() || (!s.sock.many && SoonReady(s).e))
                  && (Enabled(t, Send(id, SQuit)) <==> !Enabled(t, Send(id, SWake)) && s.ended))
  {
  }

  /** With any number of calls: as long as there is something to read, every
      waiting receive is woken. */
  lemma QueuedWakesReceives(sock: Sock, run: seq<Action>)
    requires Untouched(sock) && IsRun(Fresh(sock), run)
    ensures var t := After(Fresh(sock), run);
            t.sock.queue != [] || t.sock.peerShut ==> SoonReady(t).r
  {
    FreshKeepsAll(sock);
    RunKeepsAll(Fresh(sock), run);
  }

  /** With any number of calls, no send waits while its answer is decided. If
      there is room it is woken. If the association is over it is woken by the
      socket error or a hang-up, or `ended` is closed, or the notification that
      will close it is still unread or in the hand of a receive. The last is
      needed only where the association ended with neither, or another call
      took the error before the reactor got to its edge. */
  lemma NoStrandedSend(sock: Sock, run: seq<Action>)
    requires Untouched(sock) && IsRun(Fresh(sock), run)
    ensures var t := After(Fresh(sock), run);
            && (t.sock.room && !t.sock.over ==> SoonReady(t).w)
            && (t.sock.failed && !t.sock.takenEarly ==> SoonReady(t).e)
            && (t.sock.hup ==> SoonReady(t).h)
            && (t.sock.over ==>
                  SoonReady(t).e || t.ended || EndInHand(t.recvs)
                  || (t.sock.queue != [] && IsEnding(t.sock.queue[|t.sock.queue| - 1])))
            && (!t.sock.repoll ==> !t.sock.takenEarly)
  {
    FreshKeepsAll(sock);
    RunKeepsAll(Fresh(sock), run);
    var t := After(Fresh(sock), run);
    UnreadEnd(t);
  }

  lemma UnreadEnd(t: State)
    requires Flow(t) && EndsLast(t.sock) && Ending(t)
    ensures t.sock.over ==>
              t.ended || EndInHand(t.recvs) || (t.sock.queue != [] && IsEnding(t.sock.queue[|t.sock.queue| - 1]))
  {
    if t.sock.over && t.sock.queue != [] {
      assert t.sock.queued[|t.sock.queued| - 1] == t.sock.queue[|t.sock.queue| - 1];
    }
  }

  // ---- the wake-up of sends at the end

  /** A send that waits on an association that is over is woken: by the error, by
      writable that is left from before, by a hang-up, or by `ended`. */
  predicate SendWoken(s: State) {
    s.sock.over ==> SoonReady(s).e || SoonReady(s).Writes() || s.ended
  }

  /** The error is on the socket, the reactor has yet to ask for it, and nothing else wakes a send. */
  predicate ErrorUnseen(s: Sock, ended: bool) {
    s.repoll && s.soError.Some? && !s.ready.e && !s.ready.w && !s.hup && !ended
  }

  /** Clearing what was `seen` in epoch `k` takes the last that wakes a send. */
  predicate ClearsLast(s: Sock, ended: bool, k: nat, seen: Bits) {
    && k == s.epoch && s.over && !s.hup && !ended && !Reported(s).e && (s.repoll || !s.pending.w)
    && (s.ready.e ==> seen.e) && (s.ready.w ==> seen.w)
  }

  /** The steps that leave sends waiting for a receive to read the notification,
      each with no hang-up and no writable left from before: an end with no
      socket error; a read or a send that takes the socket error before the
      reactor asks for it; and a send that found no room before the end, and
      clears after it what it was woken by. */
  predicate Silences(s: State, a: Action) {
    match a
    case World(End(_, error, hup)) =>
      && error.None? && !hup && !StaleWritable(s.sock)
      && !s.sock.ready.e && (s.sock.repoll || !s.sock.pending.e)
    case Recv(_, RRead) => s.sock.queue == [] && ErrorUnseen(s.sock, s.ended)
    case Send(_, STry(Refuse(true, _))) => ErrorUnseen(s.sock, s.ended)
    case Send(id, SClear) =>
      id in s.sends && s.sends[id].SBlocked? && ClearsLast(s.sock, s.ended, s.sends[id].epoch, s.sends[id].seen)
    case _ => false
  }

  predicate SendsWokenThroughout(s: State, run: seq<Action>)
    requires IsRun(s, run)
    decreases |run|
  {
    SendWoken(s) && (run == [] || SendsWokenThroughout(Next(s, run[0]), run[1..]))
  }

  predicate Silenced(s: State, run: seq<Action>)
    requires IsRun(s, run)
    decreases |run|
  {
    run != [] && (Silences(s, run[0]) || Silenced(Next(s, run[0]), run[1..]))
  }

  /** The association is over, and neither the socket nor `ended` tells a send. */
  predicate Silent(s: Sock, ended: bool) {
    s.over && !s.hup && !ended && !s.ready.e && !Reported(s).e && !StaleWritable(s)
  }

  lemma SendWokenUnlessSilent(s: State)
    requires Sound(s.sock)
    ensures SendWoken(s) <==> !Silent(s.sock, s.ended)
  {
  }

  /** An edge raised for no reason that reports error or writable once more. */
  predicate Prods(k: Kernel) { k.Nudge? && (k.bits.e || k.bits.w) }

  lemma WorldSilences(s: State, k: Kernel)
    requires Possible(s.sock, k) && Sound(s.sock) && (s.ended ==> s.sock.over)
    ensures Silent(Happen(s.sock, k), s.ended) ==> Silent(s.sock, s.ended) || Silences(s, World(k))
    ensures Silences(s, World(k)) ==> Silent(Happen(s.sock, k), s.ended)
    ensures Silent(s.sock, s.ended) && !Prods(k) ==> Silent(Happen(s.sock, k), s.ended)
  {
  }

  lemma TakeErrorSilences(s: Sock, ended: bool)
    requires s.soError.Some? ==> s.over
    ensures Silent(TakeError(s), ended) <==> Silent(s, ended) || ErrorUnseen(s, ended)
  {
  }

  lemma ClearSilences(s: Sock, ended: bool, k: nat, seen: Bits)
    ensures Silent(Clear(s, k, seen), ended) <==> Silent(s, ended) || ClearsLast(s, ended, k, seen)
  {
  }

  lemma TakeSilences(s: State, id: nat)
    requires s.sock.queue != []
    ensures Silent(TakeStep(s, id).sock, TakeStep(s, id).ended) <==> Silent(s.sock, s.ended)
  {
    assert TakeStep(s, id).sock == s.sock.(queue := s.sock.queue[1..]);
  }

  lemma RecvSilences(s: State, id: nat, a: RecvAct)
    requires RecvEnabled(s, id, a) && (s.sock.soError.Some? ==> s.sock.over)
    ensures var t := RecvStep(s, id, a);
            Silent(t.sock, t.ended) <==> !t.ended && (Silent(s.sock, s.ended) || Silences(s, Recv(id, a)))
  {
    if a.RRead? && s.sock.queue != [] {
      TakeSilences(s, id);
    } else {
      RecvSocketIs(s, id, a);
      match a {
        case RRead => TakeErrorSilences(s.sock, s.ended);
        case RClear => ClearSilences(s.sock, s.ended, s.recvs[id].epoch, READ);
        case _ =>
      }
    }
  }

  lemma SendSilences(s: State, id: nat, a: SendAct)
    requires SendEnabled(s, id, a) && (s.sock.soError.Some? ==> s.sock.over)
    ensures var t := SendStep(s, id, a);
            Silent(t.sock, t.ended) <==> !t.ended && (Silent(s.sock, s.ended) || Silences(s, Send(id, a)))
  {
    SendSocketIs(s, id, a);
    match a {
      case STry(Refuse(_, _)) => TakeErrorSilences(s.sock, s.ended);
      case SClear => ClearSilences(s.sock, s.ended, s.sends[id].epoch, s.sends[id].seen);
      case _ =>
    }
  }

  lemma StepSilences(s: State, a: Action)
    requires Inv(s) && Enabled(s, a)
    ensures Silences(s, a) ==> !SendWoken(Next(s, a))
    ensures SendWoken(s) && !Silences(s, a) ==> SendWoken(Next(s, a))
    ensures !SendWoken(s) && !(a.World? && Prods(a.k)) ==> Next(s, a).ended || !SendWoken(Next(s, a))
  {
    StepKeepsAll(s, a);
    SendWokenUnlessSilent(s);
    SendWokenUnlessSilent(Next(s, a));
    match a {
      case World(k) => WorldSilences(s, k);
      case Recv(id, r) => RecvSilences(s, id, r);
      case Send(id, x) => SendSilences(s, id, x);
    }
  }

  lemma {:induction false} SendsWokenExactly(s: State, run: seq<Action>)
    requires Inv(s) && IsRun(s, run)
    ensures SendsWokenThroughout(s, run) <==> SendWoken(s) && !Silenced(s, run)
    decreases |run|
  {
    if run != [] {
      StepKeepsAll(s, run[0]);
      StepSilences(s, run[0]);
      SendsWokenExactly(Next(s, run[0]), run[1..]);
    }
  }

  /** With any number of calls: in a run from a fresh association a send that
      waits on an association that is over is woken, in each of its states, if
      and only if it is so at the start and no step of the run silences. */
  lemma SendsWokenUnlessSilenced(sock: Sock, run: seq<Action>)
    requires Untouched(sock) && IsRun(Fresh(sock), run)
    ensures SendsWokenThroughout(Fresh(sock), run) <==> SendWoken(Fresh(sock)) && !Silenced(Fresh(sock), run)
    ensures !sock.over ==> SendWoken(Fresh(sock))
  {
    FreshKeepsAll(sock);
    SendsWokenExactly(Fresh(sock), run);
  }

  ghost predicate Unprodded(run: seq<Action>) {
    forall i :: 0 <= i < |run| ==> !(run[i].World? && Prods(run[i].k))
  }

  predicate WaitsOrDropped(sends: map<nat, SendPc>, id: nat) {
    id in sends && (sends[id].SWait? || sends[id].SDropped?)
  }

  /** A silenced send waits on until `ended` is closed, which only a receive
      that returns the notification of the end does: whatever else happens,
      short of an edge raised for no reason, it is not woken. */
  lemma {:induction false} SilentUntilEnded(s: State, more: seq<Action>, id: nat)
    requires Inv(s) && IsRun(s, more) && Unprodded(more) && !SendWoken(s) && WaitsOrDropped(s.sends, id)
    ensures var t := After(s, more);
            t.ended || (!SendWoken(t) && !Writable(t) && WaitsOrDropped(t.sends, id))
    decreases |more|
  {
    SendWokenUnlessSilent(s);
    if more != [] {
      var a := more[0];
      assert !(a.World? && Prods(a.k));
      StepKeepsAll(s, a);
      StepSilences(s, a);
      SilentStays(s, a, id);
      forall i | 0 <= i < |more[1..]| ensures !(more[1..][i].World? && Prods(more[1..][i].k)) {
        assert more[1..][i] == more[i + 1];
      }
      if Next(s, a).ended {
        AssociationTheorems.EndedStays(Next(s, a), more[1..]);
      } else {
        SilentUntilEnded(Next(s, a), more[1..], id);
      }
    }
  }

  lemma SilentStays(s: State, a: Action, id: nat)
    requires Enabled(s, a) && Silent(s.sock, s.ended) && !s.sock.ready.h && WaitsOrDropped(s.sends, id)
    ensures WaitsOrDropped(Next(s, a).sends, id)
  {
    match a {
      case World(k) =>
      case Recv(j, r) => RecvKeepsJobs(s, j, r);
      case Send(j, x) =>
        assert SendStep(s, j, x).sends == s.sends[j := SendStep(s, j, x).sends[j]];
    }
  }

  // ---- the wake-up at the end, with any number of receives

  /** A receive that waits for something decided is woken. */
  predicate Woken(s: State) {
    s.sock.queue != [] || s.sock.peerShut || s.sock.over ==> SoonReady(s).Reads()
  }

  /** The two steps that can lose the wake-up of an association that has ended:
      a receive that found nothing queued clears the bit after the last record
      was read; or a receive whose guard is out of date reads the last record
      with the bit cleared, while the edge of the end is still to be looked at
      and will find nothing left. */
  predicate Spoils(s: State, a: Action) {
    && s.sock.over && !s.sock.peerShut && !s.sock.hup && a.Recv? && a.id in s.recvs
    && match a.r
       case RClear =>
         s.recvs[a.id] == RClearing(s.sock.epoch) && s.sock.queue == [] && (s.sock.repoll || !s.sock.pending.r)
       case RRead =>
         s.recvs[a.id].RGuard? && |s.sock.queue| == 1 && !s.sock.ready.r && s.sock.repoll
       case _ => false
  }

  predicate WokenThroughout(s: State, run: seq<Action>)
    requires IsRun(s, run)
    decreases |run|
  {
    Woken(s) && (run == [] || WokenThroughout(Next(s, run[0]), run[1..]))
  }

  predicate Spoiled(s: State, run: seq<Action>)
    requires IsRun(s, run)
    decreases |run|
  {
    run != [] && (Spoils(s, run[0]) || Spoiled(Next(s, run[0]), run[1..]))
  }

  /** The end was read, and neither a bit nor an edge tells of it any more. */
  predicate Lost(s: Sock) {
    && s.over && s.queue == [] && !s.peerShut && !s.hup
    && !s.ready.r && (s.repoll || !s.pending.r)
  }

  lemma WokenUnlessLost(s: State)
    requires Sound(s.sock)
    ensures Woken(s) <==> !Lost(s.sock)
  {
  }

  /** A shutdown of the peer, or an edge raised for no reason, reports readable once more. */
  predicate Stirs(k: Kernel) { k.PeerShuts? || (k.Nudge? && k.bits.r) }

  lemma WorldLoses(s: Sock, k: Kernel)
    requires Possible(s, k)
    ensures Lost(Happen(s, k)) ==> Lost(s)
    ensures Lost(s) && !Stirs(k) ==> Lost(Happen(s, k))
  {
  }

  lemma RecvLoses(s: State, id: nat, a: RecvAct)
    requires RecvEnabled(s, id, a) && Sound(s.sock)
    ensures Lost(RecvStep(s, id, a).sock) <==> Lost(s.sock) || Spoils(s, Recv(id, a))
  {
    if a.RRead? && s.sock.queue != [] {
      assert RecvStep(s, id, a).sock == s.sock.(queue := s.sock.queue[1..]);
    } else {
      RecvSocketIs(s, id, a);
    }
  }

  lemma SendLoses(s: State, id: nat, a: SendAct)
    requires SendEnabled(s, id, a) && Wakes(s)
    ensures Lost(SendStep(s, id, a).sock) <==> Lost(s.sock)
  {
    SendSocketIs(s, id, a);
    assert id in s.sends ==> SendLag(s.sock, s.sends[id]);
  }

  lemma StepLoses(s: State, a: Action)
    requires Inv(s) && Enabled(s, a)
    ensures Spoils(s, a) ==> !Woken(Next(s, a))
    ensures Woken(s) && !Spoils(s, a) ==> Woken(Next(s, a))
    ensures !Woken(s) && !(a.World? && Stirs(a.k)) ==> !Woken(Next(s, a))
  {
    StepKeepsAll(s, a);
    WokenUnlessLost(s);
    WokenUnlessLost(Next(s, a));
    match a {
      case World(k) => WorldLoses(s.sock, k);
      case Recv(id, r) => RecvLoses(s, id, r);
      case Send(id, x) => SendLoses(s, id, x);
    }
  }

  lemma {:induction false} WokenExactly(s: State, run: seq<Action>)
    requires Inv(s) && Woken(s) && IsRun(s, run)
    ensures WokenThroughout(s, run) <==> !Spoiled(s, run)
    ensures WokenThroughout(s, run) ==> Woken(After(s, run))
    decreases |run|
  {
    if run != [] {
      StepKeepsAll(s, run[0]);
      StepLoses(s, run[0]);
      if Woken(Next(s, run[0])) {
        WokenExactly(Next(s, run[0]), run[1..]);
      }
    }
  }

  /** With any number of receives and sends: in a run from a fresh association
      every receive that waits for something decided is woken, in each of its
      states, if and only if no step of the run is one of the two that spoil. */
  lemma WokenUnlessSpoiled(sock: Sock, run: seq<Action>)
    requires Untouched(sock) && IsRun(Fresh(sock), run)
    ensures WokenThroughout(Fresh(sock), run) <==> !Spoiled(Fresh(sock), run)
    ensures !Spoiled(Fresh(sock), run) ==> Woken(After(Fresh(sock), run))
  {
    FreshKeepsAll(sock);
    WokenUnlessLost(Fresh(sock));
    WokenExactly(Fresh(sock), run);
  }

  ghost predicate Calm(run: seq<Action>) {
    forall i :: 0 <= i < |run| ==> !(run[i].World? && Stirs(run[i].k))
  }

  /** What was lost stays lost: unless the peer shuts down or an edge is raised
      for no reason, whatever else happens, a receive that waits is not woken. */
  lemma {:induction false} LostForGood(s: State, more: seq<Action>, id: nat)
    requires Inv(s) && IsRun(s, more) && Calm(more) && !Woken(s)
    requires id in s.recvs && (s.recvs[id].RWait? || s.recvs[id].RDropped?)
    ensures var t := After(s, more);
            !Woken(t) && !t.sock.ready.Reads() && id in t.recvs && (t.recvs[id].RWait? || t.recvs[id].RDropped?)
    decreases |more|
  {
    WokenUnlessLost(s);
    if more != [] {
      var a := more[0];
      assert !(a.World? && Stirs(a.k));
      StepKeepsAll(s, a);
      StepLoses(s, a);
      if !(a.Recv? && a.id == id) {
        OthersKeepRecv(s, id, a);
      }
      forall i | 0 <= i < |more[1..]| ensures !(more[1..][i].World? && Stirs(more[1..][i].k)) {
        assert more[1..][i] == more[i + 1];
      }
      LostForGood(Next(s, a), more[1..], id);
    }
  }

  // ---- receives one at a time

  predicate Past(p: RecvPc) { p.RGuard? || p.RBlocked? || p.RClearing? || p.RHold? }

  /** A receive that has been woken would still be woken, and so would every
      receive once `ended` is closed. */
  ghost predicate StaysReadable(s: State) {
    && (forall id :: id in s.recvs && Past(s.recvs[id]) ==> s.sock.ready.Reads())
    && (s.ended ==> s.sock.ready.Reads() && forall id :: id in s.recvs ==> !s.recvs[id].RClearing?)
  }

  lemma WorldStaysReadable(s: State, k: Kernel)
    requires StaysReadable(s) && Possible(s.sock, k)
    ensures StaysReadable(Next(s, World(k)))
  {
    HappenAdds(s.sock, k);
  }

  /** A step of the only live receive: the others do not depend on the bit. */
  lemma ReadableFrom(s: State, t: State, id: nat)
    requires StaysReadable(s) && OneReceiver(s) && (id in s.recvs ==> Live(s.recvs[id]))
    requires id in t.recvs && t.recvs == s.recvs[id := t.recvs[id]]
    requires t.sock.ready == s.sock.ready || (id in s.recvs && !s.ended && !t.ended)
    requires Past(t.recvs[id]) || (t.ended && !s.ended) ==> t.sock.ready.Reads() && id in s.recvs
    requires t.ended ==> !t.recvs[id].RClearing?
    ensures StaysReadable(t)
  {
  }

  lemma TakeStaysReadable(s: State, id: nat)
    requires StaysReadable(s) && OneReceiver(s) && RecvEnabled(s, id, RRead) && s.sock.queue != []
    ensures StaysReadable(TakeStep(s, id))
  {
    ReadableFrom(s, TakeStep(s, id), id);
  }

  lemma RecvStaysReadable(s: State, id: nat, a: RecvAct)
    requires StaysReadable(s) && OneReceiver(s) && RecvEnabled(s, id, a)
    ensures StaysReadable(RecvStep(s, id, a))
  {
    if a.RRead? && s.sock.queue != [] {
      TakeStaysReadable(s, id);
    } else {
      ReadableFrom(s, RecvStep(s, id, a), id);
    }
  }

  lemma SendStaysReadable(s: State, id: nat, a: SendAct)
    requires StaysReadable(s) && Wakes(s) && SendEnabled(s, id, a)
    ensures StaysReadable(SendStep(s, id, a))
  {
    SendSocketIs(s, id, a);
    assert id in s.sends ==> SendLag(s.sock, s.sends[id]);
  }

  lemma StepStaysReadable(s: State, a: Action)
    requires StaysReadable(s) && Wakes(s) && OneReceiver(s) && Enabled(s, a)
    ensures StaysReadable(Next(s, a))
  {
    match a {
      case World(k) => WorldStaysReadable(s, k);
      case Recv(id, r) => RecvStaysReadable(s, id, r);
      case Send(id, x) => SendStaysReadable(s, id, x);
    }
  }

  /** The only receive holds no guard that is out of date, and finds `ended`
      closed if the end was read before it: it never spoils. */
  lemma OneNeverSpoils(s: State, a: Action)
    requires Inv(s) && StaysReadable(s) && OneReceiver(s) && Enabled(s, a)
    ensures !Spoils(s, a)
  {
    if Spoils(s, a) {
      assert Live(s.recvs[a.id]) && Past(s.recvs[a.id]);
      if EndInHand(s.recvs) {
        var j :| j in s.recvs && HoldsEnd(s.recvs[j]);
        assert Live(s.recvs[j]);
      }
    }
  }

  lemma {:induction false} SerialKeepsAll(s: State, run: seq<Action>)
    requires Inv(s) && StaysReadable(s) && SerialRun(s, run)
    ensures IsRun(s, run) && !Spoiled(s, run)
    ensures Inv(After(s, run)) && StaysReadable(After(s, run)) && OneReceiver(After(s, run))
    decreases |run|
  {
    if run != [] {
      OneNeverSpoils(s, run[0]);
      StepKeepsAll(s, run[0]);
      StepStaysReadable(s, run[0]);
      SerialKeepsAll(Next(s, run[0]), run[1..]);
    }
  }

  /** With receives made one at a time, beside any number of sends, no step
      spoils. So no receive waits while its answer is decided, in any state of
      the run, even when a send took the socket error; and once `ended` is
      closed every later receive is woken at once. */
  lemma NoStrandedReceive(sock: Sock, run: seq<Action>)
    requires Untouched(sock) && SerialRun(Fresh(sock), run)
    ensures IsRun(Fresh(sock), run) && !Spoiled(Fresh(sock), run)
    ensures WokenThroughout(Fresh(sock), run) && Woken(After(Fresh(sock), run))
    ensures After(Fresh(sock), run).ended ==> After(Fresh(sock), run).sock.ready.Reads()
  {
    FreshKeepsAll(sock);
    SerialKeepsAll(Fresh(sock), run);
    WokenUnlessSpoiled(sock, run);
  }

  // ---- after the end every call returns

  /** Steps a receive still has to make once the association has ended. */
  function Rank(p: RecvPc): nat {
    match p
    case RWait => 3
    case RGuard(_) => 2
    case RBlocked(_) => 1
    case RHold(_) => 1
    case RClearing(_) => 4
    case _ => 0
  }

  function OwnStep(p: RecvPc): RecvAct
    requires Live(p)
  {
    match p
    case RWait => RWake
    case RGuard(_) => RRead
    case RBlocked(_) => RCheck
    case RClearing(_) => RClear
    case RHold(_) => RFinish
  }

  /** How many steps of a run are those of receive `id`. */
  function OwnRecvs(id: nat, run: seq<Action>): nat {
    if run == [] then 0 else (if run[0].Recv? && run[0].id == id then 1 else 0) + OwnRecvs(id, run[1..])
  }

  /** `ended` is closed, every receive is woken, and nobody is about to clear. */
  ghost predicate Settled(s: State) {
    s.ended && s.sock.ready.Reads() && forall id :: id in s.recvs ==> !s.recvs[id].RClearing?
  }

  /** It stays so, whatever any number of calls do: a receive that finds nothing
      sees `ended` closed, so none comes to clear. */
  lemma StepKeepsSettled(s: State, a: Action)
    requires Settled(s) && Wakes(s) && Enabled(s, a)
    ensures Settled(Next(s, a))
  {
    AssociationTheorems.EndedStep(s, a);
    match a {
      case World(k) => HappenAdds(s.sock, k);
      case Recv(id, r) => RecvKeepsSettled(s, id, r);
      case Send(id, x) => SendKeepsSettled(s, id, x);
    }
  }

  lemma SendKeepsSettled(s: State, id: nat, a: SendAct)
    requires Settled(s) && Wakes(s) && SendEnabled(s, id, a)
    ensures SendStep(s, id, a).sock.ready.Reads() && SendStep(s, id, a).recvs == s.recvs
  {
    SendSocketIs(s, id, a);
    assert id in s.sends ==> SendLag(s.sock, s.sends[id]);
  }

  lemma RecvKeepsSettled(s: State, id: nat, a: RecvAct)
    requires Settled(s) && RecvEnabled(s, id, a)
    ensures RecvStep(s, id, a).sock.ready.Reads()
    ensures forall j :: j in RecvStep(s, id, a).recvs ==> !RecvStep(s, id, a).recvs[j].RClearing?
  {
    if a.RRead? && s.sock.queue != [] {
      assert TakeStep(s, id).sock.ready == s.sock.ready;
    } else {
      RecvSocketIs(s, id, a);
      RecvFrame(s, id, a);
    }
  }

  /** Once `ended` is closed after receives made one at a time, in every
      continuation with any number of calls: a receive that has not returned is
      always able to make its next step, and after at most three of its own it
      has returned, with an error unless it held an output before; nobody else's
      steps delay it. */
  lemma EndedReceiveReturns(sock: Sock, run: seq<Action>, more: seq<Action>, id: nat)
    requires Untouched(sock) && IsRun(Fresh(sock), run) && SerialRun(Fresh(sock), run)
    requires var t := After(Fresh(sock), run);
             t.ended && id in t.recvs && IsRun(t, more)
    ensures var t := After(Fresh(sock), run);
            var u := After(t, more);
            && id in u.recvs && OwnRecvs(id, more) + Rank(u.recvs[id]) <= Rank(t.recvs[id]) <= 3
            && (Live(u.recvs[id]) ==> Enabled(u, Recv(id, OwnStep(u.recvs[id]))))
            && (OwnRecvs(id, more) >= 3 ==> !Live(u.recvs[id]))
            && (HasNone(t.recvs[id]) ==> HasNone(u.recvs[id]))
  {
    FreshKeepsAll(sock);
    SerialKeepsAll(Fresh(sock), run);
    var t := After(Fresh(sock), run);
    EndedReceives(t, more, id);
  }

  lemma {:induction false} EndedReceives(t: State, more: seq<Action>, id: nat)
    requires Inv(t) && Settled(t) && id in t.recvs && IsRun(t, more)
    ensures var u := After(t, more);
            && id in u.recvs && OwnRecvs(id, more) + Rank(u.recvs[id]) <= Rank(t.recvs[id]) <= 3
            && (Live(u.recvs[id]) ==> Enabled(u, Recv(id, OwnStep(u.recvs[id]))))
            && (HasNone(t.recvs[id]) ==> HasNone(u.recvs[id]))
    decreases |more|
  {
    if more != [] {
      var a := more[0];
      StepKeepsAll(t, a);
      StepKeepsSettled(t, a);
      if a.Recv? && a.id == id {
        OwnRank(t, id, a.r);
      } else {
        OthersKeepRecv(t, id, a);
      }
      EndedReceives(Next(t, a), more[1..], id);
    }
  }

  lemma OwnRank(t: State, id: nat, r: RecvAct)
    requires t.ended && t.sock.queue == [] && id in t.recvs && !t.recvs[id].RClearing?
    requires RecvEnabled(t, id, r)
    ensures id in RecvStep(t, id, r).recvs && Rank(RecvStep(t, id, r).recvs[id]) < Rank(t.recvs[id])
    ensures HasNone(t.recvs[id]) ==> HasNone(RecvStep(t, id, r).recvs[id])
  {
  }

  lemma OthersKeepRecv(t: State, id: nat, a: Action)
    requires id in t.recvs && Enabled(t, a) && !(a.Recv? && a.id == id)
    ensures id in Next(t, a).recvs && Next(t, a).recvs[id] == t.recvs[id]
  {
    match a {
      case World(k) =>
      case Recv(j, r) => OtherRecv(t, id, j, r);
      case Send(j, x) => assert SendStep(t, j, x).recvs == t.recvs;
    }
  }

  lemma OtherRecv(t: State, id: nat, j: nat, r: RecvAct)
    requires id in t.recvs && RecvEnabled(t, j, r) && j != id
    ensures id in RecvStep(t, j, r).recvs && RecvStep(t, j, r).recvs[id] == t.recvs[id]
  {
  }

  /** Steps a send still has to make once the association has ended. */
  function SendRank(p: SendPc): nat {
    match p
    case SBlocked(_, _) => 3
    case SWait => 2
    case SGuard(_, _) => 1
    case _ => 0
  }

  /** The next step of a send, once the association has ended. */
  function SendStepOf(s: State, id: nat): SendAct
    requires id in s.sends
  {
    match s.sends[id]
    case SBlocked(_, _) => SClear
    case SWait => if Writable(s) then SWake else SQuit
    case _ => STry(Refuse(false, EPIPE))
  }

  const EPIPE := 32

  /** How many steps of a run are those of send `id`. */
  function OwnSends(id: nat, run: seq<Action>): nat {
    if run == [] then 0 else (if run[0].Send? && run[0].id == id then 1 else 0) + OwnSends(id, run[1..])
  }

  /** Once `ended` is closed, in every continuation with any number of calls: a
      send that has not returned always has a step to make, and after at most
      three of its own it has returned, with an error unless it had returned
      before; nobody else's steps delay it. */
  lemma EndedSendReturns(sock: Sock, run: seq<Action>, more: seq<Action>, id: nat)
    requires Untouched(sock) && IsRun(Fresh(sock), run)
    requires var t := After(Fresh(sock), run);
             t.ended && id in t.sends && id in t.jobs && IsRun(t, more)
    ensures var t := After(Fresh(sock), run);
            var u := After(t, more);
            && id in u.sends && OwnSends(id, more) + SendRank(u.sends[id]) <= SendRank(t.sends[id]) <= 3
            && (SendRank(u.sends[id]) > 0 ==> Enabled(u, Send(id, SendStepOf(u, id))))
            && (OwnSends(id, more) >= 3 ==> SendRank(u.sends[id]) == 0)
            && (IsSent(u.sends[id]) ==> IsSent(t.sends[id]))
  {
    FreshKeepsAll(sock);
    RunKeepsAll(Fresh(sock), run);
    EndedSends(After(Fresh(sock), run), more, id);
  }

  lemma {:induction false} EndedSends(t: State, more: seq<Action>, id: nat)
    requires Inv(t) && t.ended && id in t.sends && id in t.jobs && IsRun(t, more)
    ensures var u := After(t, more);
            && id in u.sends && OwnSends(id, more) + SendRank(u.sends[id]) <= SendRank(t.sends[id]) <= 3
            && (SendRank(u.sends[id]) > 0 ==> Enabled(u, Send(id, SendStepOf(u, id))))
            && (IsSent(u.sends[id]) ==> IsSent(t.sends[id]))
    decreases |more|
  {
    if more != [] {
      var a := more[0];
      StepKeepsAll(t, a);
      AssociationTheorems.EndedStep(t, a);
      match a {
        case World(k) =>
        case Recv(j, r) => RecvKeepsJobs(t, j, r);
        case Send(j, y) => EndedSendStep(t, id, j, y);
      }
      EndedSends(Next(t, a), more[1..], id);
    }
  }

  lemma EndedSendStep(t: State, id: nat, j: nat, y: SendAct)
    requires t.sock.over && id in t.sends && id in t.jobs && SendEnabled(t, j, y)
    ensures id in SendStep(t, j, y).sends && id in SendStep(t, j, y).jobs
    ensures j != id ==> SendStep(t, j, y).sends[id] == t.sends[id]
    ensures j == id ==>
              SendRank(SendStep(t, j, y).sends[id]) < SendRank(t.sends[id]) && !IsSent(SendStep(t, j, y).sends[id])
  {
  }

  // ---- a call that was told to wait does wait

  /** As long as no edge was reported since a send was woken, it has seen every bit that is set. */
  predicate SawAll(s: Sock, p: SendPc) {
    p.SGuard? || p.SBlocked? ==>
      && p.epoch <= s.epoch
      && (p.epoch == s.epoch ==> (s.ready.w ==> p.seen.w) && (!s.many && s.ready.e ==> p.seen.e))
  }

  ghost predicate AllSaw(s: State) {
    forall id :: id in s.sends ==> SawAll(s.sock, s.sends[id])
  }

  /** From `s` to `t` no bit was set without a new epoch. */
  predicate NoNewBits(s: Sock, t: Sock) {
    && s.epoch <= t.epoch && t.many == s.many
    && (t.epoch == s.epoch ==> (t.ready.w ==> s.ready.w) && (t.ready.e ==> s.ready.e))
  }

  lemma WorldNoNewBits(s: Sock, k: Kernel)
    ensures NoNewBits(s, Happen(s, k))
  {
    match k {
      case Arrive(_) =>
      case MakeRoom =>
      case PeerShuts =>
      case End(_, _, _) =>
      case Nudge(_) =>
      case Deliver =>
    }
  }

  lemma RecvNoNewBits(s: State, id: nat, a: RecvAct)
    requires RecvEnabled(s, id, a)
    ensures NoNewBits(s.sock, RecvStep(s, id, a).sock)
  {
    if a.RRead? && s.sock.queue != [] {
      assert TakeStep(s, id).sock == s.sock.(queue := s.sock.queue[1..]);
    } else {
      RecvSocketIs(s, id, a);
    }
  }

  lemma SendSaw(s: State, id: nat, a: SendAct)
    requires SendEnabled(s, id, a) && (id in s.sends ==> SawAll(s.sock, s.sends[id]))
    ensures var t := SendStep(s, id, a);
            && NoNewBits(s.sock, t.sock) && id in t.sends && SawAll(t.sock, t.sends[id])
            && t.sends == s.sends[id := t.sends[id]]
  {
    SendSocketIs(s, id, a);
  }

  lemma StepKeepsSaw(s: State, a: Action)
    requires AllSaw(s) && Enabled(s, a)
    ensures AllSaw(Next(s, a))
  {
    match a {
      case World(k) => WorldNoNewBits(s.sock, k);
      case Recv(id, r) =>
        RecvNoNewBits(s, id, r);
        RecvKeepsJobs(s, id, r);
      case Send(id, x) => SendSaw(s, id, x);
    }
  }

  lemma {:induction false} RunKeepsSaw(s: State, run: seq<Action>)
    requires AllSaw(s) && IsRun(s, run)
    ensures AllSaw(After(s, run))
    decreases |run|
  {
    if run != [] {
      StepKeepsSaw(s, run[0]);
      RunKeepsSaw(Next(s, run[0]), run[1..]);
    }
  }

  /** In every run, with any number of calls: a clear takes effect exactly if no
      edge was reported since the call was woken, and then nothing is left of
      what woke it, so that it waits for the next edge instead of spinning; a
      clear on an old guard leaves the socket alone. */
  lemma ClearsWhatItSaw(sock: Sock, run: seq<Action>, id: nat)
    requires IsRun(Fresh(sock), run)
    ensures var t := After(Fresh(sock), run);
            && (SendEnabled(t, id, SClear) ==>
                  var u := SendStep(t, id, SClear).sock;
                  && (t.sends[id].epoch == t.sock.epoch ==> !u.ready.w && (!u.many ==> !u.ready.e))
                  && (t.sends[id].epoch != t.sock.epoch ==> u == t.sock))
            && (RecvEnabled(t, id, RClear) ==>
                  var u := RecvStep(t, id, RClear).sock;
                  && (t.recvs[id].epoch == t.sock.epoch ==> !u.ready.r)
                  && (t.recvs[id].epoch != t.sock.epoch ==> u == t.sock))
  {
    RunKeepsSaw(Fresh(sock), run);
    var t := After(Fresh(sock), run);
    if SendEnabled(t, id, SClear) {
      SendClears(t, id);
    }
    if RecvEnabled(t, id, RClear) {
      RecvClears(t, id);
    }
  }

  lemma SendClears(t: State, id: nat)
    requires AllSaw(t) && SendEnabled(t, id, SClear)
    ensures var u := SendStep(t, id, SClear).sock;
            && (t.sends[id].epoch == t.sock.epoch ==> !u.ready.w && (!u.many ==> !u.ready.e))
            && (t.sends[id].epoch != t.sock.epoch ==> u == t.sock)
  {
    SendSocketIs(t, id, SClear);
    assert SawAll(t.sock, t.sends[id]);
  }

  lemma RecvClears(t: State, id: nat)
    requires RecvEnabled(t, id, RClear)
    ensures var u := RecvStep(t, id, RClear).sock;
            && (t.recvs[id].epoch == t.sock.epoch ==> !u.ready.r)
            && (t.recvs[id].epoch != t.sock.epoch ==> u == t.sock)
  {
    RecvSocketIs(t, id, RClear);
  }
}
