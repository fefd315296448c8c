/** What every run of an association keeps. */
module AssociationProofs {
  import opened Wire
  import opened Reassembling
  import opened Fragmentation
  import opened Sockets
  import opened SendPath
  import opened Association

  // ---- conservation of what was received

  /** Records read, and records still queued, are all that was ever queued;
      the buffer and the outputs are what the records read amount to. */
  ghost predicate FlowOf(queued: seq<Record>, queue: seq<Record>, taken: seq<Record>,
                         buf: seq<byte>, log: seq<Output>)
  {
    queued == taken + queue && buf == Buffered([], taken) && log == Delivered([], taken)
  }

  ghost predicate Flow(s: State) {
    FlowOf(s.sock.queued, s.sock.queue, s.taken, s.buf, s.log)
  }

  lemma FlowRead(queued: seq<Record>, queue: seq<Record>, taken: seq<Record>, buf: seq<byte>, log: seq<Output>)
    requires FlowOf(queued, queue, taken, buf, log) && queue != []
    ensures FlowOf(queued, queue[1..], taken + [queue[0]], Keep(buf, queue[0]), log + Emit(buf, queue[0]))
  {
    Extend([], taken, queue[0]);
    assert queue == [queue[0]] + queue[1..];
    Regroup(taken, [queue[0]], queue[1..]);
  }

  lemma WorldKeepsFlow(s: State, k: Kernel)
    requires Flow(s) && Possible(s.sock, k)
    ensures Flow(Next(s, World(k)))
  {
  }

  lemma TakeKeepsFlow(s: State, id: nat)
    requires Flow(s) && s.sock.queue != []
    ensures Flow(TakeStep(s, id))
  {
    FlowRead(s.sock.queued, s.sock.queue, s.taken, s.buf, s.log);
  }

  /** Only a read that takes a record touches what `Flow` speaks of. */
  lemma RecvLeaves(s: State, id: nat, a: RecvAct)
    requires RecvEnabled(s, id, a) && !(a.RRead? && s.sock.queue != [])
    ensures var t := RecvStep(s, id, a);
            && t.sock.queued == s.sock.queued && t.sock.queue == s.sock.queue
            && t.taken == s.taken && t.buf == s.buf && t.log == s.log
  {
    if a.RRead? {
      EmptyReadLeaves(s, id, s.recvs[id].epoch);
    }
  }

  lemma EmptyReadLeaves(s: State, id: nat, epoch: nat)
    requires s.sock.queue == []
    ensures var t := ReadStep(s, id, epoch);
            && t.sock.queued == s.sock.queued && t.sock.queue == s.sock.queue
            && t.taken == s.taken && t.buf == s.buf && t.log == s.log
  {
  }

  lemma RecvKeepsFlow(s: State, id: nat, a: RecvAct)
    requires Flow(s) && RecvEnabled(s, id, a)
    ensures Flow(RecvStep(s, id, a))
  {
    if a.RRead? && s.sock.queue != [] {
      TakeKeepsFlow(s, id);
    } else {
      RecvLeaves(s, id, a);
    }
  }

  lemma SendKeepsFlow(s: State, id: nat, a: SendAct)
    requires Flow(s) && SendEnabled(s, id, a)
    ensures Flow(SendStep(s, id, a))
  {
  }

  // ---- each output goes to one call

  predicate Has(p: RecvPc, out: Output) { p == RHold(out) || p == RDone(Received(out)) }

  predicate HasNone(p: RecvPc) { !p.RHold? && !(p.RDone? && p.result.Received?) }

  ghost predicate Logged(who: seq<nat>, log: seq<Output>, id: nat, out: Output)
    requires |who| == |log|
  {
    exists i :: 0 <= i < |who| && who[i] == id && log[i] == out
  }

  /** Every logged output is with the call it was logged for, no call is logged
      twice, and a call has no output that is not logged. */
  ghost predicate TicketsOf(recvs: map<nat, RecvPc>, who: seq<nat>, log: seq<Output>) {
    && |who| == |log|
    && (forall i :: 0 <= i < |who| ==> who[i] in recvs && Has(recvs[who[i]], log[i]))
    && (forall i, j :: 0 <= i < j < |who| ==> who[i] != who[j])
    && (forall id, out :: id in recvs && Has(recvs[id], out) ==> Logged(who, log, id, out))
  }

  ghost predicate Tickets(s: State) { TicketsOf(s.recvs, s.who, s.log) }

  lemma TicketsPlain(recvs: map<nat, RecvPc>, who: seq<nat>, log: seq<Output>, id: nat, p: RecvPc)
    requires TicketsOf(recvs, who, log)
    requires (id in recvs ==> HasNone(recvs[id])) && HasNone(p)
    ensures TicketsOf(recvs[id := p], who, log)
  {
  }

  lemma TicketsHold(recvs: map<nat, RecvPc>, who: seq<nat>, log: seq<Output>, id: nat, out: Output)
    requires TicketsOf(recvs, who, log)
    requires id in recvs ==> HasNone(recvs[id])
    ensures TicketsOf(recvs[id := RHold(out)], who + [id], log + [out])
  {
    var recvs', who', log' := recvs[id := RHold(out)], who + [id], log + [out];
    forall j, o | j in recvs' && Has(recvs'[j], o) ensures Logged(who', log', j, o) {
      if j == id {
        assert who'[|who|] == id && log'[|who|] == o;
      } else {
        var i :| 0 <= i < |who| && who[i] == j && log[i] == o;
        assert who'[i] == j && log'[i] == o;
      }
    }
  }

  lemma TicketsFinish(recvs: map<nat, RecvPc>, who: seq<nat>, log: seq<Output>, id: nat)
    requires TicketsOf(recvs, who, log)
    requires id in recvs && recvs[id].RHold?
    ensures TicketsOf(recvs[id := RDone(Received(recvs[id].out))], who, log)
  {
  }

  lemma TakeKeepsTickets(s: State, id: nat)
    requires Tickets(s) && s.sock.queue != [] && id in s.recvs && HasNone(s.recvs[id])
    ensures Tickets(TakeStep(s, id))
  {
    var out := Emit(s.buf, s.sock.queue[0]);
    if out == [] {
      assert s.log + out == s.log;
      TicketsPlain(s.recvs, s.who, s.log, id, RWait);
    } else {
      assert out == [out[0]];
      TicketsHold(s.recvs, s.who, s.log, id, out[0]);
    }
  }

  lemma RecvKeepsTickets(s: State, id: nat, a: RecvAct)
    requires Tickets(s) && RecvEnabled(s, id, a)
    ensures Tickets(RecvStep(s, id, a))
  {
    if a.RFinish? {
      TicketsFinish(s.recvs, s.who, s.log, id);
    } else if a.RRead? && s.sock.queue != [] {
      TakeKeepsTickets(s, id);
    } else {
      TicketsPlain(s.recvs, s.who, s.log, id, RecvStep(s, id, a).recvs[id]);
    }
  }

  lemma SendKeepsTickets(s: State, id: nat, a: SendAct)
    requires Tickets(s) && SendEnabled(s, id, a)
    ensures Tickets(SendStep(s, id, a))
  {
  }

  // ---- the end of the association

  predicate HoldsEnd(p: RecvPc) { p.RHold? && EndsIt(p.out) }

  ghost predicate EndInHand(recvs: map<nat, RecvPc>) {
    exists id :: id in recvs && HoldsEnd(recvs[id])
  }

  /** `ended` is closed only when nothing is left to read, and as long as it is
      open on an association that is over, the notification that will close it
      is still queued or in the hand of a receive. */
  ghost predicate EndingOf(ended: bool, over: bool, queue: seq<Record>, recvs: map<nat, RecvPc>) {
    && (ended ==> over && queue == [])
    && (over && queue == [] ==> ended || EndInHand(recvs))
    && (forall id :: id in recvs && HoldsEnd(recvs[id]) ==> over && queue == [])
    && (forall id :: id in recvs && recvs[id] == RDone(RecvError(NotConnected)) ==> ended)
  }

  ghost predicate Ending(s: State) {
    && (s.sock.many ==> !s.ended && forall id :: id in s.recvs ==> s.recvs[id] != RDone(RecvError(NotConnected)))
    && (!s.sock.many ==> EndingOf(s.ended, s.sock.over, s.sock.queue, s.recvs))
    && (forall id :: id in s.sends && s.sends[id] == SDone(SendError(NotConnected)) ==> s.ended)
  }

  lemma EndingPlain(ended: bool, over: bool, queue: seq<Record>, recvs: map<nat, RecvPc>, id: nat, p: RecvPc)
    requires EndingOf(ended, over, queue, recvs)
    requires (id in recvs ==> !HoldsEnd(recvs[id])) && !HoldsEnd(p)
    requires p == RDone(RecvError(NotConnected)) ==> ended
    ensures EndingOf(ended, over, queue, recvs[id := p])
  {
    if EndInHand(recvs) {
      var j :| j in recvs && HoldsEnd(recvs[j]);
      assert j in recvs[id := p] && HoldsEnd(recvs[id := p][j]);
    }
  }

  lemma EndingFinish(ended: bool, over: bool, queue: seq<Record>, recvs: map<nat, RecvPc>, id: nat)
    requires EndingOf(ended, over, queue, recvs) && id in recvs && recvs[id].RHold?
    ensures EndingOf(ended || HoldsEnd(recvs[id]), over, queue, recvs[id := RDone(Received(recvs[id].out))])
  {
    if HoldsEnd(recvs[id]) {
    } else {
      EndingPlain(ended, over, queue, recvs, id, RDone(Received(recvs[id].out)));
    }
  }

  /** Reading the record `queue[0]` of a queue whose end is the only ending notification. */
  lemma EndingTake(ended: bool, over: bool, queue: seq<Record>, recvs: map<nat, RecvPc>, id: nat, p: RecvPc)
    requires EndingOf(ended, over, queue, recvs) && queue != [] && id in recvs && !HoldsEnd(recvs[id])
    requires HoldsEnd(p) <==> IsEnding(queue[0])
    requires IsEnding(queue[0]) <==> over && |queue| == 1
    requires !p.RDone?
    ensures EndingOf(ended, over, queue[1..], recvs[id := p])
  {
    if over && queue[1..] == [] {
      assert id in recvs[id := p] && HoldsEnd(recvs[id := p][id]);
    }
  }

  lemma TakeKeepsEnding(s: State, id: nat)
    requires Ending(s) && Flow(s) && EndsLast(s.sock) && RecvEnabled(s, id, RRead) && s.sock.queue != []
    requires !s.sock.many
    ensures Ending(TakeStep(s, id))
  {
    var r, n := s.sock.queue[0], |s.taken|;
    assert s.sock.queued[n] == r && |s.sock.queued| == n + |s.sock.queue|;
    EndingTake(s.ended, s.sock.over, s.sock.queue, s.recvs, id, TakeStep(s, id).recvs[id]);
  }

  lemma ManyKeepsEnding(s: State, id: nat, a: RecvAct)
    requires Ending(s) && s.sock.many && RecvEnabled(s, id, a)
    ensures Ending(RecvStep(s, id, a))
  {
    if a.RRead? && s.sock.queue != [] {
      assert TakeStep(s, id).recvs[id] != RDone(RecvError(NotConnected));
    } else {
      RecvFrame(s, id, a);
    }
  }

  /** What a step of a receive changes that takes no record and does not return one. */
  lemma RecvFrame(s: State, id: nat, a: RecvAct)
    requires RecvEnabled(s, id, a) && !(a.RRead? && s.sock.queue != [])
    ensures var t := RecvStep(s, id, a);
            && id in t.recvs && t.recvs == s.recvs[id := t.recvs[id]] && t.sends == s.sends
            && t.sock.many == s.sock.many && t.sock.over == s.sock.over && t.sock.queue == s.sock.queue
            && (a.RFinish? || (t.ended == s.ended && !t.recvs[id].RHold?))
            && (s.sock.many ==> t.ended == s.ended)
            && (t.recvs[id] == RDone(RecvError(NotConnected)) ==> s.ended)
  {
  }

  lemma RecvKeepsEnding(s: State, id: nat, a: RecvAct)
    requires Ending(s) && Flow(s) && EndsLast(s.sock) && RecvEnabled(s, id, a)
    ensures Ending(RecvStep(s, id, a))
  {
    if s.sock.many {
      ManyKeepsEnding(s, id, a);
    } else if a.RRead? && s.sock.queue != [] {
      TakeKeepsEnding(s, id);
    } else if a.RFinish? {
      EndingFinish(s.ended, s.sock.over, s.sock.queue, s.recvs, id);
    } else {
      RecvFrame(s, id, a);
      EndingPlain(s.ended, s.sock.over, s.sock.queue, s.recvs, id, RecvStep(s, id, a).recvs[id]);
    }
  }

  /** As long as the association is not over nothing has ended, whatever is queued next. */
  lemma EndingQueue(ended: bool, queue: seq<Record>, recvs: map<nat, RecvPc>, over': bool, queue': seq<Record>)
    requires EndingOf(ended, false, queue, recvs) && queue' != []
    ensures EndingOf(ended, over', queue', recvs)
  {
  }

  lemma WorldKeepsEnding(s: State, k: Kernel)
    requires Ending(s) && Possible(s.sock, k)
    ensures Ending(Next(s, World(k)))
  {
    if s.sock.many {
    } else if k.Arrive? {
      EndingQueue(s.ended, s.sock.queue, s.recvs, false, s.sock.queue + [k.record]);
    } else if k.End? {
      EndingQueue(s.ended, s.sock.queue, s.recvs, true, s.sock.queue + [Notice(k.notification)]);
    }
  }

  lemma SendKeepsEnding(s: State, id: nat, a: SendAct)
    requires Ending(s) && SendEnabled(s, id, a)
    ensures Ending(SendStep(s, id, a))
  {
  }

  // ---- wake-ups

  predicate RecvLag(s: Sock, p: RecvPc) {
    match p
    case RGuard(k) => k <= s.epoch
    case RBlocked(k) => ReadLag(s, k)
    case RClearing(k) => ReadLag(s, k)
    case _ => true
  }

  predicate SendLag(s: Sock, p: SendPc) {
    match p
    case SGuard(seen, k) => !seen.r && !seen.h && k <= s.epoch
    case SBlocked(seen, k) => WriteLag(s, k, seen)
    case _ => true
  }

  ghost predicate Wakes(s: State) {
    && Sound(s.sock)
    && (forall id :: id in s.recvs ==> RecvLag(s.sock, s.recvs[id]))
    && (forall id :: id in s.sends ==> SendLag(s.sock, s.sends[id]))
  }

  lemma WorldKeepsWakes(s: State, k: Kernel)
    requires Wakes(s) && Possible(s.sock, k)
    ensures Wakes(Next(s, World(k)))
  {
    KernelKeepsSound(s.sock, k);
    var t := Happen(s.sock, k);
    forall id | id in s.recvs ensures RecvLag(t, s.recvs[id]) {
      if s.recvs[id].RBlocked? || s.recvs[id].RClearing? {
        KernelKeepsLags(s.sock, k, s.recvs[id].epoch, NONE);
      }
    }
    forall id | id in s.sends ensures SendLag(t, s.sends[id]) {
      if s.sends[id].SBlocked? {
        KernelKeepsLags(s.sock, k, s.sends[id].epoch, s.sends[id].seen);
      }
    }
  }

  /** From `s` to `t` nothing happened that a lagging call would have to be told. */
  predicate Quiet(s: Sock, t: Sock) {
    && t.epoch == s.epoch && t.pending == s.pending && t.repoll == s.repoll && t.failed == s.failed
    && (t.queue != [] || t.peerShut ==> s.queue != [] || s.peerShut)
    && (t.room && !t.over ==> s.room && !s.over)
    && (s.takenEarly ==> t.takenEarly)
    && (ErrorComing(s) ==> ErrorComing(t) || t.takenEarly)
  }

  lemma WakesAfterRecv(s: State, t: State, id: nat)
    requires Wakes(s) && Sound(t.sock) && Quiet(s.sock, t.sock)
    requires id in t.recvs && t.recvs == s.recvs[id := t.recvs[id]] && t.sends == s.sends
    requires RecvLag(t.sock, t.recvs[id])
    ensures Wakes(t)
  {
  }

  lemma WakesAfterSend(s: State, t: State, id: nat)
    requires Wakes(s) && Sound(t.sock) && Quiet(s.sock, t.sock)
    requires id in t.sends && t.sends == s.sends[id := t.sends[id]] && t.recvs == s.recvs
    requires SendLag(t.sock, t.sends[id])
    ensures Wakes(t)
  {
  }

  lemma TakeKeepsWakes(s: State, id: nat)
    requires Wakes(s) && s.sock.queue != []
    ensures Wakes(TakeStep(s, id))
  {
    WakesAfterRecv(s, TakeStep(s, id), id);
  }

  lemma ClearIsQuiet(s: Sock, k: nat, seen: Bits)
    ensures Quiet(s, Clear(s, k, seen))
  {
  }

  lemma TakeErrorIsQuiet(s: Sock)
    ensures Quiet(s, TakeError(s))
  {
  }

  lemma AcceptKeepsSound(s: Sock, roomLeft: bool)
    requires Sound(s) && s.room
    ensures Sound(s.(room := roomLeft)) && Quiet(s, s.(room := roomLeft))
  {
  }

  lemma RecvSocket(s: State, id: nat, a: RecvAct)
    requires Sound(s.sock) && RecvEnabled(s, id, a) && !(a.RRead? && s.sock.queue != [])
    requires id in s.recvs ==> RecvLag(s.sock, s.recvs[id])
    ensures Sound(RecvStep(s, id, a).sock) && Quiet(s.sock, RecvStep(s, id, a).sock)
  {
    RecvSocketIs(s, id, a);
    if a.RClear? {
      ClearKeepsSound(s.sock, s.recvs[id].epoch, NONE);
      ClearIsQuiet(s.sock, s.recvs[id].epoch, READ);
    } else if a.RRead? {
      TakeErrorKeepsSound(s.sock);
      TakeErrorIsQuiet(s.sock);
    }
  }

  lemma RecvSocketIs(s: State, id: nat, a: RecvAct)
    requires RecvEnabled(s, id, a) && !(a.RRead? && s.sock.queue != [])
    ensures var t := RecvStep(s, id, a);
            && (s.ended ==> t.ended) && (!a.RFinish? ==> t.ended == s.ended)
            && t.sock == match a
                         case RRead => TakeError(s.sock)
                         case RClear => Clear(s.sock, s.recvs[id].epoch, READ)
                         case _ => s.sock
  {
  }

  lemma RecvCall(s: State, id: nat, a: RecvAct)
    requires RecvEnabled(s, id, a) && !(a.RRead? && s.sock.queue != [])
    requires id in s.recvs ==> RecvLag(s.sock, s.recvs[id])
    ensures var t := RecvStep(s, id, a);
            && id in t.recvs && t.recvs == s.recvs[id := t.recvs[id]] && t.sends == s.sends
            && RecvLag(t.sock, t.recvs[id])
  {
  }

  lemma RecvKeepsWakes(s: State, id: nat, a: RecvAct)
    requires Wakes(s) && RecvEnabled(s, id, a)
    ensures Wakes(RecvStep(s, id, a))
  {
    if a.RRead? && s.sock.queue != [] {
      TakeKeepsWakes(s, id);
    } else {
      assert id in s.recvs ==> RecvLag(s.sock, s.recvs[id]);
      RecvSocket(s, id, a);
      RecvCall(s, id, a);
      WakesAfterRecv(s, RecvStep(s, id, a), id);
    }
  }

  lemma SendSocket(s: State, id: nat, a: SendAct)
    requires Sound(s.sock) && SendEnabled(s, id, a)
    requires id in s.sends ==> SendLag(s.sock, s.sends[id])
    ensures Sound(SendStep(s, id, a).sock) && Quiet(s.sock, SendStep(s, id, a).sock)
  {
    SendSocketIs(s, id, a);
    match a {
      case STry(Accept(roomLeft)) => AcceptKeepsSound(s.sock, roomLeft);
      case STry(Refuse(_, _)) =>
        TakeErrorKeepsSound(s.sock);
        TakeErrorIsQuiet(s.sock);
      case SClear =>
        ClearKeepsSound(s.sock, s.sends[id].epoch, s.sends[id].seen);
        ClearIsQuiet(s.sock, s.sends[id].epoch, s.sends[id].seen);
      case _ =>
    }
  }

  lemma SendSocketIs(s: State, id: nat, a: SendAct)
    requires SendEnabled(s, id, a)
    ensures var t := SendStep(s, id, a);
            && t.ended == s.ended
            && match a
               case STry(Accept(roomLeft)) => t.sock == s.sock.(room := roomLeft) && s.sock.room && !s.sock.over
               case STry(Refuse(true, _)) => t.sock == TakeError(s.sock)
               case SClear => t.sock == Clear(s.sock, s.sends[id].epoch, s.sends[id].seen)
               case _ => t.sock == s.sock
  {
  }

  lemma SendCall(s: State, id: nat, a: SendAct)
    requires SendEnabled(s, id, a) && EndsLast(s.sock)
    requires id in s.sends ==> SendLag(s.sock, s.sends[id])
    ensures var t := SendStep(s, id, a);
            && id in t.sends && t.sends == s.sends[id := t.sends[id]] && t.recvs == s.recvs
            && SendLag(t.sock, t.sends[id])
  {
  }

  lemma SendKeepsWakes(s: State, id: nat, a: SendAct)
    requires Wakes(s) && SendEnabled(s, id, a)
    ensures Wakes(SendStep(s, id, a))
  {
    assert id in s.sends ==> SendLag(s.sock, s.sends[id]);
    SendSocket(s, id, a);
    SendCall(s, id, a);
    WakesAfterSend(s, SendStep(s, id, a), id);
  }

  // ---- sends

  lemma RecvKeepsJobs(s: State, j: nat, r: RecvAct)
    requires RecvEnabled(s, j, r)
    ensures RecvStep(s, j, r).jobs == s.jobs && RecvStep(s, j, r).sends == s.sends
  {
  }

  ghost predicate OnWire(wire: seq<(nat, Frame)>, id: nat) {
    exists i :: 0 <= i < |wire| && wire[i].0 == id
  }

  /** The kernel accepted a call's message once if the call returned the number
      of its bytes, and never otherwise. */
  ghost predicate SendingOf(sends: map<nat, SendPc>, jobs: map<nat, SendCall>, wire: seq<(nat, Frame)>) {
    && (forall i :: 0 <= i < |wire| ==> Accepted(sends, jobs, wire[i]))
    && (forall i, j :: 0 <= i < j < |wire| ==> wire[i].0 != wire[j].0)
    && (forall id :: id in sends && IsSent(sends[id]) ==> OnWire(wire, id))
  }

  predicate IsSent(p: SendPc) { p.SDone? && p.result.Sent? }

  predicate Accepted(sends: map<nat, SendPc>, jobs: map<nat, SendCall>, entry: (nat, Frame)) {
    && entry.0 in sends && entry.0 in jobs
    && entry.1 == Handed(jobs[entry.0]) && sends[entry.0] == SDone(Sent(|jobs[entry.0].data|))
  }

  ghost predicate Sending(s: State) { SendingOf(s.sends, s.jobs, s.wire) }

  lemma SendingPlain(sends: map<nat, SendPc>, jobs: map<nat, SendCall>, wire: seq<(nat, Frame)>,
                     id: nat, p: SendPc, jobs': map<nat, SendCall>)
    requires SendingOf(sends, jobs, wire) && !IsSent(p)
    requires id in sends ==> !IsSent(sends[id])
    requires forall j :: j in jobs && j != id ==> j in jobs' && jobs'[j] == jobs[j]
    ensures SendingOf(sends[id := p], jobs', wire)
  {
  }

  lemma SendingAccept(sends: map<nat, SendPc>, jobs: map<nat, SendCall>, wire: seq<(nat, Frame)>, id: nat)
    requires SendingOf(sends, jobs, wire) && id in sends && id in jobs && !IsSent(sends[id])
    ensures SendingOf(sends[id := SDone(Sent(|jobs[id].data|))], jobs, wire + [(id, Handed(jobs[id]))])
  {
    var sends', wire' := sends[id := SDone(Sent(|jobs[id].data|))], wire + [(id, Handed(jobs[id]))];
    forall i | 0 <= i < |wire'| ensures Accepted(sends', jobs, wire'[i]) {
      if i < |wire| {
        assert Accepted(sends, jobs, wire[i]);
      }
    }
    forall i | 0 <= i < |wire| ensures wire[i].0 != id {
      assert Accepted(sends, jobs, wire[i]);
    }
    forall j | j in sends' && IsSent(sends'[j]) ensures OnWire(wire', j) {
      if j == id {
        assert wire'[|wire|].0 == id;
      } else {
        var i :| 0 <= i < |wire| && wire[i].0 == j;
        assert wire'[i].0 == j;
      }
    }
  }

  lemma SendKeepsSending(s: State, id: nat, a: SendAct)
    requires Sending(s) && SendEnabled(s, id, a)
    ensures Sending(SendStep(s, id, a))
  {
    if a.STry? && a.answer.Accept? {
      SendingAccept(s.sends, s.jobs, s.wire, id);
    } else {
      var t := SendStep(s, id, a);
      SendingPlain(s.sends, s.jobs, s.wire, id, t.sends[id], t.jobs);
    }
  }

  // ---- all of it

  ghost predicate Inv(s: State) {
    Flow(s) && Tickets(s) && Ending(s) && Wakes(s) && Sending(s)
  }

  /** A socket that is handed over to an association with nothing read from it. */
  ghost predicate Untouched(sock: Sock) { Sound(sock) && sock.queue == sock.queued }

  /** A socket that is registered, with whatever it holds by then, is one. */
  lemma RegisteredIsUntouched(s: Sock)
    requires EndsLast(s) && AllFit(s.queued) && s.queue == s.queued && (s.failed ==> s.soError.Some?)
    ensures Untouched(Register(s))
  {
  }

  lemma FreshKeepsAll(sock: Sock)
    requires Untouched(sock)
    ensures Inv(Fresh(sock))
  {
    assert [] + sock.queue == sock.queue;
  }

  lemma StepKeepsAll(s: State, a: Action)
    requires Inv(s) && Enabled(s, a)
    ensures Inv(Next(s, a))
  {
    match a {
      case World(k) =>
        WorldKeepsFlow(s, k);
        WorldKeepsEnding(s, k);
        WorldKeepsWakes(s, k);
      case Recv(id, r) =>
        RecvKeepsFlow(s, id, r);
        RecvKeepsTickets(s, id, r);
        RecvKeepsEnding(s, id, r);
        RecvKeepsWakes(s, id, r);
      case Send(id, x) =>
        SendKeepsFlow(s, id, x);
        SendKeepsTickets(s, id, x);
        SendKeepsEnding(s, id, x);
        SendKeepsWakes(s, id, x);
        SendKeepsSending(s, id, x);
    }
  }

  /** The invariant holds in every state of every run, with any number of calls. */
  lemma {:induction false} RunKeepsAll(s: State, run: seq<Action>)
    requires Inv(s) && IsRun(s, run)
    ensures Inv(After(s, run))
    decreases |run|
  {
    if run != [] {
      StepKeepsAll(s, run[0]);
      RunKeepsAll(Next(s, run[0]), run[1..]);
    }
  }

  /** A run goes on by one step. */
  lemma {:induction false} Continue(s: State, run: seq<Action>, a: Action)
    requires IsRun(s, run) && Enabled(After(s, run), a)
    ensures IsRun(s, run + [a]) && After(s, run + [a]) == Next(After(s, run), a)
    decreases |run|
  {
    if run == [] {
      assert [a][1..] == [] && run + [a] == [a];
    } else {
      Continue(Next(s, run[0]), run[1..], a);
      assert (run + [a])[0] == run[0] && (run + [a])[1..] == run[1..] + [a];
    }
  }
}
