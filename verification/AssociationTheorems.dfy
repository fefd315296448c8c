/** What an association hands out, accepts and reports at its end, over all runs. */
module AssociationTheorems {
  import opened Wire
  import opened Reassembling
  import opened Fragmentation
  import opened Sockets
  import opened SendPath
  import opened Association
  import opened AssociationProofs

  // ---- receiving: nothing lost, doubled or reordered

  /** In every run, with any number of receives, each of which may be dropped
      where it waits: the outputs handed out, in the order of the lock, then
      what the buffer and the unread queue will still yield, are exactly what
      all that the kernel queued amounts to. */
  lemma Conservation(sock: Sock, run: seq<Action>)
    requires Untouched(sock) && IsRun(Fresh(sock), run)
    ensures var t := After(Fresh(sock), run);
            && Delivered([], t.sock.queued) == t.log + Delivered(t.buf, t.sock.queue)
            && MessageBytes(t.log) + t.buf + DataBytes(t.sock.queue) == DataBytes(t.sock.queued)
  {
    FreshKeepsAll(sock);
    RunKeepsAll(Fresh(sock), run);
    var t := After(Fresh(sock), run);
    FlowConserves(t);
  }

  lemma FlowConserves(t: State)
    requires Flow(t)
    ensures Delivered([], t.sock.queued) == t.log + Delivered(t.buf, t.sock.queue)
    ensures MessageBytes(t.log) + t.buf + DataBytes(t.sock.queue) == DataBytes(t.sock.queued)
  {
    Resume([], t.taken, t.sock.queue);
    BytesConserved([], t.taken);
    DataBytesSplit(t.taken, t.sock.queue);
    assert [] + DataBytes(t.taken) == DataBytes(t.taken);
  }

  /** Each output goes to exactly one call, and a call gets at most one: the
      call that the lock gave it to, and no other, holds or returns it. */
  lemma OneOutputPerCall(sock: Sock, run: seq<Action>)
    requires Untouched(sock) && IsRun(Fresh(sock), run)
    ensures var t := After(Fresh(sock), run);
            && |t.who| == |t.log|
            && (forall i :: 0 <= i < |t.log| ==> t.who[i] in t.recvs && Has(t.recvs[t.who[i]], t.log[i]))
            && (forall i, j :: 0 <= i < j < |t.who| ==> t.who[i] != t.who[j])
            && (forall id, out :: id in t.recvs && t.recvs[id] == RDone(Received(out)) ==>
                  Logged(t.who, t.log, id, out))
  {
    FreshKeepsAll(sock);
    RunKeepsAll(Fresh(sock), run);
  }

  lemma {:induction false} MessagesSplit(x: seq<Output>, y: seq<Output>)
    ensures Messages(x + y) == Messages(x) + Messages(y)
  {
    if x == [] {
      assert x + y == y;
    } else {
      assert (x + y)[0] == x[0] && (x + y)[1..] == x[1..] + y;
      MessagesSplit(x[1..], y);
      Regroup(if x[0].Message? then [x[0]] else [], Messages(x[1..]), Messages(y));
    }
  }

  /** If what the kernel queued is a cutting of the messages `ms`, the messages
      handed out so far are the first of `ms`, whole and in order; and when
      nothing is queued any more they are all of them. */
  lemma WholeMessagesInOrder(sock: Sock, run: seq<Action>, ms: seq<Output>)
    requires Untouched(sock) && IsRun(Fresh(sock), run)
    requires Fragments(After(Fresh(sock), run).sock.queued, ms)
    ensures Messages(After(Fresh(sock), run).log) <= ms
    ensures After(Fresh(sock), run).sock.queue == [] ==>
              Messages(After(Fresh(sock), run).log) == ms && After(Fresh(sock), run).buf == []
  {
    Conservation(sock, run);
    FreshKeepsAll(sock);
    RunKeepsAll(Fresh(sock), run);
    var t := After(Fresh(sock), run);
    FragmentationRoundTrip(t.sock.queued, ms);
    MessagesSplit(t.log, Delivered(t.buf, t.sock.queue));
    if t.sock.queue == [] {
      assert t.taken + [] == t.taken;
    }
  }

  // ---- the end

  /** `ended` is a one-way flag. */
  lemma {:induction false} EndedStays(s: State, run: seq<Action>)
    requires IsRun(s, run) && s.ended
    ensures After(s, run).ended
    decreases |run|
  {
    if run != [] {
      assert Next(s, run[0]).ended by { EndedStep(s, run[0]); }
      EndedStays(Next(s, run[0]), run[1..]);
    }
  }

  lemma EndedStep(s: State, a: Action)
    requires Enabled(s, a) && s.ended
    ensures Next(s, a).ended
  {
  }

  /** With any number of calls: once `ended` is closed, or some call was told
      NotConnected, every record ever queued has been read, and the last output
      handed out is the notification that the association is over. */
  lemma EndIsSound(sock: Sock, run: seq<Action>)
    requires Untouched(sock) && IsRun(Fresh(sock), run)
    ensures var t := After(Fresh(sock), run);
            && (t.ended ==>
                  && t.sock.over && t.taken == t.sock.queued
                  && t.log != [] && EndsIt(t.log[|t.log| - 1]))
            && (forall id :: id in t.recvs && t.recvs[id] == RDone(RecvError(NotConnected)) ==> t.ended)
            && (forall id :: id in t.sends && t.sends[id] == SDone(SendError(NotConnected)) ==> t.ended)
  {
    FreshKeepsAll(sock);
    RunKeepsAll(Fresh(sock), run);
    var t := After(Fresh(sock), run);
    if t.ended {
      assert t.taken + [] == t.taken;
      LastOutput(t);
    }
  }

  lemma LastOutput(t: State)
    requires Flow(t) && EndsLast(t.sock) && t.sock.over && t.taken == t.sock.queued
    ensures t.log != [] && EndsIt(t.log[|t.log| - 1])
  {
    var n := |t.taken| - 1;
    var last := t.taken[n];
    assert t.taken == t.taken[..n] + [last];
    Extend([], t.taken[..n], last);
  }

  // ---- sends

  ghost predicate Started(run: seq<Action>, id: nat, call: SendCall) {
    exists i :: 0 <= i < |run| && run[i] == Send(id, SStart(call))
  }

  /** The arguments on record for a call are those it was started with. */
  lemma {:induction false} JobsAreCalls(s: State, run: seq<Action>, id: nat)
    requires IsRun(s, run) && id in After(s, run).jobs
    ensures Started(run, id, After(s, run).jobs[id]) || (id in s.jobs && s.jobs[id] == After(s, run).jobs[id])
    decreases |run|
  {
    if run != [] {
      JobsAreCalls(Next(s, run[0]), run[1..], id);
      StepKeepsJobs(s, run[0], id);
      var call := After(s, run).jobs[id];
      if Started(run[1..], id, call) {
        var i :| 0 <= i < |run[1..]| && run[1..][i] == Send(id, SStart(call));
        assert run[i + 1] == Send(id, SStart(call));
      }
    }
  }

  lemma StepKeepsJobs(s: State, a: Action, id: nat)
    requires Enabled(s, a)
    ensures id in Next(s, a).jobs ==>
              || a == Send(id, SStart(Next(s, a).jobs[id]))
              || (id in s.jobs && s.jobs[id] == Next(s, a).jobs[id])
  {
    match a {
      case World(k) =>
      case Recv(j, r) => RecvKeepsJobs(s, j, r);
      case Send(j, x) =>
    }
  }

  /** In every run: a call that returned the number of its bytes had its message
      accepted once; one that failed, was dropped or is still under way has had
      nothing accepted, however often it was told to wait. And what the kernel
      accepted is, as it reads it, exactly what the call was asked for when it
      was started. */
  lemma SendIsAtomic(sock: Sock, run: seq<Action>)
    requires Untouched(sock) && IsRun(Fresh(sock), run)
    ensures var t := After(Fresh(sock), run);
            && (forall id :: id in t.sends ==> (IsSent(t.sends[id]) <==> OnWire(t.wire, id)))
            && (forall i :: 0 <= i < |t.wire| ==>
                  var id := t.wire[i].0;
                  && id in t.jobs && Started(run, id, t.jobs[id])
                  && KernelReads(t.jobs[id].host, t.wire[i].1) == Asked(t.jobs[id])
                  && id in t.sends && t.sends[id] == SDone(Sent(|t.jobs[id].data|)))
            && (forall i, j :: 0 <= i < j < |t.wire| ==> t.wire[i].0 != t.wire[j].0)
  {
    FreshKeepsAll(sock);
    RunKeepsAll(Fresh(sock), run);
    var t := After(Fresh(sock), run);
    forall i | 0 <= i < |t.wire|
      ensures Accepted(t.sends, t.jobs, t.wire[i])
      ensures Started(run, t.wire[i].0, t.jobs[t.wire[i].0])
      ensures KernelReads(t.jobs[t.wire[i].0].host, t.wire[i].1) == Asked(t.jobs[t.wire[i].0])
    {
      assert Accepted(t.sends, t.jobs, t.wire[i]);
      JobsAreCalls(Fresh(sock), run, t.wire[i].0);
      KernelReadsCall(t.jobs[t.wire[i].0]);
    }
    forall id | id in t.sends && OnWire(t.wire, id) ensures IsSent(t.sends[id]) {
      var i :| 0 <= i < |t.wire| && t.wire[i].0 == id;
      assert Accepted(t.sends, t.jobs, t.wire[i]);
    }
  }
}
