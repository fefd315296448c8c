/** Which error a call is told, over all runs: exactly by the step that gave it,
and only for a reason that the kernel had. */
module CallResults {
  import opened Wire
  import opened Reassembling
  import opened Sockets
  import opened Association
  import opened AssociationProofs

  // ---- receives

  predicate Told(s: State, id: nat, error: SctpError) {
    id in s.recvs && s.recvs[id] == RDone(RecvError(error))
  }

  /** The step that gives receive `id` an error: it reads an empty queue and
      finds the socket error, or none and that the peer has shut down; or it
      looks at `ended` after a read that found neither, and it is closed. */
  predicate Gives(s: State, a: Action, id: nat, error: SctpError) {
    && a.Recv? && a.id == id
    && match error
       case Io(v) => a.r.RRead? && s.sock.queue == [] && s.sock.soError == Some(v)
       case PeerShutdown => a.r.RRead? && s.sock.queue == [] && s.sock.soError.None? && s.sock.peerShut
       case NotConnected => a.r.RCheck? && s.ended
       case InvalidData => false
  }

  predicate Given(s: State, run: seq<Action>, id: nat, error: SctpError)
    requires IsRun(s, run)
    decreases |run|
  {
    run != [] && (Gives(s, run[0], id, error) || Given(Next(s, run[0]), run[1..], id, error))
  }

  lemma RecvTells(s: State, j: nat, r: RecvAct, id: nat, error: SctpError)
    requires RecvEnabled(s, j, r)
    ensures Told(RecvStep(s, j, r), id, error) <==> Told(s, id, error) || Gives(s, Recv(j, r), id, error)
  {
    if r.RRead? && s.sock.queue != [] {
      assert TakeStep(s, j).recvs == s.recvs[j := TakeStep(s, j).recvs[j]];
    }
  }

  lemma StepTells(s: State, a: Action, id: nat, error: SctpError)
    requires Enabled(s, a)
    ensures Told(Next(s, a), id, error) <==> Told(s, id, error) || Gives(s, a, id, error)
  {
    match a {
      case World(k) =>
      case Recv(j, r) => RecvTells(s, j, r, id, error);
      case Send(j, x) => assert SendStep(s, j, x).recvs == s.recvs;
    }
  }

  lemma {:induction false} ToldExactly(s: State, run: seq<Action>, id: nat, error: SctpError)
    requires IsRun(s, run)
    ensures Told(After(s, run), id, error) <==> Told(s, id, error) || Given(s, run, id, error)
    decreases |run|
  {
    if run != [] {
      StepTells(s, run[0], id, error);
      ToldExactly(Next(s, run[0]), run[1..], id, error);
    }
  }

  /** In every run, with any number of calls: a receive has returned an error if
      and only if a step of the run gave it that very one. */
  lemma ReceiveErrorExactly(sock: Sock, run: seq<Action>, id: nat, error: SctpError)
    requires IsRun(Fresh(sock), run)
    ensures Told(After(Fresh(sock), run), id, error) <==> Given(Fresh(sock), run, id, error)
  {
    ToldExactly(Fresh(sock), run, id, error);
  }

  // ---- where the errors come from

  predicate EndsWith(a: Action, v: int) { a.World? && a.k.End? && a.k.error == Some(v) }

  ghost predicate EndedWith(run: seq<Action>, v: int) {
    exists i :: 0 <= i < |run| && EndsWith(run[i], v)
  }

  lemma SendSource(s: State, id: nat, a: SendAct)
    requires SendEnabled(s, id, a)
    ensures var t := SendStep(s, id, a).sock;
            t.peerShut == s.sock.peerShut && (t.soError == s.sock.soError || t.soError.None?)
  {
    SendSocketIs(s, id, a);
  }

  lemma RecvSource(s: State, id: nat, a: RecvAct)
    requires RecvEnabled(s, id, a)
    ensures var t := RecvStep(s, id, a).sock;
            t.peerShut == s.sock.peerShut && (t.soError == s.sock.soError || t.soError.None?)
  {
    if a.RRead? && s.sock.queue != [] {
      assert TakeStep(s, id).sock == s.sock.(queue := s.sock.queue[1..]);
    } else {
      RecvSocketIs(s, id, a);
    }
  }

  lemma WorldSource(s: Sock, k: Kernel, v: int)
    ensures Happen(s, k).soError == Some(v) ==> s.soError == Some(v) || EndsWith(World(k), v)
    ensures Happen(s, k).peerShut ==> s.peerShut || k.PeerShuts?
  {
    match k {
      case Arrive(_) =>
      case MakeRoom =>
      case PeerShuts =>
      case End(_, _, _) =>
      case Nudge(_) =>
      case Deliver =>
    }
  }

  lemma StepSource(s: State, a: Action, v: int)
    requires Enabled(s, a)
    ensures Next(s, a).sock.soError == Some(v) ==> s.sock.soError == Some(v) || EndsWith(a, v)
    ensures Next(s, a).sock.peerShut ==> s.sock.peerShut || a == World(PeerShuts)
  {
    match a {
      case World(k) => WorldSource(s.sock, k, v);
      case Recv(id, r) => RecvSource(s, id, r);
      case Send(id, x) => SendSource(s, id, x);
    }
  }

  lemma {:induction false} GivenSource(s: State, run: seq<Action>, id: nat, v: int)
    requires IsRun(s, run)
    ensures Given(s, run, id, Io(v)) ==> s.sock.soError == Some(v) || EndedWith(run, v)
    ensures Given(s, run, id, PeerShutdown) ==> s.sock.peerShut || World(PeerShuts) in run
    decreases |run|
  {
    if run != [] {
      StepSource(s, run[0], v);
      GivenSource(Next(s, run[0]), run[1..], id, v);
      assert EndsWith(run[0], v) ==> EndedWith(run, v);
      if EndedWith(run[1..], v) {
        var i :| 0 <= i < |run[1..]| && EndsWith(run[1..][i], v);
        assert EndsWith(run[i + 1], v);
      }
    }
  }

  /** In every run: a receive is told of a socket error only if the association
      ended with that error in the run or it was on the socket from the start,
      and of the peer's shutdown only if the peer shut down. */
  lemma ErrorsAreReal(sock: Sock, run: seq<Action>, id: nat, v: int)
    requires IsRun(Fresh(sock), run)
    ensures var t := After(Fresh(sock), run);
            && (Told(t, id, Io(v)) ==> sock.soError == Some(v) || EndedWith(run, v))
            && (Told(t, id, PeerShutdown) ==> sock.peerShut || World(PeerShuts) in run)
            && !Told(t, id, InvalidData)
  {
    ReceiveErrorExactly(sock, run, id, Io(v));
    ReceiveErrorExactly(sock, run, id, PeerShutdown);
    ReceiveErrorExactly(sock, run, id, InvalidData);
    GivenSource(Fresh(sock), run, id, v);
    NeverInvalid(Fresh(sock), run, id);
  }

  lemma {:induction false} NeverInvalid(s: State, run: seq<Action>, id: nat)
    requires IsRun(s, run)
    ensures !Given(s, run, id, InvalidData)
    decreases |run|
  {
    if run != [] {
      NeverInvalid(Next(s, run[0]), run[1..], id);
    }
  }

  // ---- the socket error goes to one receive

  predicate ToldIo(p: RecvPc) { p.RDone? && p.result.RecvError? && p.result.error.Io? }

  ghost predicate Spent(s: State) {
    && (s.sock.soError.Some? ==> s.sock.over)
    && (forall id :: id in s.recvs && ToldIo(s.recvs[id]) ==> s.sock.over && s.sock.soError.None?)
    && (forall i, j :: i in s.recvs && j in s.recvs && ToldIo(s.recvs[i]) && ToldIo(s.recvs[j]) ==> i == j)
  }

  lemma RecvKeepsSpent(s: State, id: nat, a: RecvAct)
    requires Spent(s) && RecvEnabled(s, id, a)
    ensures Spent(RecvStep(s, id, a))
  {
    if a.RRead? && s.sock.queue != [] {
      assert TakeStep(s, id).sock == s.sock.(queue := s.sock.queue[1..]);
      assert TakeStep(s, id).recvs == s.recvs[id := TakeStep(s, id).recvs[id]];
    } else {
      RecvSocketIs(s, id, a);
      RecvFrame(s, id, a);
    }
  }

  lemma SendKeepsSpent(s: State, id: nat, a: SendAct)
    requires Spent(s) && SendEnabled(s, id, a)
    ensures Spent(SendStep(s, id, a))
  {
    SendSocketIs(s, id, a);
    assert SendStep(s, id, a).recvs == s.recvs;
  }

  lemma {:induction false} RunKeepsSpent(s: State, run: seq<Action>)
    requires Spent(s) && IsRun(s, run)
    ensures Spent(After(s, run))
    decreases |run|
  {
    if run != [] {
      match run[0] {
        case World(k) =>
        case Recv(id, r) => RecvKeepsSpent(s, id, r);
        case Send(id, x) => SendKeepsSpent(s, id, x);
      }
      RunKeepsSpent(Next(s, run[0]), run[1..]);
    }
  }

  /** In every run at most one receive is told of the socket error. */
  lemma OneIsToldTheError(sock: Sock, run: seq<Action>, i: nat, j: nat, v: int, w: int)
    requires Untouched(sock) && IsRun(Fresh(sock), run)
    requires Told(After(Fresh(sock), run), i, Io(v)) && Told(After(Fresh(sock), run), j, Io(w))
    ensures i == j && v == w
  {
    RunKeepsSpent(Fresh(sock), run);
  }

  // ---- sends

  predicate SendTold(s: State, id: nat, error: SctpError) {
    id in s.sends && s.sends[id] == SDone(SendError(error))
  }

  /** The step that gives send `id` an error: the kernel refuses it, with the
      socket error or another; or `ended` is closed while nothing makes it try. */
  predicate SendGives(s: State, a: Action, id: nat, error: SctpError) {
    match a
    case Send(j, STry(Refuse(takesError, errno))) =>
      j == id && error == Io(if takesError && s.sock.soError.Some? then s.sock.soError.value else errno)
    case Send(j, SQuit) => j == id && s.ended && !Writable(s) && error == NotConnected
    case _ => false
  }

  predicate SendGiven(s: State, run: seq<Action>, id: nat, error: SctpError)
    requires IsRun(s, run)
    decreases |run|
  {
    run != [] && (SendGives(s, run[0], id, error) || SendGiven(Next(s, run[0]), run[1..], id, error))
  }

  lemma SendTells(s: State, j: nat, x: SendAct, id: nat, error: SctpError)
    requires SendEnabled(s, j, x)
    ensures SendTold(SendStep(s, j, x), id, error) <==> SendTold(s, id, error) || SendGives(s, Send(j, x), id, error)
  {
  }

  lemma StepTellsSends(s: State, a: Action, id: nat, error: SctpError)
    requires Enabled(s, a)
    ensures SendTold(Next(s, a), id, error) <==> SendTold(s, id, error) || SendGives(s, a, id, error)
  {
    match a {
      case World(k) =>
      case Recv(j, r) => RecvKeepsJobs(s, j, r);
      case Send(j, x) => SendTells(s, j, x, id, error);
    }
  }

  lemma {:induction false} SendToldExactly(s: State, run: seq<Action>, id: nat, error: SctpError)
    requires IsRun(s, run)
    ensures SendTold(After(s, run), id, error) <==> SendTold(s, id, error) || SendGiven(s, run, id, error)
    decreases |run|
  {
    if run != [] {
      StepTellsSends(s, run[0], id, error);
      SendToldExactly(Next(s, run[0]), run[1..], id, error);
    }
  }

  /** In every run: a send has returned an error if and only if a step of the run gave it that very one. */
  lemma SendErrorExactly(sock: Sock, run: seq<Action>, id: nat, error: SctpError)
    requires IsRun(Fresh(sock), run)
    ensures SendTold(After(Fresh(sock), run), id, error) <==> SendGiven(Fresh(sock), run, id, error)
  {
    SendToldExactly(Fresh(sock), run, id, error);
  }
}
