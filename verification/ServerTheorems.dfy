/** A one-to-many socket with any number of receiving tasks: what its shared
buffer hands out, association by association. */
module ServerTheorems {
  import opened Wire
  import opened Reassembling
  import opened Fragmentation
  import opened SharedBuffer
  import opened Sockets
  import opened Association
  import opened AssociationProofs
  import opened Peeloff

  lemma TakenFit(t: State)
    requires Flow(t) && Sound(t.sock)
    ensures AllFit(t.taken)
  {
    forall i | 0 <= i < |t.taken| ensures Fits(t.taken[i]) {
      assert t.taken[i] == t.sock.queued[i];
    }
  }

  /** In every run, with any number of concurrent and dropped receives, the
      outputs handed out in the order of the lock are those of separate buffers
      per association (or stream) if and only if fragments of different ones did
      not mix, up to the last message that ended; and exactly then the messages
      of each are the reassembly of its own records alone. */
  lemma SharedBufferOverRuns(mode: Keying, sock: Sock, run: seq<Action>)
    requires Untouched(sock) && IsRun(Fresh(sock), run)
    ensures var t := After(Fresh(sock), run);
            && (t.log == Separately(mode, map[], t.taken) <==> Contiguous(mode, None, Through(t.taken)))
            && (EachOwn(mode, t.log, t.taken) <==> Contiguous(mode, None, Through(t.taken)))
  {
    FreshKeepsAll(sock);
    RunKeepsAll(Fresh(sock), run);
    var t := After(Fresh(sock), run);
    TakenFit(t);
    ServerRefinesSeparate(mode, t.taken);
    EachKeyExactly(mode, t.taken);
  }

  // ---- branching an association off in the middle of a run

  /** The server at the moment of a peeloff: the kernel takes what moves out of its queue. */
  function Peeled(s: State, moves: seq<bool>): State
    requires |moves| == |s.sock.queue|
  {
    var kept := Pick(s.sock.queue, moves, false);
    s.(sock := s.sock.(queue := kept, queued := s.taken + kept))
  }

  /** The server's invariant survives whatever calls are under way. */
  lemma PeeloffKeepsAll(s: State, k: Key, moves: seq<bool>)
    requires Inv(s) && s.sock.many && Divides(k, s.sock.queue, moves)
    ensures Inv(Peeled(s, moves))
  {
    Divided(k, s.sock.queue, moves, k);
    QueueFits(s);
    PickFits(s.sock.queue, moves, false);
    ShorterKeepsWakes(s, Pick(s.sock.queue, moves, false));
  }

  lemma ShorterKeepsWakes(s: State, kept: seq<Record>)
    requires Wakes(s) && s.sock.many && (s.sock.queue == [] ==> kept == []) && AllFit(s.taken) && AllFit(kept)
    ensures Wakes(s.(sock := s.sock.(queue := kept, queued := s.taken + kept)))
  {
    var sock := s.sock.(queue := kept, queued := s.taken + kept);
    assert Quiet(s.sock, sock);
    assert Sound(sock);
  }

  lemma QueueFits(s: State)
    requires Flow(s) && Sound(s.sock)
    ensures AllFit(s.sock.queue) && AllFit(s.taken)
  {
    TakenFit(s);
    forall i | 0 <= i < |s.sock.queue| ensures Fits(s.sock.queue[i]) {
      assert s.sock.queue[i] == s.sock.queued[|s.taken| + i];
    }
  }

  // What was read stays read, only an arrival or an end adds to what was
  // queued, and a one-to-many socket stays one.

  /** What a step queues. */
  function Adds(a: Action): seq<Record> {
    match a
    case World(Arrive(r)) => [r]
    case World(End(n, _, _)) => [Notice(n)]
    case _ => []
  }

  lemma WorldGrows(s: Sock, k: Kernel)
    ensures Happen(s, k).queued == s.queued + Adds(World(k)) && Happen(s, k).many == s.many
  {
    match k {
      case Arrive(r) =>
      case End(n, _, _) =>
      case MakeRoom =>
      case PeerShuts =>
      case Nudge(_) =>
      case Deliver =>
    }
  }

  lemma RecvGrows(s: State, id: nat, a: RecvAct)
    requires RecvEnabled(s, id, a)
    ensures var t := RecvStep(s, id, a);
            s.taken <= t.taken && t.sock.queued == s.sock.queued && t.sock.many == s.sock.many
  {
    if a.RRead? && s.sock.queue != [] {
    } else {
      RecvLeaves(s, id, a);
      RecvFrame(s, id, a);
    }
  }

  lemma SendGrows(s: State, id: nat, a: SendAct)
    requires SendEnabled(s, id, a)
    ensures var t := SendStep(s, id, a);
            t.taken == s.taken && t.sock.queued == s.sock.queued && t.sock.many == s.sock.many
  {
  }

  lemma StepGrows(s: State, a: Action)
    requires Enabled(s, a)
    ensures s.taken <= Next(s, a).taken && Next(s, a).sock.queued == s.sock.queued + Adds(a)
    ensures Next(s, a).sock.many == s.sock.many
  {
    match a {
      case World(k) => WorldGrows(s.sock, k);
      case Recv(id, r) => RecvGrows(s, id, r);
      case Send(id, x) => SendGrows(s, id, x);
    }
  }

  lemma {:induction false} Grows(s: State, run: seq<Action>)
    requires IsRun(s, run)
    ensures s.taken <= After(s, run).taken && s.sock.queued <= After(s, run).sock.queued
    ensures After(s, run).sock.many == s.sock.many
    decreases |run|
  {
    if run != [] {
      StepGrows(s, run[0]);
      Grows(Next(s, run[0]), run[1..]);
    }
  }

  /** No data of `k` arrives. */
  predicate Without(k: Key, run: seq<Action>) {
    run == [] || (!(run[0].World? && run[0].k.Arrive? && Of(k, run[0].k.record)) && Without(k, run[1..]))
  }

  ghost predicate NoneFrom(k: Key, n: nat, queued: seq<Record>) {
    forall i :: n <= i < |queued| ==> !Of(k, queued[i])
  }

  lemma {:induction false} NoneArrives(s: State, run: seq<Action>, k: Key, n: nat)
    requires IsRun(s, run) && Without(k, run) && NoneFrom(k, n, s.sock.queued)
    ensures NoneFrom(k, n, After(s, run).sock.queued)
    decreases |run|
  {
    if run != [] {
      StepGrows(s, run[0]);
      NoneArrives(Next(s, run[0]), run[1..], k, n);
    }
  }

  lemma {:induction false} OnlyNone(k: Key, rs: seq<Record>)
    requires NoneOf(k, rs)
    ensures Only(ByAssociation, k, rs) == []
  {
    if rs != [] {
      OnlyNone(k, rs[1..]);
    }
  }

  lemma {:induction false} NoneOnly(k: Key, rs: seq<Record>)
    requires Only(ByAssociation, k, rs) == []
    ensures NoneOf(k, rs)
  {
    if rs != [] {
      NoneOnly(k, rs[1..]);
      forall i | 0 <= i < |rs| ensures !Of(k, rs[i]) {
        if i > 0 {
          assert rs[i] == rs[1..][i - 1];
        }
      }
    }
  }

  /** Every record of another association that was queued by then is still the server's. */
  lemma OthersStay(k: Key, j: Key, s: State, moves: seq<bool>, later: seq<Action>)
    requires Inv(s) && Divides(k, s.sock.queue, moves) && IsRun(Peeled(s, moves), later) && j != k
    ensures Only(ByAssociation, j, s.sock.queued) <= Only(ByAssociation, j, After(Peeled(s, moves), later).sock.queued)
  {
    var p := Peeled(s, moves);
    Grows(p, later);
    Divided(k, s.sock.queue, moves, j);
    OnlySplit(ByAssociation, j, s.taken, s.sock.queue);
    OnlySplit(ByAssociation, j, s.taken, p.sock.queue);
    var queued, more := p.sock.queued, After(p, later).sock.queued[|p.sock.queued|..];
    assert After(p, later).sock.queued == queued + more;
    OnlySplit(ByAssociation, j, queued, more);
  }

  /** On the server, from the peeloff on: no record of `k` is read any more ... */
  lemma NoneTaken(k: Key, s: State, moves: seq<bool>, later: seq<Action>)
    requires Inv(s) && s.sock.many && Divides(k, s.sock.queue, moves)
    requires IsRun(Peeled(s, moves), later) && Without(k, later)
    ensures var t := After(Peeled(s, moves), later);
            Inv(t) && s.taken <= t.taken && NoneOf(k, t.taken[|s.taken|..])
  {
    var p := Peeled(s, moves);
    var t, n := After(p, later), |s.taken|;
    PeeloffKeepsAll(s, k, moves);
    RunKeepsAll(p, later);
    Grows(p, later);
    Divided(k, s.sock.queue, moves, k);
    NoneOnly(k, p.sock.queue);
    NoneArrives(p, later, k, n);
    NoneAmong(k, n, t.taken, t.sock.queue);
  }

  lemma NoneAmong(k: Key, n: nat, taken: seq<Record>, queue: seq<Record>)
    requires n <= |taken| && NoneFrom(k, n, taken + queue)
    ensures NoneOf(k, taken[n..])
  {
    forall i | 0 <= i < |taken| - n ensures !Of(k, taken[n..][i]) {
      assert taken[n..][i] == (taken + queue)[n + i];
    }
  }

  /** What is handed out after `s` comes of what is read after it, and of the buffer. */
  lemma LaterLog(s: State, t: State)
    requires Flow(s) && Flow(t) && s.taken <= t.taken
    ensures t.log == s.log + Delivered(s.buf, t.taken[|s.taken|..])
  {
    var rest := t.taken[|s.taken|..];
    assert t.taken == s.taken + rest;
    Resume([], s.taken, rest);
  }

  /** ... and no message of it comes out, whatever the server holds and reads. */
  lemma NoneOfPeeled(k: Key, s: State, t: State)
    requires Flow(s) && Flow(t) && s.taken <= t.taken && NoneOf(k, t.taken[|s.taken|..])
    ensures For(ByAssociation, k, t.log) == For(ByAssociation, k, s.log)
    ensures Only(ByAssociation, k, t.taken) == Only(ByAssociation, k, s.taken)
  {
    var rest := t.taken[|s.taken|..];
    LaterLog(s, t);
    NoneAfter(k, s.log, s.buf, rest);
    assert t.taken == s.taken + rest;
    OnlyBefore(k, s.taken, rest);
  }

  lemma NoneAfter(k: Key, log: seq<Output>, buf: seq<byte>, rest: seq<Record>)
    requires NoneOf(k, rest)
    ensures For(ByAssociation, k, log + Delivered(buf, rest)) == For(ByAssociation, k, log)
  {
    ForSplit(ByAssociation, k, log, Delivered(buf, rest));
    NoneOut(k, buf, rest);
    assert For(ByAssociation, k, log) + [] == For(ByAssociation, k, log);
  }

  lemma OnlyBefore(k: Key, taken: seq<Record>, rest: seq<Record>)
    requires NoneOf(k, rest)
    ensures Only(ByAssociation, k, taken + rest) == Only(ByAssociation, k, taken)
  {
    OnlySplit(ByAssociation, k, taken, rest);
    OnlyNone(k, rest);
    assert Only(ByAssociation, k, taken) + [] == Only(ByAssociation, k, taken);
  }

  /** The new socket, as the kernel hands it over: it holds what moved. */
  ghost predicate HoldsMoved(s: State, moves: seq<bool>, peeled: Sock)
    requires |moves| == |s.sock.queue|
  {
    && peeled.queue == peeled.queued == Pick(s.sock.queue, moves, true)
    && EndsLast(peeled) && (peeled.failed ==> peeled.soError.Some?)
  }

  lemma PeeledRuns(s: State, moves: seq<bool>, peeled: Sock, use: seq<Action>)
    requires Inv(s) && |moves| == |s.sock.queue| && HoldsMoved(s, moves, peeled)
    requires IsRun(Fresh(Register(peeled)), use)
    ensures Inv(After(Fresh(Register(peeled)), use))
    ensures peeled.queued <= After(Fresh(Register(peeled)), use).sock.queued
  {
    QueueFits(s);
    PickFits(s.sock.queue, moves, true);
    RegisteredIsUntouched(peeled);
    FreshKeepsAll(Register(peeled));
    RunKeepsAll(Fresh(Register(peeled)), use);
    Grows(Fresh(Register(peeled)), use);
  }

  /** Every record of `k` that was queued by then was read by the server or is the new socket's. */
  lemma PeeledStays(k: Key, taken: seq<Record>, queue: seq<Record>, moves: seq<bool>, queued: seq<Record>)
    requires Divides(k, queue, moves) && Pick(queue, moves, true) <= queued
    ensures Only(ByAssociation, k, taken + queue) <= Only(ByAssociation, k, taken) + DataOnly(queued)
  {
    var moved := Pick(queue, moves, true);
    var more := queued[|moved|..];
    assert queued == moved + more;
    Divided(k, queue, moves, k);
    OnlySplit(ByAssociation, k, taken, queue);
    DataOnlySplit(moved, more);
    Regroup(Only(ByAssociation, k, taken), DataOnly(moved), DataOnly(more));
  }

  /** The server at the peeloff and after it. */
  ghost predicate PeelsOff(k: Key, server: Sock, before: seq<Action>, moves: seq<bool>, later: seq<Action>) {
    && Untouched(server) && server.many && IsRun(Fresh(server), before)
    && var s := After(Fresh(server), before);
       Divides(k, s.sock.queue, moves) && IsRun(Peeled(s, moves), later) && Without(k, later)
  }

  /** A server runs with any number of calls, association `k` is peeled off, and
      server and new association run on with any number of calls each; data of
      `k` arrives at the new socket from then on. With `s` the server at the
      peeloff and `t` and `u` the two at the end, whatever comes at the server:
      (a) it hands out no more of `k`;
      (b) if fragments did not mix before the peeloff, its messages of `k` and
          those of the new association are together the reassembly of what was
          read of `k`, if and only if the server held no fragment of `k` or no
          message of `k` ends any more;
      (c) the server's outputs are those of separate buffers, and each
          association's the reassembly of its own records, if and only if
          fragments do not mix on it up to the last message that ended;
      (d) which they do if it held a fragment of `k` and hands out another message;
      (e) no record that was queued is lost to either. */
  lemma PeeloffOverRuns(k: Key, server: Sock, before: seq<Action>, moves: seq<bool>, later: seq<Action>,
                        peeled: Sock, use: seq<Action>)
    requires PeelsOff(k, server, before, moves, later)
    requires HoldsMoved(After(Fresh(server), before), moves, peeled)
    requires IsRun(Fresh(Register(peeled)), use)
    ensures var s := After(Fresh(server), before);
            var t := After(Peeled(s, moves), later);
            var u := After(Fresh(Register(peeled)), use);
            && s.taken <= t.taken
            && For(ByAssociation, k, t.log) == For(ByAssociation, k, s.log)
            && (Contiguous(ByAssociation, None, s.taken) ==>
                  (For(ByAssociation, k, t.log) + Messages(u.log)
                     == Delivered([], Only(ByAssociation, k, s.taken) + DataOnly(u.taken))
                   <==> OpenAtEnd(ByAssociation, None, s.taken) != Some(k) || !HasEnd(DataOnly(u.taken))))
            && (t.log == Separately(ByAssociation, map[], t.taken)
                <==> Contiguous(ByAssociation, None, Through(t.taken)))
            && (EachOwn(ByAssociation, t.log, t.taken) <==> Contiguous(ByAssociation, None, Through(t.taken)))
            && (OpenAtEnd(ByAssociation, None, s.taken) == Some(k) && HasEnd(t.taken[|s.taken|..]) ==>
                  t.log != Separately(ByAssociation, map[], t.taken))
            && u.taken + u.sock.queue == u.sock.queued
            && Only(ByAssociation, k, s.sock.queued) <= Only(ByAssociation, k, s.taken) + DataOnly(u.sock.queued)
            && (forall j :: j != k ==>
                  Only(ByAssociation, j, s.sock.queued) <= Only(ByAssociation, j, t.sock.queued))
  {
    ServerAfter(k, server, before, moves, later);
    var s := After(Fresh(server), before);
    var u := After(Fresh(Register(peeled)), use);
    PeeledRuns(s, moves, peeled, use);
    PeeledStays(k, s.taken, s.sock.queue, moves, u.sock.queued);
    if Contiguous(ByAssociation, None, s.taken) {
      PeeledLog(k, s, u);
    }
    forall j | j != k
      ensures Only(ByAssociation, j, s.sock.queued)
           <= Only(ByAssociation, j, After(Peeled(s, moves), later).sock.queued)
    {
      OthersStay(k, j, s, moves, later);
    }
  }

  lemma ServerAfter(k: Key, server: Sock, before: seq<Action>, moves: seq<bool>, later: seq<Action>)
    requires PeelsOff(k, server, before, moves, later)
    ensures var s := After(Fresh(server), before);
            var t := After(Peeled(s, moves), later);
            && Inv(s) && Inv(t) && s.taken <= t.taken && NoneOf(k, t.taken[|s.taken|..])
            && For(ByAssociation, k, t.log) == For(ByAssociation, k, s.log)
            && Only(ByAssociation, k, t.taken) == Only(ByAssociation, k, s.taken)
            && (t.log == Separately(ByAssociation, map[], t.taken)
                <==> Contiguous(ByAssociation, None, Through(t.taken)))
            && (EachOwn(ByAssociation, t.log, t.taken) <==> Contiguous(ByAssociation, None, Through(t.taken)))
            && (OpenAtEnd(ByAssociation, None, s.taken) == Some(k) && HasEnd(t.taken[|s.taken|..]) ==>
                  !Contiguous(ByAssociation, None, Through(t.taken)))
  {
    FreshKeepsAll(server);
    RunKeepsAll(Fresh(server), before);
    Grows(Fresh(server), before);
    var s := After(Fresh(server), before);
    var t := After(Peeled(s, moves), later);
    NoneTaken(k, s, moves, later);
    NoneOfPeeled(k, s, t);
    TakenFit(t);
    EachExactly(k, s.taken, t.taken);
  }

  lemma EachExactly(k: Key, before: seq<Record>, taken: seq<Record>)
    requires AllFit(taken) && before <= taken && NoneOf(k, taken[|before|..])
    ensures Delivered([], taken) == Separately(ByAssociation, map[], taken)
            <==> Contiguous(ByAssociation, None, Through(taken))
    ensures EachOwn(ByAssociation, Delivered([], taken), taken) <==> Contiguous(ByAssociation, None, Through(taken))
    ensures OpenAtEnd(ByAssociation, None, before) == Some(k) && HasEnd(taken[|before|..]) ==>
              !Contiguous(ByAssociation, None, Through(taken))
  {
    ServerRefinesSeparate(ByAssociation, taken);
    EachKeyExactly(ByAssociation, taken);
    var rest := taken[|before|..];
    assert taken == before + rest;
    if OpenAtEnd(ByAssociation, None, before) == Some(k) && HasEnd(rest) {
      OpenThenForeign(None, k, before, rest);
    }
  }

  /** What becomes of a fragment of `k` that the server holds at the peeloff: it
      is put in front of the next message that the server hands out, which is
      one of another association, whose messages are then not its own. */
  lemma PeeledFragmentLeaks(k: Key, server: Sock, before: seq<Action>, moves: seq<bool>, later: seq<Action>)
    returns (j: Key)
    requires PeelsOff(k, server, before, moves, later)
    requires var s := After(Fresh(server), before);
             var t := After(Peeled(s, moves), later);
             && Contiguous(ByAssociation, None, s.taken) && OpenAtEnd(ByAssociation, None, s.taken) == Some(k)
             && |s.taken| <= |t.taken| && HasEnd(t.taken[|s.taken|..])
    ensures var s := After(Fresh(server), before);
            var t := After(Peeled(s, moves), later);
            && s.buf != [] && s.buf == Buffered([], Only(ByAssociation, k, s.taken))
            && s.log <= t.log
            && var next := Messages(t.log[|s.log|..]);
               next != [] && next[0].Message? && s.buf <= next[0].data && KeyOf(ByAssociation, next[0].info) != k
    ensures var t := After(Peeled(After(Fresh(server), before), moves), later);
            j != k && For(ByAssociation, j, t.log) != Delivered([], Only(ByAssociation, j, t.taken))
  {
    ServerAfter(k, server, before, moves, later);
    var s := After(Fresh(server), before);
    var t := After(Peeled(s, moves), later);
    var rest := t.taken[|s.taken|..];
    TakenFit(s);
    HeldFragment(k, s.taken);
    LaterLog(s, t);
    assert t.log[|s.log|..] == Delivered(s.buf, rest);
    FrontOfNext(k, s.buf, rest);
    ServerFor(ByAssociation, s.taken, k);
    j :| For(ByAssociation, j, t.log) != Delivered([], Only(ByAssociation, j, t.taken));
  }

  /** A one-to-many socket, just registered. */
  function Server(repoll: bool): Sock {
    Register(Sock([], [], None, true, false, false, false, false, false, NONE, NONE, 0, repoll, true))
  }

  /** Such runs exist: the server reads a fragment of one association, which is
      peeled off, and hands it out in front of a message of another. */
  lemma PeeledFragmentCanLeak(repoll: bool, a: RecvInfo, c: RecvInfo) returns (before: seq<Action>, later: seq<Action>)
    requires a.assocId != c.assocId
    ensures var k := KeyOf(ByAssociation, a);
            && PeelsOff(k, Server(repoll), before, [], later)
            && var s := After(Fresh(Server(repoll)), before);
               var t := After(Peeled(s, []), later);
               && s.taken == [Data([1], false, a, None)] && OpenAtEnd(ByAssociation, None, s.taken) == Some(k)
               && t.taken == s.taken + [Data([2], true, c, None)] && t.log == [Message([1, 2], c, None)]
  {
    var first, next := Data([1], false, a, None), Data([2], true, c, None);
    before := ReadFragment(repoll, first);
    var s := After(Fresh(Server(repoll)), before);
    assert Pick([], [], false) == [] && s.taken + [] == s.taken;
    assert Peeled(s, []) == s;
    later := ReadNext(s, KeyOf(ByAssociation, a), next);
    assert [first][1..] == [] && [1] + [2] == [1, 2];
  }

  lemma ReadNext(s: State, k: Key, r: Record) returns (run: seq<Action>)
    requires Fits(r) && r.Data? && r.eor && !Of(k, r)
    requires s.recvs == map[1 := RWait] && s.sock.queue == [] && s.sock.ready.r && !s.sock.over
    ensures IsRun(s, run) && Without(k, run)
    ensures var t := After(s, run);
            t.taken == s.taken + [r] && t.log == s.log + [Message(s.buf + r.payload, r.info, r.addr)]
  {
    run := [];
    Continue(s, run, World(Arrive(r)));
    run := run + [World(Arrive(r))];
    Continue(s, run, Recv(1, RWake));
    run := run + [Recv(1, RWake)];
    Continue(s, run, Recv(1, RRead));
    run := run + [Recv(1, RRead)];
    assert run[1..] == [Recv(1, RWake), Recv(1, RRead)] && run[1..][1..] == [Recv(1, RRead)];
    assert run[1..][1..][1..] == [];
    assert Without(k, run[1..][1..]);
    assert Without(k, run[1..]);
  }

  lemma ReadFragment(repoll: bool, r: Record) returns (run: seq<Action>)
    requires Fits(r) && r.Data? && !r.eor
    ensures Untouched(Server(repoll)) && IsRun(Fresh(Server(repoll)), run)
    ensures var s := After(Fresh(Server(repoll)), run);
            && s.taken == [r] && s.buf == r.payload && s.log == [] && s.recvs == map[1 := RWait]
            && s.sock.queue == [] && s.sock.queued == [r] && s.sock.ready.r && !s.sock.over && s.sock.many
  {
    var s := Fresh(Server(repoll));
    run := [];
    Continue(s, run, Recv(1, RStart));
    run := run + [Recv(1, RStart)];
    Continue(s, run, World(Arrive(r)));
    run := run + [World(Arrive(r))];
    Continue(s, run, World(Deliver));
    run := run + [World(Deliver)];
    Continue(s, run, Recv(1, RWake));
    run := run + [Recv(1, RWake)];
    Continue(s, run, Recv(1, RRead));
    run := run + [Recv(1, RRead)];
    assert [r][1..] == [] && [] + r.payload == r.payload;
  }

  lemma PeeledLog(k: Key, s: State, u: State)
    requires Inv(s) && Inv(u) && Contiguous(ByAssociation, None, s.taken)
    ensures For(ByAssociation, k, s.log) + Messages(u.log)
              == Delivered([], Only(ByAssociation, k, s.taken) + DataOnly(u.taken))
            <==> OpenAtEnd(ByAssociation, None, s.taken) != Some(k) || !HasEnd(DataOnly(u.taken))
  {
    TakenFit(s);
    NoticesTransparent([], u.taken);
    PeeledExactly(k, s.taken, DataOnly(u.taken));
  }
}
