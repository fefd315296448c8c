/** Branching one association off a one-to-many socket: `SctpServer::peeloff`.

The kernel moves what is queued for the association to the new socket, which
starts with an empty reassembly buffer; the server keeps its own.
*/
module Peeloff {
  import opened Wire
  import opened Reassembling
  import opened Fragmentation
  import opened SharedBuffer

  function BuffersAfter(mode: Keying, m: Buffers, rs: seq<Record>): Buffers
    decreases |rs|
  {
    if rs == [] then m else BuffersAfter(mode, KeepOwn(mode, m, rs[0]), rs[1..])
  }

  lemma {:induction false} HeldAfter(mode: Keying, m: Buffers, rs: seq<Record>, k: Key)
    ensures Held(BuffersAfter(mode, m, rs), k) == Buffered(Held(m, k), Only(mode, k, rs))
    decreases |rs|
  {
    if rs != [] {
      var r := rs[0];
      HeldAfter(mode, KeepOwn(mode, m, r), rs[1..], k);
      if r.Data? && KeyOf(mode, r.info) == k {
        assert ([r] + Only(mode, k, rs[1..]))[1..] == Only(mode, k, rs[1..]);
      } else {
        assert [] + Only(mode, k, rs[1..]) == Only(mode, k, rs[1..]);
      }
    }
  }

  lemma {:induction false} MatchesAfter(mode: Keying, last: Option<Key>, b: seq<byte>, m: Buffers, rs: seq<Record>)
    requires Matches(last, b, m) && AllFit(rs) && Contiguous(mode, last, rs)
    ensures Matches(OpenAtEnd(mode, last, rs), Buffered(b, rs), BuffersAfter(mode, m, rs))
    decreases |rs|
  {
    if rs != [] {
      assert Fits(rs[0]);
      MatchesStep(mode, last, b, m, rs[0]);
      MatchesAfter(mode, OpenAfter(mode, last, rs[0]), Keep(b, rs[0]), KeepOwn(mode, m, rs[0]), rs[1..]);
    }
  }

  /** On a contiguous trace the server's messages of one key are those of the key's records alone. */
  lemma ServerFor(mode: Keying, rs: seq<Record>, k: Key)
    requires AllFit(rs) && Contiguous(mode, None, rs)
    ensures For(mode, k, Delivered([], rs)) == Delivered([], Only(mode, k, rs))
  {
    ServerRefinesSeparate(mode, rs);
    SeparateIsIndependent(mode, map[], rs, k);
  }

  /** What was buffered before shows exactly if a message ends. */
  lemma BufferMatters(b: seq<byte>, rs: seq<Record>)
    ensures Delivered(b, rs) == Delivered([], rs) <==> b == [] || !HasEnd(rs)
  {
    BuffersMatter(b, [], rs);
  }

  lemma {:induction false} BuffersMatter(b: seq<byte>, c: seq<byte>, rs: seq<Record>)
    ensures Delivered(b, rs) == Delivered(c, rs) <==> b == c || !HasEnd(rs)
    decreases |rs|
  {
    if rs != [] {
      var r, rest := rs[0], rs[1..];
      HeadsDecide(Emit(b, r), Emit(c, r), Delivered(Keep(b, r), rest), Delivered(Keep(c, r), rest));
      BuffersMatter(Keep(b, r), Keep(c, r), rest);
      if r.Data? {
        Cancel(b, c, r.payload);
      }
    }
  }

  lemma Cancel(b: seq<byte>, c: seq<byte>, p: seq<byte>)
    ensures b + p == c + p <==> b == c
  {
    if b + p == c + p {
      assert |b| == |c|;
      assert b == (b + p)[..|b|] && c == (c + p)[..|c|];
    }
  }

  /** The peeled association's history, whole: what the server handed out of it
      before, and what the new socket hands out after, are together exactly its
      messages if and only if the server held no fragment of it (or none of its
      messages ends any more). */
  lemma PeeledExactly(k: Key, done: seq<Record>, rest: seq<Record>)
    requires AllFit(done) && Contiguous(ByAssociation, None, done)
    ensures For(ByAssociation, k, Delivered([], done)) + Delivered([], rest)
              == Delivered([], Only(ByAssociation, k, done) + rest)
            <==> OpenAtEnd(ByAssociation, None, done) != Some(k) || !HasEnd(rest)
  {
    var mine := Only(ByAssociation, k, done);
    ServerFor(ByAssociation, done, k);
    Resume([], mine, rest);
    HeldAfter(ByAssociation, map[], done, k);
    MatchesAfter(ByAssociation, None, [], map[], done);
    assert Buffered([], mine) != [] <==> OpenAtEnd(ByAssociation, None, done) == Some(k);
    BufferMatters(Buffered([], mine), rest);
    HeadsDecide(Delivered([], mine), Delivered([], mine), Delivered([], rest), Delivered(Buffered([], mine), rest));
  }

  // ---- how the kernel divides the queue

  predicate Of(k: Key, r: Record) { r.Data? && KeyOf(ByAssociation, r.info) == k }

  /** The records of a queue that move (`side`), or those that stay, in order. */
  function Pick(queue: seq<Record>, moves: seq<bool>, side: bool): seq<Record>
    requires |moves| == |queue|
  {
    if queue == [] then []
    else (if moves[0] == side then [queue[0]] else []) + Pick(queue[1..], moves[1..], side)
  }

  /** The data of `k` moves and that of others stays; a notification may do either. */
  ghost predicate Divides(k: Key, queue: seq<Record>, moves: seq<bool>) {
    |moves| == |queue| && forall i :: 0 <= i < |queue| && queue[i].Data? ==> (moves[i] <==> Of(k, queue[i]))
  }

  lemma {:induction false} Divided(k: Key, queue: seq<Record>, moves: seq<bool>, j: Key)
    requires Divides(k, queue, moves)
    ensures DataOnly(Pick(queue, moves, true)) == Only(ByAssociation, k, queue)
    ensures Only(ByAssociation, j, Pick(queue, moves, false)) == if j == k then [] else Only(ByAssociation, j, queue)
    ensures queue == [] ==> Pick(queue, moves, false) == []
    decreases |queue|
  {
    if queue != [] {
      Divided(k, queue[1..], moves[1..], j);
      var first := if moves[0] then [queue[0]] else [];
      var other := if moves[0] then [] else [queue[0]];
      DataOnlySplit(first, Pick(queue[1..], moves[1..], true));
      OnlySplit(ByAssociation, j, other, Pick(queue[1..], moves[1..], false));
      assert queue[0].Data? ==> (moves[0] <==> Of(k, queue[0]));
    }
  }

  lemma {:induction false} PickFits(queue: seq<Record>, moves: seq<bool>, side: bool)
    requires |moves| == |queue| && AllFit(queue)
    ensures AllFit(Pick(queue, moves, side))
    decreases |queue|
  {
    if queue != [] {
      assert Fits(queue[0]);
      PickFits(queue[1..], moves[1..], side);
    }
  }

  lemma {:induction false} DataOnlySplit(x: seq<Record>, y: seq<Record>)
    ensures DataOnly(x + y) == DataOnly(x) + DataOnly(y)
  {
    if x == [] {
      assert x + y == y;
    } else {
      assert (x + y)[0] == x[0] && (x + y)[1..] == x[1..] + y;
      DataOnlySplit(x[1..], y);
      Regroup(if x[0].Data? then [x[0]] else [], DataOnly(x[1..]), DataOnly(y));
    }
  }

  // ---- a fragment left open

  lemma {:induction false} HasEndSplit(x: seq<Record>, y: seq<Record>)
    requires HasEnd(y)
    ensures HasEnd(x + y)
  {
    if x == [] {
      assert x + y == y;
    } else {
      assert (x + y)[0] == x[0] && (x + y)[1..] == x[1..] + y;
      HasEndSplit(x[1..], y);
    }
  }

  ghost predicate NoneOf(k: Key, rs: seq<Record>) {
    forall i :: 0 <= i < |rs| ==> !Of(k, rs[i])
  }

  /** A message of `k` is open after `x`, no more of it comes in `y`, and a
      message ends there: they mix. */
  lemma {:induction false} OpenThenForeign(last: Option<Key>, k: Key, x: seq<Record>, y: seq<Record>)
    requires OpenAtEnd(ByAssociation, last, x) == Some(k) && NoneOf(k, y) && HasEnd(y)
    ensures !Contiguous(ByAssociation, last, Through(x + y))
    decreases |x|, |y|
  {
    HasEndSplit(x, y);
    var rs := x + y;
    assert ([rs[0]] + Through(rs[1..]))[1..] == Through(rs[1..]);
    if x != [] {
      assert rs[0] == x[0] && rs[1..] == x[1..] + y;
      OpenThenForeign(OpenAfter(ByAssociation, last, x[0]), k, x[1..], y);
    } else {
      assert rs == y && !Of(k, y[0]);
      if !y[0].Data? {
        assert [] + y[1..] == y[1..];
        OpenThenForeign(last, k, [], y[1..]);
      }
    }
  }

  /** Records of which none is of `k` let out no message of `k`, whatever is buffered. */
  lemma {:induction false} NoneOut(k: Key, b: seq<byte>, rs: seq<Record>)
    requires NoneOf(k, rs)
    ensures For(ByAssociation, k, Delivered(b, rs)) == []
    decreases |rs|
  {
    if rs != [] {
      assert !Of(k, rs[0]);
      ForSplit(ByAssociation, k, Emit(b, rs[0]), Delivered(Keep(b, rs[0]), rs[1..]));
      ForOne(ByAssociation, k, b, rs[0]);
      NoneOut(k, Keep(b, rs[0]), rs[1..]);
    }
  }

  /** What is buffered comes out in front of the next message to end, which is of another key. */
  lemma {:induction false} FrontOfNext(k: Key, b: seq<byte>, rs: seq<Record>)
    requires HasEnd(rs) && NoneOf(k, rs)
    ensures var next := Messages(Delivered(b, rs));
            next != [] && next[0].Message? && b <= next[0].data && KeyOf(ByAssociation, next[0].info) != k
    decreases |rs|
  {
    var r, rest := rs[0], rs[1..];
    assert !Of(k, r);
    MessagesHead(Emit(b, r), Delivered(Keep(b, r), rest));
    if !IsEnd(r) {
      FrontOfNext(k, Keep(b, r), rest);
    }
  }

  lemma MessagesHead(out: seq<Output>, more: seq<Output>)
    requires |out| <= 1
    ensures Messages(out + more) == (if out != [] && out[0].Message? then out else []) + Messages(more)
  {
    if out == [] {
      assert out + more == more;
    } else {
      assert (out + more)[0] == out[0] && (out + more)[1..] == more && out == [out[0]];
    }
  }

  /** The fragment that the server holds open is what it has read of `k`. */
  lemma HeldFragment(k: Key, taken: seq<Record>)
    requires AllFit(taken) && Contiguous(ByAssociation, None, taken) && OpenAtEnd(ByAssociation, None, taken) == Some(k)
    ensures Buffered([], taken) != [] && Buffered([], taken) == Buffered([], Only(ByAssociation, k, taken))
  {
    HeldAfter(ByAssociation, map[], taken, k);
    MatchesAfter(ByAssociation, None, [], map[], taken);
  }
}
