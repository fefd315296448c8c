/** One buffer for many associations, compared with one buffer each.

`SctpServer` reassembles the messages of all its associations in a single
accumulator. The reference keeps a separate buffer per association (or per
stream of an association); the results say exactly when the two hand out the
same messages.
*/
module SharedBuffer {
  import opened Wire
  import opened Reassembling
  import opened Fragmentation

  /** What a message of its own is told apart by. */
  datatype Keying = ByAssociation | ByStream
  datatype Key = Key(assocId: i32, stream: u16)

  function KeyOf(mode: Keying, info: RecvInfo): Key {
    Key(info.assocId, if mode.ByStream? then info.stream else 0)
  }

  // ---- the reference: a buffer per key

  type Buffers = map<Key, seq<byte>>

  function Held(m: Buffers, k: Key): seq<byte> { if k in m then m[k] else [] }

  function OwnBuffer(mode: Keying, m: Buffers, r: Record): seq<byte> {
    if r.Data? then Held(m, KeyOf(mode, r.info)) else []
  }

  function KeepOwn(mode: Keying, m: Buffers, r: Record): Buffers {
    if r.Data? then m[KeyOf(mode, r.info) := Keep(OwnBuffer(mode, m, r), r)] else m
  }

  /** What a reassembler with a buffer per key lets out. */
  function Separately(mode: Keying, m: Buffers, rs: seq<Record>): seq<Output>
    decreases |rs|
  {
    if rs == [] then [] else Emit(OwnBuffer(mode, m, rs[0]), rs[0]) + Separately(mode, KeepOwn(mode, m, rs[0]), rs[1..])
  }

  // ---- delivery traces

  predicate IsEnd(r: Record) { r.Data? && r.eor }

  predicate HasEnd(rs: seq<Record>) {
    rs != [] && (IsEnd(rs[0]) || HasEnd(rs[1..]))
  }

  /** The records up to and including the last end of a message. */
  function Through(rs: seq<Record>): seq<Record> {
    if HasEnd(rs) then [rs[0]] + Through(rs[1..]) else []
  }

  /** The key of the message that is open after a record. */
  function OpenAfter(mode: Keying, last: Option<Key>, r: Record): Option<Key> {
    if !r.Data? then last else if r.eor then None else Some(KeyOf(mode, r.info))
  }

  predicate Joins(mode: Keying, last: Option<Key>, r: Record) {
    r.Data? && last.Some? ==> last.value == KeyOf(mode, r.info)
  }

  /** No data record of one key comes while a message of another is open.
      Notifications may come anywhere. */
  predicate Contiguous(mode: Keying, last: Option<Key>, rs: seq<Record>)
    decreases |rs|
  {
    rs == [] || (Joins(mode, last, rs[0]) && Contiguous(mode, OpenAfter(mode, last, rs[0]), rs[1..]))
  }

  function OpenAtEnd(mode: Keying, last: Option<Key>, rs: seq<Record>): Option<Key>
    decreases |rs|
  {
    if rs == [] then last else OpenAtEnd(mode, OpenAfter(mode, last, rs[0]), rs[1..])
  }

  // ---- the shared buffer against the separate ones

  /** The shared buffer holds the open message; every other buffer is empty. */
  ghost predicate Matches(last: Option<Key>, b: seq<byte>, m: Buffers) {
    && (last.None? <==> b == [])
    && forall k :: Held(m, k) == if last == Some(k) then b else []
  }

  lemma MatchesStep(mode: Keying, last: Option<Key>, b: seq<byte>, m: Buffers, r: Record)
    requires Matches(last, b, m) && Fits(r) && Joins(mode, last, r)
    ensures r.Data? ==> OwnBuffer(mode, m, r) == b
    ensures Matches(OpenAfter(mode, last, r), Keep(b, r), KeepOwn(mode, m, r))
    ensures Emit(OwnBuffer(mode, m, r), r) == Emit(b, r)
  {
  }

  /** Without the end of a message nothing depends on the buffers. */
  lemma {:induction false} NoEndNoMatter(mode: Keying, b: seq<byte>, m: Buffers, rs: seq<Record>)
    requires !HasEnd(rs)
    ensures Delivered(b, rs) == Separately(mode, m, rs)
    decreases |rs|
  {
    if rs != [] {
      NoEndNoMatter(mode, Keep(b, rs[0]), KeepOwn(mode, m, rs[0]), rs[1..]);
    }
  }

  /** Two sequences that start with outputs of the same record differ if those do or the rests do. */
  lemma HeadsDecide(x: seq<Output>, y: seq<Output>, u: seq<Output>, v: seq<Output>)
    requires |x| == |y|
    ensures x + u == y + v <==> x == y && u == v
  {
    if x + u == y + v {
      assert x == (x + u)[..|x|] && y == (y + v)[..|y|];
      assert u == (x + u)[|x|..] && v == (y + v)[|y|..];
    }
  }

  ghost predicate Dominates(b: seq<byte>, m: Buffers) {
    forall k :: |Held(m, k)| < |b|
  }

  /** Once the shared buffer holds more than every separate one, the next
      message to end comes out wrong. */
  lemma {:induction false} DominatedDiffers(mode: Keying, b: seq<byte>, m: Buffers, rs: seq<Record>)
    requires Dominates(b, m) && HasEnd(rs)
    ensures Delivered(b, rs) != Separately(mode, m, rs)
    decreases |rs|
  {
    var r := rs[0];
    var own := OwnBuffer(mode, m, r);
    HeadsDecide(Emit(b, r), Emit(own, r),
                Delivered(Keep(b, r), rs[1..]), Separately(mode, KeepOwn(mode, m, r), rs[1..]));
    if IsEnd(r) {
      assert |Held(m, KeyOf(mode, r.info))| < |b|;
      assert |Emit(b, r)[0].data| != |Emit(own, r)[0].data|;
    } else {
      DominatedStep(mode, b, m, r);
      DominatedDiffers(mode, Keep(b, r), KeepOwn(mode, m, r), rs[1..]);
    }
  }

  lemma DominatedStep(mode: Keying, b: seq<byte>, m: Buffers, r: Record)
    requires Dominates(b, m) && !IsEnd(r)
    ensures Dominates(Keep(b, r), KeepOwn(mode, m, r))
  {
    var m' := KeepOwn(mode, m, r);
    forall k ensures |Held(m', k)| < |Keep(b, r)| {
      assert |Held(m, k)| < |b|;
    }
  }

  /** A fragment of another key inside an open message spoils the next message to end. */
  lemma ForeignDiffers(mode: Keying, last: Option<Key>, b: seq<byte>, m: Buffers, rs: seq<Record>)
    requires Matches(last, b, m) && AllFit(rs) && HasEnd(rs) && !Joins(mode, last, rs[0])
    ensures Delivered(b, rs) != Separately(mode, m, rs)
  {
    var r := rs[0];
    assert Fits(r);
    var own := KeyOf(mode, r.info);
    assert Held(m, own) == [];
    HeadsDecide(Emit(b, r), Emit([], r),
                Delivered(Keep(b, r), rs[1..]), Separately(mode, KeepOwn(mode, m, r), rs[1..]));
    if r.eor {
      assert |Emit(b, r)[0].data| != |Emit([], r)[0].data|;
    } else {
      var m' := KeepOwn(mode, m, r);
      forall k ensures |Held(m', k)| < |Keep(b, r)| {
        assert Held(m, k) == if last == Some(k) then b else [];
      }
      DominatedDiffers(mode, Keep(b, r), m', rs[1..]);
    }
  }

  lemma {:induction false} AgreesExactly(mode: Keying, last: Option<Key>, b: seq<byte>, m: Buffers, rs: seq<Record>)
    requires Matches(last, b, m) && AllFit(rs)
    ensures Delivered(b, rs) == Separately(mode, m, rs) <==> Contiguous(mode, last, Through(rs))
    decreases |rs|
  {
    if !HasEnd(rs) {
      NoEndNoMatter(mode, b, m, rs);
    } else if !Joins(mode, last, rs[0]) {
      ForeignDiffers(mode, last, b, m, rs);
    } else {
      var r := rs[0];
      assert Fits(r);
      MatchesStep(mode, last, b, m, r);
      AgreesExactly(mode, OpenAfter(mode, last, r), Keep(b, r), KeepOwn(mode, m, r), rs[1..]);
      HeadsDecide(Emit(b, r), Emit(b, r),
                  Delivered(Keep(b, r), rs[1..]), Separately(mode, KeepOwn(mode, m, r), rs[1..]));
      assert ([r] + Through(rs[1..]))[1..] == Through(rs[1..]);
    }
  }

  /** The server hands out what separate buffers would (the same payloads with
      the same stream, PPID, association and peer, in the same order) if and
      only if, up to the last message that ends, fragments of different keys
      do not mix. */
  lemma ServerRefinesSeparate(mode: Keying, rs: seq<Record>)
    requires AllFit(rs)
    ensures Delivered([], rs) == Separately(mode, map[], rs) <==> Contiguous(mode, None, Through(rs))
    ensures Contiguous(mode, None, rs) ==> Delivered([], rs) == Separately(mode, map[], rs)
  {
    AgreesExactly(mode, None, [], map[], rs);
    if Contiguous(mode, None, rs) {
      ThroughContiguous(mode, None, rs);
    }
  }

  lemma {:induction false} ThroughContiguous(mode: Keying, last: Option<Key>, rs: seq<Record>)
    requires Contiguous(mode, last, rs)
    ensures Contiguous(mode, last, Through(rs))
    decreases |rs|
  {
    if HasEnd(rs) {
      ThroughContiguous(mode, OpenAfter(mode, last, rs[0]), rs[1..]);
      assert ([rs[0]] + Through(rs[1..]))[1..] == Through(rs[1..]);
    }
  }

  /** The condition is needed: a message of one association abandoned after a
      fragment ends up in front of the next association's message. */
  lemma AbandonedFragmentLeaks(a: RecvInfo, c: RecvInfo)
    requires a.assocId != c.assocId
    ensures var rs := [Data([1], false, a, None), Data([2], true, c, None)];
            && AllFit(rs)
            && Delivered([], rs) == [Message([1, 2], c, None)]
            && Separately(ByAssociation, map[], rs) == [Message([2], c, None)]
  {
    var r0, r1 := Data([1], false, a, None), Data([2], true, c, None);
    assert [r0, r1][1..] == [r1];
    DeliverLast([1], r1);
    assert [] + [1] == [1] && [1] + [2] == [1, 2];
    assert Delivered([], [r0, r1]) == [] + Delivered([1], [r1]);
    var m: Buffers := KeepOwn(ByAssociation, map[], r0);
    assert Held(m, KeyOf(ByAssociation, c)) == [];
    SeparateLast(ByAssociation, m, r1);
    assert [] + [2] == [2];
    assert Separately(ByAssociation, map[], [r0, r1]) == [] + Separately(ByAssociation, m, [r1]);
  }

  /** And for streams: two streams of one association whose fragments alternate. */
  lemma InterleavedStreamsLeak(a: RecvInfo, c: RecvInfo)
    requires a.assocId == c.assocId && a.stream != c.stream
    ensures var rs := [Data([1], false, a, None), Data([2], true, c, None)];
            && AllFit(rs)
            && Delivered([], rs) == [Message([1, 2], c, None)]
            && Separately(ByStream, map[], rs) == [Message([2], c, None)]
            && Separately(ByAssociation, map[], rs) == [Message([1, 2], c, None)]
  {
    var r0, r1 := Data([1], false, a, None), Data([2], true, c, None);
    assert [r0, r1][1..] == [r1];
    assert [] + [1] == [1] && [1] + [2] == [1, 2] && [] + [2] == [2];
    DeliverLast([1], r1);
    assert Delivered([], [r0, r1]) == [] + Delivered([1], [r1]);
    SeparateTwo(ByStream, r0, r1);
    SeparateTwo(ByAssociation, r0, r1);
  }

  lemma SeparateTwo(mode: Keying, r0: Record, r1: Record)
    requires r0.Data? && !r0.eor && r1.Data?
    ensures Separately(mode, map[], [r0, r1])
         == Emit(if KeyOf(mode, r0.info) == KeyOf(mode, r1.info) then [] + r0.payload else [], r1)
  {
    var m: Buffers := KeepOwn(mode, map[], r0);
    assert [r0, r1][1..] == [r1];
    SeparateLast(mode, m, r1);
    assert Separately(mode, map[], [r0, r1]) == [] + Separately(mode, m, [r1]);
  }

  lemma DeliverLast(b: seq<byte>, r: Record)
    ensures Delivered(b, [r]) == Emit(b, r)
  {
  }

  lemma SeparateLast(mode: Keying, m: Buffers, r: Record)
    ensures Separately(mode, m, [r]) == Emit(OwnBuffer(mode, m, r), r)
  {
  }

  // ---- the reference is independent reassembly

  function Only(mode: Keying, k: Key, rs: seq<Record>): seq<Record> {
    if rs == [] then []
    else (if rs[0].Data? && KeyOf(mode, rs[0].info) == k then [rs[0]] else []) + Only(mode, k, rs[1..])
  }

  function For(mode: Keying, k: Key, outs: seq<Output>): seq<Output> {
    if outs == [] then []
    else (if outs[0].Message? && KeyOf(mode, outs[0].info) == k then [outs[0]] else []) + For(mode, k, outs[1..])
  }

  lemma {:induction false} ForSplit(mode: Keying, k: Key, x: seq<Output>, y: seq<Output>)
    ensures For(mode, k, x + y) == For(mode, k, x) + For(mode, k, y)
  {
    if x == [] {
      assert x + y == y;
    } else {
      assert (x + y)[0] == x[0] && (x + y)[1..] == x[1..] + y;
      ForSplit(mode, k, x[1..], y);
      Regroup(if x[0].Message? && KeyOf(mode, x[0].info) == k then [x[0]] else [],
              For(mode, k, x[1..]), For(mode, k, y));
    }
  }

  lemma {:induction false} OnlySplit(mode: Keying, k: Key, x: seq<Record>, y: seq<Record>)
    ensures Only(mode, k, x + y) == Only(mode, k, x) + Only(mode, k, y)
  {
    if x == [] {
      assert x + y == y;
    } else {
      assert (x + y)[0] == x[0] && (x + y)[1..] == x[1..] + y;
      OnlySplit(mode, k, x[1..], y);
      Regroup(if x[0].Data? && KeyOf(mode, x[0].info) == k then [x[0]] else [],
              Only(mode, k, x[1..]), Only(mode, k, y));
    }
  }

  lemma ForOne(mode: Keying, k: Key, b: seq<byte>, r: Record)
    ensures For(mode, k, Emit(b, r)) == if r.Data? && KeyOf(mode, r.info) == k then Emit(b, r) else []
  {
  }

  /** What separate buffers let out for one key is what reassembling that
      key's records alone would. */
  lemma {:induction false} SeparateIsIndependent(mode: Keying, m: Buffers, rs: seq<Record>, k: Key)
    ensures For(mode, k, Separately(mode, m, rs)) == Delivered(Held(m, k), Only(mode, k, rs))
    decreases |rs|
  {
    if rs != [] {
      var r := rs[0];
      var own, m' := OwnBuffer(mode, m, r), KeepOwn(mode, m, r);
      ForSplit(mode, k, Emit(own, r), Separately(mode, m', rs[1..]));
      ForOne(mode, k, own, r);
      SeparateIsIndependent(mode, m', rs[1..], k);
      if r.Data? && KeyOf(mode, r.info) == k {
        assert ([r] + Only(mode, k, rs[1..]))[1..] == Only(mode, k, rs[1..]);
      } else {
        assert [] + Only(mode, k, rs[1..]) == Only(mode, k, rs[1..]);
        assert [] + Delivered(Held(m', k), Only(mode, k, rs[1..])) == Delivered(Held(m', k), Only(mode, k, rs[1..]));
      }
    }
  }

  // ---- mixing shows in some key's messages

  /** The same outputs but for the data of messages. */
  predicate SameButData(x: Output, y: Output) {
    x == y || (x.Message? && y.Message? && x.info == y.info)
  }

  ghost predicate SameShape(x: seq<Output>, y: seq<Output>) {
    |x| == |y| && forall i :: 0 <= i < |x| ==> SameButData(x[i], y[i])
  }

  lemma {:induction false} DeliveredShape(mode: Keying, b: seq<byte>, m: Buffers, rs: seq<Record>)
    ensures SameShape(Delivered(b, rs), Separately(mode, m, rs))
    decreases |rs|
  {
    if rs != [] {
      var own := OwnBuffer(mode, m, rs[0]);
      DeliveredShape(mode, Keep(b, rs[0]), KeepOwn(mode, m, rs[0]), rs[1..]);
      assert SameShape(Emit(b, rs[0]), Emit(own, rs[0]));
      ShapeJoin(Emit(b, rs[0]), Emit(own, rs[0]),
                Delivered(Keep(b, rs[0]), rs[1..]), Separately(mode, KeepOwn(mode, m, rs[0]), rs[1..]));
    }
  }

  lemma ShapeJoin(x: seq<Output>, y: seq<Output>, u: seq<Output>, v: seq<Output>)
    requires SameShape(x, y) && SameShape(u, v)
    ensures SameShape(x + u, y + v)
  {
    forall i | 0 <= i < |x + u| ensures SameButData((x + u)[i], (y + v)[i]) {
      if i >= |x| {
        assert SameButData(u[i - |x|], v[i - |x|]);
      }
    }
  }

  /** Sequences of the same shape that agree on every key are equal. */
  lemma {:induction false} KeysDecide(mode: Keying, x: seq<Output>, y: seq<Output>)
    requires SameShape(x, y) && forall k :: For(mode, k, x) == For(mode, k, y)
    ensures x == y
  {
    if x != [] {
      assert SameButData(x[0], y[0]);
      if x[0].Message? {
        var own := KeyOf(mode, x[0].info);
        assert For(mode, own, x)[0] == x[0] && For(mode, own, y)[0] == y[0];
      }
      forall k ensures For(mode, k, x[1..]) == For(mode, k, y[1..]) {
        var head := if x[0].Message? && KeyOf(mode, x[0].info) == k then [x[0]] else [];
        HeadsDecide(head, head, For(mode, k, x[1..]), For(mode, k, y[1..]));
        assert For(mode, k, x) == For(mode, k, y);
      }
      KeysDecide(mode, x[1..], y[1..]);
    }
  }

  /** Every key's messages are the reassembly of its own records alone. */
  ghost predicate EachOwn(mode: Keying, outs: seq<Output>, rs: seq<Record>) {
    forall k :: For(mode, k, outs) == Delivered([], Only(mode, k, rs))
  }

  /** Every key gets its own if and only if the fragments do not mix: mixing
      always corrupts the messages of some key. */
  lemma EachKeyExactly(mode: Keying, rs: seq<Record>)
    requires AllFit(rs)
    ensures EachOwn(mode, Delivered([], rs), rs) <==> Contiguous(mode, None, Through(rs))
  {
    ServerRefinesSeparate(mode, rs);
    forall k ensures For(mode, k, Separately(mode, map[], rs)) == Delivered([], Only(mode, k, rs)) {
      SeparateIsIndependent(mode, map[], rs, k);
    }
    if EachOwn(mode, Delivered([], rs), rs) {
      DeliveredShape(mode, [], map[], rs);
      KeysDecide(mode, Delivered([], rs), Separately(mode, map[], rs));
    }
  }
}
