/** Self-delimiting codes over bytes.

A list is written entry by entry; a reader looks at the front of the memory it
is given, takes one entry and moves on. The results below hold for every code
whose reader recognises what its writer wrote, whatever comes behind it.
*/
module PrefixCodes {
  import opened Wire

  /** What a reader finds at the front of some memory: an entry of `size`
      bytes, something it stops at, or an entry that does not lie inside. */
  datatype Head<+T> = Entry(value: T, size: nat) | Stop | Outside

  function Join<T>(enc: T -> seq<byte>, xs: seq<T>): seq<byte> {
    if xs == [] then [] else enc(xs[0]) + Join(enc, xs[1..])
  }

  /** Reading `count` entries never leaves the memory. */
  predicate Inside<T>(dec: seq<byte> -> Head<T>, mem: seq<byte>, count: int)
    decreases count
  {
    count <= 0
    || (match dec(mem)
        case Entry(_, size) => size <= |mem| && Inside(dec, mem[size..], count - 1)
        case Stop => true
        case Outside => false)
  }

  function Walk<T>(dec: seq<byte> -> Head<T>, mem: seq<byte>, count: int): seq<T>
    requires Inside(dec, mem, count)
    decreases count
  {
    if count <= 0 then [] else
    match dec(mem)
    case Entry(value, size) => [value] + Walk(dec, mem[size..], count - 1)
    case Stop => []
  }

  /** The walk as a loop that advances through the memory. */
  method WalkMemory<T>(dec: seq<byte> -> Head<T>, mem: seq<byte>, count: int) returns (out: seq<T>)
    requires Inside(dec, mem, count)
    ensures out == Walk(dec, mem, count)
  {
    out := [];
    var p: nat, i := 0, 0;
    assert mem[0..] == mem;
    while i < count
      invariant 0 <= i && p <= |mem|
      invariant Inside(dec, mem[p..], count - i)
      invariant out + Walk(dec, mem[p..], count - i) == Walk(dec, mem, count)
    {
      var head := dec(mem[p..]);
      if head.Stop? {
        break;
      }
      assert mem[p..][head.size..] == mem[p + head.size..];
      out := out + [head.value];
      p, i := p + head.size, i + 1;
    }
  }

  /** The reader recognises one written entry in front of anything. */
  ghost predicate Reads<T(!new)>(enc: T -> seq<byte>, dec: seq<byte> -> Head<T>) {
    forall x, rest :: dec(enc(x) + rest) == Entry(x, |enc(x)|)
  }

  lemma {:induction false} JoinSplit<T>(enc: T -> seq<byte>, a: seq<T>, b: seq<T>)
    ensures Join(enc, a + b) == Join(enc, a) + Join(enc, b)
  {
    if a == [] {
      assert a + b == b;
    } else {
      assert (a + b)[0] == a[0] && (a + b)[1..] == a[1..] + b;
      JoinSplit(enc, a[1..], b);
      Regroup(enc(a[0]), Join(enc, a[1..]), Join(enc, b));
    }
  }

  lemma {:induction false} WalkJoin<T(!new)>(enc: T -> seq<byte>, dec: seq<byte> -> Head<T>,
                                             xs: seq<T>, rest: seq<byte>, k: nat)
    requires Reads(enc, dec) && k <= |xs|
    ensures Inside(dec, Join(enc, xs) + rest, k)
    ensures Walk(dec, Join(enc, xs) + rest, k) == xs[..k]
  {
    if k > 0 {
      var mem, behind := Join(enc, xs) + rest, Join(enc, xs[1..]) + rest;
      assert mem == enc(xs[0]) + behind;
      assert mem[|enc(xs[0])|..] == behind;
      WalkJoin(enc, dec, xs[1..], rest, k - 1);
      assert xs[..k] == [xs[0]] + xs[1..][..k - 1];
    }
  }

  /** A walk that may go on stops at what the reader stops at. */
  lemma {:induction false} WalkStops<T(!new)>(enc: T -> seq<byte>, dec: seq<byte> -> Head<T>,
                                              xs: seq<T>, rest: seq<byte>, count: int)
    requires Reads(enc, dec) && count > |xs| && dec(rest).Stop?
    ensures Inside(dec, Join(enc, xs) + rest, count)
    ensures Walk(dec, Join(enc, xs) + rest, count) == xs
    decreases |xs|
  {
    var mem := Join(enc, xs) + rest;
    if xs == [] {
      assert mem == rest;
    } else {
      var behind := Join(enc, xs[1..]) + rest;
      assert mem == enc(xs[0]) + behind;
      assert mem[|enc(xs[0])|..] == behind;
      WalkStops(enc, dec, xs[1..], rest, count - 1);
    }
  }

  /** No list's bytes start another list's bytes unless the list starts the other. */
  lemma {:induction false} JoinPrefix<T(!new)>(enc: T -> seq<byte>, dec: seq<byte> -> Head<T>, a: seq<T>, b: seq<T>)
    requires Reads(enc, dec) && (forall x :: enc(x) != [])
    requires Join(enc, a) <= Join(enc, b)
    ensures a <= b
  {
    if a != [] {
      assert enc(a[0]) != [];
      assert b != [];
      var n := |enc(a[0])|;
      var restA, restB := Join(enc, a[1..]), Join(enc, b[1..]);
      var more := Join(enc, b)[|Join(enc, a)|..];
      assert enc(b[0]) + restB == enc(a[0]) + (restA + more);
      assert dec(enc(a[0]) + (restA + more)) == Entry(a[0], n);
      assert dec(enc(b[0]) + restB) == Entry(b[0], |enc(b[0])|);
      assert a[0] == b[0];
      assert (enc(b[0]) + restB)[n..] == restB && (enc(a[0]) + (restA + more))[n..] == restA + more;
      JoinPrefix(enc, dec, a[1..], b[1..]);
    }
  }
}
