/** Bytes, fixed-width integers and byte order.

Structures that cross the kernel boundary mix two orders: most fields are in
the order of the host, ports and the payload protocol identifier are in network
(big-endian) order. The host order is a parameter throughout.
*/
module Wire {
  type byte = x: int | 0 <= x < 256
  type u16 = x: int | 0 <= x < 0x1_0000
  type u32 = x: int | 0 <= x < 0x1_0000_0000
  type i32 = x: int | -0x8000_0000 <= x < 0x8000_0000

  datatype Endian = Little | Big

  datatype Option<+T> = None | Some(value: T)

  /** Concatenation is associative: named, so that a proof can say where it regroups. */
  lemma Regroup<T>(x: seq<T>, y: seq<T>, z: seq<T>)
    ensures (x + y) + z == x + (y + z)
  {
  }

  function Be16(x: u16): (s: seq<byte>)
    ensures |s| == 2
  {
    [x / 256, x % 256]
  }

  function Be32(x: u32): (s: seq<byte>)
    ensures |s| == 4
  {
    Be16(x / 0x1_0000) + Be16(x % 0x1_0000)
  }

  function FromBytesBe16(s: seq<byte>): u16
    requires |s| == 2
  {
    var high: int := s[0];
    high * 256 + s[1]
  }

  function FromBytesBe32(s: seq<byte>): u32
    requires |s| == 4
  {
    var high: int := FromBytesBe16(s[..2]);
    high * 0x1_0000 + FromBytesBe16(s[2..])
  }

  /** Network-order bytes to the order of a host, and back: the same map. */
  function Order2(e: Endian, s: seq<byte>): (r: seq<byte>)
    requires |s| == 2
    ensures |r| == 2
  {
    if e.Big? then s else [s[1], s[0]]
  }

  function Order4(e: Endian, s: seq<byte>): (r: seq<byte>)
    requires |s| == 4
    ensures |r| == 4
  {
    if e.Big? then s else [s[3], s[2], s[1], s[0]]
  }

  function Ne16(e: Endian, x: u16): (s: seq<byte>)
    ensures |s| == 2
  {
    Order2(e, Be16(x))
  }

  function Ne32(e: Endian, x: u32): (s: seq<byte>)
    ensures |s| == 4
  {
    Order4(e, Be32(x))
  }

  function FromNe16(e: Endian, s: seq<byte>): u16
    requires |s| == 2
  {
    FromBytesBe16(Order2(e, s))
  }

  function FromNe32(e: Endian, s: seq<byte>): u32
    requires |s| == 4
  {
    FromBytesBe32(Order4(e, s))
  }

  /** `u16::to_be`: the value a host stores natively as the network-order bytes of `x`. */
  function ToBe16(e: Endian, x: u16): u16 { FromNe16(e, Be16(x)) }
  function ToBe32(e: Endian, x: u32): u32 { FromNe32(e, Be32(x)) }

  /** `u16::from_be`: the number meant by network-order bytes that a host read natively as `x`. */
  function FromBe16(e: Endian, x: u16): u16 { FromBytesBe16(Ne16(e, x)) }
  function FromBe32(e: Endian, x: u32): u32 { FromBytesBe32(Ne32(e, x)) }

  /** Two's complement. */
  function Signed(x: u32): i32 { if x < 0x8000_0000 then x else x - 0x1_0000_0000 }
  function Unsigned(x: i32): u32 { if x < 0 then x + 0x1_0000_0000 else x }

  lemma Be16RoundTrip(x: u16, s: seq<byte>)
    requires |s| == 2
    ensures FromBytesBe16(Be16(x)) == x
    ensures Be16(FromBytesBe16(s)) == s
  {
  }

  lemma Be32RoundTrip(x: u32, s: seq<byte>)
    requires |s| == 4
    ensures FromBytesBe32(Be32(x)) == x
    ensures Be32(FromBytesBe32(s)) == s
  {
    assert Be32(x)[..2] == Be16(x / 0x1_0000) && Be32(x)[2..] == Be16(x % 0x1_0000);
    Be16RoundTrip(x / 0x1_0000, s[..2]);
    Be16RoundTrip(x % 0x1_0000, s[2..]);
  }

  /** The number that two, or four, bytes make, highest first. */
  function Number2(high: int, low: int): int { 0x100 * high + low }
  function Number4(a: int, b: int, c: int, d: int): int { 0x100_0000 * a + 0x1_0000 * b + 0x100 * c + d }

  /** Network order puts the high byte first. */
  lemma NetworkBytes(x: u16, y: u32)
    ensures var s := Be16(x);
            Number2(s[0], s[1]) == x
    ensures var s := Be32(y);
            Number4(s[0], s[1], s[2], s[3]) == y
  {
  }

  /** A little-endian host keeps the low byte first, a big-endian host the high byte. */
  lemma HostBytes(e: Endian, x: u16, y: u32)
    ensures var s := Ne16(e, x);
            x == if e.Little? then Number2(s[1], s[0]) else Number2(s[0], s[1])
    ensures var s := Ne32(e, y);
            y == if e.Little? then Number4(s[3], s[2], s[1], s[0]) else Number4(s[0], s[1], s[2], s[3])
  {
    NetworkBytes(x, y);
  }

  /** A signed number and its unsigned form differ by a multiple of 2^32. */
  lemma TwosComplement(x: u32, y: i32)
    ensures Signed(x) == x || Signed(x) == x - 0x1_0000_0000
    ensures Unsigned(y) == y || Unsigned(y) == y + 0x1_0000_0000
    ensures Unsigned(Signed(x)) == x && Signed(Unsigned(y)) == y
  {
  }

  /** Native encoding is a bijection on either host. */
  lemma NativeRoundTrip16(e: Endian, x: u16, s: seq<byte>)
    requires |s| == 2
    ensures FromNe16(e, Ne16(e, x)) == x
    ensures Ne16(e, FromNe16(e, s)) == s
  {
    assert Order2(e, Order2(e, Be16(x))) == Be16(x) && Order2(e, Order2(e, s)) == s;
    Be16RoundTrip(x, Order2(e, s));
  }

  lemma NativeRoundTrip32(e: Endian, x: u32, s: seq<byte>)
    requires |s| == 4
    ensures FromNe32(e, Ne32(e, x)) == x
    ensures Ne32(e, FromNe32(e, s)) == s
  {
    assert Order4(e, Order4(e, Be32(x))) == Be32(x) && Order4(e, Order4(e, s)) == s;
    Be32RoundTrip(x, Order4(e, s));
  }

  /** A value passed through `to_be` and stored natively lies in memory in network order,
      and a native read passed through `from_be` undoes it. */
  lemma NetworkOrder16(e: Endian, x: u16)
    ensures Ne16(e, ToBe16(e, x)) == Be16(x)
    ensures FromBe16(e, ToBe16(e, x)) == x
  {
    NativeRoundTrip16(e, x, Be16(x));
    Be16RoundTrip(x, Be16(x));
  }

  lemma NetworkOrder32(e: Endian, x: u32)
    ensures Ne32(e, ToBe32(e, x)) == Be32(x)
    ensures FromBe32(e, ToBe32(e, x)) == x
  {
    NativeRoundTrip32(e, x, Be32(x));
    Be32RoundTrip(x, Be32(x));
  }

  /** Reading a native field out of a buffer. */
  function At16(e: Endian, s: seq<byte>, off: nat): u16
    requires off + 2 <= |s|
  {
    FromNe16(e, s[off..off + 2])
  }

  function At32(e: Endian, s: seq<byte>, off: nat): u32
    requires off + 4 <= |s|
  {
    FromNe32(e, s[off..off + 4])
  }

  lemma Restore16(e: Endian, s: seq<byte>, off: nat)
    requires off + 2 <= |s|
    ensures Ne16(e, At16(e, s, off)) == s[off..off + 2]
  {
    NativeRoundTrip16(e, 0, s[off..off + 2]);
  }

  lemma Restore32(e: Endian, s: seq<byte>, off: nat)
    requires off + 4 <= |s|
    ensures Ne32(e, At32(e, s, off)) == s[off..off + 4]
  {
    NativeRoundTrip32(e, 0, s[off..off + 4]);
  }
}
