/** Socket addresses and packed arrays of raw socket addresses: `src/addr.rs`. */
module Addresses {
  import opened Wire
  import opened PrefixCodes

  const AF_INET: u16 := 2
  const AF_INET6: u16 := 10
  const SOCKADDR_IN_SIZE: nat := 16
  const SOCKADDR_IN6_SIZE: nat := 28
  const STORAGE_SIZE: nat := 128

  type Ip4 = s: seq<byte> | |s| == 4 witness [0, 0, 0, 0]
  type Ip6 = s: seq<byte> | |s| == 16 witness seq(16, _ => 0)
  type Storage = s: seq<byte> | |s| == STORAGE_SIZE witness seq(STORAGE_SIZE, _ => 0)

  datatype SocketAddr =
    | V4(ip4: Ip4, port: u16)
    | V6(ip6: Ip6, port: u16, flowinfo: u32, scopeId: u32)

  datatype AddrResult = Ok(addr: SocketAddr) | UnsupportedFamily(family: u16)

  function Zeros(n: nat): (s: seq<byte>)
    ensures |s| == n && forall i :: 0 <= i < n ==> s[i] == 0
  {
    seq(n, _ => 0)
  }

  function Family(a: SocketAddr): u16 { if a.V4? then AF_INET else AF_INET6 }

  function Size(a: SocketAddr): nat { if a.V4? then SOCKADDR_IN_SIZE else SOCKADDR_IN6_SIZE }

  /** The raw form of one address: `sockaddr_in` or `sockaddr_in6`. */
  function Encode(e: Endian, a: SocketAddr): (s: seq<byte>)
    ensures |s| == Size(a)
  {
    match a
    case V4(ip, port) =>
      Ne16(e, AF_INET) + Ne16(e, ToBe16(e, port)) + Ne32(e, FromNe32(e, ip)) + Zeros(8)
    case V6(ip, port, flowinfo, scopeId) =>
      Ne16(e, AF_INET6) + Ne16(e, ToBe16(e, port)) + Ne32(e, flowinfo) + ip + Ne32(e, scopeId)
  }

  function Overwrite(s: seq<byte>, off: nat, bytes: seq<byte>): seq<byte>
    requires off + |bytes| <= |s|
  {
    s[..off] + bytes + s[off + |bytes|..]
  }

  /** Writes `bytes` into `a` from `off` on and leaves the rest. */
  method Store(a: array<byte>, off: nat, bytes: seq<byte>)
    requires off + |bytes| <= a.Length
    modifies a
    ensures a[..] == Overwrite(old(a[..]), off, bytes)
  {
    for i := 0 to |bytes|
      invariant a[..off] == old(a[..off])
      invariant a[off..off + i] == bytes[..i]
      invariant a[off + i..] == old(a[off + i..])
    {
      a[off + i] := bytes[i];
      assert a[off..off + i + 1] == a[off..off + i] + [bytes[i]];
    }
    assert a[..] == a[..off] + a[off..off + |bytes|] + a[off + |bytes|..];
  }

  lemma LayoutV4(family: seq<byte>, port: seq<byte>, ip: seq<byte>)
    requires |family| == |port| == 2 && |ip| == 4
    ensures Overwrite(Overwrite(Overwrite(Zeros(STORAGE_SIZE), 0, family), 2, port), 4, ip)
         == family + port + ip + Zeros(8) + Zeros(STORAGE_SIZE - SOCKADDR_IN_SIZE)
  {
    assert Overwrite(Zeros(128), 0, family) == family + Zeros(126);
    assert Overwrite(family + Zeros(126), 2, port) == family + port + Zeros(124);
    assert Overwrite(family + port + Zeros(124), 4, ip) == family + port + ip + Zeros(120);
    assert Zeros(120) == Zeros(8) + Zeros(112);
    assert family + port + ip + (Zeros(8) + Zeros(112)) == family + port + ip + Zeros(8) + Zeros(112);
  }

  lemma LayoutV6(family: seq<byte>, port: seq<byte>, flow: seq<byte>, ip: seq<byte>, scope: seq<byte>)
    requires |family| == |port| == 2 && |flow| == |scope| == 4 && |ip| == 16
    ensures Overwrite(Overwrite(Overwrite(Overwrite(
              Overwrite(Zeros(STORAGE_SIZE), 0, family), 2, port), 8, ip), 4, flow), 24, scope)
         == family + port + flow + ip + scope + Zeros(STORAGE_SIZE - SOCKADDR_IN6_SIZE)
  {
    var head := family + port;
    assert Overwrite(Zeros(128), 0, family) == family + Zeros(126);
    assert Overwrite(family + Zeros(126), 2, port) == head + Zeros(124);
    assert Overwrite(head + Zeros(124), 8, ip) == head + Zeros(4) + ip + Zeros(104);
    assert Overwrite(head + Zeros(4) + ip + Zeros(104), 4, flow) == head + flow + ip + Zeros(104);
    assert Overwrite(head + flow + ip + Zeros(104), 24, scope) == head + flow + ip + scope + Zeros(100);
  }

  /** `to_raw`: a zeroed storage, filled field by field, and the length that is valid. */
  method ToRaw(e: Endian, a: SocketAddr) returns (storage: array<byte>, len: nat)
    ensures fresh(storage) && len == Size(a)
    ensures storage[..] == Encode(e, a) + Zeros(STORAGE_SIZE - len)
  {
    storage := new byte[STORAGE_SIZE](_ => 0);
    assert storage[..] == Zeros(STORAGE_SIZE);
    match a {
      case V4(ip, port) =>
        Store(storage, 0, Ne16(e, AF_INET));
        Store(storage, 2, Ne16(e, ToBe16(e, port)));
        Store(storage, 4, Ne32(e, FromNe32(e, ip)));
        len := SOCKADDR_IN_SIZE;
        LayoutV4(Ne16(e, AF_INET), Ne16(e, ToBe16(e, port)), Ne32(e, FromNe32(e, ip)));
      case V6(ip, port, flowinfo, scopeId) =>
        Store(storage, 0, Ne16(e, AF_INET6));
        Store(storage, 2, Ne16(e, ToBe16(e, port)));
        Store(storage, 8, ip);
        Store(storage, 4, Ne32(e, flowinfo));
        Store(storage, 24, Ne32(e, scopeId));
        len := SOCKADDR_IN6_SIZE;
        LayoutV6(Ne16(e, AF_INET6), Ne16(e, ToBe16(e, port)), Ne32(e, flowinfo), ip, Ne32(e, scopeId));
    }
  }

  /** `from_raw`. */
  function FromRaw(e: Endian, s: Storage): AddrResult {
    var family := At16(e, s, 0);
    if family == AF_INET then
      Ok(V4(Be32(FromBe32(e, At32(e, s, 4))), FromBe16(e, At16(e, s, 2))))
    else if family == AF_INET6 then
      Ok(V6(s[8..24], FromBe16(e, At16(e, s, 2)), At32(e, s, 4), At32(e, s, 24)))
    else UnsupportedFamily(family)
  }

  /** The raw form of addresses on a given host, as a writer. */
  function Writer(e: Endian): SocketAddr -> seq<byte> { (a: SocketAddr) => Encode(e, a) }

  /** The entry at the front of some memory, read as `parse_array` does: sized
      by its family, copied into a zeroed storage, decoded. */
  function Front(e: Endian, mem: seq<byte>): Head<SocketAddr> {
    if |mem| < 2 then Outside else
    var family := At16(e, mem, 0);
    if family != AF_INET && family != AF_INET6 then Stop else
    var step := if family == AF_INET then SOCKADDR_IN_SIZE else SOCKADDR_IN6_SIZE;
    if |mem| < step then Outside else
    match FromRaw(e, mem[..step] + Zeros(STORAGE_SIZE - step))
    case Ok(a) => Entry(a, step)
    case UnsupportedFamily(_) => Stop
  }

  function Reader(e: Endian): seq<byte> -> Head<SocketAddr> { (mem: seq<byte>) => Front(e, mem) }

  /** The contiguous buffer of raw addresses, as a function. */
  function Packed(e: Endian, addrs: seq<SocketAddr>): seq<byte> { Join(Writer(e), addrs) }

  method Pack(e: Endian, addrs: seq<SocketAddr>) returns (buf: seq<byte>)
    ensures buf == Packed(e, addrs)
  {
    buf := [];
    for i := 0 to |addrs|
      invariant buf == Packed(e, addrs[..i])
    {
      var storage, len := ToRaw(e, addrs[i]);
      assert storage[..len] == Writer(e)(addrs[i]);
      buf := buf + storage[..len];
      JoinSplit(Writer(e), addrs[..i], [addrs[i]]);
      assert addrs[..i + 1] == addrs[..i] + [addrs[i]];
    }
    assert addrs[..|addrs|] == addrs;
  }

  /** What the caller of `parse_array` promises: every entry that the walk
      reaches lies inside the memory, sized by its family. */
  predicate Walkable(e: Endian, mem: seq<byte>, count: int) { Inside(Reader(e), mem, count) }

  /** The addresses that a walk of `count` entries yields; it stops at a family it does not know. */
  function Parsed(e: Endian, mem: seq<byte>, count: int): seq<SocketAddr>
    requires Walkable(e, mem, count)
  {
    Walk(Reader(e), mem, count)
  }

  method ParseArray(e: Endian, mem: seq<byte>, count: int) returns (out: seq<SocketAddr>)
    requires Walkable(e, mem, count)
    ensures out == Parsed(e, mem, count)
  {
    out := WalkMemory(Reader(e), mem, count);
  }

  // ---- one address

  /** The bytes of a raw address, as the kernel defines them: the family in the
      order of the host, the port in network order, and the address itself; of
      an IPv6 address also flow information and scope, in the order of the host. */
  lemma RawLayout(e: Endian, a: SocketAddr)
    ensures var s := Encode(e, a);
            && |s| == (if a.V4? then 16 else 28)
            && s[0..2] == Ne16(e, if a.V4? then 2 else 10)
            && s[2..4] == Be16(a.port)
            && (a.V4? ==> s[4..8] == a.ip4 && s[8..] == Zeros(8))
            && (a.V6? ==> s[4..8] == Ne32(e, a.flowinfo) && s[8..24] == a.ip6 && s[24..] == Ne32(e, a.scopeId))
  {
    NetworkOrder16(e, a.port);
    match a {
      case V4(ip, port) =>
        NativeRoundTrip32(e, 0, ip);
        SliceV4(Ne16(e, 2), Be16(port), ip);
      case V6(ip, port, flowinfo, scopeId) =>
        SliceV6(Ne16(e, 10), Be16(port), Ne32(e, flowinfo), ip, Ne32(e, scopeId));
    }
  }

  lemma SliceV4(family: seq<byte>, port: seq<byte>, ip: seq<byte>)
    requires |family| == |port| == 2 && |ip| == 4
    ensures var s := family + port + ip + Zeros(8);
            s[0..2] == family && s[2..4] == port && s[4..8] == ip && s[8..] == Zeros(8)
  {
  }

  lemma SliceV6(family: seq<byte>, port: seq<byte>, flow: seq<byte>, ip: seq<byte>, scope: seq<byte>)
    requires |family| == |port| == 2 && |flow| == |scope| == 4 && |ip| == 16
    ensures var s := family + port + flow + ip + scope;
            s[0..2] == family && s[2..4] == port && s[4..8] == flow && s[8..24] == ip && s[24..] == scope
  {
  }

  /** Reading back a raw address gives the address, whatever follows it. */
  lemma DecodeEncode(e: Endian, a: SocketAddr, rest: seq<byte>)
    requires |rest| == STORAGE_SIZE - Size(a)
    ensures FromRaw(e, Encode(e, a) + rest) == Ok(a)
  {
    var s, raw := Encode(e, a) + rest, Encode(e, a);
    NetworkOrder16(e, a.port);
    RawLayout(e, a);
    assert s[0..2] == raw[0..2] && s[2..4] == raw[2..4] && s[4..8] == raw[4..8];
    match a {
      case V4(ip, port) =>
        NativeRoundTrip32(e, 0, ip);
        ReadV4(e, ip, port, s);
      case V6(ip, port, flowinfo, scopeId) =>
        assert s[8..24] == raw[8..24] && s[24..28] == raw[24..];
        ReadV6(e, ip, port, flowinfo, scopeId, s);
    }
  }

  lemma ReadV4(e: Endian, ip: Ip4, port: u16, s: Storage)
    requires s[0..2] == Ne16(e, AF_INET) && s[2..4] == Ne16(e, ToBe16(e, port))
    requires s[4..8] == Ne32(e, FromNe32(e, ip))
    ensures FromRaw(e, s) == Ok(V4(ip, port))
  {
    NativeRoundTrip16(e, AF_INET, s[0..2]);
    NativeRoundTrip16(e, ToBe16(e, port), s[2..4]);
    NetworkOrder16(e, port);
    NativeRoundTrip32(e, FromNe32(e, ip), ip);
    AddressBytes(e, ip);
  }

  lemma ReadV6(e: Endian, ip: Ip6, port: u16, flowinfo: u32, scopeId: u32, s: Storage)
    requires s[0..2] == Ne16(e, AF_INET6) && s[2..4] == Ne16(e, ToBe16(e, port))
    requires s[4..8] == Ne32(e, flowinfo) && s[8..24] == ip && s[24..28] == Ne32(e, scopeId)
    ensures FromRaw(e, s) == Ok(V6(ip, port, flowinfo, scopeId))
  {
    NativeRoundTrip16(e, AF_INET6, s[0..2]);
    NativeRoundTrip16(e, ToBe16(e, port), s[2..4]);
    NetworkOrder16(e, port);
    NativeRoundTrip32(e, flowinfo, s[4..8]);
    NativeRoundTrip32(e, scopeId, s[24..28]);
  }

  /** The other way round: only the padding of an IPv4 entry is not kept. */
  lemma EncodeDecode(e: Endian, s: Storage)
    requires FromRaw(e, s).Ok?
    ensures var a := FromRaw(e, s).addr;
            Encode(e, a) == if a.V4? then s[..8] + Zeros(8) else s[..SOCKADDR_IN6_SIZE]
  {
    var a := FromRaw(e, s).addr;
    Restore16(e, s, 0);
    Restore16(e, s, 2);
    PortBytes(e, At16(e, s, 2));
    match a {
      case V4(ip, port) =>
        AddressBytes(e, s[4..8]);
        NativeRoundTrip32(e, 0, ip);
        AssembleV4(e, ip, port, s);
      case V6(ip, port, flowinfo, scopeId) =>
        Restore32(e, s, 4);
        Restore32(e, s, 24);
        AssembleV6(e, ip, port, flowinfo, scopeId, s);
    }
  }

  lemma AssembleV4(e: Endian, ip: Ip4, port: u16, s: Storage)
    requires Ne16(e, AF_INET) == s[0..2] && Ne16(e, ToBe16(e, port)) == s[2..4]
    requires Ne32(e, FromNe32(e, ip)) == s[4..8]
    ensures Encode(e, V4(ip, port)) == s[..8] + Zeros(8)
  {
    assert s[0..2] + s[2..4] + s[4..8] == s[..8];
  }

  lemma AssembleV6(e: Endian, ip: Ip6, port: u16, flowinfo: u32, scopeId: u32, s: Storage)
    requires Ne16(e, AF_INET6) == s[0..2] && Ne16(e, ToBe16(e, port)) == s[2..4]
    requires Ne32(e, flowinfo) == s[4..8] && ip == s[8..24] && Ne32(e, scopeId) == s[24..28]
    ensures Encode(e, V6(ip, port, flowinfo, scopeId)) == s[..SOCKADDR_IN6_SIZE]
  {
    assert s[0..2] + s[2..4] + s[4..8] + s[8..24] + s[24..28] == s[..28];
  }

  lemma AddressBytes(e: Endian, raw: Ip4)
    ensures Be32(FromBe32(e, FromNe32(e, raw))) == raw
  {
    NativeRoundTrip32(e, 0, raw);
    Be32RoundTrip(0, raw);
  }

  lemma PortBytes(e: Endian, raw: u16)
    ensures ToBe16(e, FromBe16(e, raw)) == raw
  {
    Be16RoundTrip(0, Ne16(e, raw));
    NativeRoundTrip16(e, raw, Ne16(e, raw));
  }

  // ---- arrays of addresses

  lemma FrontOfEncoded(e: Endian, a: SocketAddr, rest: seq<byte>)
    ensures Front(e, Encode(e, a) + rest) == Entry(a, Size(a))
  {
    var mem, n := Encode(e, a) + rest, Size(a);
    assert mem[0..2] == Ne16(e, Family(a)) && mem[..n] == Encode(e, a);
    NativeRoundTrip16(e, Family(a), Ne16(e, Family(a)));
    DecodeEncode(e, a, Zeros(STORAGE_SIZE - n));
  }

  lemma ReaderReadsWriter(e: Endian)
    ensures Reads(Writer(e), Reader(e))
    ensures forall a :: Writer(e)(a) != []
  {
    forall a, rest ensures Reader(e)(Writer(e)(a) + rest) == Entry(a, |Writer(e)(a)|) {
      FrontOfEncoded(e, a, rest);
    }
  }

  lemma PackedSplit(e: Endian, a: seq<SocketAddr>, b: seq<SocketAddr>)
    ensures Packed(e, a + b) == Packed(e, a) + Packed(e, b)
  {
    JoinSplit(Writer(e), a, b);
  }

  function CountV4(addrs: seq<SocketAddr>): nat {
    if addrs == [] then 0 else (if addrs[0].V4? then 1 else 0) + CountV4(addrs[1..])
  }

  lemma {:induction false} PackedLength(e: Endian, addrs: seq<SocketAddr>)
    ensures CountV4(addrs) <= |addrs|
    ensures |Packed(e, addrs)| == 16 * CountV4(addrs) + 28 * (|addrs| - CountV4(addrs))
  {
    if addrs != [] {
      PackedLength(e, addrs[1..]);
    }
  }

  /** A walk of `k` entries over packed addresses, with anything behind them,
      stays inside and yields exactly the first `k`. */
  lemma ParsePacked(e: Endian, addrs: seq<SocketAddr>, rest: seq<byte>, k: nat)
    requires k <= |addrs|
    ensures Walkable(e, Packed(e, addrs) + rest, k)
    ensures Parsed(e, Packed(e, addrs) + rest, k) == addrs[..k]
  {
    ReaderReadsWriter(e);
    WalkJoin(Writer(e), Reader(e), addrs, rest, k);
  }

  /** A walk told of more entries stops at an entry of a family it does not know. */
  lemma ParseStops(e: Endian, addrs: seq<SocketAddr>, rest: seq<byte>, count: int)
    requires count > |addrs| && |rest| >= 2 && At16(e, rest, 0) != 2 && At16(e, rest, 0) != 10
    ensures Walkable(e, Packed(e, addrs) + rest, count)
    ensures Parsed(e, Packed(e, addrs) + rest, count) == addrs
  {
    ReaderReadsWriter(e);
    assert Reader(e)(rest).Stop?;
    WalkStops(Writer(e), Reader(e), addrs, rest, count);
  }

  /** The round trip: packing loses nothing, and the walk never leaves the packed bytes. */
  lemma PackRoundTrip(e: Endian, addrs: seq<SocketAddr>)
    ensures Walkable(e, Packed(e, addrs), |addrs|)
    ensures Parsed(e, Packed(e, addrs), |addrs|) == addrs
  {
    assert Packed(e, addrs) + [] == Packed(e, addrs);
    assert addrs[..|addrs|] == addrs;
    ParsePacked(e, addrs, [], |addrs|);
  }

  /** Packed arrays are a prefix code: if one list's bytes start another's, the list starts the other. */
  lemma PackedPrefix(e: Endian, a: seq<SocketAddr>, b: seq<SocketAddr>)
    requires Packed(e, a) <= Packed(e, b)
    ensures a <= b
  {
    ReaderReadsWriter(e);
    JoinPrefix(Writer(e), Reader(e), a, b);
  }

  lemma PackedInjective(e: Endian, a: seq<SocketAddr>, b: seq<SocketAddr>)
    requires Packed(e, a) == Packed(e, b)
    ensures a == b
  {
    PackedPrefix(e, a, b);
    PackedPrefix(e, b, a);
  }

  // ---- binding a client: the first address with bind, the rest with bindx

  /** What a socket is bound to, as the kernel decodes the bytes it is given. */
  class BoundSocket {
    var bound: seq<SocketAddr>

    constructor ()
      ensures bound == []
    {
      bound := [];
    }

    method Bind(e: Endian, raw: seq<byte>, accept: bool) returns (ok: bool)
      requires Walkable(e, raw, 1)
      modifies this
      ensures ok == accept
      ensures bound == if ok then old(bound) + Parsed(e, raw, 1) else old(bound)
    {
      ok := accept;
      if ok {
        var got := ParseArray(e, raw, 1);
        bound := bound + got;
      }
    }

    method Bindx(e: Endian, raw: seq<byte>, count: int, accept: bool) returns (ok: bool)
      requires Walkable(e, raw, count)
      modifies this
      ensures ok == accept
      ensures bound == if ok then old(bound) + Parsed(e, raw, count) else old(bound)
    {
      ok := accept;
      if ok {
        var got := ParseArray(e, raw, count);
        bound := bound + got;
      }
    }
  }

  /** The bytes of one address, as `bind` is given them. */
  method RawAddress(e: Endian, a: SocketAddr) returns (raw: seq<byte>)
    ensures raw == Packed(e, [a])
  {
    var storage, len := ToRaw(e, a);
    raw := storage[..len];
    assert raw == Writer(e)(a);
    assert Join(Writer(e), [a]) == Writer(e)(a) + [];
  }

  method BindFirst(e: Endian, socket: BoundSocket, a: SocketAddr, accept: bool)
    modifies socket
    ensures socket.bound == if accept then old(socket.bound) + [a] else old(socket.bound)
  {
    var raw := RawAddress(e, a);
    PackRoundTrip(e, [a]);
    var _ := socket.Bind(e, raw, accept);
  }

  method BindRest(e: Endian, socket: BoundSocket, rest: seq<SocketAddr>, accept: bool)
    modifies socket
    ensures socket.bound == if accept then old(socket.bound) + rest else old(socket.bound)
  {
    var packed := Pack(e, rest);
    PackRoundTrip(e, rest);
    var _ := socket.Bindx(e, packed, |rest|, accept);
  }

  /** `bind_local`: whatever the kernel answers, a success means that every
      local address is bound exactly once and in order. */
  method BindLocal(e: Endian, socket: BoundSocket, local: seq<SocketAddr>, bindOk: bool, bindxOk: bool)
    returns (ok: bool)
    modifies socket
    ensures ok <==> local == [] || (bindOk && (|local| > 1 ==> bindxOk))
    ensures socket.bound == old(socket.bound) + if ok then local else if bindOk then local[..1] else []
  {
    if local == [] {
      return true;
    }
    BindFirst(e, socket, local[0], bindOk);
    if !bindOk {
      return false;
    }
    if |local| > 1 {
      BindRest(e, socket, local[1..], bindxOk);
      assert local == local[..1] + local[1..];
      return bindxOk;
    }
    return true;
  }
}
