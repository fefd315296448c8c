/** What a send passes to the kernel: `SendOptions` and the arguments of `send_with`. */
module SendPath {
  import opened Wire
  import opened Reassembling

  const SCTP_UNORDERED: bv32 := 0x0001
  const SCTP_ABORT: bv32 := 0x0004
  const SCTP_EOF: bv32 := 0x0200

  datatype SendOptions = SendOptions(unordered: bool, ttlMs: u32, abort: bool, eof: bool)

  /** Each option has its bit and no other bit is set: a kernel that looks at
      the bits, in the full word or in the 16 that the one-to-many path passes
      on, finds exactly the options. */
  method SinfoFlags(o: SendOptions) returns (flags: bv32)
    ensures flags & 0x0001 != 0 <==> o.unordered
    ensures flags & 0x0004 != 0 <==> o.abort
    ensures flags & 0x0200 != 0 <==> o.eof
    ensures flags & !0x0205 == 0
    ensures Narrow(flags) as bv32 == flags
    ensures flags == Flags(o)
  {
    flags := 0;
    if o.unordered {
      flags := flags | SCTP_UNORDERED;
    }
    if o.abort {
      flags := flags | SCTP_ABORT;
    }
    if o.eof {
      flags := flags | SCTP_EOF;
    }
  }

  function Flags(o: SendOptions): bv32 {
    (if o.unordered then SCTP_UNORDERED else 0)
    | (if o.abort then SCTP_ABORT else 0)
    | (if o.eof then SCTP_EOF else 0)
  }

  /** The narrowing of the one-to-many path. */
  function Narrow(flags: bv32): bv16 { (flags & 0xFFFF) as bv16 }

  /** A call of `send_with` on a host: `to` names the association on a
      one-to-many socket and is absent on an association's own. */
  datatype SendCall =
    SendCall(host: Endian, to: Option<i32>, data: seq<byte>, stream: u16, ppid: u32, options: SendOptions)

  /** What the kernel is given for one message: the arguments of `sctp_sendmsg`
      on an association, those of `sctp_send` on a one-to-many socket. */
  datatype Frame =
    | SendMsg(data: seq<byte>, ppid: u32, flags: bv32, stream: u16, ttl: u32, context: u32)
    | SendInfo(data: seq<byte>, info: SndRcvInfo)

  function Handed(c: SendCall): Frame {
    match c.to
    case None => SendMsg(c.data, ToBe32(c.host, c.ppid), Flags(c.options), c.stream, c.options.ttlMs, 0)
    case Some(id) =>
      SendInfo(c.data, SndRcvInfo(c.stream, 0, Narrow(Flags(c.options)), ToBe32(c.host, c.ppid), 0,
                                  c.options.ttlMs, 0, 0, id))
  }

  /** A message as the kernel understands it, with the PPID as a number. */
  datatype Request =
    Request(to: Option<i32>, data: seq<byte>, stream: u16, ppid: int, unordered: bool, abort: bool, eof: bool, ttl: u32)

  /** The number that four bytes in memory are in network order. */
  function InMemory(host: Endian, raw: u32): int {
    var s := Ne32(host, raw);
    Number4(s[0], s[1], s[2], s[3])
  }

  /** What the kernel makes of its arguments (sections 5.3.2 and 9.7 of RFC 6458). */
  function KernelReads(host: Endian, f: Frame): Request {
    match f
    case SendMsg(data, ppid, flags, stream, ttl, _) =>
      Request(None, data, stream, InMemory(host, ppid),
              flags & 0x0001 != 0, flags & 0x0004 != 0, flags & 0x0200 != 0, ttl)
    case SendInfo(data, info) =>
      Request(Some(info.assocId), data, info.stream, InMemory(host, info.ppid),
              info.flags & 0x0001 != 0, info.flags & 0x0004 != 0, info.flags & 0x0200 != 0, info.timeToLive)
  }

  /** What the caller asked for. */
  function Asked(c: SendCall): Request {
    Request(c.to, c.data, c.stream, c.ppid, c.options.unordered, c.options.abort, c.options.eof, c.options.ttlMs)
  }

  /** The kernel finds exactly what the caller asked for, on either path and
      either byte order, and no flag beside the three. */
  lemma KernelReadsCall(c: SendCall)
    ensures KernelReads(c.host, Handed(c)) == Asked(c)
    ensures Handed(c).SendMsg? ==> Handed(c).flags & !0x0205 == 0 && Handed(c).context == 0
    ensures Handed(c).SendInfo? ==> Handed(c).info.flags & !0x0205 == 0 && Handed(c).info.context == 0
  {
    FlagBits(c.options);
    PpidInMemory(c.host, c.ppid);
    match c.to {
      case None => assert Handed(c).ppid == ToBe32(c.host, c.ppid) && Handed(c).flags == Flags(c.options);
      case Some(_) =>
        assert Handed(c).info.ppid == ToBe32(c.host, c.ppid) && Handed(c).info.flags == Narrow(Flags(c.options));
    }
  }

  lemma PpidInMemory(host: Endian, ppid: u32)
    ensures InMemory(host, ToBe32(host, ppid)) == ppid
  {
    NetworkOrder32(host, ppid);
    NetworkBytes(0, ppid);
  }

  lemma FlagBits(o: SendOptions)
    ensures Flags(o) & 0x0001 != 0 <==> o.unordered
    ensures Flags(o) & 0x0004 != 0 <==> o.abort
    ensures Flags(o) & 0x0200 != 0 <==> o.eof
    ensures Flags(o) & !0x0205 == 0
    ensures Narrow(Flags(o)) & 0x0001 != 0 <==> o.unordered
    ensures Narrow(Flags(o)) & 0x0004 != 0 <==> o.abort
    ensures Narrow(Flags(o)) & 0x0200 != 0 <==> o.eof
    ensures Narrow(Flags(o)) & !0x0205 == 0
  {
  }

  /** The PPID as the wire carries it: the bytes that the sending host stores. */
  function OnTheWire(sender: Endian, raw: u32): seq<byte> { Ne32(sender, raw) }

  /** What a receiving host finds in `sinfo_ppid` for those bytes. */
  function OffTheWire(receiver: Endian, bytes: seq<byte>): u32
    requires |bytes| == 4
  {
    FromNe32(receiver, bytes)
  }

  /** The PPID and stream survive from `send_with` to the receiver's `RecvInfo`,
      whatever the byte orders of the two hosts. */
  lemma MetadataSurvives(c: SendCall, receiver: Endian, chunk: seq<byte>, flags: bv32, assocId: i32)
    requires flags & 0x8000 == 0
    ensures var f := Handed(c);
            var stream := if f.SendMsg? then f.stream else f.info.stream;
            var ppid := if f.SendMsg? then f.ppid else f.info.ppid;
            var sinfo := SndRcvInfo(stream, 0, 0, OffTheWire(receiver, OnTheWire(c.host, ppid)), 0, 0, 0, 0, assocId);
            && OnTheWire(c.host, ppid) == Be32(c.ppid)
            && Classify(receiver, chunk, flags, sinfo, None).info == RecvInfo(c.stream, c.ppid, assocId)
  {
    NetworkOrder32(c.host, c.ppid);
    NetworkOrder32(receiver, c.ppid);
    NativeRoundTrip32(receiver, c.ppid, Be32(c.ppid));
  }
}
