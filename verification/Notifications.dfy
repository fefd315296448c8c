/** SCTP notifications: `src/notification.rs` and the `ends` test of `src/association.rs`. */
module Notifications {
  import opened Wire

  const SCTP_ASSOC_CHANGE: u16 := 0x8001
  const SCTP_SEND_FAILED: u16 := 0x8004
  const SCTP_SHUTDOWN_EVENT: u16 := 0x8005

  const SCTP_COMM_UP: u16 := 0
  const SCTP_COMM_LOST: u16 := 1
  const SCTP_RESTART: u16 := 2
  const SCTP_SHUTDOWN_COMP: u16 := 3
  const SCTP_CANT_STR_ASSOC: u16 := 4

  const HEADER_SIZE: nat := 8
  const ASSOC_CHANGE_SIZE: nat := 20
  const SHUTDOWN_EVENT_SIZE: nat := 12

  datatype AssocState = CommUp | CommLost | Restart | ShutdownComp | CantStrAssoc | UnknownState(value: u16)

  datatype Notification =
    | AssocChange(state: AssocState, error: u16, outbound: u16, inbound: u16, assocId: i32)
    | Shutdown(assocId: i32)
    | SendFailed(assocId: i32)
    | Unknown(snType: u16)

  function StateOf(value: u16): AssocState {
    if value == SCTP_COMM_UP then CommUp
    else if value == SCTP_COMM_LOST then CommLost
    else if value == SCTP_RESTART then Restart
    else if value == SCTP_SHUTDOWN_COMP then ShutdownComp
    else if value == SCTP_CANT_STR_ASSOC then CantStrAssoc
    else UnknownState(value)
  }

  /** Whether a notification says that the association is over. */
  predicate Ends(n: Notification) {
    n.AssocChange? && (n.state.CommLost? || n.state.ShutdownComp? || n.state.CantStrAssoc?)
  }

  function Parse(e: Endian, buf: seq<byte>): Notification {
    if |buf| < HEADER_SIZE then Unknown(0) else
    var snType := At16(e, buf, 0);
    if snType == SCTP_ASSOC_CHANGE then
      if |buf| >= ASSOC_CHANGE_SIZE then
        AssocChange(StateOf(At16(e, buf, 8)), At16(e, buf, 10), At16(e, buf, 12), At16(e, buf, 14),
                    Signed(At32(e, buf, 16)))
      else Unknown(snType)
    else if snType == SCTP_SHUTDOWN_EVENT then
      if |buf| >= SHUTDOWN_EVENT_SIZE then Shutdown(Signed(At32(e, buf, 8)))
      else Unknown(snType)
    else if snType == SCTP_SEND_FAILED then
      SendFailed(if |buf| >= 12 then Signed(At32(e, buf, 8)) else 0)
    else Unknown(snType)
  }

  // ---- the kernel's side: struct encoders (sections 6.1.1, 6.1.4 and 6.1.5 of RFC 6458)

  function Header(e: Endian, snType: u16, flags: u16, length: u32): (s: seq<byte>)
    ensures |s| == 8
  {
    Ne16(e, snType) + Ne16(e, flags) + Ne32(e, length)
  }

  /** The fields of `struct sctp_assoc_change`. */
  datatype AssocChangeFields =
    AssocChangeFields(flags: u16, length: u32, state: u16, error: u16, outbound: u16, inbound: u16, assocId: i32)

  function EncodeAssocChange(e: Endian, c: AssocChangeFields): (s: seq<byte>)
    ensures |s| == ASSOC_CHANGE_SIZE
  {
    Header(e, SCTP_ASSOC_CHANGE, c.flags, c.length)
    + Ne16(e, c.state) + Ne16(e, c.error) + Ne16(e, c.outbound) + Ne16(e, c.inbound)
    + Ne32(e, Unsigned(c.assocId))
  }

  function EncodeShutdown(e: Endian, flags: u16, length: u32, assocId: i32): (s: seq<byte>)
    ensures |s| == SHUTDOWN_EVENT_SIZE
  {
    Header(e, SCTP_SHUTDOWN_EVENT, flags, length) + Ne32(e, Unsigned(assocId))
  }

  /** `struct sctp_send_failed`: the error field comes before the 32-byte
      `sctp_sndrcvinfo` and the association id. */
  function EncodeSendFailed(e: Endian, flags: u16, length: u32, error: u32, info: seq<byte>, assocId: i32): seq<byte>
    requires |info| == 32
  {
    Header(e, SCTP_SEND_FAILED, flags, length) + Ne32(e, error) + info + Ne32(e, Unsigned(assocId))
  }

  // ---- parsing inverts encoding

  lemma HeaderFields(e: Endian, snType: u16, flags: u16, length: u32, rest: seq<byte>)
    ensures At16(e, Header(e, snType, flags, length) + rest, 0) == snType
    ensures At16(e, Header(e, snType, flags, length) + rest, 2) == flags
    ensures At32(e, Header(e, snType, flags, length) + rest, 4) == length
  {
    var s := Header(e, snType, flags, length) + rest;
    assert s[0..2] == Ne16(e, snType) && s[2..4] == Ne16(e, flags) && s[4..8] == Ne32(e, length);
    NativeRoundTrip16(e, snType, s[0..2]);
    NativeRoundTrip16(e, flags, s[2..4]);
    NativeRoundTrip32(e, length, s[4..8]);
  }

  /** What `sac_state` stands for (section 6.1.1 of RFC 6458). */
  predicate StateMeans(value: u16, state: AssocState) {
    && (state == CommUp <==> value == 0)
    && (state == CommLost <==> value == 1)
    && (state == Restart <==> value == 2)
    && (state == ShutdownComp <==> value == 3)
    && (state == CantStrAssoc <==> value == 4)
    && (state.UnknownState? ==> state.value == value)
  }

  /** Whatever bytes follow the structure, parsing returns the fields that were
      encoded, and the state that the number stands for. */
  lemma ParseAssocChange(e: Endian, c: AssocChangeFields, tail: seq<byte>)
    ensures var n := Parse(e, EncodeAssocChange(e, c) + tail);
            && n.AssocChange? && StateMeans(c.state, n.state)
            && n == AssocChange(n.state, c.error, c.outbound, c.inbound, c.assocId)
  {
    var s := EncodeAssocChange(e, c) + tail;
    assert s == Header(e, SCTP_ASSOC_CHANGE, c.flags, c.length) + s[8..];
    HeaderFields(e, SCTP_ASSOC_CHANGE, c.flags, c.length, s[8..]);
    assert s[8..10] == Ne16(e, c.state) && s[10..12] == Ne16(e, c.error);
    assert s[12..14] == Ne16(e, c.outbound) && s[14..16] == Ne16(e, c.inbound);
    assert s[16..20] == Ne32(e, Unsigned(c.assocId));
    NativeRoundTrip16(e, c.state, s[8..10]);
    NativeRoundTrip16(e, c.error, s[10..12]);
    NativeRoundTrip16(e, c.outbound, s[12..14]);
    NativeRoundTrip16(e, c.inbound, s[14..16]);
    NativeRoundTrip32(e, Unsigned(c.assocId), s[16..20]);
  }

  lemma ParseShutdown(e: Endian, flags: u16, length: u32, assocId: i32, tail: seq<byte>)
    ensures Parse(e, EncodeShutdown(e, flags, length, assocId) + tail) == Shutdown(assocId)
  {
    var s := EncodeShutdown(e, flags, length, assocId) + tail;
    assert s == Header(e, SCTP_SHUTDOWN_EVENT, flags, length) + s[8..];
    HeaderFields(e, SCTP_SHUTDOWN_EVENT, flags, length, s[8..]);
    assert s[8..12] == Ne32(e, Unsigned(assocId));
    NativeRoundTrip32(e, Unsigned(assocId), s[8..12]);
  }

  /** What the parser reports as the association of a failed send is the error
      field of the structure: it names the right association exactly when the two agree. */
  lemma ParseSendFailed(e: Endian, flags: u16, length: u32, error: u32, info: seq<byte>, assocId: i32, data: seq<byte>)
    requires |info| == 32
    ensures Parse(e, EncodeSendFailed(e, flags, length, error, info, assocId) + data) == SendFailed(Signed(error))
    ensures Parse(e, EncodeSendFailed(e, flags, length, error, info, assocId) + data) == SendFailed(assocId)
            <==> error == Unsigned(assocId)
  {
    var s := EncodeSendFailed(e, flags, length, error, info, assocId) + data;
    var head, tail := Header(e, SCTP_SEND_FAILED, flags, length), info + Ne32(e, Unsigned(assocId)) + data;
    assert s == head + Ne32(e, error) + tail;
    Middle(head, Ne32(e, error), tail);
    assert s == head + (Ne32(e, error) + tail);
    HeaderFields(e, SCTP_SEND_FAILED, flags, length, Ne32(e, error) + tail);
    NativeRoundTrip32(e, error, s[8..12]);
  }

  lemma Middle(head: seq<byte>, x: seq<byte>, tail: seq<byte>)
    ensures (head + x + tail)[|head|..|head| + |x|] == x
  {
  }

  /** Every byte string, by its length, its type and the fields at their offsets:
      what is too short or of another type is reported by its type alone. */
  lemma ParseByOffset(e: Endian, buf: seq<byte>)
    ensures |buf| < 8 ==> Parse(e, buf) == Unknown(0)
    ensures |buf| >= 8 ==>
              var n, snType := Parse(e, buf), At16(e, buf, 0);
              && (n.AssocChange? <==> snType == 0x8001 && |buf| >= 20)
              && (n.AssocChange? ==>
                    && StateMeans(At16(e, buf, 8), n.state) && n.error == At16(e, buf, 10)
                    && n.outbound == At16(e, buf, 12) && n.inbound == At16(e, buf, 14)
                    && n.assocId == Signed(At32(e, buf, 16)))
              && (n.Shutdown? <==> snType == 0x8005 && |buf| >= 12)
              && (n.Shutdown? ==> n.assocId == Signed(At32(e, buf, 8)))
              && (n.SendFailed? <==> snType == 0x8004)
              && (n.SendFailed? ==> n.assocId == if |buf| < 12 then 0 else Signed(At32(e, buf, 8)))
              && (n.Unknown? ==> n.snType == snType)
  {
  }

  /** The decision to end, read off the bytes. */
  lemma EndsReads(e: Endian, buf: seq<byte>)
    ensures Ends(Parse(e, buf)) <==> |buf| >= 20 && At16(e, buf, 0) == 0x8001 && EndState(At16(e, buf, 8))
  {
  }

  predicate EndState(state: u16) { state == 1 || state == 3 || state == 4 }

  lemma RestoreHeader(e: Endian, buf: seq<byte>)
    requires |buf| >= 8
    ensures Header(e, At16(e, buf, 0), At16(e, buf, 2), At32(e, buf, 4)) == buf[..8]
  {
    Restore16(e, buf, 0);
    Restore16(e, buf, 2);
    Restore32(e, buf, 4);
  }

  lemma AssembleAssocChange(e: Endian, c: AssocChangeFields, buf: seq<byte>)
    requires |buf| >= ASSOC_CHANGE_SIZE
    requires Header(e, SCTP_ASSOC_CHANGE, c.flags, c.length) == buf[..8]
    requires Ne16(e, c.state) == buf[8..10] && Ne16(e, c.error) == buf[10..12]
    requires Ne16(e, c.outbound) == buf[12..14] && Ne16(e, c.inbound) == buf[14..16]
    requires Ne32(e, Unsigned(c.assocId)) == buf[16..20]
    ensures EncodeAssocChange(e, c) == buf[..ASSOC_CHANGE_SIZE]
  {
  }

  /** Every buffer of full length with the association-change type is the encoding of some fields. */
  lemma EveryAssocChangeIsEncoded(e: Endian, buf: seq<byte>) returns (c: AssocChangeFields)
    requires |buf| >= ASSOC_CHANGE_SIZE && At16(e, buf, 0) == SCTP_ASSOC_CHANGE
    ensures EncodeAssocChange(e, c) <= buf && c.state == At16(e, buf, 8)
  {
    var state, error, outbound, inbound := At16(e, buf, 8), At16(e, buf, 10), At16(e, buf, 12), At16(e, buf, 14);
    var id := At32(e, buf, 16);
    c := AssocChangeFields(At16(e, buf, 2), At32(e, buf, 4), state, error, outbound, inbound, Signed(id));
    RestoreHeader(e, buf);
    Restore16(e, buf, 8);
    Restore16(e, buf, 10);
    Restore16(e, buf, 12);
    Restore16(e, buf, 14);
    Restore32(e, buf, 16);
    assert Unsigned(Signed(id)) == id;
    AssembleAssocChange(e, c, buf);
  }

  /** The bytes start with an association change that ends the association. */
  ghost predicate EncodesEnd(e: Endian, buf: seq<byte>) {
    exists c: AssocChangeFields :: EncodeAssocChange(e, c) <= buf && EndState(c.state)
  }

  /** The decision to end is exact on every byte string. */
  lemma EndsExactly(e: Endian, buf: seq<byte>)
    ensures Ends(Parse(e, buf)) <==> EncodesEnd(e, buf)
    ensures Ends(Parse(e, buf)) <==> |buf| >= 20 && At16(e, buf, 0) == 0x8001 && At16(e, buf, 8) in {1, 3, 4}
  {
    EndsReads(e, buf);
    if Ends(Parse(e, buf)) {
      var c := EveryAssocChangeIsEncoded(e, buf);
    }
    if EncodesEnd(e, buf) {
      EncodedEnds(e, buf);
    }
  }

  lemma EncodedEnds(e: Endian, buf: seq<byte>)
    requires EncodesEnd(e, buf)
    ensures Ends(Parse(e, buf))
  {
    var c: AssocChangeFields :| EncodeAssocChange(e, c) <= buf && EndState(c.state);
    assert buf == EncodeAssocChange(e, c) + buf[ASSOC_CHANGE_SIZE..];
    ParseAssocChange(e, c, buf[ASSOC_CHANGE_SIZE..]);
  }
}
