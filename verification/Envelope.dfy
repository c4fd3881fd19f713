/** The rfu-tunnel.v2 envelope (switchtrade/rfu_tunnel_v2.py). */
module Envelopes {
  import opened Common
  import opened Bytes
  import Utf8

  const MAGIC: seq<Byte> := [0x53, 0x54, 0x52, 0x32]  // "STR2"
  const VERSION: Byte := 2
  const MAX_ATTEMPT_BYTES := 128
  const MAX_PAYLOAD_BYTES := 64 * 1024
  const MAX_RFU_PAYLOAD_BYTES := 0xFFFF - 8
  const HEADER_BYTES := 30
  const MAX_ENVELOPE_BYTES := HEADER_BYTES + MAX_ATTEMPT_BYTES + MAX_PAYLOAD_BYTES
  const PROBE_BYTES := 32
  const MAX_UINT64 := 0xFFFF_FFFF_FFFF_FFFF

  type Text = seq<Utf8.CodePoint>

  datatype Seat = MemberA | MemberB {
    function Peer(): Seat {
      if MemberA? then MemberB else MemberA
    }

    function Code(): Byte {
      if MemberA? then 1 else 2
    }
  }

  datatype Kind = PeerReady | ProbeChallenge | ProbeResponse | Advertisement | SideReady | PeerClose | Rfu {
    function Code(): Byte {
      match this
      case PeerReady => 1
      case ProbeChallenge => 2
      case ProbeResponse => 3
      case Advertisement => 4
      case SideReady => 5
      case PeerClose => 6
      case Rfu => 7
    }
  }

  // The contract failures a TunnelV2Error carries.
  datatype TunnelError =
    | AttemptInvalid | FlagsInvalid | PayloadTooLarge | PayloadInvalid | RfuPayloadInvalid
    | EnvelopeInvalid | EpochInvalid | SequenceInvalid
    | AttemptMismatch | SourceSeatMismatch | EpochStale | EpochStartInvalid
    | SequenceDuplicate | SequenceGap | PeerReadyDuplicate
    | IdentityMismatch | AdvertisementChanged | SideReadyContract | SideReadyIdentity
    | SideReadyAdvertisement | SideReadyDuplicate | BridgeNotReady | RetentionOverflow
    | ProbeMismatch | AdvertisementEarly | AdvertisementHashMismatch | AdvertisementDuplicate

  datatype Envelope = Envelope(
    attempt: Text, seat: Seat, epoch: int, sequence: int, kind: Kind,
    payload: seq<Byte> := [], flags: int := 0)

  function AttemptBytes(attempt: Text): (r: Result<seq<Byte>, TunnelError>)
    ensures r.Ok? ==> 1 <= |r.value| <= MAX_ATTEMPT_BYTES
  {
    if !Utf8.Encodable(attempt) then Err(AttemptInvalid)
    else
      var encoded := Utf8.Encode(attempt);
      if 1 <= |encoded| <= MAX_ATTEMPT_BYTES then Ok(encoded) else Err(AttemptInvalid)
  }

  function ValidatePayload(kind: Kind, payload: seq<Byte>, flags: int): (r: Option<TunnelError>)
  {
    if !(0 <= flags <= 0xFF) then Some(FlagsInvalid)
    else if kind != Rfu && flags != 0 then Some(FlagsInvalid)
    else if |payload| > MAX_PAYLOAD_BYTES then Some(PayloadTooLarge)
    else if kind == PeerReady && payload != [] then Some(PayloadInvalid)
    else if (kind == ProbeChallenge || kind == ProbeResponse) && |payload| != PROBE_BYTES then
      Some(PayloadInvalid)
    else if (kind == Advertisement || kind == SideReady) && payload == [] then Some(PayloadInvalid)
    else if kind == Rfu && (payload == [] || |payload| > MAX_RFU_PAYLOAD_BYTES) then
      Some(RfuPayloadInvalid)
    else None
  }

  // Why an envelope has no encoding, if it has none.
  function EncodeError(e: Envelope): (error: Option<TunnelError>)
  {
    match AttemptBytes(e.attempt)
    case Err(error) => Some(error)
    case Ok(_) =>
      if !(0 <= e.epoch <= MAX_UINT64) then Some(EpochInvalid)
      else if !(0 <= e.sequence <= MAX_UINT64) then Some(SequenceInvalid)
      else ValidatePayload(e.kind, e.payload, e.flags)
  }

  // An envelope that may appear on the wire.
  predicate Valid(e: Envelope) {
    EncodeError(e) == None
  }

  function Encode(e: Envelope): (r: Result<seq<Byte>, TunnelError>)
    ensures r.Ok? <==> Valid(e)
    ensures r.Ok? ==> |r.value| == HEADER_BYTES + |AttemptBytes(e.attempt).value| + |e.payload|
    ensures r.Err? ==> EncodeError(e) == Some(r.error)
  {
    var error := EncodeError(e);
    if error.Some? then Err(error.value)
    else
      var attempt := AttemptBytes(e.attempt).value;
      Ok(Header(e.kind.Code(), e.seat.Code(), e.flags, e.epoch, e.sequence, |attempt|, |e.payload|)
         + attempt + e.payload)
  }

  // struct "!4sBBBBQQHI".
  function Header(kind: Byte, seat: Byte, flags: Byte, epoch: nat, sequence: nat,
                  attemptLength: nat, payloadLength: nat): (b: seq<Byte>)
    ensures |b| == HEADER_BYTES
  {
    MAGIC + [VERSION, kind, seat, flags] + BE(epoch, 8) + BE(sequence, 8)
    + BE(attemptLength, 2) + BE(payloadLength, 4)
  }

  function SeatOf(code: Byte): Option<Seat> {
    if code == 1 then Some(MemberA) else if code == 2 then Some(MemberB) else None
  }

  function KindOf(code: Byte): Option<Kind> {
    match code
    case 1 => Some(PeerReady)
    case 2 => Some(ProbeChallenge)
    case 3 => Some(ProbeResponse)
    case 4 => Some(Advertisement)
    case 5 => Some(SideReady)
    case 6 => Some(PeerClose)
    case 7 => Some(Rfu)
    case _ => None
  }

  // The header is supported and announces exactly the length that arrived.
  predicate Framed(raw: seq<Byte>) {
    && |raw| >= HEADER_BYTES
    && raw[..4] == MAGIC && raw[4] == VERSION
    && 1 <= FromBE(raw[24..26]) <= MAX_ATTEMPT_BYTES
    && FromBE(raw[26..30]) <= MAX_PAYLOAD_BYTES
    && |raw| == HEADER_BYTES + FromBE(raw[24..26]) + FromBE(raw[26..30])
  }

  function Decode(raw: seq<Byte>): (r: Result<Envelope, TunnelError>)
  {
    if !Framed(raw) then Err(EnvelopeInvalid)
    else
      var boundary := HEADER_BYTES + FromBE(raw[24..26]);
      DecodeFields(raw[..HEADER_BYTES], raw[HEADER_BYTES..boundary], raw[boundary..])
  }

  function DecodeFields(h: seq<Byte>, attemptBytes: seq<Byte>, payload: seq<Byte>): (r: Result<Envelope, TunnelError>)
    requires |h| == HEADER_BYTES
  {
    var attempt, seat, kind := Utf8.Decode(attemptBytes), SeatOf(h[6]), KindOf(h[5]);
    if attempt.None? || seat.None? || kind.None? then Err(EnvelopeInvalid)
    else
      var e := Envelope(attempt.value, seat.value, FromBE(h[8..16]), FromBE(h[16..24]), kind.value,
                        payload, h[7]);
      match AttemptBytes(e.attempt)
      case Err(error) => Err(error)
      case Ok(_) =>
        match ValidatePayload(e.kind, e.payload, e.flags)
        case Some(error) => Err(error)
        case None => Ok(e)
  }

  lemma FieldWidths()
    ensures Pow256(2) == 0x1_0000 && Pow256(4) == 0x1_0000_0000 && Pow256(8) == MAX_UINT64 + 1
  {
    assert Pow256(3) == 256 * Pow256(2);
    assert Pow256(4) == 256 * Pow256(3);
    assert Pow256(5) == 256 * Pow256(4);
    assert Pow256(6) == 256 * Pow256(5);
    assert Pow256(7) == 256 * Pow256(6);
  }

  // Where each field of the header lies.
  lemma HeaderFields(kind: Byte, seat: Byte, flags: Byte, epoch: nat, sequence: nat,
                     attemptLength: nat, payloadLength: nat, rest: seq<Byte>)
    ensures var b := Header(kind, seat, flags, epoch, sequence, attemptLength, payloadLength) + rest;
            && b[..4] == MAGIC && b[4] == VERSION && b[5] == kind && b[6] == seat && b[7] == flags
            && b[8..16] == BE(epoch, 8) && b[16..24] == BE(sequence, 8)
            && b[24..26] == BE(attemptLength, 2) && b[26..30] == BE(payloadLength, 4)
            && b[HEADER_BYTES..] == rest
  {
  }

  // Reading back what was written gives the same envelope.
  lemma DecodeOfEncode(e: Envelope)
    requires Valid(e)
    ensures Decode(Encode(e).value) == Ok(e)
  {
    hide FromBE, BE;
    FieldWidths();
    var attempt := AttemptBytes(e.attempt).value;
    var raw := Encode(e).value;
    var rest := attempt + e.payload;
    var header := Header(e.kind.Code(), e.seat.Code(), e.flags, e.epoch, e.sequence, |attempt|, |e.payload|);
    assert raw == header + rest;
    HeaderFields(e.kind.Code(), e.seat.Code(), e.flags, e.epoch, e.sequence, |attempt|, |e.payload|, rest);
    FromBEOfBE(e.epoch, 8);
    FromBEOfBE(e.sequence, 8);
    FromBEOfBE(|attempt|, 2);
    FromBEOfBE(|e.payload|, 4);
    Utf8.DecodeOfEncode(e.attempt);
    var boundary := HEADER_BYTES + |attempt|;
    assert raw[HEADER_BYTES..boundary] == raw[HEADER_BYTES..][..|attempt|] == attempt;
    assert raw[boundary..] == raw[HEADER_BYTES..][|attempt|..] == e.payload;
    var h := raw[..HEADER_BYTES];
    assert h == header && header + [] == header;
    HeaderFields(e.kind.Code(), e.seat.Code(), e.flags, e.epoch, e.sequence, |attempt|, |e.payload|, []);
    assert DecodeFields(h, attempt, e.payload) == Ok(e);
  }

  // Every byte of a supported header is determined by the fields read from it.
  lemma HeaderOfFields(h: seq<Byte>)
    requires |h| == HEADER_BYTES && h[..4] == MAGIC && h[4] == VERSION
    ensures Header(h[5], h[6], h[7], FromBE(h[8..16]), FromBE(h[16..24]),
                   FromBE(h[24..26]), FromBE(h[26..30])) == h
  {
    BEOfFromBE(h[8..16]);
    BEOfFromBE(h[16..24]);
    BEOfFromBE(h[24..26]);
    BEOfFromBE(h[26..30]);
    assert h == h[..4] + [h[4], h[5], h[6], h[7]] + h[8..16] + h[16..24] + h[24..26] + h[26..30];
  }

  lemma SplitAt(raw: seq<Byte>, i: nat, j: nat)
    requires i <= j <= |raw|
    ensures raw == raw[..i] + raw[i..j] + raw[j..]
  {
  }

  lemma FieldsRoundTrip(h: seq<Byte>, attemptBytes: seq<Byte>, payload: seq<Byte>)
    requires |h| == HEADER_BYTES && h[..4] == MAGIC && h[4] == VERSION
    requires FromBE(h[24..26]) == |attemptBytes| && FromBE(h[26..30]) == |payload|
    requires DecodeFields(h, attemptBytes, payload).Ok?
    ensures Encode(DecodeFields(h, attemptBytes, payload).value) == Ok(h + attemptBytes + payload)
  {
    FieldWidths();
    var e := DecodeFields(h, attemptBytes, payload).value;
    HeaderOfFields(h);
    Utf8.EncodeOfDecode(attemptBytes);
    assert |h[8..16]| == 8 && |h[16..24]| == 8;
    assert e.kind.Code() == h[5] && e.seat.Code() == h[6] && e.flags == h[7];
  }

  // Nothing but the encoding of an envelope is accepted: the wire form is unique and bounded.
  lemma EncodeOfDecode(raw: seq<Byte>)
    requires Decode(raw).Ok?
    ensures Encode(Decode(raw).value) == Ok(raw)
    ensures Valid(Decode(raw).value)
    ensures |raw| <= MAX_ENVELOPE_BYTES
  {
    var h := raw[..HEADER_BYTES];
    var boundary := HEADER_BYTES + FromBE(raw[24..26]);
    var attemptBytes, payload := raw[HEADER_BYTES..boundary], raw[boundary..];
    assert h[..4] == raw[..4] && h[24..26] == raw[24..26] && h[26..30] == raw[26..30];
    FieldsRoundTrip(h, attemptBytes, payload);
    assert raw == h + attemptBytes + payload by {
      SplitAt(raw, HEADER_BYTES, boundary);
    }
  }

  // The two directions together: the decoder accepts exactly the encodings of valid
  // envelopes, and no byte string is the encoding of two of them.
  lemma AcceptedExactlyEncodings(raw: seq<Byte>, e: Envelope)
    ensures Decode(raw) == Ok(e) <==> Encode(e) == Ok(raw)
  {
    if Decode(raw) == Ok(e) {
      EncodeOfDecode(raw);
    }
    if Encode(e) == Ok(raw) {
      DecodeOfEncode(e);
    }
  }
}
