/**
 The envelope byte by byte: which envelopes are valid, where each field of the header lies and which
 number it holds, and the bytes of one character.
 */
module EnvelopeLayout {
  import opened Common
  import opened Bytes
  import Utf8
  import opened Envelopes

  // ---- numbers ------------------------------------------------------------------------------

  // A big-endian field, most significant byte first.
  lemma BigEndian(b: seq<Byte>)
    ensures |b| == 2 ==> FromBE(b) == 0x100 * b[0] as int + b[1] as int
    ensures |b| == 4 ==>
      FromBE(b) == 0x100_0000 * b[0] as int + 0x1_0000 * b[1] as int + 0x100 * b[2] as int + b[3] as int
    ensures |b| == 8 ==> FromBE(b) == 0x1_0000_0000 * FromBE(b[..4]) + FromBE(b[4..])
  {
    if |b| == 2 {
      BigPair(b);
    }
    if |b| == 4 {
      BigFour(b);
    }
    if |b| == 8 {
      BigEight(b);
    }
  }

  lemma BigPair(b: seq<Byte>)
    requires |b| == 2
    ensures FromBE(b) == 0x100 * b[0] as int + b[1] as int
  {
    assert b[..1][..0] == [];
    assert FromBE(b[..1]) == b[0];
  }

  lemma BigFour(b: seq<Byte>)
    requires |b| == 4
    ensures FromBE(b) == 0x100_0000 * b[0] as int + 0x1_0000 * b[1] as int + 0x100 * b[2] as int + b[3] as int
  {
    BigPair(b[..2]);
    assert b[..3][..2] == b[..2];
    assert FromBE(b[..3]) == 0x100 * FromBE(b[..2]) + b[2];
  }

  lemma BigEight(b: seq<Byte>)
    requires |b| == 8
    ensures FromBE(b) == 0x1_0000_0000 * FromBE(b[..4]) + FromBE(b[4..])
  {
    BigFour(b[4..]);
    assert b[..7][..6] == b[..6] && b[..6][..5] == b[..5] && b[..5][..4] == b[..4];
    assert FromBE(b[..5]) == 0x100 * FromBE(b[..4]) + b[4];
    assert FromBE(b[..6]) == 0x100 * FromBE(b[..5]) + b[5];
    assert FromBE(b[..7]) == 0x100 * FromBE(b[..6]) + b[6];
    assert b[4..][0] == b[4] && b[4..][1] == b[5] && b[4..][2] == b[6] && b[4..][3] == b[7];
  }

  // ---- validity -----------------------------------------------------------------------------

  // The sizes a payload may have, by kind.
  predicate PayloadFits(kind: Kind, size: nat) {
    if kind == PeerReady then size == 0
    else if kind == ProbeChallenge || kind == ProbeResponse then size == 32
    else if kind == Advertisement || kind == SideReady then 1 <= size <= 65536
    else if kind == Rfu then 1 <= size <= 65527
    else size <= 65536
  }

  // An envelope is valid exactly when its attempt takes 1 to 128 bytes, both counters fit 64 bits,
  // only RFU frames carry flags, and the payload has a size for its kind.
  lemma ValidExactly(e: Envelope)
    ensures Valid(e) <==>
              && Utf8.Encodable(e.attempt) && 1 <= |Utf8.Encode(e.attempt)| <= 128
              && 0 <= e.epoch < 0x1_0000_0000_0000_0000 && 0 <= e.sequence < 0x1_0000_0000_0000_0000
              && 0 <= e.flags < 256 && (e.flags != 0 ==> e.kind == Rfu)
              && PayloadFits(e.kind, |e.payload|)
  {
  }

  // What is wrong with an envelope that has no encoding: the first of the attempt, the counters, the
  // flags and the payload.
  lemma ErrorsExactly(e: Envelope)
    ensures EncodeError(e) ==
            if !(Utf8.Encodable(e.attempt) && 1 <= |Utf8.Encode(e.attempt)| <= 128) then Some(AttemptInvalid)
            else if !(0 <= e.epoch < 0x1_0000_0000_0000_0000) then Some(EpochInvalid)
            else if !(0 <= e.sequence < 0x1_0000_0000_0000_0000) then Some(SequenceInvalid)
            else if !(0 <= e.flags < 256) || (e.flags > 0 && e.kind != Rfu) then Some(FlagsInvalid)
            else if |e.payload| > 65536 then Some(PayloadTooLarge)
            else if PayloadFits(e.kind, |e.payload|) then None
            else if e.kind == Rfu then Some(RfuPayloadInvalid)
            else Some(PayloadInvalid)
  {
  }

  // Bytes whose lengths, version or codes are wrong are no envelope; a well-formed one that must not
  // be sent is refused for the same reason as when it is encoded.
  lemma DecodeErrorsExactly(raw: seq<Byte>)
    ensures var r := Decode(raw);
            if |raw| < 30 || raw[..4] != [0x53, 0x54, 0x52, 0x32] || raw[4] != 2 then r == Err(EnvelopeInvalid)
            else
              var n, m := FromBE(raw[24..26]), FromBE(raw[26..30]);
              if !(1 <= n <= 128) || m > 65536 || |raw| != 30 + n + m || Utf8.Decode(raw[30..30 + n]).None?
                 || !(1 <= raw[6] <= 2) || !(1 <= raw[5] <= 7) then r == Err(EnvelopeInvalid)
              else
                var e := Envelope(Utf8.Decode(raw[30..30 + n]).value, if raw[6] == 1 then MemberA else MemberB,
                                  FromBE(raw[8..16]), FromBE(raw[16..24]), KINDS[raw[5] - 1], raw[30 + n..], raw[7]);
                r == if EncodeError(e).Some? then Err(EncodeError(e).value) else Ok(e)
  {
    hide FromBE, Utf8.Decode, Utf8.Encode, Utf8.Encodable;
    if |raw| >= 30 {
      FieldWidths();
      var h := raw[..30];
      assert h[8..16] == raw[8..16] && h[16..24] == raw[16..24];
      assert FromBE(raw[8..16]) <= MAX_UINT64 && FromBE(raw[16..24]) <= MAX_UINT64;
    }
  }

  // ---- the header ---------------------------------------------------------------------------

  const KINDS := [PeerReady, ProbeChallenge, ProbeResponse, Advertisement, SideReady, PeerClose, Rfu]

  // The fields of an encoded envelope: "STR2", the version, kind, seat and flags as one byte each,
  // both counters, both lengths, then the attempt and the payload.
  lemma Layout(e: Envelope)
    requires Valid(e)
    ensures var b, attempt := Encode(e).value, Utf8.Encode(e.attempt);
            && |b| == 30 + |attempt| + |e.payload|
            && b[..5] == [0x53, 0x54, 0x52, 0x32, 0x02]
            && 1 <= b[5] <= 7 && KINDS[b[5] - 1] == e.kind
            && b[6] == (if e.seat == MemberA then 1 else 2)
            && b[7] == e.flags
            && FromBE(b[8..16]) == e.epoch && FromBE(b[16..24]) == e.sequence
            && FromBE(b[24..26]) == |attempt| && FromBE(b[26..30]) == |e.payload|
            && b[30..30 + |attempt|] == attempt && b[30 + |attempt|..] == e.payload
  {
    hide BE, FromBE, Utf8.Encode, Utf8.Encodable;
    FieldWidths();
    var attempt := AttemptBytes(e.attempt).value;
    HeaderFields(e.kind.Code(), e.seat.Code(), e.flags, e.epoch, e.sequence, |attempt|, |e.payload|,
                 attempt + e.payload);
    var b := Header(e.kind.Code(), e.seat.Code(), e.flags, e.epoch, e.sequence, |attempt|, |e.payload|)
             + (attempt + e.payload);
    assert Encode(e).value == b;
    FromBEOfBE(e.epoch, 8);
    FromBEOfBE(e.sequence, 8);
    FromBEOfBE(|attempt|, 2);
    FromBEOfBE(|e.payload|, 4);
    assert b[..5] == b[..4] + [b[4]];
    assert b[30..] == attempt + e.payload;
    assert b[30..30 + |attempt|] == b[30..][..|attempt|] && b[30 + |attempt|..] == b[30..][|attempt|..];
  }

  // ---- characters ---------------------------------------------------------------------------

  // One to four bytes by the size of the scalar: a lead byte that tells how many, and tail bytes
  // with six bits each.
  lemma ScalarBytes(c: Utf8.CodePoint)
    ensures var b := Utf8.EncodeScalar(c);
            && |b| == (if c < 128 then 1 else if c < 2048 then 2 else if c < 65536 then 3 else 4)
            && (forall i :: 1 <= i < |b| ==> 128 <= b[i] < 192)
            && (|b| == 1 ==> b[0] == c)
            && (|b| == 2 ==> 192 <= b[0] < 224 && c == 64 * (b[0] as int - 192) + (b[1] as int - 128))
            && (|b| == 3 ==>
                  && 224 <= b[0] < 240
                  && c == 4096 * (b[0] as int - 224) + 64 * (b[1] as int - 128) + (b[2] as int - 128))
            && (|b| == 4 ==>
                  && 240 <= b[0] < 248
                  && c == 262144 * (b[0] as int - 240) + 4096 * (b[1] as int - 128) + 64 * (b[2] as int - 128)
                          + (b[3] as int - 128))
    ensures Utf8.Surrogate(c) <==> 55296 <= c < 57344
  {
  }
}
