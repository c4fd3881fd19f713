/**
 Strict UTF-8 (sections 3 and 4 of RFC 3629), which carries the attempt id of an
 envelope.  Text is a sequence of Unicode code points; a lone surrogate can occur in
 text but has no encoding.
 */
module Utf8 {
  import opened Common
  import opened Bytes

  type CodePoint = c: int | 0 <= c <= 0x10FFFF

  predicate Surrogate(c: CodePoint) {
    0xD800 <= c <= 0xDFFF
  }

  predicate Encodable(text: seq<CodePoint>) {
    forall i :: 0 <= i < |text| ==> !Surrogate(text[i])
  }

  predicate Tail(b: Byte) {
    0x80 <= b < 0xC0
  }

  // A lead byte `lead + high` followed by a tail byte for each further group of six bits.
  function EncodeScalar(c: CodePoint): (b: seq<Byte>)
    ensures 1 <= |b| <= 4
  {
    if c < 0x80 then [c]
    else
      var c1: int := c / 64;
      if c < 0x800 then [0xC0 + c1, 0x80 + c % 64]
      else
        var c2: int := c1 / 64;
        if c < 0x10000 then [0xE0 + c2, 0x80 + c1 % 64, 0x80 + c % 64]
        else [0xF0 + c2 / 64, 0x80 + c2 % 64, 0x80 + c1 % 64, 0x80 + c % 64]
  }

  // Six more bits below a value, taken from a tail byte.
  function Shift(high: int, tail: int): (c: int)
    ensures 0x80 <= tail < 0xC0 ==> c / 64 == high && 0x80 + c % 64 == tail
  {
    high * 64 + (tail - 0x80)
  }

  function Encode(text: seq<CodePoint>): (b: seq<Byte>)
  {
    if text == [] then [] else EncodeScalar(text[0]) + Encode(text[1..])
  }

  // The first character of a byte string and the number of bytes it takes; None where a
  // strict decoder stops: a stray or missing tail byte, an overlong form, a surrogate, or a
  // value above U+10FFFF.
  function DecodeScalar(b: seq<Byte>): (r: Option<(CodePoint, nat)>)
    ensures r.Some? ==> 1 <= r.value.1 <= |b|
  {
    if |b| == 0 then None
    else
      var lead: int := b[0];
      if lead < 0x80 then Some((lead, 1))
      else if |b| >= 2 && 0xC2 <= lead < 0xE0 && Tail(b[1]) then
        Some((Shift(lead - 0xC0, b[1]), 2))
      else if |b| >= 3 && 0xE0 <= lead < 0xF0 && Tail(b[1]) && Tail(b[2]) then
        var c := Shift(Shift(lead - 0xE0, b[1]), b[2]);
        if c >= 0x800 && !Surrogate(c) then Some((c, 3)) else None
      else if |b| >= 4 && 0xF0 <= lead < 0xF8 && Tail(b[1]) && Tail(b[2]) && Tail(b[3]) then
        var c := Shift(Shift(Shift(lead - 0xF0, b[1]), b[2]), b[3]);
        if 0x10000 <= c <= 0x10FFFF then Some((c, 4)) else None
      else None
  }

  function Decode(b: seq<Byte>): (r: Option<seq<CodePoint>>)
  {
    if b == [] then Some([])
    else match DecodeScalar(b)
      case None => None
      case Some((c, n)) =>
        match Decode(b[n..])
        case None => None
        case Some(rest) => Some([c] + rest)
  }

  lemma ScalarRoundTrip(c: CodePoint, rest: seq<Byte>)
    requires !Surrogate(c)
    ensures DecodeScalar(EncodeScalar(c) + rest) == Some((c, |EncodeScalar(c)|))
  {
    var e := EncodeScalar(c);
    var b := e + rest;
    assert forall i :: 0 <= i < |e| ==> b[i] == e[i];
    var c1: int := c / 64;
    var c2: int := c1 / 64;
    assert Shift(c1, 0x80 + c % 64) == c;
    assert Shift(c2, 0x80 + c1 % 64) == c1;
    assert Shift(c2 / 64, 0x80 + c2 % 64) == c2;
  }

  // Only the shortest form is read: whatever a scalar is decoded from is its encoding.
  lemma ScalarCanonical(b: seq<Byte>)
    ensures match DecodeScalar(b)
            case None => true
            case Some((c, n)) => !Surrogate(c) && EncodeScalar(c) == b[..n]
  {
    match DecodeScalar(b)
    case None =>
    case Some((c, n)) =>
      assert forall i :: 0 <= i < n ==> b[..n][i] == b[i];
  }

  lemma {:induction false} DecodeOfEncode(text: seq<CodePoint>)
    requires Encodable(text)
    ensures Decode(Encode(text)) == Some(text)
  {
    if text != [] {
      var head, rest := EncodeScalar(text[0]), Encode(text[1..]);
      ScalarRoundTrip(text[0], rest);
      assert Encodable(text[1..]);
      DecodeOfEncode(text[1..]);
      assert (head + rest)[|head|..] == rest;
      assert [text[0]] + text[1..] == text;
    }
  }

  lemma {:induction false} EncodeOfDecode(b: seq<Byte>)
    ensures Decode(b).Some? ==> Encodable(Decode(b).value) && Encode(Decode(b).value) == b
  {
    if b != [] && Decode(b).Some? {
      ScalarCanonical(b);
      var (c, n) := DecodeScalar(b).value;
      EncodeOfDecode(b[n..]);
      var text := Decode(b).value;
      assert text[1..] == Decode(b[n..]).value;
      assert b == b[..n] + b[n..];
    }
  }
}
