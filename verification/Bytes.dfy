/**
 Byte strings and the fixed-width integer fields that every wire format of the
 repository is built from (struct.pack, int.to_bytes and int.from_bytes).
 */
module Bytes {

  type Byte = b: int | 0 <= b < 256

  function Pow256(n: nat): (p: nat)
    ensures p > 0
  {
    if n == 0 then 1 else 256 * Pow256(n - 1)
  }

  // Little-endian field of `width` bytes.
  function LE(v: nat, width: nat): (b: seq<Byte>)
    ensures |b| == width
  {
    if width == 0 then [] else [v % 256] + LE(v / 256, width - 1)
  }

  function FromLE(b: seq<Byte>): (v: nat)
    ensures v < Pow256(|b|)
  {
    if b == [] then 0 else b[0] + 256 * FromLE(b[1..])
  }

  // Big-endian ("network order") field of `width` bytes.
  function BE(v: nat, width: nat): (b: seq<Byte>)
    ensures |b| == width
  {
    if width == 0 then [] else BE(v / 256, width - 1) + [v % 256]
  }

  function FromBE(b: seq<Byte>): (v: nat)
    ensures v < Pow256(|b|)
  {
    if b == [] then 0 else 256 * FromBE(b[..|b| - 1]) + b[|b| - 1]
  }

  lemma {:induction false} FromLEOfLE(v: nat, width: nat)
    requires v < Pow256(width)
    ensures FromLE(LE(v, width)) == v
  {
    if width > 0 {
      FromLEOfLE(v / 256, width - 1);
      assert LE(v, width)[1..] == LE(v / 256, width - 1);
    }
  }

  lemma {:induction false} LEOfFromLE(b: seq<Byte>)
    ensures LE(FromLE(b), |b|) == b
  {
    hide Pow256;
    if b != [] {
      LEOfFromLE(b[1..]);
      Digits(FromLE(b[1..]), b[0]);
    }
  }

  lemma {:induction false} FromBEOfBE(v: nat, width: nat)
    requires v < Pow256(width)
    ensures FromBE(BE(v, width)) == v
  {
    if width > 0 {
      FromBEOfBE(v / 256, width - 1);
      assert BE(v, width)[..width - 1] == BE(v / 256, width - 1);
    }
  }

  lemma Digits(w: nat, d: Byte)
    ensures (256 * w + d) % 256 == d && (256 * w + d) / 256 == w
  {
  }

  lemma {:induction false} BEOfFromBE(b: seq<Byte>)
    ensures BE(FromBE(b), |b|) == b
  {
    hide Pow256;
    if b != [] {
      BEOfFromBE(b[..|b| - 1]);
      Digits(FromBE(b[..|b| - 1]), b[|b| - 1]);
      assert b == b[..|b| - 1] + [b[|b| - 1]];
    }
  }
}
