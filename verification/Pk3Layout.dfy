/**
 Where each word of a Gen-3 record goes, stated on the bytes themselves: the table of block orders,
 the words of the decrypted and the encrypted form, the bits of exclusive or, and what the checksum
 says about a single half-word.
 */
module Pk3Layout {
  import opened Bytes
  import opened Pk3

  // ---- numbers ------------------------------------------------------------------------------

  lemma LittleEndian(b: seq<Byte>)
    ensures |b| == 2 ==> FromLE(b) == b[0] as int + 0x100 * b[1] as int
    ensures |b| == 4 ==>
      FromLE(b) == b[0] as int + 0x100 * b[1] as int + 0x1_0000 * b[2] as int + 0x100_0000 * b[3] as int
  {
    if |b| == 2 {
      TwoBytes(b);
    }
    if |b| == 4 {
      TwoBytes(b[2..]);
      assert b[1..][1..] == b[2..];
      assert FromLE(b[1..]) == b[1] + 0x100 * FromLE(b[2..]);
    }
  }

  lemma TwoBytes(b: seq<Byte>)
    requires |b| == 2
    ensures FromLE(b) == b[0] as int + 0x100 * b[1] as int
  {
    assert b[1..][1..] == [];
    assert FromLE(b[1..]) == b[1];
  }

  // Exclusive or differs from zero in exactly the bits in which its operands differ.
  lemma {:induction false} XorBits(a: nat, b: nat, n: nat)
    ensures Xor(a, b) / Pow2(n) % 2 == if a / Pow2(n) % 2 == b / Pow2(n) % 2 then 0 else 1
    decreases n
  {
    if n > 0 {
      XorBits(a / 2, b / 2, n - 1);
      Halved(a, n);
      Halved(b, n);
      Halved(Xor(a, b), n);
      assert Xor(a, b) / 2 == Xor(a / 2, b / 2);
    }
  }

  lemma Halved(v: nat, n: nat)
    requires n > 0
    ensures v / Pow2(n) == v / 2 / Pow2(n - 1)
  {
    var d := Pow2(n - 1);
    var q, r := v / 2 / d, v / 2 % d;
    assert v == 2 * (q * d + r) + v % 2;
    assert v == q * (2 * d) + (2 * r + v % 2);
    Quotient(v, 2 * d, q, 2 * r + v % 2);
  }

  lemma Quotient(v: nat, d: nat, q: nat, r: nat)
    requires d > 0 && v == q * d + r && r < d
    ensures v / d == q
  {
    var k := v / d - q;
    assert d * k == r - v % d;
    assert k >= 1 ==> d * k >= d;
    assert k <= -1 ==> d * k + d <= 0;
  }

  // ---- the table ----------------------------------------------------------------------------

  function Rank(c: char): int {
    if c == 'G' then 0 else if c == 'A' then 1 else if c == 'E' then 2 else 3
  }

  predicate Before(a: string, b: string)
    requires |a| == |b| == 4
  {
    exists k :: 0 <= k < 4 && Rank(a[k]) < Rank(b[k]) && forall i :: 0 <= i < k ==> a[i] == b[i]
  }

  // The 24 orders are all of them, in lexicographic order with G < A < E < M.
  lemma TableIsSorted(i: nat)
    requires i < 23
    ensures |SUBSTRUCT_ORDER| == 24 && |SUBSTRUCT_ORDER[i]| == 4 && |SUBSTRUCT_ORDER[i + 1]| == 4
    ensures Before(SUBSTRUCT_ORDER[i], SUBSTRUCT_ORDER[i + 1])
  {
    var a, b := SUBSTRUCT_ORDER[i], SUBSTRUCT_ORDER[i + 1];
    var k := if a[0] != b[0] then 0 else if a[1] != b[1] then 1 else 2;
    assert Rank(a[k]) < Rank(b[k]);
  }

  // ---- words --------------------------------------------------------------------------------

  lemma {:induction false} CryptAt(s: seq<Byte>, key: nat, i: nat)
    requires |s| % 4 == 0 && 4 * i + 4 <= |s|
    ensures Crypt(s, key)[4 * i..4 * i + 4] == CryptWord(s[4 * i..4 * i + 4], key)
    decreases i
  {
    hide CryptWord;
    var c := Crypt(s, key);
    assert c == CryptWord(s[..4], key) + Crypt(s[4..], key);
    if i > 0 {
      CryptAt(s[4..], key, i - 1);
      assert c[4..] == Crypt(s[4..], key);
      assert c[4 * i..4 * i + 4] == c[4..][4 * (i - 1)..4 * (i - 1) + 4];
      assert s[4 * i..4 * i + 4] == s[4..][4 * (i - 1)..4 * (i - 1) + 4];
    }
  }

  lemma CryptedValue(w: seq<Byte>, key: nat)
    requires |w| == 4 && key < WORD
    ensures FromLE(CryptWord(w, key)) == Xor(FromLE(w), key)
  {
    hide Xor, FromLE, LE, Pow2, Pow256;
    WordSize();
    XorBelow(FromLE(w), key, 32);
    FromLEOfLE(Xor(FromLE(w), key), 4);
  }

  // The word at an offset, and the key, which is drawn from the two identifiers of the header.
  function WordAt(r: seq<Byte>, o: nat): nat
    requires o + 4 <= |r|
  {
    FromLE(r[o..o + 4])
  }

  // Block c of the decrypted form is block p of the wire form when the order that the first
  // identifier selects has the c-th canonical letter in its p-th place.
  predicate Stands(r: seq<Byte>, c: nat, p: nat)
    requires |r| >= 8
  {
    c < 4 && p < 4 && |SUBSTRUCT_ORDER| == 24
    && var order := SUBSTRUCT_ORDER[WordAt(r, 0) % 24]; |order| == 4 && order[p] == "GAEM"[c]
  }

  lemma StandsPlace(r: seq<Byte>, c: nat, p: nat)
    requires |r| >= BOX_SIZE && Stands(r, c, p)
    ensures p == Place(Order(r), c) && c == Letter(Order(r), p)
  {
    var order := Order(r);
    assert order[Place(order, c)] == order[p];
    assert CANONICAL[Letter(order, p)] == CANONICAL[c];
    assert CANONICAL[0] == 'G' && CANONICAL[1] == 'A' && CANONICAL[2] == 'E' && CANONICAL[3] == 'M';
  }

  lemma WordOfBlock(s: seq<Byte>, i: nat, j: nat)
    requires |s| == 48 && i < 4 && j < 3
    ensures Block(s, i)[4 * j..4 * j + 4] == s[12 * i + 4 * j..12 * i + 4 * j + 4]
  {
  }

  lemma WordOfSecured(r: seq<Byte>, o: nat)
    requires |r| >= BOX_SIZE && o <= 44
    ensures Secured(r)[o..o + 4] == r[32 + o..36 + o]
  {
  }

  lemma DecryptedWord(w: seq<Byte>, c: nat, p: nat, j: nat)
    requires |w| >= 80 && j < 3 && Stands(w, c, p)
    ensures WordAt(ToDecrypted(w), 32 + 12 * c + 4 * j)
            == Xor(WordAt(w, 32 + 12 * p + 4 * j), Xor(WordAt(w, 0), WordAt(w, 4)))
    ensures ToDecrypted(w)[..32] == w[..32] && ToDecrypted(w)[80..] == w[80..]
  {
    hide Crypt, CryptWord, Unshuffle, Block, Xor, FromLE, IsOrder, SUBSTRUCT_ORDER, Place, Letter;
    StandsPlace(w, c, p);
    KeyBelow(w);
    var s, key, order := Secured(w), Key(w), Order(w);
    var crypted := Crypt(s, key);
    var canon := Unshuffle(crypted, order);
    SecuredOf(w, canon);
    WordOfSecured(ToDecrypted(w), 12 * c + 4 * j);
    WordOfBlock(canon, c, j);
    BlockOfUnshuffle(crypted, order, c);
    WordOfBlock(crypted, p, j);
    CryptAt(s, key, 3 * p + j);
    WordOfSecured(w, 12 * p + 4 * j);
    CryptedValue(w[32 + 12 * p + 4 * j..36 + 12 * p + 4 * j], key);
  }

  lemma EncryptedWord(r: seq<Byte>, c: nat, p: nat, j: nat)
    requires |r| >= 80 && j < 3 && Stands(r, c, p)
    ensures WordAt(ToEncrypted(r), 32 + 12 * p + 4 * j)
            == Xor(WordAt(r, 32 + 12 * c + 4 * j), Xor(WordAt(r, 0), WordAt(r, 4)))
    ensures ToEncrypted(r)[..32] == r[..32] && ToEncrypted(r)[80..] == r[80..]
  {
    hide Crypt, CryptWord, Shuffle, Block, Xor, FromLE, IsOrder, SUBSTRUCT_ORDER, Place, Letter;
    StandsPlace(r, c, p);
    KeyBelow(r);
    var s, key, order := Secured(r), Key(r), Order(r);
    var shuffled := Shuffle(s, order);
    var crypted := Crypt(shuffled, key);
    SecuredOf(r, crypted);
    WordOfSecured(ToEncrypted(r), 12 * p + 4 * j);
    CryptAt(shuffled, key, 3 * p + j);
    WordOfBlock(shuffled, p, j);
    BlockOfShuffle(s, order, p);
    WordOfBlock(s, c, j);
    WordOfSecured(r, 12 * c + 4 * j);
    CryptedValue(r[32 + 12 * c + 4 * j..36 + 12 * c + 4 * j], key);
  }

  // ---- the checksum -------------------------------------------------------------------------

  lemma {:induction false} SumChange(s: seq<Byte>, t: seq<Byte>, i: nat)
    requires |s| == |t| && |s| % 2 == 0 && 2 * i + 2 <= |s|
    requires s[..2 * i] == t[..2 * i] && s[2 * i + 2..] == t[2 * i + 2..]
    ensures Sum16(t) - Sum16(s) == FromLE(t[2 * i..2 * i + 2]) - FromLE(s[2 * i..2 * i + 2])
    decreases i
  {
    hide FromLE;
    if i > 0 {
      assert s[..2] == s[..2 * i][..2] && t[..2] == t[..2 * i][..2];
      assert s[2..][..2 * i - 2] == s[..2 * i][2..] && t[2..][..2 * i - 2] == t[..2 * i][2..];
      assert s[2..][2 * i..] == s[2 * i + 2..] && t[2..][2 * i..] == t[2 * i + 2..];
      assert s[2..][2 * i - 2..2 * i] == s[2 * i..2 * i + 2] && t[2..][2 * i - 2..2 * i] == t[2 * i..2 * i + 2];
      SumChange(s[2..], t[2..], i - 1);
    }
  }

  // Changing one half-word of the secured bytes changes the checksum by as much, in 16 bits; so
  // it never goes unnoticed.
  lemma ChecksumDetects(s: seq<Byte>, t: seq<Byte>, i: nat)
    requires |s| == |t| == 48 && i < 24
    requires s[..2 * i] == t[..2 * i] && s[2 * i + 2..] == t[2 * i + 2..]
    ensures Checksum(t)
            == (Checksum(s) + FromLE(t[2 * i..2 * i + 2]) + 0x1_0000 - FromLE(s[2 * i..2 * i + 2])) % 0x1_0000
    ensures s != t ==> Checksum(s) != Checksum(t)
  {
    hide Sum16, FromLE, LE;
    SumChange(s, t, i);
    var a, b := s[2 * i..2 * i + 2], t[2 * i..2 * i + 2];
    WordSize();
    assert FromLE(a) < 0x1_0000 && FromLE(b) < 0x1_0000;
    assert s == s[..2 * i] + a + s[2 * i + 2..] && t == t[..2 * i] + b + t[2 * i + 2..];
    if s != t {
      LEOfFromLE(a);
      LEOfFromLE(b);
      assert FromLE(a) != FromLE(b);
    }
  }

  lemma {:induction false} SumOfZeros(s: seq<Byte>)
    requires |s| % 2 == 0 && forall i :: 0 <= i < |s| ==> s[i] == 0
    ensures Sum16(s) == 0
  {
    if s != [] {
      TwoBytes(s[..2]);
      SumOfZeros(s[2..]);
    }
  }

  lemma ChecksumOfZeros(s: seq<Byte>)
    requires |s| == 48 && forall i :: 0 <= i < |s| ==> s[i] == 0
    ensures Checksum(s) == 0
  {
    SumOfZeros(s);
  }

  // Only the checksum field of a record changes when it is recomputed.
  lemma RecomputeTouches(r: seq<Byte>, i: nat)
    requires |r| >= 80 && i < |r| && i != 28 && i != 29
    ensures RecomputeChecksum(r)[i] == r[i]
  {
  }

  // What follows the first hundred bytes is not looked at.
  lemma ViewIsOfHundred(mon: seq<Byte>)
    requires |mon| > 100
    ensures CanonicalView(mon) == CanonicalView(mon[..100]) && |CanonicalView(mon).record| == 100
  {
    assert mon[..100][28..30] == mon[28..30];
  }
}
