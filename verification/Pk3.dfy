/**
 The Gen-3 record codec of tools/pk3-tool.py: a header in the clear, 48 secured bytes that are
 shuffled in four blocks and exclusive-ored word by word, and a tail in the clear.
 */
module Pk3 {
  import opened Bytes

  const PARTY_MON_SIZE := 100
  const BOX_SIZE := 80
  const SECURE_OFF := 32
  const SECURE_END := 80
  const BLOCK := 12

  const CANONICAL := "GAEM"

  const SUBSTRUCT_ORDER: seq<string> := [
    "GAEM", "GAME", "GEAM", "GEMA", "GMAE", "GMEA",
    "AGEM", "AGME", "AEGM", "AEMG", "AMGE", "AMEG",
    "EGAM", "EGMA", "EAGM", "EAMG", "EMGA", "EMAG",
    "MGAE", "MGEA", "MAGE", "MAEG", "MEGA", "MEAG"]

  const WORD := 0x1_0000_0000

  // ---- exclusive or -------------------------------------------------------------------------

  function Xor(a: nat, b: nat): (x: nat)
  {
    if a == 0 && b == 0 then 0
    else 2 * Xor(a / 2, b / 2) + (if a % 2 == b % 2 then 0 else 1)
  }

  function Pow2(n: nat): (p: nat)
    ensures p > 0
  {
    if n == 0 then 1 else 2 * Pow2(n - 1)
  }

  lemma {:induction false} XorBelow(a: nat, b: nat, n: nat)
    requires a < Pow2(n) && b < Pow2(n)
    ensures Xor(a, b) < Pow2(n)
  {
    if n > 0 && (a != 0 || b != 0) {
      XorBelow(a / 2, b / 2, n - 1);
    }
  }

  lemma {:induction false} XorTwice(a: nat, b: nat)
    ensures Xor(Xor(a, b), b) == a
    decreases a + b
  {
    if a != 0 || b != 0 {
      XorTwice(a / 2, b / 2);
      var x := Xor(a, b);
      assert x / 2 == Xor(a / 2, b / 2) && x % 2 == if a % 2 == b % 2 then 0 else 1;
    }
  }

  lemma {:induction false} XorZero(a: nat)
    ensures Xor(a, 0) == a
  {
    if a != 0 {
      XorZero(a / 2);
    }
  }

  lemma {:induction false} XorSame(a: nat)
    ensures Xor(a, a) == 0
  {
    if a != 0 {
      XorSame(a / 2);
    }
  }

  lemma WordSize()
    ensures Pow2(32) == WORD && Pow256(4) == WORD && Pow256(2) == 0x1_0000
  {
    assert Pow2(8) == 256;
    assert Pow2(16) == 0x1_0000;
    assert Pow2(24) == 0x100_0000;
    assert Pow256(1) == 256;
    assert Pow256(3) == 0x100_0000;
  }

  // ---- words --------------------------------------------------------------------------------

  function CryptWord(w: seq<Byte>, key: nat): (c: seq<Byte>)
    requires |w| == 4
    ensures |c| == 4
  {
    LE(Xor(FromLE(w), key) % WORD, 4)
  }

  lemma CryptWordTwice(w: seq<Byte>, key: nat)
    requires |w| == 4 && key < WORD
    ensures CryptWord(CryptWord(w, key), key) == w
  {
    hide Xor, FromLE, LE, Pow2, Pow256;
    WordSize();
    var v := FromLE(w);
    XorBelow(v, key, 32);
    FromLEOfLE(Xor(v, key), 4);
    XorTwice(v, key);
    LEOfFromLE(w);
  }

  function Crypt(s: seq<Byte>, key: nat): (c: seq<Byte>)
    requires |s| % 4 == 0
    ensures |c| == |s|
  {
    if s == [] then [] else CryptWord(s[..4], key) + Crypt(s[4..], key)
  }

  lemma {:induction false} CryptTwice(s: seq<Byte>, key: nat)
    requires |s| % 4 == 0 && key < WORD
    ensures Crypt(Crypt(s, key), key) == s
  {
    if s != [] {
      var w := CryptWord(s[..4], key);
      CryptWordTwice(s[..4], key);
      CryptTwice(s[4..], key);
      assert Crypt(s, key)[..4] == w && Crypt(s, key)[4..] == Crypt(s[4..], key);
      assert s == s[..4] + s[4..];
    }
  }

  lemma {:induction false} CryptConcat(s: seq<Byte>, t: seq<Byte>, key: nat)
    requires |s| % 4 == 0 && |t| % 4 == 0
    ensures Crypt(s + t, key) == Crypt(s, key) + Crypt(t, key)
  {
    if s == [] {
      assert s + t == t;
    } else {
      assert (s + t)[..4] == s[..4] && (s + t)[4..] == s[4..] + t;
      CryptConcat(s[4..], t, key);
    }
  }

  lemma {:induction false} CryptZero(s: seq<Byte>)
    requires |s| % 4 == 0
    ensures Crypt(s, 0) == s
  {
    hide Xor, LE, FromLE, Pow2, Pow256;
    if s != [] {
      WordSize();
      XorZero(FromLE(s[..4]));
      LEOfFromLE(s[..4]);
      CryptZero(s[4..]);
      assert s == s[..4] + s[4..];
    }
  }

  // ---- blocks -------------------------------------------------------------------------------

  predicate IsOrder(order: string) {
    && |order| == 4
    && (forall i :: 0 <= i < 4 ==> order[i] in CANONICAL)
    && (forall i, j :: 0 <= i < j < 4 ==> order[i] != order[j])
  }

  function Position(order: string, letter: char): (p: nat)
    requires exists i :: 0 <= i < |order| && order[i] == letter
    ensures p < |order| && order[p] == letter
  {
    if order[0] == letter then 0 else 1 + Position(order[1..], letter)
  }

  lemma OrderHas(order: string, letter: char)
    requires IsOrder(order) && letter in CANONICAL
    ensures exists i :: 0 <= i < |order| && order[i] == letter
  {
    assert CANONICAL[0] == 'G' && CANONICAL[1] == 'A' && CANONICAL[2] == 'E' && CANONICAL[3] == 'M';
    assert order[0] != order[1] && order[0] != order[2] && order[0] != order[3];
    assert order[1] != order[2] && order[1] != order[3] && order[2] != order[3];
    assert letter == order[0] || letter == order[1] || letter == order[2] || letter == order[3];
  }

  // All 24 of the listed orders are permutations of the four letters.
  lemma OrdersArePermutations(i: nat)
    requires i < 24
    ensures |SUBSTRUCT_ORDER| == 24 && IsOrder(SUBSTRUCT_ORDER[i])
  {
    assert CANONICAL[0] == 'G' && CANONICAL[1] == 'A' && CANONICAL[2] == 'E' && CANONICAL[3] == 'M';
    forall p | 0 <= p < 4 ensures SUBSTRUCT_ORDER[i][p] in CANONICAL {
    }
  }

  function Block(s: seq<Byte>, i: nat): (b: seq<Byte>)
    requires |s| == 48 && i < 4
    ensures |b| == BLOCK
  {
    s[i * BLOCK..i * BLOCK + BLOCK]
  }

  // Where the block of the i-th canonical letter stands in an order, and which block stands there.
  function Place(order: string, i: nat): (p: nat)
    requires IsOrder(order) && i < 4
    ensures p < 4 && order[p] == CANONICAL[i]
  {
    OrderHas(order, CANONICAL[i]);
    Position(order, CANONICAL[i])
  }

  function Letter(order: string, p: nat): (i: nat)
    requires IsOrder(order) && p < 4
    ensures i < 4 && order[p] == CANONICAL[i]
  {
    Position(CANONICAL, order[p])
  }

  function Unshuffle(s: seq<Byte>, order: string): (canon: seq<Byte>)
    requires |s| == 48 && IsOrder(order)
    ensures |canon| == 48
  {
    Block(s, Place(order, 0)) + Block(s, Place(order, 1)) + Block(s, Place(order, 2)) + Block(s, Place(order, 3))
  }

  function Shuffle(canon: seq<Byte>, order: string): (s: seq<Byte>)
    requires |canon| == 48 && IsOrder(order)
    ensures |s| == 48
  {
    Block(canon, Letter(order, 0)) + Block(canon, Letter(order, 1))
    + Block(canon, Letter(order, 2)) + Block(canon, Letter(order, 3))
  }

  lemma PlaceAndLetter(order: string, i: nat)
    requires IsOrder(order) && i < 4
    ensures Letter(order, Place(order, i)) == i && Place(order, Letter(order, i)) == i
  {
    assert CANONICAL[0] == 'G' && CANONICAL[1] == 'A' && CANONICAL[2] == 'E' && CANONICAL[3] == 'M';
    var p, l := Place(order, i), Letter(order, i);
    assert order[Place(order, l)] == order[i];
  }

  lemma BlockOfFour(a: seq<Byte>, b: seq<Byte>, c: seq<Byte>, d: seq<Byte>, i: nat)
    requires |a| == BLOCK && |b| == BLOCK && |c| == BLOCK && |d| == BLOCK && i < 4
    ensures Block(a + b + c + d, i) == [a, b, c, d][i]
  {
  }

  lemma BlocksMake(s: seq<Byte>)
    requires |s| == 48
    ensures s == Block(s, 0) + Block(s, 1) + Block(s, 2) + Block(s, 3)
  {
  }

  lemma BlockOfUnshuffle(s: seq<Byte>, order: string, i: nat)
    requires |s| == 48 && IsOrder(order) && i < 4
    ensures Block(Unshuffle(s, order), i) == Block(s, Place(order, i))
  {
    BlockOfFour(Block(s, Place(order, 0)), Block(s, Place(order, 1)), Block(s, Place(order, 2)),
                Block(s, Place(order, 3)), i);
  }

  lemma BlockOfShuffle(s: seq<Byte>, order: string, p: nat)
    requires |s| == 48 && IsOrder(order) && p < 4
    ensures Block(Shuffle(s, order), p) == Block(s, Letter(order, p))
  {
    BlockOfFour(Block(s, Letter(order, 0)), Block(s, Letter(order, 1)), Block(s, Letter(order, 2)),
                Block(s, Letter(order, 3)), p);
  }

  lemma ShuffleOfUnshuffle(s: seq<Byte>, order: string)
    requires |s| == 48 && IsOrder(order)
    ensures Shuffle(Unshuffle(s, order), order) == s && Unshuffle(Shuffle(s, order), order) == s
  {
    hide Block, Place, Letter, IsOrder;
    BlocksMake(s);
    forall i | 0 <= i < 4
      ensures Block(Unshuffle(s, order), Letter(order, i)) == Block(s, i)
              && Block(Shuffle(s, order), Place(order, i)) == Block(s, i)
    {
      PlaceAndLetter(order, i);
      BlockOfUnshuffle(s, order, Letter(order, i));
      BlockOfShuffle(s, order, Place(order, i));
    }
  }

  // ---- records ------------------------------------------------------------------------------

  function Pid(r: seq<Byte>): nat
    requires |r| >= 8
  {
    FromLE(r[0..4])
  }

  function Key(r: seq<Byte>): (k: nat)
    requires |r| >= 8
  {
    Xor(Pid(r), FromLE(r[4..8]))
  }

  function Order(r: seq<Byte>): (order: string)
    requires |r| >= 8
    ensures IsOrder(order)
  {
    OrdersArePermutations(Pid(r) % 24);
    SUBSTRUCT_ORDER[Pid(r) % 24]
  }

  function Secured(r: seq<Byte>): (s: seq<Byte>)
    requires |r| >= BOX_SIZE
    ensures |s| == 48
  {
    r[SECURE_OFF..SECURE_END]
  }

  function WithSecured(r: seq<Byte>, s: seq<Byte>): (t: seq<Byte>)
    requires |r| >= BOX_SIZE && |s| == 48
    ensures |t| == |r|
  {
    r[..SECURE_OFF] + s + r[SECURE_END..]
  }

  function ToDecrypted(wire: seq<Byte>): (d: seq<Byte>)
    requires |wire| >= BOX_SIZE
    ensures |d| == |wire|
  {
    WithSecured(wire, Unshuffle(Crypt(Secured(wire), Key(wire)), Order(wire)))
  }

  function ToEncrypted(record: seq<Byte>): (w: seq<Byte>)
    requires |record| >= BOX_SIZE
    ensures |w| == |record|
  {
    WithSecured(record, Crypt(Shuffle(Secured(record), Order(record)), Key(record)))
  }

  lemma SecuredOf(r: seq<Byte>, s: seq<Byte>)
    requires |r| >= BOX_SIZE && |s| == 48
    ensures Secured(WithSecured(r, s)) == s
    ensures Key(WithSecured(r, s)) == Key(r) && Order(WithSecured(r, s)) == Order(r)
    ensures forall t :: |t| == 48 ==> WithSecured(WithSecured(r, s), t) == WithSecured(r, t)
    ensures WithSecured(r, Secured(r)) == r
  {
    var w := WithSecured(r, s);
    assert w[0..4] == r[0..4] && w[4..8] == r[4..8];
    assert w[..SECURE_OFF] == r[..SECURE_OFF] && w[SECURE_END..] == r[SECURE_END..];
  }

  lemma KeyBelow(r: seq<Byte>)
    requires |r| >= 8
    ensures Key(r) < WORD
  {
    WordSize();
    XorBelow(Pid(r), FromLE(r[4..8]), 32);
  }

  // Encrypting and decrypting undo each other on every record, whatever its key and its order.
  lemma CodecRoundTrips(r: seq<Byte>)
    requires |r| >= BOX_SIZE
    ensures ToDecrypted(ToEncrypted(r)) == r
    ensures ToEncrypted(ToDecrypted(r)) == r
  {
    hide WithSecured, Secured, Shuffle, Unshuffle, Crypt, Key, Order, IsOrder;
    KeyBelow(r);
    var s, order, key := Secured(r), Order(r), Key(r);
    ShuffleOfUnshuffle(s, order);
    ShuffleOfUnshuffle(Crypt(s, key), order);
    CryptTwice(s, key);
    CryptTwice(Shuffle(s, order), key);
    SecuredOf(r, Crypt(Shuffle(s, order), key));
    SecuredOf(r, Unshuffle(Crypt(s, key), order));
  }

  // ---- checksums ----------------------------------------------------------------------------

  function Sum16(s: seq<Byte>): nat
    requires |s| % 2 == 0
  {
    if s == [] then 0 else FromLE(s[..2]) + Sum16(s[2..])
  }

  function Checksum(secured: seq<Byte>): (c: nat)
    requires |secured| == 48
    ensures c < 0x1_0000
  {
    Sum16(secured) % 0x1_0000
  }

  lemma {:induction false} SumConcat(s: seq<Byte>, t: seq<Byte>)
    requires |s| % 2 == 0 && |t| % 2 == 0
    ensures Sum16(s + t) == Sum16(s) + Sum16(t)
  {
    if s == [] {
      assert s + t == t;
    } else {
      assert (s + t)[..2] == s[..2] && (s + t)[2..] == s[2..] + t;
      SumConcat(s[2..], t);
    }
  }

  lemma SumOfFour(a: seq<Byte>, b: seq<Byte>, c: seq<Byte>, d: seq<Byte>)
    requires |a| == BLOCK && |b| == BLOCK && |c| == BLOCK && |d| == BLOCK
    ensures Sum16(a + b + c + d) == Sum16(a) + Sum16(b) + Sum16(c) + Sum16(d)
  {
    hide Sum16;
    var ab := a + b;
    var abc := ab + c;
    assert |a| % 2 == 0 && |b| % 2 == 0 && |ab| == 24 && |abc| == 36;
    SumConcat(a, b);
    SumConcat(ab, c);
    SumConcat(abc, d);
  }

  // Shuffling the blocks either way leaves the checksum as it is.
  lemma ChecksumShuffled(s: seq<Byte>, order: string)
    requires |s| == 48 && IsOrder(order)
    ensures Checksum(Shuffle(s, order)) == Checksum(s) && Checksum(Unshuffle(s, order)) == Checksum(s)
  {
    SumShuffled(s, order);
    SumShuffled(Unshuffle(s, order), order);
    ShuffleOfUnshuffle(s, order);
  }

  lemma SumShuffled(s: seq<Byte>, order: string)
    requires |s| == 48 && IsOrder(order)
    ensures Sum16(Shuffle(s, order)) == Sum16(s)
  {
    hide Block, Sum16, IsOrder;
    BlocksMake(s);
    SumOfFour(Block(s, 0), Block(s, 1), Block(s, 2), Block(s, 3));
    SumOfFour(Block(s, Letter(order, 0)), Block(s, Letter(order, 1)), Block(s, Letter(order, 2)),
              Block(s, Letter(order, 3)));
    LettersDiffer(order);
  }

  lemma LettersDiffer(order: string)
    requires IsOrder(order)
    ensures Letter(order, 0) != Letter(order, 1) && Letter(order, 0) != Letter(order, 2)
            && Letter(order, 0) != Letter(order, 3)
    ensures Letter(order, 1) != Letter(order, 2) && Letter(order, 1) != Letter(order, 3)
            && Letter(order, 2) != Letter(order, 3)
  {
    assert order[0] != order[1] && order[0] != order[2] && order[0] != order[3];
    assert order[1] != order[2] && order[1] != order[3] && order[2] != order[3];
  }

  function Stored(r: seq<Byte>): nat
    requires |r| >= 30
  {
    FromLE(r[28..30])
  }

  function RecomputeChecksum(r: seq<Byte>): (s: seq<Byte>)
    requires |r| >= BOX_SIZE
    ensures |s| == |r|
  {
    r[..28] + LE(Checksum(Secured(r)), 2) + r[30..]
  }

  lemma RecomputeIsValid(r: seq<Byte>)
    requires |r| >= BOX_SIZE
    ensures Secured(RecomputeChecksum(r)) == Secured(r)
    ensures Stored(RecomputeChecksum(r)) == Checksum(Secured(RecomputeChecksum(r)))
  {
    var s := RecomputeChecksum(r);
    WordSize();
    FromLEOfLE(Checksum(Secured(r)), 2);
    assert s[28..30] == LE(Checksum(Secured(r)), 2);
  }

  // ---- telling the two forms apart ----------------------------------------------------------

  datatype Form = Wire | Decrypted

  datatype Seen = Seen(record: seq<Byte>, form: Form)

  function First100(mon: seq<Byte>): seq<Byte> {
    if |mon| <= PARTY_MON_SIZE then mon else mon[..PARTY_MON_SIZE]
  }

  function CanonicalView(mon: seq<Byte>): (v: Seen)
  {
    if |mon| >= BOX_SIZE && Checksum(Secured(ToDecrypted(First100(mon)))) == Stored(mon) then
      Seen(ToDecrypted(First100(mon)), Wire)
    else Seen(First100(mon), Decrypted)
  }

  // A record with its checksum made good is recognized on the wire and comes back whole.
  lemma WireIsRecognized(r: seq<Byte>)
    requires BOX_SIZE <= |r| <= PARTY_MON_SIZE
    ensures CanonicalView(ToEncrypted(RecomputeChecksum(r))) == Seen(RecomputeChecksum(r), Wire)
  {
    hide RecomputeChecksum, Checksum, Shuffle, Unshuffle, Crypt;
    var p := RecomputeChecksum(r);
    CodecRoundTrips(p);
    RecomputeIsValid(r);
    assert ToEncrypted(p)[28..30] == p[28..30];
  }

  lemma SecuredOfDecrypted(r: seq<Byte>)
    requires |r| >= BOX_SIZE
    ensures Checksum(Secured(ToDecrypted(r))) == Checksum(Crypt(Secured(r), Key(r)))
  {
    SecuredOf(r, Unshuffle(Crypt(Secured(r), Key(r)), Order(r)));
    ChecksumShuffled(Crypt(Secured(r), Key(r)), Order(r));
  }

  // A decrypted record with a good checksum is taken for a wire record exactly when exclusive-oring
  // its words with the key does not change their checksum.
  lemma MistakenForWire(r: seq<Byte>)
    requires BOX_SIZE <= |r| <= PARTY_MON_SIZE && Stored(r) == Checksum(Secured(r))
    ensures CanonicalView(r).form == Wire <==> Checksum(Crypt(Secured(r), Key(r))) == Checksum(Secured(r))
  {
    SecuredOfDecrypted(r);
  }

  // In particular whenever the two identifiers in its header are equal, and then what is returned
  // is the record with its blocks moved.
  lemma EqualIdentifiersAreMistaken(r: seq<Byte>)
    requires BOX_SIZE <= |r| <= PARTY_MON_SIZE && Stored(r) == Checksum(Secured(r))
    requires r[0..4] == r[4..8]
    ensures CanonicalView(r) == Seen(WithSecured(r, Unshuffle(Secured(r), Order(r))), Wire)
  {
    XorSame(Pid(r));
    CryptZero(Secured(r));
    MistakenForWire(r);
  }

  // ---- the loops over byte arrays -----------------------------------------------------------

  method PutWord(a: array<Byte>, o: nat, key: nat)
    requires o + 4 <= a.Length
    modifies a
    ensures a[..] == old(a[..])[..o] + CryptWord(old(a[..])[o..o + 4], key) + old(a[..])[o + 4..]
  {
    var w := CryptWord(a[o..o + 4], key);
    a[o] := w[0];
    a[o + 1] := w[1];
    a[o + 2] := w[2];
    a[o + 3] := w[3];
  }

  // The secured words of a record, exclusive-ored in place.
  method CryptInPlace(a: array<Byte>, key: nat)
    requires a.Length >= BOX_SIZE
    modifies a
    ensures a[..] == WithSecured(old(a[..]), Crypt(Secured(old(a[..])), key))
  {
    ghost var r := a[..];
    var i := 0;
    while i < 12
      invariant 0 <= i <= 12
      invariant a[..] == r[..32] + Crypt(r[32..32 + 4 * i], key) + r[32 + 4 * i..]
    {
      ghost var o := SECURE_OFF + i * 4;
      ghost var before := a[..];
      hide CryptWord, Crypt;
      PutWord(a, SECURE_OFF + i * 4, key);
      NextWord(r, before, a[..], o, key);
      i := i + 1;
    }
  }

  lemma NextWord(r: seq<Byte>, before: seq<Byte>, after: seq<Byte>, o: nat, key: nat)
    requires 32 <= o && o % 4 == 0 && o + 4 <= |r| == |before| && |r| >= BOX_SIZE
    requires before == r[..32] + Crypt(r[32..o], key) + r[o..]
    requires after == before[..o] + CryptWord(before[o..o + 4], key) + before[o + 4..]
    ensures after == r[..32] + Crypt(r[32..o + 4], key) + r[o + 4..]
  {
    hide CryptWord;
    assert before[o..o + 4] == r[o..o + 4] && before[o + 4..] == r[o + 4..];
    assert r[32..o + 4] == r[32..o] + r[o..o + 4];
    CryptConcat(r[32..o], r[o..o + 4], key);
    assert r[o..o + 4][..4] == r[o..o + 4] && r[o..o + 4][4..] == [];
    assert Crypt(r[o..o + 4], key) == CryptWord(r[o..o + 4], key);
  }

  method CopyBlock(to: array<Byte>, i: nat, from: seq<Byte>, j: nat)
    requires to.Length == 48 && |from| == 48 && i < 4 && j < 4
    modifies to
    ensures forall c :: 0 <= c < 4 ==> Block(to[..], c) == if c == i then Block(from, j) else Block(old(to[..]), c)
  {
    ghost var was := to[..];
    var k := 0;
    while k < BLOCK
      invariant 0 <= k <= BLOCK
      invariant forall x :: 0 <= x < 48 ==>
        to[x] == if i * BLOCK <= x < i * BLOCK + k then from[j * BLOCK + x - i * BLOCK] else was[x]
    {
      to[i * BLOCK + k] := from[j * BLOCK + k];
      k := k + 1;
    }
    BlocksCopied(was, to[..], from, i, j);
  }

  lemma BlocksCopied(was: seq<Byte>, to: seq<Byte>, from: seq<Byte>, i: nat, j: nat)
    requires |was| == |to| == |from| == 48 && i < 4 && j < 4
    requires forall x :: 0 <= x < 48 ==>
      to[x] == if i * BLOCK <= x < i * BLOCK + BLOCK then from[j * BLOCK + x - i * BLOCK] else was[x]
    ensures forall c :: 0 <= c < 4 ==> Block(to, c) == if c == i then Block(from, j) else Block(was, c)
  {
    forall c, x | 0 <= c < 4 && 0 <= x < BLOCK
      ensures Block(to, c)[x] == (if c == i then Block(from, j) else Block(was, c))[x]
    {
      assert i * BLOCK <= c * BLOCK + x < i * BLOCK + BLOCK <==> c == i;
    }
    forall c | 0 <= c < 4 ensures Block(to, c) == if c == i then Block(from, j) else Block(was, c) {
      assert |Block(to, c)| == BLOCK;
    }
  }

  method PutSecured(a: array<Byte>, s: seq<Byte>)
    requires a.Length >= BOX_SIZE && |s| == 48
    modifies a
    ensures a[..] == WithSecured(old(a[..]), s)
  {
    ghost var was := a[..];
    var k := 0;
    while k < 48
      invariant 0 <= k <= 48
      invariant forall x :: 0 <= x < a.Length ==> a[x] == if 32 <= x < 32 + k then s[x - 32] else was[x]
    {
      a[SECURE_OFF + k] := s[k];
      k := k + 1;
    }
  }

  method Decrypt(wire: seq<Byte>) returns (record: seq<Byte>)
    requires |wire| >= BOX_SIZE
    ensures record == ToDecrypted(wire)
  {
    hide Crypt, IsOrder, Key, Order, SUBSTRUCT_ORDER;
    var dec := new Byte[|wire|](i requires 0 <= i < |wire| => wire[i]);
    assert dec[..] == wire;
    CryptInPlace(dec, Key(wire));
    SecuredOf(wire, Crypt(Secured(wire), Key(wire)));
    var sec := dec[SECURE_OFF..SECURE_END];
    assert sec == Crypt(Secured(wire), Key(wire)) by {
      assert sec == dec[..][SECURE_OFF..SECURE_END];
    }
    var canon := new Byte[48];
    MoveOut(canon, sec, Order(wire));
    PutSecured(dec, canon[..]);
    record := dec[..];
  }

  // Block by block into canonical order.
  method MoveOut(canon: array<Byte>, sec: seq<Byte>, order: string)
    requires canon.Length == 48 && |sec| == 48 && IsOrder(order)
    modifies canon
    ensures canon[..] == Unshuffle(sec, order)
  {
    hide IsOrder, Block;
    var ci := 0;
    while ci < 4
      invariant 0 <= ci <= 4
      invariant forall c :: 0 <= c < ci ==> Block(canon[..], c) == Block(sec, Place(order, c))
    {
      CopyBlock(canon, ci, sec, Place(order, ci));
      ci := ci + 1;
    }
    BlocksMake(canon[..]);
  }

  // Block by block into the order of the record.
  method MoveIn(shuffled: array<Byte>, canon: seq<Byte>, order: string)
    requires shuffled.Length == 48 && |canon| == 48 && IsOrder(order)
    modifies shuffled
    ensures shuffled[..] == Shuffle(canon, order)
  {
    hide IsOrder, Block;
    var p := 0;
    while p < 4
      invariant 0 <= p <= 4
      invariant forall c :: 0 <= c < p ==> Block(shuffled[..], c) == Block(canon, Letter(order, c))
    {
      CopyBlock(shuffled, p, canon, Letter(order, p));
      p := p + 1;
    }
    BlocksMake(shuffled[..]);
  }

  method Encrypt(record: seq<Byte>) returns (wire: seq<Byte>)
    requires |record| >= BOX_SIZE
    ensures wire == ToEncrypted(record)
  {
    hide Crypt, IsOrder, Key, Order, SUBSTRUCT_ORDER, Shuffle;
    var shuffled := new Byte[48];
    MoveIn(shuffled, record[SECURE_OFF..SECURE_END], Order(record));
    var out := new Byte[|record|](i requires 0 <= i < |record| => record[i]);
    assert out[..] == record;
    PutSecured(out, shuffled[..]);
    SecuredOf(record, shuffled[..]);
    CryptInPlace(out, Key(record));
    wire := out[..];
  }

  method StoreChecksum(record: seq<Byte>) returns (valid: seq<Byte>)
    requires |record| >= BOX_SIZE
    ensures valid == RecomputeChecksum(record)
  {
    var out := new Byte[|record|](i requires 0 <= i < |record| => record[i]);
    var sum := LE(Checksum(out[SECURE_OFF..SECURE_END]), 2);
    assert out[SECURE_OFF..SECURE_END] == Secured(record);
    out[28] := sum[0];
    out[29] := sum[1];
    valid := out[..];
  }
}
