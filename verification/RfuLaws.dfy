/**
 The fields of commands, slot headers and carriers, on any bytes at all: which bytes hold them, and
 what is reported when bytes are missing.
 */
module RfuLaws {
  import opened Common
  import opened Bytes
  import opened RfuFrames

  lemma LittlePair(b: seq<Byte>)
    requires |b| == 2
    ensures FromLE(b) == b[0] as int + 0x100 * b[1] as int
  {
    assert b[1..][1..] == [];
    assert FromLE(b[1..]) == b[1];
  }

  lemma LittleThree(b: seq<Byte>)
    requires |b| == 3
    ensures FromLE(b) == b[0] as int + 0x100 * b[1] as int + 0x1_0000 * b[2] as int
  {
    LittlePair(b[1..]);
  }

  // ---- commands -----------------------------------------------------------------------------

  // A command is its first fourteen bytes, filled up with zeros.  The second byte tells its kind:
  // 0x88 announces a block, 0x89 carries a piece of one, 0xA1 asks for one.
  lemma CommandExactly(raw: seq<Byte>, mpid: Option<nat>)
    ensures var c := ParseCommand(raw, mpid);
            && c.mpid == mpid && |c.raw| == 14
            && (forall i :: 0 <= i < 14 ==> c.raw[i] == if i < |raw| then raw[i] else 0)
            && c.opcode == 0x100 * c.raw[1] as int
            && c.detail ==
               if c.raw[1] == 0x88 then BlockInit(c.raw[2] as int + 0x100 * c.raw[3] as int, c.raw[4] as int % 128)
               else if c.raw[1] == 0x89 then BlockPart(c.raw[0] as int % 32, c.raw[2..14])
               else if c.raw[1] == 0xA1 then BlockRequest(c.raw[2] as int + 0x100 * c.raw[3] as int)
               else Other
  {
    hide FromLE;
    var p := Padded(raw);
    LittlePair(p[0..2]);
    LittlePair(p[2..4]);
    HighByte(p[0], p[1]);
  }

  lemma HighByte(low: int, high: int)
    requires 0 <= low < 256 && 0 <= high < 256
    ensures var w := low + 0x100 * high;
            w / 0x100 % 0x100 * 0x100 == 0x100 * high && w % 0x20 == low % 32
  {
    assert (low + 0x100 * high) / 0x100 == high;
  }

  // ---- slot headers -------------------------------------------------------------------------

  // The header of a parent's slot has three bytes, that of a child's two; too short a slot has none.
  lemma ParentHeaderExactly(slot: seq<Byte>)
    ensures var h := ParseLlsf(slot, Parent);
            if |slot| < 3 then h == None
            else h == Some(Header(Llsf(slot[1] as int / 64 + 4 * (slot[2] as int % 4), slot[1] as int / 32 % 2,
                                       slot[1] as int / 8 % 4, slot[1] as int / 2 % 4, slot[0] as int % 128),
                                  slot[3..]))
  {
    hide FromLE;
    if |slot| >= 3 {
      LittleThree(slot[..3]);
      ParentBits(slot[0], slot[1], slot[2]);
    }
  }

  lemma ParentBits(a: int, b: int, c: int)
    requires 0 <= a < 256 && 0 <= b < 256 && 0 <= c < 256
    ensures var w := a + 0x100 * b + 0x1_0000 * c;
            && w / 0x4000 % 16 == b / 64 + 4 * (c % 4) && w / 0x2000 % 2 == b / 32 % 2
            && w / 0x800 % 4 == b / 8 % 4 && w / 0x200 % 4 == b / 2 % 4 && w % 0x80 == a % 128
  {
    StateBits(a, b, c);
    AckBit(a, b, c);
    NumberBits(a, b, c);
    PhaseBits(a, b, c);
    Divided(2 * b + 512 * c + a / 128, 0x80, a % 128);
  }

  lemma StateBits(a: int, b: int, c: int)
    requires 0 <= a < 256 && 0 <= b < 256 && 0 <= c < 256
    ensures (a + 0x100 * b + 0x1_0000 * c) / 0x4000 % 16 == b / 64 + 4 * (c % 4)
  {
    Divided(b / 64 + 4 * c, 0x4000, b % 64 * 0x100 + a);
    assert b / 64 + 4 * c == 16 * (c / 4) + (b / 64 + 4 * (c % 4));
  }

  lemma AckBit(a: int, b: int, c: int)
    requires 0 <= a < 256 && 0 <= b < 256 && 0 <= c < 256
    ensures (a + 0x100 * b + 0x1_0000 * c) / 0x2000 % 2 == b / 32 % 2
  {
    Divided(b / 32 + 8 * c, 0x2000, b % 32 * 0x100 + a);
  }

  lemma NumberBits(a: int, b: int, c: int)
    requires 0 <= a < 256 && 0 <= b < 256 && 0 <= c < 256
    ensures (a + 0x100 * b + 0x1_0000 * c) / 0x800 % 4 == b / 8 % 4
  {
    Divided(b / 8 + 32 * c, 0x800, b % 8 * 0x100 + a);
  }

  lemma PhaseBits(a: int, b: int, c: int)
    requires 0 <= a < 256 && 0 <= b < 256 && 0 <= c < 256
    ensures (a + 0x100 * b + 0x1_0000 * c) / 0x200 % 4 == b / 2 % 4
  {
    Divided(b / 2 + 128 * c, 0x200, b % 2 * 0x100 + a);
  }

  lemma ChildHeaderExactly(slot: seq<Byte>)
    ensures var h := ParseLlsf(slot, Child);
            if |slot| < 2 then h == None
            else h == Some(Header(Llsf(slot[1] as int / 4 % 16, slot[1] as int / 2 % 2,
                                       slot[0] as int / 128 + 2 * (slot[1] as int % 2), slot[0] as int / 32 % 4,
                                       slot[0] as int % 32),
                                  slot[2..]))
    ensures ParseLlsf(slot, Unknown) == None
  {
    hide FromLE;
    if |slot| >= 2 {
      LittlePair(slot[..2]);
      ChildBits(slot[0], slot[1]);
    }
  }

  lemma ChildBits(a: int, b: int)
    requires 0 <= a < 256 && 0 <= b < 256
    ensures var w := a + 0x100 * b;
            && w / 0x400 % 16 == b / 4 % 16 && w / 0x200 % 2 == b / 2 % 2
            && w / 0x80 % 4 == a / 128 + 2 * (b % 2) && w / 0x20 % 4 == a / 32 % 4 && w % 0x20 == a % 32
  {
    var w := a + 0x100 * b;
    assert w / 0x400 == b / 4;
    assert w / 0x200 == b / 2;
    assert w / 0x80 == a / 128 + 2 * b;
    assert w / 0x20 == a / 32 + 8 * b;
  }

  // ---- carriers -----------------------------------------------------------------------------

  // The fifth byte of a carrier is the length of a parent's slot, the sixth that of a child's.  A
  // slot of at most one byte is idle; one that is cut off is read as far as it goes, and reported.
  lemma CarrierExactly(f: Frame, role: Role)
    ensures var c := ParseT(f, role);
            if f.kind != 0x54 then c == Carrier(0, None, [Issue(f.offset, NotTCarrier)])
            else if |f.body| < 8 then c == Carrier(0, None, [Issue(f.offset, TruncatedTBody)])
            else
              var length: int := if role == Parent then f.body[4] else f.body[5];
              var there := if 8 + length <= |f.body| then f.body[8..8 + length] else f.body[8..];
              var cut := if 8 + length <= |f.body| then [] else [Issue(f.offset, TruncatedTSlot)];
              && c.slotLength == length
              && (if length <= 1 then
                    c.issues == [] && c.slot == Some(Slot([], Llsf(0, 0, 0, 0, 0), [], [], true))
                  else
                    var h := ParseLlsf(there, role);
                    if h.None? then c.slot == None && c.issues == cut + [Issue(f.offset, InvalidLlsf)]
                    else
                      c.issues == cut
                      && c.slot
                        == Some(Slot(there, h.value.fields, h.value.payload, SlotCommands(h.value, role), false)))
  {
    hide ParseLlsf, SlotCommands;
  }

  // Only slots in the state of a transfer hold commands: one for each fourteen bytes of a parent's
  // payload, numbered by player, and a single one in a child's.
  lemma {:induction false} ParentCommandsExactly(payload: seq<Byte>, mpid: nat)
    ensures var cs := ParentCommands(payload, mpid);
            && |cs| == |payload| / 14
            && forall i :: 0 <= i < |cs| ==> cs[i] == ParseCommand(payload[14 * i..14 * i + 14], Some(mpid + i))
    decreases |payload|
  {
    hide ParseCommand;
    if |payload| >= 14 {
      ParentCommandsExactly(payload[14..], mpid + 1);
      var cs, rest := ParentCommands(payload, mpid), ParentCommands(payload[14..], mpid + 1);
      forall i | 0 <= i < |cs|
        ensures cs[i] == ParseCommand(payload[14 * i..14 * i + 14], Some(mpid + i))
      {
        if i > 0 {
          assert payload[14..][14 * (i - 1)..14 * (i - 1) + 14] == payload[14 * i..14 * i + 14];
          assert cs[i] == rest[i - 1];
        }
      }
    }
  }

  lemma SlotCommandsExactly(h: Header, role: Role)
    ensures var cs := SlotCommands(h, role);
            if h.fields.state != 4 then cs == []
            else if role == Parent then cs == ParentCommands(h.payload, 0)
            else if |h.payload| < 14 then cs == []
            else cs == [ParseCommand(h.payload[..14], None)]
  {
  }
}
