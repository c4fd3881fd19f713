/**
 The carriers of tools/payload_decoder.py: frames of a marker, a type, a length and a body; in the
 body of a T frame a slot with a header of bit fields; in the slot commands of seven words.
 */
module RfuFrames {
  import opened Common
  import opened Bytes

  const MARKER: Byte := 0x57
  const T_FRAME: Byte := 0x54

  datatype IssueCode =
    | UnexpectedPrefix | TruncatedHeader | TruncatedBody | NotTCarrier | TruncatedTBody
    | TruncatedTSlot | InvalidLlsf | BlockReplacedIncomplete | FragmentWithoutInit
    | InvalidFragmentIndex | IncompleteBlock

  datatype Issue = Issue(offset: nat, code: IssueCode)

  datatype Frame = Frame(offset: nat, kind: Byte, body: seq<Byte>, raw: seq<Byte>)

  datatype Parsed = Parsed(frames: seq<Frame>, issues: seq<Issue>)
  {
    function After(frames0: seq<Frame>, issues0: seq<Issue>): Parsed {
      Parsed(frames0 + frames, issues0 + issues)
    }
  }

  function FindMarker(data: seq<Byte>, from: nat): (i: Option<nat>)
    requires from <= |data|
    ensures i.Some? ==> from <= i.value < |data| && data[i.value] == MARKER
                        && forall k :: from <= k < i.value ==> data[k] != MARKER
    ensures i.None? ==> forall k :: from <= k < |data| ==> data[k] != MARKER
    decreases |data| - from
  {
    if from == |data| then None
    else if data[from] == MARKER then Some(from)
    else FindMarker(data, from + 1)
  }

  function BodyLength(data: seq<Byte>, offset: nat): nat
    requires offset + 4 <= |data|
  {
    FromLE(data[offset + 2..offset + 4])
  }

  // Bytes that are no frame are reported and skipped up to the next marker.
  function ParseFrom(data: seq<Byte>, offset: nat): (p: Parsed)
    requires offset <= |data|
    decreases |data| - offset
  {
    if offset == |data| then Parsed([], [])
    else if data[offset] != MARKER then
      var issue := Issue(offset, UnexpectedPrefix);
      match FindMarker(data, offset + 1)
      case None => Parsed([], [issue])
      case Some(next) => ParseFrom(data, next).After([], [issue])
    else if |data| - offset < 4 then Parsed([], [Issue(offset, TruncatedHeader)])
    else
      var end := offset + 4 + BodyLength(data, offset);
      if end > |data| then Parsed([], [Issue(offset, TruncatedBody)])
      else
        ParseFrom(data, end).After([Frame(offset, data[offset + 1], data[offset + 4..end], data[offset..end])], [])
  }

  predicate WholeFrame(data: seq<Byte>, offset: nat) {
    offset + 4 <= |data| && data[offset] == MARKER && offset + 4 + BodyLength(data, offset) <= |data|
  }

  lemma TakeFrame(data: seq<Byte>, offset: nat, frames: seq<Frame>, issues: seq<Issue>)
    requires WholeFrame(data, offset)
    ensures var end := offset + 4 + BodyLength(data, offset);
            var f := Frame(offset, data[offset + 1], data[offset + 4..end], data[offset..end]);
            ParseFrom(data, offset).After(frames, issues) == ParseFrom(data, end).After(frames + [f], issues)
  {
    var end := offset + 4 + BodyLength(data, offset);
    var f := Frame(offset, data[offset + 1], data[offset + 4..end], data[offset..end]);
    var rest := ParseFrom(data, end);
    assert frames + ([f] + rest.frames) == (frames + [f]) + rest.frames;
    assert issues + ([] + rest.issues) == issues + rest.issues;
  }

  lemma SkipBytes(data: seq<Byte>, offset: nat, frames: seq<Frame>, issues: seq<Issue>)
    requires offset < |data| && data[offset] != MARKER
    ensures var issue := Issue(offset, UnexpectedPrefix);
            var next := FindMarker(data, offset + 1);
            ParseFrom(data, offset).After(frames, issues)
            == if next.Some? then ParseFrom(data, next.value).After(frames, issues + [issue])
               else Parsed(frames, issues + [issue])
  {
    var issue := Issue(offset, UnexpectedPrefix);
    var next := FindMarker(data, offset + 1);
    if next.Some? {
      var rest := ParseFrom(data, next.value);
      assert frames + ([] + rest.frames) == frames + rest.frames;
      assert issues + ([issue] + rest.issues) == (issues + [issue]) + rest.issues;
    } else {
      assert frames + [] == frames;
    }
  }

  lemma StopShort(data: seq<Byte>, offset: nat, frames: seq<Frame>, issues: seq<Issue>)
    requires offset == |data| || (offset < |data| && data[offset] == MARKER && !WholeFrame(data, offset))
    ensures ParseFrom(data, offset).After(frames, issues)
            == Parsed(frames, if offset == |data| then issues
                              else if |data| - offset < 4 then issues + [Issue(offset, TruncatedHeader)]
                              else issues + [Issue(offset, TruncatedBody)])
  {
    assert frames + [] == frames && issues + [] == issues;
  }

  // The strict mode stops at the first issue.
  method ParseGbaFrames(data: seq<Byte>, strict: bool) returns (r: Result<Parsed, Issue>)
    ensures var p := ParseFrom(data, 0);
            r == if strict && p.issues != [] then Err(p.issues[0]) else Ok(p)
  {
    hide ParseFrom, FindMarker;
    var frames, issues := [], [];
    var offset := 0;
    assert ParseFrom(data, 0) == ParseFrom(data, 0).After([], []) by {
      assert [] + ParseFrom(data, 0).frames == ParseFrom(data, 0).frames;
      assert [] + ParseFrom(data, 0).issues == ParseFrom(data, 0).issues;
    }
    while offset < |data|
      invariant offset <= |data| && (strict ==> issues == [])
      invariant ParseFrom(data, 0) == ParseFrom(data, offset).After(frames, issues)
      decreases |data| - offset
    {
      if data[offset] != MARKER {
        SkipBytes(data, offset, frames, issues);
        var issue := Issue(offset, UnexpectedPrefix);
        if strict {
          return Err(issue);
        }
        issues := issues + [issue];
        var next := FindMarker(data, offset + 1);
        if next.None? {
          return Ok(Parsed(frames, issues));
        }
        offset := next.value;
        continue;
      }
      if |data| - offset < 4 {
        StopShort(data, offset, frames, issues);
        var issue := Issue(offset, TruncatedHeader);
        return if strict then Err(issue) else Ok(Parsed(frames, issues + [issue]));
      }
      var kind := data[offset + 1];
      var end := offset + 4 + FromLE(data[offset + 2..offset + 4]);
      if end > |data| {
        StopShort(data, offset, frames, issues);
        var issue := Issue(offset, TruncatedBody);
        return if strict then Err(issue) else Ok(Parsed(frames, issues + [issue]));
      }
      TakeFrame(data, offset, frames, issues);
      frames := frames + [Frame(offset, kind, data[offset + 4..end], data[offset..end])];
      offset := end;
    }
    StopShort(data, offset, frames, issues);
    return Ok(Parsed(frames, issues));
  }

  // Every frame is found in the data where it says, whole, and after the one before it.
  predicate FramesWithin(data: seq<Byte>, from: nat, frames: seq<Frame>)
    decreases |frames|
  {
    frames == [] ||
    (var f := frames[0];
     && from <= f.offset && f.offset + 4 + |f.body| <= |data|
     && f.raw == data[f.offset..f.offset + 4 + |f.body|]
     && f.raw == [0x57, f.kind] + LE(|f.body|, 2) + f.body
     && FramesWithin(data, f.offset + 4 + |f.body|, frames[1..]))
  }

  lemma {:induction false} WithinLater(data: seq<Byte>, from: nat, later: nat, frames: seq<Frame>)
    requires FramesWithin(data, later, frames) && from <= later
    ensures FramesWithin(data, from, frames)
  {
  }

  lemma OneFrame(data: seq<Byte>, offset: nat)
    requires offset + 4 <= |data| && data[offset] == MARKER && offset + 4 + BodyLength(data, offset) <= |data|
    ensures var end := offset + 4 + BodyLength(data, offset);
            data[offset..end] == [MARKER, data[offset + 1]] + LE(|data[offset + 4..end]|, 2) + data[offset + 4..end]
  {
    LEOfFromLE(data[offset + 2..offset + 4]);
    var end := offset + 4 + BodyLength(data, offset);
    assert data[offset..end] == data[offset..offset + 2] + data[offset + 2..offset + 4] + data[offset + 4..end];
    assert data[offset..offset + 2] == [MARKER, data[offset + 1]];
  }

  lemma {:induction false} NothingInvented(data: seq<Byte>, offset: nat)
    requires offset <= |data|
    ensures FramesWithin(data, offset, ParseFrom(data, offset).frames)
    decreases |data| - offset
  {
    hide FindMarker, LE;
    if offset < |data| {
      if data[offset] != MARKER {
        var next := FindMarker(data, offset + 1);
        if next.Some? {
          NothingInvented(data, next.value);
          var rest := ParseFrom(data, next.value).frames;
          WithinLater(data, offset, next.value, rest);
          assert [] + rest == rest;
        }
      } else if WholeFrame(data, offset) {
        OneFrame(data, offset);
        var end := offset + 4 + BodyLength(data, offset);
        NothingInvented(data, end);
        var f := Frame(offset, data[offset + 1], data[offset + 4..end], data[offset..end]);
        assert ([f] + ParseFrom(data, end).frames)[1..] == ParseFrom(data, end).frames;
      }
    }
  }

  // ---- frames that are well formed ----------------------------------------------------------

  datatype Carried = Carried(kind: Byte, body: seq<Byte>)

  predicate Carriable(c: Carried) {
    |c.body| < 0x1_0000
  }

  function FrameBytes(c: Carried): seq<Byte> {
    [0x57, c.kind] + LE(|c.body|, 2) + c.body
  }

  function Encoded(cs: seq<Carried>): seq<Byte> {
    if cs == [] then [] else FrameBytes(cs[0]) + Encoded(cs[1..])
  }

  function FramesAt(cs: seq<Carried>, offset: nat): (frames: seq<Frame>)
    ensures |frames| == |cs|
    ensures forall i :: 0 <= i < |cs| ==> frames[i].kind == cs[i].kind && frames[i].body == cs[i].body
  {
    if cs == [] then []
    else [Frame(offset, cs[0].kind, cs[0].body, FrameBytes(cs[0]))] + FramesAt(cs[1..], offset + 4 + |cs[0].body|)
  }

  lemma FrameFields(data: seq<Byte>, offset: nat, c: Carried)
    requires Carriable(c) && offset + 4 + |c.body| <= |data|
    requires data[offset..offset + 4 + |c.body|] == FrameBytes(c)
    ensures data[offset] == MARKER && data[offset + 1] == c.kind && BodyLength(data, offset) == |c.body|
    ensures data[offset + 4..offset + 4 + |c.body|] == c.body
  {
    hide LE;
    var f, le := data[offset..offset + 4 + |c.body|], LE(|c.body|, 2);
    assert f[0] == data[offset] && f[1] == data[offset + 1] && f[2] == data[offset + 2] && f[3] == data[offset + 3];
    assert f[2] == le[0] && f[3] == le[1];
    assert data[offset + 2..offset + 4] == le;
    assert f[4..] == data[offset + 4..offset + 4 + |c.body|] && f[4..] == c.body;
    assert Pow256(2) == 0x1_0000 by {
      assert Pow256(1) == 256;
    }
    FromLEOfLE(|c.body|, 2);
  }

  lemma FrameLength(c: Carried)
    ensures |FrameBytes(c)| == 4 + |c.body|
  {
  }

  lemma Pieces(data: seq<Byte>, offset: nat, f: seq<Byte>, rest: seq<Byte>)
    requires offset <= |data| && data[offset..] == f + rest
    ensures offset + |f| <= |data| && data[offset..offset + |f|] == f && data[offset + |f|..] == rest
  {
    assert data[offset..offset + |f|] == data[offset..][..|f|];
    assert data[offset + |f|..] == data[offset..][|f|..];
  }

  lemma FirstFrame(data: seq<Byte>, offset: nat, c: Carried, rest: seq<Byte>)
    requires Carriable(c) && offset <= |data| && data[offset..] == FrameBytes(c) + rest
    ensures var end := offset + 4 + |c.body|;
            && WholeFrame(data, offset) && end <= |data| && data[end..] == rest
            && ParseFrom(data, offset) == ParseFrom(data, end).After([Frame(offset, c.kind, c.body, FrameBytes(c))], [])
  {
    hide LE, FromLE, FindMarker;
    FrameLength(c);
    Pieces(data, offset, FrameBytes(c), rest);
    FrameFields(data, offset, c);
  }

  predicate AllCarriable(cs: seq<Carried>) {
    forall i :: 0 <= i < |cs| ==> Carriable(cs[i])
  }

  // Well-formed frames, put one after the other, parse to exactly themselves.
  lemma {:induction false} ParseOfEncoded(data: seq<Byte>, offset: nat, cs: seq<Carried>)
    requires AllCarriable(cs) && offset <= |data| && data[offset..] == Encoded(cs)
    ensures ParseFrom(data, offset) == Parsed(FramesAt(cs, offset), [])
    decreases |cs|
  {
    hide ParseFrom, AllCarriable, FramesAt, Encoded;
    if cs == [] {
      NoFrames(data, offset);
    } else {
      MoreFrames(data, offset, cs);
      ParseOfEncoded(data, offset + 4 + |cs[0].body|, cs[1..]);
    }
  }

  lemma NoFrames(data: seq<Byte>, offset: nat)
    requires offset <= |data| && data[offset..] == Encoded([])
    ensures ParseFrom(data, offset) == Parsed(FramesAt([], offset), [])
  {
    assert |data[offset..]| == 0;
  }

  lemma MoreFrames(data: seq<Byte>, offset: nat, cs: seq<Carried>)
    requires AllCarriable(cs) && cs != [] && offset <= |data| && data[offset..] == Encoded(cs)
    ensures var end := offset + 4 + |cs[0].body|;
            && AllCarriable(cs[1..]) && end <= |data| && data[end..] == Encoded(cs[1..])
            && (ParseFrom(data, end) == Parsed(FramesAt(cs[1..], end), []) ==>
                  ParseFrom(data, offset) == Parsed(FramesAt(cs, offset), []))
  {
    hide ParseFrom, FrameBytes, WholeFrame;
    FirstFrame(data, offset, cs[0], Encoded(cs[1..]));
  }

  // ---- commands -----------------------------------------------------------------------------

  const INIT := 0x8800
  const SEND_BLOCK := 0x8900
  const BLOCK_REQUEST := 0xA100

  datatype Detail =
    | BlockInit(count: nat, owner: nat)
    | BlockPart(index: nat, part: seq<Byte>)
    | BlockRequest(request: nat)
    | Other

  datatype Command = Command(raw: seq<Byte>, opcode: nat, mpid: Option<nat>, detail: Detail)

  function Zeros(n: nat): (z: seq<Byte>)
    ensures |z| == n && forall i :: 0 <= i < n ==> z[i] == 0
  {
    if n == 0 then [] else [0] + Zeros(n - 1)
  }

  function Padded(raw: seq<Byte>): (p: seq<Byte>)
    ensures |p| == 14
  {
    if |raw| >= 14 then raw[..14] else raw + Zeros(14 - |raw|)
  }

  function Word(raw: seq<Byte>, i: nat): nat
    requires 2 * i + 2 <= |raw|
  {
    FromLE(raw[2 * i..2 * i + 2])
  }

  function ParseCommand(raw: seq<Byte>, mpid: Option<nat>): (c: Command)
  {
    var p := Padded(raw);
    var word0 := Word(p, 0);
    var opcode := word0 / 0x100 % 0x100 * 0x100;
    Command(p, opcode, mpid,
            if opcode == INIT then BlockInit(Word(p, 1), p[4] % 0x80)
            else if opcode == SEND_BLOCK then BlockPart(word0 % 0x20, p[2..14])
            else if opcode == BLOCK_REQUEST then BlockRequest(Word(p, 1))
            else Other)
  }

  function InitCommand(count: nat, owner: nat): (raw: seq<Byte>)
    requires owner < 0x80
    ensures |raw| == 14
  {
    LE(INIT, 2) + LE(count, 2) + [owner] + Zeros(9)
  }

  function PartCommand(index: nat, part: seq<Byte>): (raw: seq<Byte>)
    requires |part| == 12
    ensures |raw| == 14
  {
    LE(SEND_BLOCK + index, 2) + part
  }

  lemma TwoBytes(v: nat)
    requires v < 0x1_0000
    ensures FromLE(LE(v, 2)) == v
  {
    assert Pow256(2) == 0x1_0000 by {
      assert Pow256(1) == 256;
    }
    FromLEOfLE(v, 2);
  }

  lemma InitParses(count: nat, owner: nat, mpid: Option<nat>)
    requires count < 0x1_0000 && owner < 0x80
    ensures ParseCommand(InitCommand(count, owner), mpid)
            == Command(InitCommand(count, owner), INIT, mpid, BlockInit(count, owner))
  {
    var raw := InitCommand(count, owner);
    hide FromLE, LE, Zeros;
    assert raw[..14] == raw;
    assert raw[0..2] == LE(INIT, 2) && raw[2..4] == LE(count, 2) && raw[4] == owner;
    TwoBytes(INIT);
    TwoBytes(count);
  }

  lemma PartParses(index: nat, part: seq<Byte>, mpid: Option<nat>)
    requires index < 0x20 && |part| == 12
    ensures ParseCommand(PartCommand(index, part), mpid)
            == Command(PartCommand(index, part), SEND_BLOCK, mpid, BlockPart(index, part))
  {
    var raw := PartCommand(index, part);
    hide FromLE, LE;
    assert raw[..14] == raw;
    assert raw[0..2] == LE(SEND_BLOCK + index, 2) && raw[2..14] == part;
    TwoBytes(SEND_BLOCK + index);
  }

  // ---- slots --------------------------------------------------------------------------------

  datatype Role = Parent | Child | Unknown

  datatype Llsf = Llsf(state: nat, ack: nat, n: nat, phase: nat, size: nat)

  datatype Header = Header(fields: Llsf, payload: seq<Byte>)

  function ParseLlsf(slot: seq<Byte>, role: Role): (h: Option<Header>)
  {
    match role
    case Parent =>
      if |slot| < 3 then None
      else
        var w := FromLE(slot[..3]);
        Some(Header(Llsf(w / 0x4000 % 16, w / 0x2000 % 2, w / 0x800 % 4, w / 0x200 % 4, w % 0x80), slot[3..]))
    case Child =>
      if |slot| < 2 then None
      else
        var w := FromLE(slot[..2]);
        Some(Header(Llsf(w / 0x400 % 16, w / 0x200 % 2, w / 0x80 % 4, w / 0x20 % 4, w % 0x20), slot[2..]))
    case Unknown => None
  }

  predicate Fits(l: Llsf, role: Role) {
    l.state < 16 && l.ack < 2 && l.n < 4 && l.phase < 4 && l.size < if role.Parent? then 0x80 else 0x20
  }

  function LlsfBytes(l: Llsf, role: Role): (b: seq<Byte>)
    requires !role.Unknown?
    ensures |b| == if role.Parent? then 3 else 2
  {
    if role.Parent? then LE(l.state * 0x4000 + l.ack * 0x2000 + l.n * 0x800 + l.phase * 0x200 + l.size, 3)
    else LE(l.state * 0x400 + l.ack * 0x200 + l.n * 0x80 + l.phase * 0x20 + l.size, 2)
  }

  lemma ParentFields(l: Llsf)
    requires Fits(l, Parent)
    ensures var w := l.state * 0x4000 + l.ack * 0x2000 + l.n * 0x800 + l.phase * 0x200 + l.size;
            && w < 0x100_0000
            && l == Llsf(w / 0x4000 % 16, w / 0x2000 % 2, w / 0x800 % 4, w / 0x200 % 4, w % 0x80)
  {
    var w := l.state * 0x4000 + l.ack * 0x2000 + l.n * 0x800 + l.phase * 0x200 + l.size;
    assert w / 0x200 == l.state * 0x20 + l.ack * 0x10 + l.n * 4 + l.phase by {
      Divided(l.state * 0x20 + l.ack * 0x10 + l.n * 4 + l.phase, 0x200, l.size);
    }
    assert w / 0x800 == l.state * 8 + l.ack * 4 + l.n by {
      Divided(l.state * 8 + l.ack * 4 + l.n, 0x800, l.phase * 0x200 + l.size);
    }
    assert w / 0x2000 == l.state * 2 + l.ack by {
      Divided(l.state * 2 + l.ack, 0x2000, l.n * 0x800 + l.phase * 0x200 + l.size);
    }
    assert w / 0x4000 == l.state by {
      Divided(l.state, 0x4000, l.ack * 0x2000 + l.n * 0x800 + l.phase * 0x200 + l.size);
    }
    assert w % 0x80 == l.size by {
      Divided(l.state * 0x80 + l.ack * 0x40 + l.n * 0x10 + l.phase * 4, 0x80, l.size);
    }
  }

  lemma Divided(q: nat, d: nat, r: nat)
    requires r < d
    ensures (q * d + r) / d == q && (q * d + r) % d == r
  {
    var k := (q * d + r) / d - q;
    assert d * k == r - (q * d + r) % d;
    assert k >= 1 ==> d * k >= d;
    assert k <= -1 ==> d * k + d <= 0;
  }

  lemma ChildFields(l: Llsf)
    requires Fits(l, Child)
    ensures var w := l.state * 0x400 + l.ack * 0x200 + l.n * 0x80 + l.phase * 0x20 + l.size;
            && w < 0x1_0000
            && l == Llsf(w / 0x400 % 16, w / 0x200 % 2, w / 0x80 % 4, w / 0x20 % 4, w % 0x20)
  {
    var w := l.state * 0x400 + l.ack * 0x200 + l.n * 0x80 + l.phase * 0x20 + l.size;
    assert w / 0x20 == l.state * 0x20 + l.ack * 0x10 + l.n * 4 + l.phase && w % 0x20 == l.size by {
      Divided(l.state * 0x20 + l.ack * 0x10 + l.n * 4 + l.phase, 0x20, l.size);
    }
    assert w / 0x80 == l.state * 8 + l.ack * 4 + l.n by {
      Divided(l.state * 8 + l.ack * 4 + l.n, 0x80, l.phase * 0x20 + l.size);
    }
    assert w / 0x200 == l.state * 2 + l.ack by {
      Divided(l.state * 2 + l.ack, 0x200, l.n * 0x80 + l.phase * 0x20 + l.size);
    }
    assert w / 0x400 == l.state by {
      Divided(l.state, 0x400, l.ack * 0x200 + l.n * 0x80 + l.phase * 0x20 + l.size);
    }
  }

  // The bit fields of a slot header come back, for either role.
  lemma LlsfRoundTrip(l: Llsf, role: Role, payload: seq<Byte>)
    requires !role.Unknown? && Fits(l, role)
    ensures ParseLlsf(LlsfBytes(l, role) + payload, role) == Some(Header(l, payload))
  {
    hide LE, FromLE;
    var slot := LlsfBytes(l, role) + payload;
    assert slot[..|LlsfBytes(l, role)|] == LlsfBytes(l, role) && slot[|LlsfBytes(l, role)|..] == payload;
    assert Pow256(3) == 0x100_0000 && Pow256(2) == 0x1_0000 by {
      assert Pow256(1) == 256;
    }
    if role.Parent? {
      ParentFields(l);
      FromLEOfLE(l.state * 0x4000 + l.ack * 0x2000 + l.n * 0x800 + l.phase * 0x200 + l.size, 3);
    } else {
      ChildFields(l);
      FromLEOfLE(l.state * 0x400 + l.ack * 0x200 + l.n * 0x80 + l.phase * 0x20 + l.size, 2);
    }
  }

  const RFU_UNI := 4

  datatype Slot = Slot(raw: seq<Byte>, fields: Llsf, payload: seq<Byte>, commands: seq<Command>, idle: bool)

  datatype Carrier = Carrier(slotLength: nat, slot: Option<Slot>, issues: seq<Issue>)

  // The commands of a parent's payload, numbered by the player they are for.
  function ParentCommands(payload: seq<Byte>, mpid: nat): (cs: seq<Command>)
    decreases |payload|
  {
    if |payload| < 14 then [] else [ParseCommand(payload[..14], Some(mpid))] + ParentCommands(payload[14..], mpid + 1)
  }

  function SlotCommands(h: Header, role: Role): seq<Command> {
    if h.fields.state != RFU_UNI then []
    else if role.Parent? then ParentCommands(h.payload, 0)
    else if |h.payload| >= 14 then [ParseCommand(h.payload[..14], None)]
    else []
  }

  function ParseT(frame: Frame, role: Role): (c: Carrier)
  {
    var body := frame.body;
    if frame.kind != T_FRAME then Carrier(0, None, [Issue(frame.offset, NotTCarrier)])
    else if |body| < 8 then Carrier(0, None, [Issue(frame.offset, TruncatedTBody)])
    else
      var length: int := if role.Parent? then body[4] else body[5];
      if length <= 1 then Carrier(length, Some(Slot([], Llsf(0, 0, 0, 0, 0), [], [], true)), [])
      else
        var short := |body| < 8 + length;
        var issues := if short then [Issue(frame.offset, TruncatedTSlot)] else [];
        var raw := if short then body[8..] else body[8..8 + length];
        match ParseLlsf(raw, role)
        case None => Carrier(length, None, issues + [Issue(frame.offset, InvalidLlsf)])
        case Some(h) => Carrier(length, Some(Slot(raw, h.fields, h.payload, SlotCommands(h, role), false)), issues)
  }

  // What a carrier hands on.
  function CommandsOf(c: Carrier): seq<Command> {
    if c.slot.Some? then c.slot.value.commands else []
  }

  // ---- slots that are well formed -----------------------------------------------------------

  // A carrier of raw commands: a parent's for the players in order, a child's a single one.
  datatype Sent = Sent(role: Role, fields: Llsf, raws: seq<seq<Byte>>)

  predicate Sendable(s: Sent) {
    && !s.role.Unknown? && Fits(s.fields, s.role) && s.fields.state == RFU_UNI
    && (forall i :: 0 <= i < |s.raws| ==> |s.raws[i]| == 14)
    && (if s.role.Parent? then |s.raws| <= 18 else |s.raws| == 1)
  }

  function Joined(raws: seq<seq<Byte>>): (b: seq<Byte>)
    ensures (forall i :: 0 <= i < |raws| ==> |raws[i]| == 14) ==> |b| == 14 * |raws|
  {
    if raws == [] then [] else raws[0] + Joined(raws[1..])
  }

  function SlotBytes(s: Sent): seq<Byte>
    requires Sendable(s)
  {
    LlsfBytes(s.fields, s.role) + Joined(s.raws)
  }

  function CarriedOf(s: Sent): (c: Carried)
    requires Sendable(s)
    ensures Carriable(c)
  {
    var slot := SlotBytes(s);
    Carried(T_FRAME,
            [0, 0, 0, 0, if s.role.Parent? then |slot| else 0, if s.role.Parent? then 0 else |slot|, 0, 0] + slot)
  }

  function Numbered(raws: seq<seq<Byte>>, mpid: nat): (cs: seq<Command>)
    ensures |cs| == |raws|
    ensures forall i :: 0 <= i < |raws| ==> cs[i] == ParseCommand(raws[i], Some(mpid + i))
  {
    if raws == [] then [] else [ParseCommand(raws[0], Some(mpid))] + Numbered(raws[1..], mpid + 1)
  }

  function SentCommands(s: Sent): seq<Command>
    requires Sendable(s)
  {
    if s.role.Parent? then Numbered(s.raws, 0) else [ParseCommand(s.raws[0], None)]
  }

  lemma {:induction false} ParentCommandsOf(raws: seq<seq<Byte>>, mpid: nat)
    requires forall i :: 0 <= i < |raws| ==> |raws[i]| == 14
    ensures ParentCommands(Joined(raws), mpid) == Numbered(raws, mpid)
    decreases |raws|
  {
    if raws != [] {
      var b := Joined(raws);
      assert b[..14] == raws[0] && b[14..] == Joined(raws[1..]);
      ParentCommandsOf(raws[1..], mpid + 1);
    }
  }

  // A well-formed carrier hands on exactly its commands, and reports nothing.
  lemma CarrierRoundTrip(s: Sent, offset: nat, raw: seq<Byte>)
    requires Sendable(s)
    ensures var c := ParseT(Frame(offset, T_FRAME, CarriedOf(s).body, raw), s.role);
            c.issues == [] && CommandsOf(c) == SentCommands(s)
  {
    hide ParseCommand, LE;
    var slot, body := SlotBytes(s), CarriedOf(s).body;
    assert body[8..] == slot && body[8..8 + |slot|] == slot;
    LlsfRoundTrip(s.fields, s.role, Joined(s.raws));
    if s.role.Parent? {
      ParentCommandsOf(s.raws, 0);
    } else {
      assert s.raws[1..] == [];
      assert Joined(s.raws) == s.raws[0];
      assert s.raws[0][..14] == s.raws[0];
    }
  }
}
