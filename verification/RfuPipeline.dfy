/**
 From bytes to blocks: frames are parsed, T frames decoded, and their commands fed to the
 assembler, as tools/extract_pokemon_payload.py and switchtrade/party_observer.py do.
 */
module RfuPipeline {
  import opened Common
  import opened Bytes
  import opened RfuFrames
  import opened RfuBlocks

  function Inputs(commands: seq<Command>, direction: string, source: Option<nat>): (inputs: seq<Input>)
    ensures |inputs| == |commands|
    ensures forall i :: 0 <= i < |commands| ==> inputs[i] == Input(commands[i], direction, source)
  {
    if commands == [] then [] else [Input(commands[0], direction, source)] + Inputs(commands[1..], direction, source)
  }

  function FrameInputs(frames: seq<Frame>, role: Role, direction: string, source: Option<nat>): seq<Input> {
    if frames == [] then []
    else
      (if frames[0].kind == T_FRAME then Inputs(CommandsOf(ParseT(frames[0], role)), direction, source) else [])
      + FrameInputs(frames[1..], role, direction, source)
  }

  // What a payload hands to the assembler.
  function Decode(data: seq<Byte>, role: Role, direction: string, source: Option<nat>): seq<Input> {
    FrameInputs(ParseFrom(data, 0).frames, role, direction, source)
  }

  predicate AllSendable(sents: seq<Sent>, role: Role) {
    forall i :: 0 <= i < |sents| ==> sents[i].role == role && Sendable(sents[i])
  }

  // The carriers of commands, as bytes, and as the commands they carry.
  function Carriers(sents: seq<Sent>, role: Role): (cs: seq<Carried>)
    requires AllSendable(sents, role)
    ensures AllCarriable(cs)
  {
    if sents == [] then [] else [CarriedOf(sents[0])] + Carriers(sents[1..], role)
  }

  function SentInputs(sents: seq<Sent>, role: Role, direction: string, source: Option<nat>): seq<Input>
    requires AllSendable(sents, role)
  {
    if sents == [] then []
    else Inputs(SentCommands(sents[0]), direction, source) + SentInputs(sents[1..], role, direction, source)
  }

  lemma {:induction false} CarriersDecode(sents: seq<Sent>, role: Role, direction: string, source: Option<nat>,
                                          offset: nat)
    requires AllSendable(sents, role)
    ensures FrameInputs(FramesAt(Carriers(sents, role), offset), role, direction, source)
            == SentInputs(sents, role, direction, source)
    decreases |sents|
  {
    hide ParseT, CommandsOf, SentCommands, Sendable, Inputs;
    if sents != [] {
      var cs := Carriers(sents, role);
      var frames := FramesAt(cs, offset);
      assert cs[1..] == Carriers(sents[1..], role);
      assert frames[1..] == FramesAt(cs[1..], offset + 4 + |cs[0].body|);
      CarrierRoundTrip(sents[0], offset, frames[0].raw);
      assert frames[0] == Frame(offset, T_FRAME, CarriedOf(sents[0]).body, frames[0].raw);
      CarriersDecode(sents[1..], role, direction, source, offset + 4 + |cs[0].body|);
    }
  }

  // Carriers put one after the other hand on exactly their commands, in order.
  lemma DecodeOfEncoded(sents: seq<Sent>, role: Role, direction: string, source: Option<nat>)
    requires AllSendable(sents, role)
    ensures Decode(Encoded(Carriers(sents, role)), role, direction, source)
            == SentInputs(sents, role, direction, source)
  {
    var cs := Carriers(sents, role);
    var data := Encoded(cs);
    assert data[0..] == data;
    ParseOfEncoded(data, 0, cs);
    CarriersDecode(sents, role, direction, source, 0);
  }

  // A payload of 12 * k bytes comes back from the bytes of its carriers: on its stream its INIT
  // comes first, then repeated INITs and fragments in any order.
  lemma PipelineRoundTrip(a: Assembler, sents: seq<Sent>, role: Role, direction: string, source: Option<nat>,
                          s: Stream, k: nat, owner: nat, payload: seq<Byte>)
    requires Sound(a) && Starts(a, s, k, owner) && 1 <= k <= 32 && |payload| == 12 * k && AllSendable(sents, role)
    requires var own := OnStream(SentInputs(sents, role, direction, source), s);
             && own != [] && own[0].command.detail == BlockInit(k, owner)
             && BlockRun(own[1..], s, k, owner, payload) && InitsInTime(own[1..], s, k, {})
             && forall x :: 0 <= x < k ==> x in Indices(own[1..], s)
    ensures var end := FeedAll(a, Decode(Encoded(Carriers(sents, role)), role, direction, source));
            var key := Key(s, Ordinal(a, s));
            && key !in a.completed && key in end.completed
            && key in end.blocks && Payload(end.blocks[key]) == Some(payload)
  {
    hide Sound, Starts, BlockRun, InitsInTime, Indices, Decode, Encoded, SentInputs, OnStream, FeedAll, Payload;
    DecodeOfEncoded(sents, role, direction, source);
    BlockAmongOthers(a, SentInputs(sents, role, direction, source), s, k, owner, payload);
  }

  // ---- the commands of one player -----------------------------------------------------------

  // The raw commands that carriers hold for one player: a parent's are numbered, a child's is not.
  function OwnRaws(s: Sent, mpid: Option<nat>): (raws: seq<seq<Byte>>)
    requires Sendable(s)
  {
    if s.role.Parent? then
      if mpid.Some? && mpid.value < |s.raws| then [s.raws[mpid.value]] else []
    else if mpid.None? then s.raws
    else []
  }

  function AllRaws(sents: seq<Sent>, role: Role, mpid: Option<nat>): (raws: seq<seq<Byte>>)
    requires AllSendable(sents, role)
  {
    if sents == [] then [] else OwnRaws(sents[0], mpid) + AllRaws(sents[1..], role, mpid)
  }

  function Parsed(raws: seq<seq<Byte>>, mpid: Option<nat>, direction: string, source: Option<nat>): (inputs: seq<Input>)
    ensures |inputs| == |raws|
  {
    if raws == [] then []
    else [Input(ParseCommand(raws[0], mpid), direction, source)] + Parsed(raws[1..], mpid, direction, source)
  }

  lemma {:induction false} ParsedAppend(xs: seq<seq<Byte>>, ys: seq<seq<Byte>>, mpid: Option<nat>,
                                        direction: string, source: Option<nat>)
    ensures Parsed(xs + ys, mpid, direction, source)
            == Parsed(xs, mpid, direction, source) + Parsed(ys, mpid, direction, source)
    decreases |xs|
  {
    hide ParseCommand;
    if xs == [] {
      assert xs + ys == ys;
    } else {
      assert (xs + ys)[1..] == xs[1..] + ys;
      ParsedAppend(xs[1..], ys, mpid, direction, source);
    }
  }

  lemma {:induction false} OnStreamAppend(xs: seq<Input>, ys: seq<Input>, s: Stream)
    ensures OnStream(xs + ys, s) == OnStream(xs, s) + OnStream(ys, s)
    decreases |xs|
  {
    if xs == [] {
      assert xs + ys == ys;
    } else {
      assert (xs + ys)[1..] == xs[1..] + ys;
      OnStreamAppend(xs[1..], ys, s);
    }
  }

  lemma {:induction false} NumberedOn(raws: seq<seq<Byte>>, first: nat, mpid: Option<nat>,
                                      direction: string, source: Option<nat>)
    ensures OnStream(Inputs(Numbered(raws, first), direction, source), Stream(direction, mpid))
            == Parsed(if mpid.Some? && first <= mpid.value < first + |raws| then [raws[mpid.value - first]] else [],
                      mpid, direction, source)
    decreases |raws|
  {
    hide ParseCommand, Parsed;
    NoCommands(mpid, direction, source);
    if raws != [] {
      NumberedOn(raws[1..], first + 1, mpid, direction, source);
      var c, rest := ParseCommand(raws[0], Some(first)), Numbered(raws[1..], first + 1);
      var inputs := Inputs(Numbered(raws, first), direction, source);
      assert Numbered(raws, first) == [c] + rest && ([c] + rest)[1..] == rest;
      assert inputs == [Input(c, direction, source)] + Inputs(rest, direction, source);
      assert inputs[1..] == Inputs(rest, direction, source);
      OneParsed(raws[0], Some(first), direction, source);
      assert mpid.Some? && first < mpid.value < first + |raws| ==>
        [raws[mpid.value - first]] == [raws[1..][mpid.value - first - 1]];
    }
  }

  lemma OneParsed(raw: seq<Byte>, mpid: Option<nat>, direction: string, source: Option<nat>)
    ensures Parsed([raw], mpid, direction, source) == [Input(ParseCommand(raw, mpid), direction, source)]
    ensures ParseCommand(raw, mpid).mpid == mpid
  {
    hide Padded;
  }

  lemma OwnCommands(s: Sent, mpid: Option<nat>, direction: string, source: Option<nat>)
    requires Sendable(s)
    ensures OnStream(Inputs(SentCommands(s), direction, source), Stream(direction, mpid))
            == Parsed(OwnRaws(s, mpid), mpid, direction, source)
  {
    hide Inputs, OnStream, ParseCommand;
    if s.role.Parent? {
      NumberedOn(s.raws, 0, mpid, direction, source);
    } else {
      OneCommand(s.raws[0], mpid, direction, source);
      assert s.raws == [s.raws[0]] && s.raws[1..] == [];
    }
  }

  lemma OneCommand(raw: seq<Byte>, mpid: Option<nat>, direction: string, source: Option<nat>)
    ensures OnStream(Inputs([ParseCommand(raw, None)], direction, source), Stream(direction, mpid))
            == if mpid.None? then [Input(ParseCommand(raw, None), direction, source)] else []
  {
    var c := ParseCommand(raw, None);
    assert [c][1..] == [] && Inputs([c], direction, source) == [Input(c, direction, source)];
    assert [Input(c, direction, source)][1..] == [];
  }

  // The commands of a player are those its raw commands parse to, in order.
  lemma {:induction false} AllCommands(sents: seq<Sent>, role: Role, mpid: Option<nat>, direction: string,
                                       source: Option<nat>)
    requires AllSendable(sents, role)
    ensures OnStream(SentInputs(sents, role, direction, source), Stream(direction, mpid))
            == Parsed(AllRaws(sents, role, mpid), mpid, direction, source)
    decreases |sents|
  {
    hide Sendable, SentCommands, OwnRaws, Inputs, OnStream, Parsed;
    if sents == [] {
      NoCommands(mpid, direction, source);
    } else {
      AllCommands(sents[1..], role, mpid, direction, source);
      OwnCommands(sents[0], mpid, direction, source);
      OnStreamAppend(Inputs(SentCommands(sents[0]), direction, source), SentInputs(sents[1..], role, direction, source),
                     Stream(direction, mpid));
      ParsedAppend(OwnRaws(sents[0], mpid), AllRaws(sents[1..], role, mpid), mpid, direction, source);
    }
  }

  lemma NoCommands(mpid: Option<nat>, direction: string, source: Option<nat>)
    ensures OnStream([], Stream(direction, mpid)) == [] && Parsed([], mpid, direction, source) == []
  {
  }

  // ---- a block in raw commands --------------------------------------------------------------

  datatype Item = Announce | Piece(index: nat)

  predicate ItemsOk(items: seq<Item>, k: nat) {
    forall i :: 0 <= i < |items| ==> items[i].Piece? ==> items[i].index < k
  }

  function Raw(item: Item, k: nat, owner: nat, payload: seq<Byte>): (raw: seq<Byte>)
    requires 1 <= k <= 32 && owner < 0x80 && |payload| == 12 * k && (item.Piece? ==> item.index < k)
    ensures |raw| == 14
  {
    if item.Announce? then InitCommand(k, owner) else PartCommand(item.index, Chunk(payload, item.index))
  }

  function Raws(items: seq<Item>, k: nat, owner: nat, payload: seq<Byte>): (raws: seq<seq<Byte>>)
    requires 1 <= k <= 32 && owner < 0x80 && |payload| == 12 * k && ItemsOk(items, k)
    ensures |raws| == |items|
  {
    if items == [] then [] else [Raw(items[0], k, owner, payload)] + Raws(items[1..], k, owner, payload)
  }

  // Repeated announcements come before the last missing piece; `have` has come already.
  predicate AnnouncedInTime(items: seq<Item>, k: nat, have: set<nat>)
    decreases |items|
  {
    items == [] ||
    (&& (items[0].Announce? ==> exists x :: 0 <= x < k && x !in have)
     && AnnouncedInTime(items[1..], k, have + (if items[0].Piece? then {items[0].index} else {})))
  }

  predicate Includes(items: seq<Item>, index: nat) {
    Piece(index) in items
  }

  lemma {:induction false} ItemsParse(items: seq<Item>, k: nat, owner: nat, payload: seq<Byte>, mpid: Option<nat>,
                                      direction: string, source: Option<nat>, have: set<nat>)
    requires 1 <= k <= 32 && owner < 0x80 && |payload| == 12 * k && ItemsOk(items, k)
    requires AnnouncedInTime(items, k, have)
    ensures var inputs := Parsed(Raws(items, k, owner, payload), mpid, direction, source);
            var s := Stream(direction, mpid);
            && (forall i :: 0 <= i < |items| ==> inputs[i].On() == s)
            && BlockRun(inputs, s, k, owner, payload) && InitsInTime(inputs, s, k, have)
            && forall x :: Includes(items, x) ==> x in Indices(inputs, s)
    decreases |items|
  {
    hide ParseCommand, InitCommand, PartCommand, Raw;
    var s := Stream(direction, mpid);
    var inputs := Parsed(Raws(items, k, owner, payload), mpid, direction, source);
    if items != [] {
      var item, rest := items[0], items[1..];
      var had := have + (if item.Piece? then {item.index} else {});
      ItemsParse(rest, k, owner, payload, mpid, direction, source, had);
      var first := ItemParses(item, k, owner, payload, mpid, direction, source);
      var others := Parsed(Raws(rest, k, owner, payload), mpid, direction, source);
      assert Raws(items, k, owner, payload)[1..] == Raws(rest, k, owner, payload);
      assert inputs == [first] + others;
      assert inputs[1..] == others;
      OneIndex(first, s);
      MoreIndices(first, others, s);
      forall x | Includes(items, x) ensures x in Indices(inputs, s) {
        assert Includes(rest, x) || item == Piece(x);
      }
    }
  }

  lemma ItemParses(item: Item, k: nat, owner: nat, payload: seq<Byte>, mpid: Option<nat>, direction: string,
                   source: Option<nat>)
    returns (first: Input)
    requires 1 <= k <= 32 && owner < 0x80 && |payload| == 12 * k && (item.Piece? ==> item.index < k)
    ensures first == Input(ParseCommand(Raw(item, k, owner, payload), mpid), direction, source)
    ensures first.On() == Stream(direction, mpid)
    ensures first.command.detail == if item.Announce? then BlockInit(k, owner)
                                    else BlockPart(item.index, Chunk(payload, item.index))
  {
    hide ParseCommand, InitCommand, PartCommand;
    first := Input(ParseCommand(Raw(item, k, owner, payload), mpid), direction, source);
    if item.Announce? {
      InitParses(k, owner, mpid);
    } else {
      PartParses(item.index, Chunk(payload, item.index), mpid);
    }
  }

  lemma MoreIndices(first: Input, rest: seq<Input>, s: Stream)
    ensures Indices([first] + rest, s) == Indices([first], s) + Indices(rest, s)
  {
    assert ([first] + rest)[1..] == rest;
    OneIndex(first, s);
  }

  // Carriers whose commands for one player announce a block and hold its pieces give the block
  // back, whatever they hold for other players: `mpid` is a player of the parent's carriers, or
  // nobody for those of a child.
  lemma PlayerBlockRoundTrip(a: Assembler, sents: seq<Sent>, role: Role, mpid: Option<nat>, items: seq<Item>,
                             k: nat, owner: nat, payload: seq<Byte>, direction: string, source: Option<nat>)
    requires 1 <= k <= 32 && owner < 0x80 && |payload| == 12 * k && ItemsOk(items, k) && AllSendable(sents, role)
    requires AllRaws(sents, role, mpid) == [InitCommand(k, owner)] + Raws(items, k, owner, payload)
    requires AnnouncedInTime(items, k, {}) && forall x :: 0 <= x < k ==> Includes(items, x)
    requires Sound(a) && Starts(a, Stream(direction, mpid), k, owner)
    ensures var end := FeedAll(a, Decode(Encoded(Carriers(sents, role)), role, direction, source));
            var key := Key(Stream(direction, mpid), Ordinal(a, Stream(direction, mpid)));
            && key !in a.completed && key in end.completed
            && key in end.blocks && Payload(end.blocks[key]) == Some(payload)
  {
    hide Sound, Starts, Encoded, Decode, SentInputs, OnStream, FeedAll, Payload, BlockRun, InitsInTime, Indices,
      Includes, Carriers, AllRaws, Raws, ParseCommand, InitCommand;
    var s, raws := Stream(direction, mpid), Raws(items, k, owner, payload);
    AllCommands(sents, role, mpid, direction, source);
    ItemsParse(items, k, owner, payload, mpid, direction, source, {});
    InitParses(k, owner, mpid);
    var own := OnStream(SentInputs(sents, role, direction, source), s);
    assert ([InitCommand(k, owner)] + raws)[1..] == raws;
    assert own[1..] == Parsed(raws, mpid, direction, source);
    PipelineRoundTrip(a, sents, role, direction, source, s, k, owner, payload);
  }
}
