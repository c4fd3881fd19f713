/**
 The block assembler of tools/payload_decoder.py.  A block is announced by an INIT and filled by
 fragments; a block is told from the others by its stream and its ordinal there.
 */
module RfuBlocks {
  import opened Common
  import opened Bytes
  import opened RfuFrames

  datatype Stream = Stream(direction: string, mpid: Option<nat>)

  datatype Key = Key(stream: Stream, ordinal: nat)

  datatype Block = Block(
    expected: nat, owner: nat, fragments: map<nat, seq<Byte>>, sources: seq<nat>,
    request: Option<nat>, complete: bool)

  predicate Full(b: Block) {
    b.expected > 0 && forall i :: 0 <= i < b.expected ==> i in b.fragments
  }

  function Sourced(b: Block, source: Option<nat>): Block {
    if source.Some? then b.(sources := b.sources + [source.value]) else b
  }

  // The first fragment with an index stays.
  function AddFragment(b: Block, index: nat, part: seq<Byte>, source: Option<nat>): (c: Block)
  {
    var fragments := if index in b.fragments then b.fragments else b.fragments[index := part];
    var filled := Sourced(b, source).(fragments := fragments);
    filled.(complete := Full(filled))
  }

  function JoinFragments(fragments: map<nat, seq<Byte>>, n: nat): (p: seq<Byte>)
    requires forall i :: 0 <= i < n ==> i in fragments
  {
    if n == 0 then [] else JoinFragments(fragments, n - 1) + fragments[n - 1]
  }

  function Payload(b: Block): Option<seq<Byte>> {
    if b.complete && Full(b) then Some(JoinFragments(b.fragments, b.expected)) else None
  }

  // Blocks under their keys; for each stream the block in progress and the next ordinal.
  datatype Assembler = Assembler(
    blocks: map<Key, Block>, active: map<Stream, nat>, ordinals: map<Stream, nat>,
    completed: seq<Key>, issues: seq<Issue>)

  const NOTHING := Assembler(map[], map[], map[], [], [])

  datatype Fed = Fed(a: Assembler, block: Option<Key>)

  function Ordinal(a: Assembler, s: Stream): nat {
    if s in a.ordinals then a.ordinals[s] else 0
  }

  function ActiveKey(a: Assembler, s: Stream): Option<Key> {
    if s in a.active then Some(Key(s, a.active[s])) else None
  }

  function Lookup(a: Assembler, key: Option<Key>): Option<Block> {
    if key.Some? && key.value in a.blocks then Some(a.blocks[key.value]) else None
  }

  function Raise(a: Assembler, source: Option<nat>, code: IssueCode): Assembler {
    a.(issues := a.issues + [Issue(if source.Some? then source.value else 0, code)])
  }

  function NewBlock(a: Assembler, s: Stream, count: nat, owner: nat, source: Option<nat>): (f: Fed)
  {
    var key := Key(s, Ordinal(a, s));
    var block := Sourced(Block(count, owner, map[], [], None, false), source);
    Fed(a.(ordinals := a.ordinals[s := key.ordinal + 1],
           active := a.active[s := key.ordinal],
           blocks := a.blocks[key := block]),
        Some(key))
  }

  // An INIT that repeats that of an incomplete block changes nothing but the sources.
  function FeedInit(a: Assembler, s: Stream, count: nat, owner: nat, source: Option<nat>): (f: Fed)
  {
    var key := ActiveKey(a, s);
    match Lookup(a, key)
    case None => NewBlock(a, s, count, owner, source)
    case Some(b) =>
      if !b.complete && b.expected == count && b.owner == owner then
        Fed(a.(blocks := a.blocks[key.value := Sourced(b, source)]), key)
      else
        NewBlock(if b.complete then a else Raise(a, source, BlockReplacedIncomplete), s, count, owner, source)
  }

  function FeedPart(a: Assembler, s: Stream, index: nat, part: seq<Byte>, source: Option<nat>): (f: Fed)
  {
    var key := ActiveKey(a, s);
    match Lookup(a, key)
    case None => Fed(Raise(a, source, FragmentWithoutInit), None)
    case Some(b) =>
      if index >= b.expected then Fed(Raise(a, source, InvalidFragmentIndex), key)
      else
        var c := AddFragment(b, index, part, source);
        var filled := a.(blocks := a.blocks[key.value := c]);
        Fed(if c.complete && key.value !in a.completed then filled.(completed := a.completed + [key.value]) else filled,
            key)
  }

  function FeedRequest(a: Assembler, s: Stream, request: nat): (f: Fed)
  {
    var key := ActiveKey(a, s);
    match Lookup(a, key)
    case None => Fed(a, None)
    case Some(b) => Fed(a.(blocks := a.blocks[key.value := b.(request := Some(request))]), key)
  }

  function Feed(a: Assembler, c: Command, direction: string, source: Option<nat>): (f: Fed)
  {
    var s := Stream(direction, c.mpid);
    match c.detail
    case BlockInit(count, owner) => FeedInit(a, s, count, owner, source)
    case BlockPart(index, part) => FeedPart(a, s, index, part, source)
    case BlockRequest(request) => FeedRequest(a, s, request)
    case Other => Fed(a, None)
  }

  // A command as it comes in.
  datatype Input = Input(command: Command, direction: string, source: Option<nat>)
  {
    function On(): Stream {
      Stream(direction, command.mpid)
    }
  }

  function FeedAll(a: Assembler, inputs: seq<Input>): (end: Assembler)
    decreases |inputs|
  {
    if inputs == [] then a
    else FeedAll(Feed(a, inputs[0].command, inputs[0].direction, inputs[0].source).a, inputs[1..])
  }

  // ---- what every run keeps -----------------------------------------------------------------

  ghost predicate Sound(a: Assembler) {
    && (forall k :: k in a.blocks ==> k.ordinal < Ordinal(a, k.stream) && (a.blocks[k].complete <==> Full(a.blocks[k])))
    && (forall s :: s in a.active ==> Key(s, a.active[s]) in a.blocks)
    && (forall i, j :: 0 <= i < j < |a.completed| ==> a.completed[i] != a.completed[j])
    && (forall k :: k in a.completed <==> k in a.blocks && a.blocks[k].complete)
  }

  lemma FeedOk(a: Assembler, c: Command, direction: string, source: Option<nat>)
    requires Sound(a)
    ensures Sound(Feed(a, c, direction, source).a)
  {
    match c.detail
    case BlockInit(count, owner) => InitOk(a, Stream(direction, c.mpid), count, owner, source);
    case BlockPart(index, part) => PartOk(a, Stream(direction, c.mpid), index, part, source);
    case _ =>
  }

  lemma NewBlockOk(a: Assembler, s: Stream, count: nat, owner: nat, source: Option<nat>)
    requires Sound(a)
    ensures Sound(NewBlock(a, s, count, owner, source).a)
  {
    var b := NewBlock(a, s, count, owner, source).a;
    var key := Key(s, Ordinal(a, s));
    assert key !in a.blocks;
    assert count > 0 ==> 0 !in b.blocks[key].fragments;
  }

  // A block in progress that changes, and is entered as completed when it has become so.
  lemma ReplaceOk(a: Assembler, key: Key, c: Block)
    requires Sound(a) && key in a.blocks && (c.complete <==> Full(c)) && (a.blocks[key].complete ==> c.complete)
    ensures var b := a.(blocks := a.blocks[key := c]);
            Sound(if c.complete && key !in a.completed then b.(completed := a.completed + [key]) else b)
  {
    hide Full;
    assert key in a.completed <==> a.blocks[key].complete;
  }

  lemma InitOk(a: Assembler, s: Stream, count: nat, owner: nat, source: Option<nat>)
    requires Sound(a)
    ensures Sound(FeedInit(a, s, count, owner, source).a)
  {
    hide Sound, NewBlock;
    NewBlockOk(a, s, count, owner, source);
    RaiseOk(a, source, BlockReplacedIncomplete);
    NewBlockOk(Raise(a, source, BlockReplacedIncomplete), s, count, owner, source);
    var b := Lookup(a, ActiveKey(a, s));
    if b.Some? && !b.value.complete {
      StaysIncomplete(a, ActiveKey(a, s).value, source);
      ReplaceOk(a, ActiveKey(a, s).value, Sourced(b.value, source));
    }
  }

  lemma StaysIncomplete(a: Assembler, key: Key, source: Option<nat>)
    requires Sound(a) && key in a.blocks && !a.blocks[key].complete
    ensures !Full(Sourced(a.blocks[key], source)) && !Sourced(a.blocks[key], source).complete
  {
  }

  lemma RaiseOk(a: Assembler, source: Option<nat>, code: IssueCode)
    requires Sound(a)
    ensures Sound(Raise(a, source, code))
  {
    hide Full;
  }

  lemma PartOk(a: Assembler, s: Stream, index: nat, part: seq<Byte>, source: Option<nat>)
    requires Sound(a)
    ensures Sound(FeedPart(a, s, index, part, source).a)
  {
    hide Sound;
    RaiseOk(a, source, FragmentWithoutInit);
    RaiseOk(a, source, InvalidFragmentIndex);
    var b := Lookup(a, ActiveKey(a, s));
    if b.Some? && index < b.value.expected {
      var key := ActiveKey(a, s).value;
      StaysFull(a, key, index, part, source);
      ReplaceOk(a, key, AddFragment(b.value, index, part, source));
    }
  }

  lemma StaysFull(a: Assembler, key: Key, index: nat, part: seq<Byte>, source: Option<nat>)
    requires Sound(a) && key in a.blocks
    ensures var c := AddFragment(a.blocks[key], index, part, source);
            (c.complete <==> Full(c)) && (a.blocks[key].complete ==> c.complete)
  {
  }

  lemma {:induction false} RunOk(a: Assembler, inputs: seq<Input>)
    requires Sound(a)
    ensures Sound(FeedAll(a, inputs))
    decreases |inputs|
  {
    hide Sound, Feed;
    if inputs != [] {
      var i := inputs[0];
      FeedOk(a, i.command, i.direction, i.source);
      RunOk(Feed(a, i.command, i.direction, i.source).a, inputs[1..]);
    }
  }

  // A complete block keeps its payload, and its place among the completed ones.
  predicate Keeps(a: Assembler, b: Assembler) {
    && a.completed <= b.completed
    && (forall k :: k in a.blocks && a.blocks[k].complete ==>
          k in b.blocks && Payload(b.blocks[k]) == Payload(a.blocks[k]) && b.blocks[k].complete)
  }

  lemma FeedKeeps(a: Assembler, c: Command, direction: string, source: Option<nat>)
    requires Sound(a)
    ensures Keeps(a, Feed(a, c, direction, source).a)
  {
    var b := Feed(a, c, direction, source).a;
    var s := Stream(direction, c.mpid);
    forall k | k in a.blocks && a.blocks[k].complete
      ensures k in b.blocks && Payload(b.blocks[k]) == Payload(a.blocks[k]) && b.blocks[k].complete
    {
      BlockKeeps(a, c, direction, source, k);
    }
  }

  lemma BlockKeeps(a: Assembler, c: Command, direction: string, source: Option<nat>, k: Key)
    requires Sound(a) && k in a.blocks && a.blocks[k].complete
    ensures var b := Feed(a, c, direction, source).a;
            k in b.blocks && b.blocks[k].complete && b.blocks[k].expected == a.blocks[k].expected
            && b.blocks[k].fragments == a.blocks[k].fragments
  {
    hide Full, AddFragment;
    assert k.ordinal < Ordinal(a, k.stream);
    assert k == Key(k.stream, k.ordinal);
    match c.detail
    case BlockPart(index, part) =>
      if ActiveKey(a, Stream(direction, c.mpid)) == Some(k) {
        AddToFull(a.blocks[k], index, part, source);
      }
    case BlockInit(count, owner) => hide Sound;
    case _ =>
  }

  lemma AddToFull(b: Block, index: nat, part: seq<Byte>, source: Option<nat>)
    requires Full(b)
    ensures index < b.expected ==>
      AddFragment(b, index, part, source).complete && AddFragment(b, index, part, source).fragments == b.fragments
    ensures AddFragment(b, index, part, source).expected == b.expected
  {
  }

  // Over any run: a block completes at most once, and its payload never changes afterwards.
  lemma {:induction false} CompletedForGood(a: Assembler, inputs: seq<Input>)
    requires Sound(a)
    ensures Keeps(a, FeedAll(a, inputs))
    decreases |inputs|
  {
    hide Sound, Feed, Payload;
    if inputs != [] {
      var i := inputs[0];
      var b := Feed(a, i.command, i.direction, i.source).a;
      FeedOk(a, i.command, i.direction, i.source);
      FeedKeeps(a, i.command, i.direction, i.source);
      CompletedForGood(b, inputs[1..]);
    }
  }

  // ---- streams do not interfere -------------------------------------------------------------

  // The inputs of one stream, in order.
  function OnStream(inputs: seq<Input>, s: Stream): (own: seq<Input>)
    ensures forall i :: i in own ==> i.On() == s
  {
    if inputs == [] then []
    else (if inputs[0].On() == s then [inputs[0]] else []) + OnStream(inputs[1..], s)
  }

  // Two assemblers with the same block under a key, and the same blocks on one stream.
  predicate SameAt(a: Assembler, b: Assembler, key: Key) {
    Lookup(a, Some(key)) == Lookup(b, Some(key)) && (key in a.completed <==> key in b.completed)
  }

  predicate SameProgress(a: Assembler, b: Assembler, s: Stream) {
    Ordinal(a, s) == Ordinal(b, s) && ActiveKey(a, s) == ActiveKey(b, s)
  }

  ghost predicate SameOn(a: Assembler, b: Assembler, s: Stream) {
    SameProgress(a, b, s) && forall n: nat :: SameAt(a, b, Key(s, n))
  }

  lemma ElsewhereSame(a: Assembler, b: Assembler, i: Input, s: Stream)
    requires SameOn(a, b, s) && i.On() != s
    ensures SameOn(Feed(a, i.command, i.direction, i.source).a, b, s)
  {
    var c := Feed(a, i.command, i.direction, i.source).a;
    assert SameProgress(c, a, s) by {
      hide AddFragment, Sourced;
    }
    forall n: nat
      ensures SameAt(c, b, Key(s, n))
    {
      ElsewhereAt(a, i, Key(s, n));
      assert SameAt(a, b, Key(s, n));
    }
  }

  lemma ElsewhereAt(a: Assembler, i: Input, key: Key)
    requires i.On() != key.stream
    ensures SameAt(a, Feed(a, i.command, i.direction, i.source).a, key)
  {
    hide AddFragment, Sourced;
  }

  lemma NewBlockAt(a: Assembler, b: Assembler, s: Stream, count: nat, owner: nat, source: Option<nat>, n: nat)
    requires SameProgress(a, b, s) && SameAt(a, b, Key(s, n))
    ensures var c, d := NewBlock(a, s, count, owner, source).a, NewBlock(b, s, count, owner, source).a;
            SameProgress(c, d, s) && SameAt(c, d, Key(s, n))
  {
    hide Sourced;
  }

  // What one more command makes of the block under a key of its stream.
  lemma InitAt(a: Assembler, b: Assembler, s: Stream, count: nat, owner: nat, source: Option<nat>, n: nat)
    requires SameProgress(a, b, s) && SameAt(a, b, Key(s, n))
    requires ActiveKey(a, s).Some? ==> SameAt(a, b, ActiveKey(a, s).value)
    ensures var c, d := FeedInit(a, s, count, owner, source).a, FeedInit(b, s, count, owner, source).a;
            SameProgress(c, d, s) && SameAt(c, d, Key(s, n))
  {
    hide Sourced, NewBlock;
    var x, y := Raise(a, source, BlockReplacedIncomplete), Raise(b, source, BlockReplacedIncomplete);
    assert SameProgress(x, y, s) && SameAt(x, y, Key(s, n));
    NewBlockAt(a, b, s, count, owner, source, n);
    NewBlockAt(x, y, s, count, owner, source, n);
  }

  lemma PartAt(a: Assembler, b: Assembler, s: Stream, index: nat, part: seq<Byte>, source: Option<nat>, n: nat)
    requires SameProgress(a, b, s) && SameAt(a, b, Key(s, n))
    requires ActiveKey(a, s).Some? ==> SameAt(a, b, ActiveKey(a, s).value)
    ensures SameProgress(FeedPart(a, s, index, part, source).a, FeedPart(b, s, index, part, source).a, s)
    ensures SameAt(FeedPart(a, s, index, part, source).a, FeedPart(b, s, index, part, source).a, Key(s, n))
  {
    hide AddFragment;
  }

  lemma HereAt(a: Assembler, b: Assembler, i: Input, s: Stream, n: nat)
    requires SameProgress(a, b, s) && SameAt(a, b, Key(s, n)) && i.On() == s
    requires ActiveKey(a, s).Some? ==> SameAt(a, b, ActiveKey(a, s).value)
    ensures var c, d := Feed(a, i.command, i.direction, i.source).a, Feed(b, i.command, i.direction, i.source).a;
            SameProgress(c, d, s) && SameAt(c, d, Key(s, n))
  {
    hide FeedInit, FeedPart;
    match i.command.detail
    case BlockInit(count, owner) => InitAt(a, b, s, count, owner, i.source, n);
    case BlockPart(index, part) => PartAt(a, b, s, index, part, i.source, n);
    case _ =>
  }

  lemma HereSame(a: Assembler, b: Assembler, i: Input, s: Stream)
    requires SameOn(a, b, s) && i.On() == s
    ensures SameOn(Feed(a, i.command, i.direction, i.source).a, Feed(b, i.command, i.direction, i.source).a, s)
  {
    hide Feed, SameProgress, SameAt;
    assert ActiveKey(a, s).Some? ==> SameAt(a, b, Key(s, a.active[s]));
    var c, d := Feed(a, i.command, i.direction, i.source).a, Feed(b, i.command, i.direction, i.source).a;
    HereAt(a, b, i, s, 0);
    forall n: nat
      ensures SameAt(c, d, Key(s, n))
    {
      HereAt(a, b, i, s, n);
    }
  }

  // What becomes of the blocks of one stream depends on the commands of that stream alone.
  lemma {:induction false} StreamsAreSeparate(a: Assembler, b: Assembler, inputs: seq<Input>, s: Stream)
    requires SameOn(a, b, s)
    ensures SameOn(FeedAll(a, inputs), FeedAll(b, OnStream(inputs, s)), s)
    decreases |inputs|
  {
    hide SameOn, Feed;
    if inputs != [] {
      var i, rest := inputs[0], OnStream(inputs[1..], s);
      var c := Feed(a, i.command, i.direction, i.source).a;
      if i.On() == s {
        HereSame(a, b, i, s);
        assert ([i] + rest)[1..] == rest;
        StreamsAreSeparate(c, Feed(b, i.command, i.direction, i.source).a, inputs[1..], s);
      } else {
        ElsewhereSame(a, b, i, s);
        assert [] + rest == rest;
        StreamsAreSeparate(c, b, inputs[1..], s);
      }
    }
  }

  // ---- the round trip of one block ----------------------------------------------------------

  function Chunk(payload: seq<Byte>, i: nat): (c: seq<Byte>)
    requires 12 * i + 12 <= |payload|
    ensures |c| == 12
  {
    payload[12 * i..12 * i + 12]
  }

  // What the stream of a block carries after its first INIT: repeated INITs, fragments of the
  // payload in any order and as often as one likes, and requests.
  predicate Belongs(c: Command, k: nat, owner: nat, payload: seq<Byte>)
    requires |payload| == 12 * k
  {
    match c.detail
    case BlockInit(count, o) => count == k && o == owner
    case BlockPart(index, part) => index < k && part == Chunk(payload, index)
    case BlockRequest(_) => true
    case Other => true
  }

  predicate BlockRun(inputs: seq<Input>, s: Stream, k: nat, owner: nat, payload: seq<Byte>)
    requires |payload| == 12 * k
  {
    forall i :: 0 <= i < |inputs| && inputs[i].On() == s ==> Belongs(inputs[i].command, k, owner, payload)
  }

  predicate IsPart(i: Input, s: Stream, index: nat) {
    i.On() == s && i.command.detail.BlockPart? && i.command.detail.index == index
  }

  // The indices of the fragments of a stream.
  function Indices(inputs: seq<Input>, s: Stream): (indices: set<nat>)
    ensures forall x :: x in indices <==> exists i :: 0 <= i < |inputs| && IsPart(inputs[i], s, x)
  {
    if inputs == [] then {}
    else
      var rest := Indices(inputs[1..], s);
      var head := if inputs[0].On() == s && inputs[0].command.detail.BlockPart?
                  then {inputs[0].command.detail.index} else {};
      IndicesStep(inputs, s, rest, head);
      head + rest
  }

  lemma IndicesStep(inputs: seq<Input>, s: Stream, rest: set<nat>, head: set<nat>)
    requires inputs != []
    requires forall x :: x in rest <==> exists i :: 0 <= i < |inputs[1..]| && IsPart(inputs[1..][i], s, x)
    requires head == if inputs[0].On() == s && inputs[0].command.detail.BlockPart?
                     then {inputs[0].command.detail.index} else {}
    ensures forall x :: x in head + rest <==> exists i :: 0 <= i < |inputs| && IsPart(inputs[i], s, x)
  {
    forall x ensures x in head + rest <==> exists i :: 0 <= i < |inputs| && IsPart(inputs[i], s, x) {
      if x in rest {
        var i :| 0 <= i < |inputs[1..]| && IsPart(inputs[1..][i], s, x);
        assert IsPart(inputs[i + 1], s, x);
      }
      if x in head {
        assert IsPart(inputs[0], s, x);
      }
      if exists i :: 0 <= i < |inputs| && IsPart(inputs[i], s, x) {
        var i :| 0 <= i < |inputs| && IsPart(inputs[i], s, x);
        if i > 0 {
          assert IsPart(inputs[1..][i - 1], s, x);
        }
      }
    }
  }

  // No INIT of the stream comes after all its fragments have: that would start another block.
  predicate InitsInTime(inputs: seq<Input>, s: Stream, k: nat, have: set<nat>)
    decreases |inputs|
  {
    inputs == [] ||
    (var i := inputs[0];
     && (i.On() == s && i.command.detail.BlockInit? ==> exists x :: 0 <= x < k && x !in have)
     && InitsInTime(inputs[1..], s, k, have + Indices([i], s)))
  }

  // A block of the stream in progress, with these fragments of the payload.
  ghost predicate Filling(a: Assembler, s: Stream, ordinal: nat, k: nat, owner: nat, payload: seq<Byte>, have: set<nat>)
    requires |payload| == 12 * k
  {
    && Sound(a) && s in a.active && a.active[s] == ordinal
    && (var b := a.blocks[Key(s, ordinal)];
        && b.expected == k && b.owner == owner && b.fragments.Keys == have
        && (forall x :: x in have ==> x < k && b.fragments[x] == Chunk(payload, x)))
  }

  lemma FillingStep(a: Assembler, i: Input, s: Stream, ordinal: nat, k: nat, owner: nat, payload: seq<Byte>,
                    have: set<nat>)
    requires k > 0 && |payload| == 12 * k && Filling(a, s, ordinal, k, owner, payload, have)
    requires i.On() == s ==> Belongs(i.command, k, owner, payload)
    requires i.On() == s && i.command.detail.BlockInit? ==> exists x :: 0 <= x < k && x !in have
    ensures Filling(Feed(a, i.command, i.direction, i.source).a, s, ordinal, k, owner, payload, have + Indices([i], s))
  {
    hide Feed, Full, AddFragment;
    FeedOk(a, i.command, i.direction, i.source);
    OneIndex(i, s);
    assert have + {} == have;
    if i.On() != s {
      OtherStream(a, i, s, ordinal);
    } else {
      if i.command.detail.BlockInit? {
        AgainIncomplete(a, s, ordinal, k, have);
      }
      OwnStream(a, i, s, ordinal, k, owner);
      var b := a.blocks[Key(s, ordinal)];
      if i.command.detail.BlockPart? {
        PartAdded(b, i.command.detail.index, i.command.detail.part, i.source);
      }
    }
  }

  lemma PartAdded(b: Block, index: nat, part: seq<Byte>, source: Option<nat>)
    ensures var c := AddFragment(b, index, part, source);
            && c.expected == b.expected && c.owner == b.owner && c.fragments.Keys == b.fragments.Keys + {index}
            && (forall x :: x in b.fragments ==> c.fragments[x] == b.fragments[x])
            && (index !in b.fragments ==> c.fragments[index] == part)
  {
  }

  // What a command of its own stream makes of the block in progress.
  lemma OwnStream(a: Assembler, i: Input, s: Stream, ordinal: nat, k: nat, owner: nat)
    requires s in a.active && a.active[s] == ordinal && Key(s, ordinal) in a.blocks && i.On() == s
    requires a.blocks[Key(s, ordinal)].expected == k && a.blocks[Key(s, ordinal)].owner == owner
    requires i.command.detail.BlockInit? ==>
      i.command.detail.count == k && i.command.detail.owner == owner && !a.blocks[Key(s, ordinal)].complete
    requires i.command.detail.BlockPart? ==> i.command.detail.index < k
    ensures var f := Feed(a, i.command, i.direction, i.source).a;
            var b := a.blocks[Key(s, ordinal)];
            && s in f.active && f.active[s] == ordinal && Key(s, ordinal) in f.blocks
            && (var c := f.blocks[Key(s, ordinal)];
                if i.command.detail.BlockPart? then
                  c == AddFragment(b, i.command.detail.index, i.command.detail.part, i.source)
                else c.expected == k && c.owner == owner && c.fragments == b.fragments)
  {
    hide AddFragment, Full;
  }

  lemma AgainIncomplete(a: Assembler, s: Stream, ordinal: nat, k: nat, have: set<nat>)
    requires Sound(a) && s in a.active && a.active[s] == ordinal
    requires a.blocks[Key(s, ordinal)].expected == k && a.blocks[Key(s, ordinal)].fragments.Keys == have
    requires exists x :: 0 <= x < k && x !in have
    ensures !a.blocks[Key(s, ordinal)].complete
  {
    var x :| 0 <= x < k && x !in have;
    assert x !in a.blocks[Key(s, ordinal)].fragments;
  }

  lemma OneIndex(i: Input, s: Stream)
    ensures Indices([i], s) == if i.On() == s && i.command.detail.BlockPart? then {i.command.detail.index} else {}
  {
    assert [i][1..] == [];
  }

  lemma OtherStream(a: Assembler, i: Input, s: Stream, ordinal: nat)
    requires Sound(a) && s in a.active && a.active[s] == ordinal && i.On() != s
    ensures var b := Feed(a, i.command, i.direction, i.source).a;
            s in b.active && b.active[s] == ordinal
            && Key(s, ordinal) in b.blocks && b.blocks[Key(s, ordinal)] == a.blocks[Key(s, ordinal)]
  {
    hide Full;
  }

  lemma {:induction false} FillingRun(a: Assembler, inputs: seq<Input>, s: Stream, ordinal: nat, k: nat, owner: nat,
                                      payload: seq<Byte>, have: set<nat>)
    requires k > 0 && |payload| == 12 * k && Filling(a, s, ordinal, k, owner, payload, have)
    requires BlockRun(inputs, s, k, owner, payload) && InitsInTime(inputs, s, k, have)
    ensures Filling(FeedAll(a, inputs), s, ordinal, k, owner, payload, have + Indices(inputs, s))
    decreases |inputs|
  {
    hide Filling, Feed, Belongs;
    if inputs == [] {
      assert have + {} == have;
    } else {
      var i := inputs[0];
      var next := have + Indices([i], s);
      FillingStep(a, i, s, ordinal, k, owner, payload, have);
      assert BlockRun(inputs[1..], s, k, owner, payload) by {
        forall j | 0 <= j < |inputs[1..]| && inputs[1..][j].On() == s
          ensures Belongs(inputs[1..][j].command, k, owner, payload)
        {
          assert inputs[1..][j] == inputs[j + 1];
        }
      }
      FillingRun(Feed(a, i.command, i.direction, i.source).a, inputs[1..], s, ordinal, k, owner, payload, next);
      OneIndex(i, s);
      assert next + Indices(inputs[1..], s) == have + Indices(inputs, s);
    }
  }

  lemma {:induction false} JoinedChunks(fragments: map<nat, seq<Byte>>, payload: seq<Byte>, n: nat)
    requires 12 * n <= |payload|
    requires forall x :: 0 <= x < n ==> x in fragments && fragments[x] == Chunk(payload, x)
    ensures JoinFragments(fragments, n) == payload[..12 * n]
  {
    if n > 0 {
      JoinedChunks(fragments, payload, n - 1);
      assert payload[..12 * n] == payload[..12 * (n - 1)] + Chunk(payload, n - 1);
    }
  }

  // An INIT that starts a block: nothing is in progress on its stream that it could repeat.
  predicate Starts(a: Assembler, s: Stream, k: nat, owner: nat) {
    match Lookup(a, ActiveKey(a, s))
    case None => true
    case Some(b) => b.complete || b.expected != k || b.owner != owner
  }

  lemma InitStarts(a: Assembler, s: Stream, k: nat, owner: nat, source: Option<nat>, payload: seq<Byte>)
    requires Sound(a) && Starts(a, s, k, owner) && |payload| == 12 * k
    ensures Filling(FeedInit(a, s, k, owner, source).a, s, Ordinal(a, s), k, owner, payload, {})
    ensures Key(s, Ordinal(a, s)) !in a.blocks
  {
    InitOk(a, s, k, owner, source);
  }

  // A payload of 12 * k bytes, announced once or more often and sent in fragments in any order and
  // with repetitions, among whatever other streams carry, is there in the end, complete and whole.
  lemma BlockRoundTrip(a: Assembler, first: Input, rest: seq<Input>, s: Stream, k: nat, owner: nat, payload: seq<Byte>)
    requires Sound(a) && Starts(a, s, k, owner) && 1 <= k <= 32 && |payload| == 12 * k
    requires first.On() == s && first.command.detail == BlockInit(k, owner)
    requires BlockRun(rest, s, k, owner, payload) && InitsInTime(rest, s, k, {})
    requires forall x :: 0 <= x < k ==> x in Indices(rest, s)
    ensures var end := FeedAll(a, [first] + rest);
            var key := Key(s, Ordinal(a, s));
            && key !in a.completed && key in end.completed
            && key in end.blocks && Payload(end.blocks[key]) == Some(payload)
  {
    hide Belongs, InitsInTime, BlockRun, Starts, FeedInit, Indices, Filling;
    var ordinal := Ordinal(a, s);
    InitStarts(a, s, k, owner, first.source, payload);
    var started := FeedInit(a, s, k, owner, first.source).a;
    assert Feed(a, first.command, first.direction, first.source).a == started;
    FillingRun(started, rest, s, ordinal, k, owner, payload, {});
    assert ([first] + rest)[1..] == rest;
    assert {} + Indices(rest, s) == Indices(rest, s);
    FilledBlock(FeedAll(started, rest), s, ordinal, k, owner, payload, Indices(rest, s));
  }

  lemma FilledBlock(a: Assembler, s: Stream, ordinal: nat, k: nat, owner: nat, payload: seq<Byte>, have: set<nat>)
    requires k > 0 && |payload| == 12 * k && Filling(a, s, ordinal, k, owner, payload, have)
    requires forall x :: 0 <= x < k ==> x in have
    ensures var key := Key(s, ordinal);
            key in a.completed && key in a.blocks && Payload(a.blocks[key]) == Some(payload)
  {
    var b := a.blocks[Key(s, ordinal)];
    assert forall x :: 0 <= x < k ==> x in b.fragments;
    JoinedChunks(b.fragments, payload, k);
    assert payload[..12 * k] == payload;
  }

  // The same when the stream is picked out of any others.
  lemma BlockAmongOthers(a: Assembler, inputs: seq<Input>, s: Stream, k: nat, owner: nat, payload: seq<Byte>)
    requires Sound(a) && Starts(a, s, k, owner) && 1 <= k <= 32 && |payload| == 12 * k
    requires var own := OnStream(inputs, s);
             && own != [] && own[0].command.detail == BlockInit(k, owner)
             && BlockRun(own[1..], s, k, owner, payload) && InitsInTime(own[1..], s, k, {})
             && forall x :: 0 <= x < k ==> x in Indices(own[1..], s)
    ensures var end := FeedAll(a, inputs);
            var key := Key(s, Ordinal(a, s));
            && key !in a.completed && key in end.completed
            && key in end.blocks && Payload(end.blocks[key]) == Some(payload)
  {
    hide Sound, Starts, BlockRun, InitsInTime, Indices, FeedAll, Payload;
    var own, key := OnStream(inputs, s), Key(s, Ordinal(a, s));
    assert own == [own[0]] + own[1..] && own[0] in own;
    BlockRoundTrip(a, own[0], own[1..], s, k, owner, payload);
    StreamsAreSeparate(a, a, inputs, s);
    assert Lookup(FeedAll(a, inputs), Some(key)) == Lookup(FeedAll(a, own), Some(key));
  }
}
