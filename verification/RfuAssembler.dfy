/**
 The assembler and its blocks as the objects of tools/payload_decoder.py: a completed block is the
 very object that was in progress.
 */
module RfuAssemblers {
  import opened Common
  import opened Bytes
  import opened RfuFrames
  import B = RfuBlocks

  class RfuBlock {
    const stream: B.Stream
    const ordinal: nat
    const expected: nat
    const owner: nat
    var fragments: map<nat, seq<Byte>>
    var sources: seq<nat>
    var request: Option<nat>
    var complete: bool

    function Key(): B.Key {
      B.Key(stream, ordinal)
    }

    ghost function View(): B.Block
      reads this
    {
      B.Block(expected, owner, fragments, sources, request, complete)
    }

    constructor (s: B.Stream, n: nat, count: nat, o: nat)
      ensures Key() == B.Key(s, n) && View() == B.Block(count, o, map[], [], None, false)
    {
      stream, ordinal, expected, owner := s, n, count, o;
      fragments, sources, request, complete := map[], [], None, false;
    }

    method Source(source: Option<nat>)
      modifies this`sources
      ensures View() == B.Sourced(old(View()), source)
    {
      if source.Some? {
        sources := sources + [source.value];
      }
    }

    method AddFragment(index: nat, part: seq<Byte>, source: Option<nat>)
      modifies this
      ensures View() == B.AddFragment(old(View()), index, part, source)
    {
      if index !in fragments {
        fragments := fragments[index := part];
      }
      Source(source);
      complete := expected > 0;
      var i := 0;
      while i < expected && complete
        invariant 0 <= i <= expected && fragments == old(B.AddFragment(View(), index, part, source)).fragments
        invariant View() == old(B.AddFragment(View(), index, part, source)).(complete := complete)
        invariant complete <==> expected > 0 && forall k :: 0 <= k < i ==> k in fragments
      {
        complete := i in fragments;
        i := i + 1;
      }
    }

    // The payload of a complete block.
    method ReadPayload() returns (p: Option<seq<Byte>>)
      requires complete ==> B.Full(View())
      ensures p == B.Payload(View())
    {
      if !complete {
        return None;
      }
      var joined := [];
      for i := 0 to expected
        invariant joined == B.JoinFragments(fragments, i)
      {
        joined := joined + fragments[i];
      }
      return Some(joined);
    }
  }

  function Keys(blocks: seq<RfuBlock>): (keys: seq<B.Key>)
    ensures |keys| == |blocks| && forall i :: 0 <= i < |blocks| ==> keys[i] == blocks[i].Key()
  {
    if blocks == [] then [] else [blocks[0].Key()] + Keys(blocks[1..])
  }

  function Ordinals(active: map<B.Stream, RfuBlock>): map<B.Stream, nat> {
    map s | s in active :: active[s].ordinal
  }

  ghost function Views(all: map<B.Key, RfuBlock>): map<B.Key, B.Block>
    reads all.Values
  {
    map k | k in all :: all[k].View()
  }

  // Every block is under its own key, below the next ordinal of its stream.
  predicate AllOk(all: map<B.Key, RfuBlock>, ordinals: map<B.Stream, nat>) {
    forall k :: k in all ==> all[k].Key() == k && k.ordinal < if k.stream in ordinals then ordinals[k.stream] else 0
  }

  predicate Has(all: map<B.Key, RfuBlock>, b: RfuBlock) {
    b.Key() in all && all[b.Key()] == b
  }

  predicate ActiveOk(active: map<B.Stream, RfuBlock>, all: map<B.Key, RfuBlock>) {
    forall s :: s in active ==> active[s].stream == s && Has(all, active[s])
  }

  predicate DoneOk(completed: seq<RfuBlock>, all: map<B.Key, RfuBlock>) {
    forall b :: b in completed ==> Has(all, b)
  }

  lemma EnterOk(all: map<B.Key, RfuBlock>, ordinals: map<B.Stream, nat>, active: map<B.Stream, RfuBlock>,
                completed: seq<RfuBlock>, b: RfuBlock)
    requires AllOk(all, ordinals) && ActiveOk(active, all) && DoneOk(completed, all)
    requires b.ordinal == if b.stream in ordinals then ordinals[b.stream] else 0
    ensures b.Key() !in all
    ensures AllOk(all[b.Key() := b], ordinals[b.stream := b.ordinal + 1])
    ensures ActiveOk(active[b.stream := b], all[b.Key() := b]) && DoneOk(completed, all[b.Key() := b])
    ensures Ordinals(active[b.stream := b]) == Ordinals(active)[b.stream := b.ordinal]
  {
  }

  lemma EnteredViews(all: map<B.Key, RfuBlock>, b: RfuBlock)
    ensures Views(all[b.Key() := b]) == Views(all)[b.Key() := b.View()]
    ensures all[b.Key() := b].Values <= all.Values + {b}
  {
  }

  class RfuBlockAssembler {
    var active: map<B.Stream, RfuBlock>
    var ordinals: map<B.Stream, nat>
    var completed: seq<RfuBlock>
    var issues: seq<Issue>
    // Every block there has been, under its key.
    ghost var all: map<B.Key, RfuBlock>

    ghost predicate Valid()
      reads this
    {
      AllOk(all, ordinals) && ActiveOk(active, all) && DoneOk(completed, all)
    }

    ghost function View(): B.Assembler
      reads this, all.Values
    {
      B.Assembler(Views(all), Ordinals(active), ordinals, Keys(completed), issues)
    }

    constructor ()
      ensures Valid() && View() == B.NOTHING && all == map[]
    {
      active, ordinals, completed, issues, all := map[], map[], [], [], map[];
    }

    method Raise(source: Option<nat>, code: IssueCode)
      modifies this`issues
      ensures issues == old(issues) + [Issue(if source.Some? then source.value else 0, code)]
    {
      issues := issues + [Issue(if source.Some? then source.value else 0, code)];
    }

    method Announce(s: B.Stream, ordinal: nat, count: nat, owner: nat, source: Option<nat>) returns (block: RfuBlock)
      ensures fresh(block) && block.Key() == B.Key(s, ordinal)
      ensures block.View() == B.Sourced(B.Block(count, owner, map[], [], None, false), source)
    {
      block := new RfuBlock(s, ordinal, count, owner);
      block.Source(source);
    }

    // A new block takes the place of the one in progress on its stream.
    method Begin(s: B.Stream, count: nat, owner: nat, source: Option<nat>) returns (block: RfuBlock)
      requires Valid()
      modifies this
      ensures Valid() && fresh(all.Values - old(all.Values))
      ensures B.Fed(View(), Some(block.Key())) == B.NewBlock(old(View()), s, count, owner, source)
    {
      hide AllOk, ActiveOk, DoneOk, Views, Ordinals, Keys;
      var ordinal := if s in ordinals then ordinals[s] else 0;
      block := Announce(s, ordinal, count, owner, source);
      EnterOk(all, ordinals, active, completed, block);
      EnteredViews(all, block);
      assert Views(all) == old(Views(all));
      ordinals := ordinals[s := ordinal + 1];
      active := active[s := block];
      all := all[block.Key() := block];
    }

    // What happens to a block in progress happens to nothing else.
    method SourceOf(block: RfuBlock, source: Option<nat>)
      requires Valid() && Has(all, block)
      modifies block
      ensures View() == old(View()).(blocks := old(Views(all))[block.Key() := B.Sourced(old(block.View()), source)])
    {
      hide ActiveOk, DoneOk, Ordinals, Keys;
      block.Source(source);
      assert Views(all) == old(Views(all))[block.Key() := block.View()];
    }

    method Fill(block: RfuBlock, index: nat, part: seq<Byte>, source: Option<nat>)
      requires Valid() && Has(all, block)
      modifies block
      ensures block.View() == B.AddFragment(old(block.View()), index, part, source)
      ensures View() == old(View()).(blocks := old(Views(all))[block.Key() := block.View()])
    {
      hide ActiveOk, DoneOk, Ordinals, Keys, B.AddFragment;
      block.AddFragment(index, part, source);
      assert Views(all) == old(Views(all))[block.Key() := block.View()];
    }

    method SetRequest(block: RfuBlock, request: nat)
      requires Valid() && Has(all, block)
      modifies block
      ensures View()
              == old(View()).(blocks := old(Views(all))[block.Key() := old(block.View()).(request := Some(request))])
    {
      hide ActiveOk, DoneOk, Ordinals, Keys;
      block.request := Some(request);
      assert Views(all) == old(Views(all))[block.Key() := block.View()];
    }

    method Init(s: B.Stream, count: nat, owner: nat, source: Option<nat>) returns (block: RfuBlock)
      requires Valid()
      modifies this, all.Values
      ensures Valid() && fresh(all.Values - old(all.Values))
      ensures B.Fed(View(), Some(block.Key())) == B.FeedInit(old(View()), s, count, owner, source)
    {
      hide AllOk, DoneOk, Keys, B.NewBlock, B.Sourced;
      if s in active {
        block := active[s];
        assert all[block.Key()] in all.Values;
        if !block.complete && block.expected == count && block.owner == owner {
          SourceOf(block, source);
          return;
        }
        if !block.complete {
          Raise(source, BlockReplacedIncomplete);
          assert View() == B.Raise(old(View()), source, BlockReplacedIncomplete);
        }
      }
      block := Begin(s, count, owner, source);
    }

    method Part(s: B.Stream, index: nat, part: seq<Byte>, source: Option<nat>) returns (block: RfuBlock?)
      requires Valid()
      modifies this, all.Values
      ensures Valid() && all == old(all)
      ensures B.Fed(View(), if block == null then None else Some(block.Key()))
              == B.FeedPart(old(View()), s, index, part, source)
    {
      hide AllOk, Keys, B.AddFragment;
      if s !in active {
        Raise(source, FragmentWithoutInit);
        return null;
      }
      block := active[s];
      assert all[block.Key()] in all.Values;
      if index >= block.expected {
        Raise(source, InvalidFragmentIndex);
        return;
      }
      Fill(block, index, part, source);
      Listed(completed, all, block);
      if block.complete && block !in completed {
        completed := completed + [block];
        KeysAppend(old(completed), block);
      }
    }

    method Request(s: B.Stream, request: nat) returns (block: RfuBlock?)
      requires Valid()
      modifies this, all.Values
      ensures Valid() && all == old(all)
      ensures B.Fed(View(), if block == null then None else Some(block.Key())) == B.FeedRequest(old(View()), s, request)
    {
      hide AllOk, DoneOk, Keys;
      if s !in active {
        return null;
      }
      block := active[s];
      assert all[block.Key()] in all.Values;
      SetRequest(block, request);
    }

    method Feed(c: Command, direction: string, source: Option<nat>) returns (block: RfuBlock?)
      requires Valid()
      modifies this, all.Values
      ensures Valid() && fresh(all.Values - old(all.Values))
      ensures B.Fed(View(), if block == null then None else Some(block.Key()))
              == B.Feed(old(View()), c, direction, source)
    {
      hide AllOk, ActiveOk, DoneOk, Views, Ordinals, Keys, B.FeedInit, B.FeedPart, B.FeedRequest;
      var s := B.Stream(direction, c.mpid);
      match c.detail
      case BlockInit(count, owner) => block := Init(s, count, owner, source);
      case BlockPart(index, part) => block := Part(s, index, part, source);
      case BlockRequest(request) => block := Request(s, request);
      case Other => block := null;
    }
  }

  lemma {:induction false} KeysAppend(blocks: seq<RfuBlock>, b: RfuBlock)
    ensures Keys(blocks + [b]) == Keys(blocks) + [b.Key()]
  {
    assert forall i :: 0 <= i < |blocks| ==> Keys(blocks + [b])[i] == Keys(blocks)[i];
  }

  // An object is among the blocks exactly when its key is among their keys.
  lemma Listed(blocks: seq<RfuBlock>, all: map<B.Key, RfuBlock>, b: RfuBlock)
    requires DoneOk(blocks, all) && Has(all, b)
    ensures b in blocks <==> b.Key() in Keys(blocks)
  {
    if b.Key() in Keys(blocks) {
      var i :| 0 <= i < |blocks| && Keys(blocks)[i] == b.Key();
      assert blocks[i] in blocks && blocks[i] == b;
    }
    if b in blocks {
      var i :| 0 <= i < |blocks| && blocks[i] == b;
      assert Keys(blocks)[i] == b.Key();
    }
  }
}
