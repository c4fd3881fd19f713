/**
 What one command makes of the assembler: the block in progress on its stream, what is reported, and
 that everything else stays.
 */
module RfuBlockLaws {
  import opened Common
  import opened Bytes
  import opened RfuFrames
  import opened RfuBlocks

  // Only the block under this key differs, and what is reported.
  predicate OnlyBlock(a: Assembler, b: Assembler, key: Key) {
    && b == a.(blocks := b.blocks, completed := b.completed, issues := b.issues)
    && key in b.blocks && b.blocks.Keys == a.blocks.Keys + {key}
    && forall k :: k in a.blocks && k != key ==> b.blocks[k] == a.blocks[k]
  }

  predicate Reports(a: Assembler, b: Assembler, source: Option<nat>, code: Option<IssueCode>) {
    b.issues == a.issues + (if code.Some? then [Issue(if source.Some? then source.value else 0, code.value)] else [])
  }

  function Noted(sources: seq<nat>, source: Option<nat>): seq<nat> {
    if source.Some? then sources + [source.value] else sources
  }

  // An announcement repeats that of the incomplete block in progress, of which only the source is
  // noted, or begins the next block of its stream, empty; an incomplete one that it replaces is
  // reported.
  lemma InitExactly(a: Assembler, c: Command, direction: string, source: Option<nat>)
    requires Sound(a) && c.detail.BlockInit?
    ensures var s := Stream(direction, c.mpid);
            var f, now := Feed(a, c, direction, source), ActiveKey(a, s);
            if now.Some? && !a.blocks[now.value].complete && a.blocks[now.value].expected == c.detail.count
               && a.blocks[now.value].owner == c.detail.owner then
              var b := a.blocks[now.value];
              && f.block == now && OnlyBlock(a, f.a, now.value) && Reports(a, f.a, source, None)
              && f.a.blocks[now.value] == b.(sources := Noted(b.sources, source)) && f.a.completed == a.completed
            else
              var key := Key(s, if s in a.ordinals then a.ordinals[s] else 0);
              && f.block == Some(key) && f.a.completed == a.completed
              && f.a.ordinals == a.ordinals[s := key.ordinal + 1] && f.a.active == a.active[s := key.ordinal]
              && f.a.blocks
                == a.blocks[key := Block(c.detail.count, c.detail.owner, map[], Noted([], source), None, false)]
              && Reports(a, f.a, source,
                         if now.Some? && !a.blocks[now.value].complete then Some(BlockReplacedIncomplete) else None)
  {
    assert a.issues + [] == a.issues;
  }

  // A piece without a block, or with an index beyond it, is reported and changes nothing.
  lemma StrayExactly(a: Assembler, c: Command, direction: string, source: Option<nat>)
    requires Sound(a) && c.detail.BlockPart?
    requires var now := ActiveKey(a, Stream(direction, c.mpid));
             now.Some? ==> c.detail.index >= a.blocks[now.value].expected
    ensures var f, now := Feed(a, c, direction, source), ActiveKey(a, Stream(direction, c.mpid));
            && f.block == now && f.a == a.(issues := f.a.issues)
            && Reports(a, f.a, source, Some(if now.None? then FragmentWithoutInit else InvalidFragmentIndex))
  {
    hide AddFragment, Full;
  }

  // Any other piece goes to the block in progress: the first one with its index stays; the block is
  // complete, and entered once among the completed, when none is missing.
  lemma PartExactly(a: Assembler, c: Command, direction: string, source: Option<nat>, key: Key)
    requires Sound(a) && c.detail.BlockPart? && ActiveKey(a, Stream(direction, c.mpid)) == Some(key)
    requires c.detail.index < a.blocks[key].expected
    ensures var f := Feed(a, c, direction, source);
            && f.block == Some(key) && OnlyBlock(a, f.a, key) && f.a.issues == a.issues
            && Filled(a.blocks[key], f.a.blocks[key], c.detail.index, c.detail.part, source)
            && f.a.completed
              == a.completed + (if f.a.blocks[key].complete && !a.blocks[key].complete then [key] else [])
  {
    hide AddFragment, Full, Filled;
    assert a.completed + [] == a.completed;
    CompletedOnce(a, key);
    FilledExactly(a.blocks[key], c.detail.index, c.detail.part, source);
    StaysFull(a, key, c.detail.index, c.detail.part, source);
  }

  predicate Filled(b: Block, d: Block, index: nat, part: seq<Byte>, source: Option<nat>) {
    && d == b.(fragments := d.fragments, sources := Noted(b.sources, source), complete := d.complete)
    && d.fragments.Keys == b.fragments.Keys + {index}
    && d.fragments[index] == (if index in b.fragments then b.fragments[index] else part)
    && (forall i :: i in b.fragments ==> d.fragments[i] == b.fragments[i])
    && (d.complete <==> b.expected > 0 && forall i :: 0 <= i < b.expected ==> i in d.fragments)
  }

  lemma FilledExactly(b: Block, index: nat, part: seq<Byte>, source: Option<nat>)
    ensures Filled(b, AddFragment(b, index, part, source), index, part, source)
  {
  }

  lemma CompletedOnce(a: Assembler, key: Key)
    requires Sound(a) && key in a.blocks
    ensures key in a.completed <==> a.blocks[key].complete
  {
  }

  // A request is noted on the block in progress; any other command changes nothing.
  lemma RestExactly(a: Assembler, c: Command, direction: string, source: Option<nat>)
    requires Sound(a) && (c.detail.BlockRequest? || c.detail.Other?)
    ensures var s := Stream(direction, c.mpid);
            var f, now := Feed(a, c, direction, source), ActiveKey(a, s);
            if c.detail.Other? || now.None? then f == Fed(a, None)
            else
              && f.block == now
              && f.a == a.(blocks := a.blocks[now.value := a.blocks[now.value].(request := Some(c.detail.request))])
  {
  }
}
