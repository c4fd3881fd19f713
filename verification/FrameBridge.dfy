/**
 The relay bridge of bridge/framerelay/bridge.py: frames captured from the air go out to the relay
 and frames from the relay go on the air, with a guard against echoes, a cache of beacons, a rate
 limit and a bounded outbox.
 */
module FrameBridges {
  import opened Common
  import opened Bytes
  import T = TokenBuckets

  type Frame = seq<Byte>

  const ECHO_WINDOW := 2.0
  const BEACON_TTL := 1.5
  const BEACON_CAPACITY := 4
  const OUTBOX_MAXSIZE := 200

  // ---- the frames of the relay --------------------------------------------------------------

  const MAGIC: seq<Byte> := [0x4D, 0x57, 0x4C, 0x42]
  const HEADER_LEN := 7
  const MAX_PAYLOAD := 0xFFFF
  const MSG_HEARTBEAT: Byte := 0x04
  const MSG_FRAME_RELAY: Byte := 0x20

  function BuildFrame(kind: Byte, payload: Frame): (r: Result<Frame, string>)
  {
    if |payload| > MAX_PAYLOAD then Err("payload too large for MWLB framing")
    else Ok(MAGIC + [kind] + BE(|payload|, 2) + payload)
  }

  datatype Message = Message(kind: Byte, payload: Frame)

  function ParseFrame(data: Frame): (m: Option<Message>)
  {
    if |data| < HEADER_LEN || data[..4] != MAGIC then None
    else
      var length := FromBE(data[5..7]);
      if length > |data| - HEADER_LEN then None
      else Some(Message(data[4], data[HEADER_LEN..HEADER_LEN + length]))
  }

  // Whatever fits is read back, also with other frames behind it.
  lemma ParseOfBuilt(kind: Byte, payload: Frame, rest: Frame)
    requires |payload| <= MAX_PAYLOAD
    ensures ParseFrame(BuildFrame(kind, payload).value + rest) == Some(Message(kind, payload))
  {
    hide BE, FromBE;
    var data := BuildFrame(kind, payload).value + rest;
    assert data[..4] == MAGIC && data[4] == kind && data[5..7] == BE(|payload|, 2);
    assert Pow256(2) == 0x1_0000 by {
      assert Pow256(1) == 256;
    }
    FromBEOfBE(|payload|, 2);
    assert data[7..7 + |payload|] == payload;
  }

  // ---- the echo guard -----------------------------------------------------------------------

  function PruneSeen(seen: map<Frame, real>, now: real): map<Frame, real> {
    map f | f in seen && seen[f] >= now - ECHO_WINDOW :: seen[f]
  }

  function RecordSeen(seen: map<Frame, real>, f: Frame, now: real): map<Frame, real> {
    PruneSeen(seen, now)[f := now]
  }

  predicate Duplicate(seen: map<Frame, real>, f: Frame, now: real) {
    f in PruneSeen(seen, now) && now - seen[f] <= ECHO_WINDOW
  }

  // One injection that the guard was told of.
  datatype Injection = Injection(frame: Frame, at: real)

  function Latest(log: seq<Injection>, f: Frame): (t: Option<real>)
    ensures t.Some? ==> Injection(f, t.value) in log
    ensures t.None? ==> forall i :: 0 <= i < |log| ==> log[i].frame != f
  {
    if log == [] then None
    else if log[|log| - 1].frame == f then Some(log[|log| - 1].at)
    else Latest(log[..|log| - 1], f)
  }

  // Times do not go back, and none is later than `now`.
  predicate Timely(log: seq<Injection>, now: real) {
    && (forall i, j :: 0 <= i < j < |log| ==> log[i].at <= log[j].at)
    && (forall i :: 0 <= i < |log| ==> log[i].at <= now)
  }

  lemma {:induction false} LatestIsLatest(log: seq<Injection>, f: Frame, now: real)
    requires Timely(log, now)
    ensures Latest(log, f).Some? ==>
              forall i :: 0 <= i < |log| && log[i].frame == f ==> log[i].at <= Latest(log, f).value
    decreases |log|
  {
    if log != [] && log[|log| - 1].frame != f {
      LatestIsLatest(log[..|log| - 1], f, now);
    }
  }

  lemma LatestAppend(log: seq<Injection>, i: Injection, f: Frame)
    ensures Latest(log + [i], f) == if i.frame == f then Some(i.at) else Latest(log, f)
  {
    assert (log + [i])[..|log|] == log;
  }

  // The pruned map knows of each frame what the whole log does, as far as it can still matter.
  ghost predicate Remembers(seen: map<Frame, real>, log: seq<Injection>, now: real) {
    forall f :: if f in seen then Latest(log, f) == Some(seen[f])
                else Latest(log, f).Some? ==> now - Latest(log, f).value > ECHO_WINDOW
  }

  lemma PruneRemembers(seen: map<Frame, real>, log: seq<Injection>, was: real, now: real)
    requires Remembers(seen, log, was) && was <= now
    ensures Remembers(PruneSeen(seen, now), log, now)
  {
  }

  lemma RecordRemembers(seen: map<Frame, real>, log: seq<Injection>, was: real, f: Frame, now: real)
    requires Remembers(seen, log, was) && was <= now
    ensures Remembers(RecordSeen(seen, f, now), log + [Injection(f, now)], now)
  {
    PruneRemembers(seen, log, was, now);
    var next, more := RecordSeen(seen, f, now), log + [Injection(f, now)];
    forall g
      ensures if g in next then Latest(more, g) == Some(next[g])
              else Latest(more, g).Some? ==> now - Latest(more, g).value > ECHO_WINDOW
    {
      LatestAppend(log, Injection(f, now), g);
    }
  }

  // The guard says duplicate exactly when that frame was injected within the window.
  lemma DuplicateExactly(seen: map<Frame, real>, log: seq<Injection>, was: real, f: Frame, now: real)
    requires Remembers(seen, log, was) && was <= now && Timely(log, was)
    ensures Duplicate(seen, f, now) <==>
              exists i :: 0 <= i < |log| && log[i].frame == f && now - log[i].at <= ECHO_WINDOW
  {
    LatestIsLatest(log, f, was);
    if Latest(log, f).Some? {
      var i :| 0 <= i < |log| && log[i] == Injection(f, Latest(log, f).value);
      assert log[i].frame == f;
    }
  }

  // ---- the beacon cache ---------------------------------------------------------------------

  datatype Entry = Entry(frame: Frame, at: real)

  function Without(entries: seq<Entry>, f: Frame): (kept: seq<Entry>)
    ensures |kept| <= |entries| && forall e :: e in kept <==> e in entries && e.frame != f
  {
    if entries == [] then []
    else (if entries[0].frame != f then [entries[0]] else []) + Without(entries[1..], f)
  }

  function LastN<X>(s: seq<X>, n: nat): (l: seq<X>)
    ensures |l| == if |s| <= n then |s| else n
  {
    if |s| <= n then s else s[|s| - n..]
  }

  function AddEntry(entries: seq<Entry>, f: Frame, now: real, capacity: nat): (added: seq<Entry>)
    ensures |added| <= capacity
  {
    LastN(Without(entries, f) + [Entry(f, now)], capacity)
  }

  function Unexpired(entries: seq<Entry>, now: real, ttl: real): (kept: seq<Entry>)
    ensures |kept| <= |entries| && forall e :: e in kept <==> e in entries && now - e.at <= ttl
  {
    if entries == [] then []
    else (if now - entries[0].at <= ttl then [entries[0]] else []) + Unexpired(entries[1..], now, ttl)
  }

  // Every frame ever added, once, in the order of its latest addition.
  function Distinct(adds: seq<Entry>): (d: seq<Entry>)
  {
    if adds == [] then []
    else Without(Distinct(adds[..|adds| - 1]), adds[|adds| - 1].frame) + [adds[|adds| - 1]]
  }

  predicate InOrder(entries: seq<Entry>, now: real) {
    && (forall i, j :: 0 <= i < j < |entries| ==> entries[i].at <= entries[j].at)
    && (forall i :: 0 <= i < |entries| ==> entries[i].at <= now)
  }

  // The cache is the end of that list; what it lacks of the last `capacity` frames has expired.
  predicate Holds(cache: seq<Entry>, all: seq<Entry>, m: nat, now: real, ttl: real, capacity: nat) {
    && m <= |all| && cache == all[m..] && |cache| <= capacity
    && forall j :: 0 <= j < m && |all| - capacity <= j ==> now - all[j].at > ttl
  }

  lemma {:induction false} WithoutConcat(a: seq<Entry>, b: seq<Entry>, f: Frame)
    ensures Without(a + b, f) == Without(a, f) + Without(b, f)
    decreases |a|
  {
    if a == [] {
      assert a + b == b;
    } else {
      assert (a + b)[1..] == a[1..] + b;
      WithoutConcat(a[1..], b, f);
    }
  }

  lemma {:induction false} UnexpiredConcat(a: seq<Entry>, b: seq<Entry>, now: real, ttl: real)
    ensures Unexpired(a + b, now, ttl) == Unexpired(a, now, ttl) + Unexpired(b, now, ttl)
    decreases |a|
  {
    if a == [] {
      assert a + b == b;
    } else {
      assert (a + b)[1..] == a[1..] + b;
      UnexpiredConcat(a[1..], b, now, ttl);
    }
  }

  lemma {:induction false} AllExpired(a: seq<Entry>, now: real, ttl: real)
    requires forall j :: 0 <= j < |a| ==> now - a[j].at > ttl
    ensures Unexpired(a, now, ttl) == []
  {
    if a != [] {
      AllExpired(a[1..], now, ttl);
    }
  }

  // Among entries in order the expired ones come first.
  lemma {:induction false} UnexpiredIsEnd(a: seq<Entry>, now: real, ttl: real) returns (k: nat)
    requires InOrder(a, now)
    ensures k <= |a| && Unexpired(a, now, ttl) == a[k..] && forall j :: 0 <= j < k ==> now - a[j].at > ttl
    decreases |a|
  {
    if a == [] {
      k := 0;
    } else if now - a[0].at > ttl {
      assert InOrder(a[1..], now);
      var n := UnexpiredIsEnd(a[1..], now, ttl);
      k := n + 1;
      assert a[1..][n..] == a[k..];
      forall j | 0 <= j < k ensures now - a[j].at > ttl {
        assert j > 0 ==> a[j] == a[1..][j - 1];
      }
    } else {
      k := 0;
      NoneExpired(a, now, ttl);
    }
  }

  lemma {:induction false} NoneExpired(a: seq<Entry>, now: real, ttl: real)
    requires forall j :: 0 <= j < |a| ==> now - a[j].at <= ttl
    ensures Unexpired(a, now, ttl) == a
  {
    if a != [] {
      NoneExpired(a[1..], now, ttl);
    }
  }

  lemma SnapshotHolds(cache: seq<Entry>, all: seq<Entry>, m: nat, was: real, now: real, ttl: real, capacity: nat)
    returns (k: nat)
    requires Holds(cache, all, m, was, ttl, capacity) && InOrder(all, was) && was <= now
    ensures Holds(Unexpired(cache, now, ttl), all, k, now, ttl, capacity)
  {
    hide Unexpired;
    assert InOrder(cache, now);
    var n := UnexpiredIsEnd(cache, now, ttl);
    k := m + n;
    assert cache[n..] == all[k..];
    forall j | 0 <= j < k && |all| - capacity <= j ensures now - all[j].at > ttl {
      assert j >= m ==> all[j] == cache[j - m];
    }
  }

  // What a snapshot shows: of the last `capacity` distinct frames those that have not expired.
  lemma SnapshotShows(cache: seq<Entry>, all: seq<Entry>, m: nat, was: real, now: real, ttl: real, capacity: nat)
    requires Holds(cache, all, m, was, ttl, capacity) && was <= now
    ensures Unexpired(cache, now, ttl) == Unexpired(LastN(all, capacity), now, ttl)
  {
    var lo := if |all| <= capacity then 0 else |all| - capacity;
    assert lo <= m;
    assert LastN(all, capacity) == all[lo..m] + cache;
    UnexpiredConcat(all[lo..m], cache, now, ttl);
    AllExpired(all[lo..m], now, ttl);
  }

  // At most one entry for each frame.
  predicate Once(entries: seq<Entry>) {
    forall i, j :: 0 <= i < j < |entries| ==> entries[i].frame != entries[j].frame
  }

  // Where the entry of a frame is, or the end when there is none.
  lemma WithoutOnce(entries: seq<Entry>, f: Frame) returns (p: nat)
    requires Once(entries)
    ensures p <= |entries|
    ensures Without(entries, f) == if p == |entries| then entries else entries[..p] + entries[p + 1..]
    ensures if p == |entries| then forall i :: 0 <= i < |entries| ==> entries[i].frame != f
            else entries[p].frame == f && forall i :: 0 <= i < |entries| && i != p ==> entries[i].frame != f
  {
    if i :| 0 <= i < |entries| && entries[i].frame == f {
      p := i;
      OneRemoved(entries, f, i);
    } else {
      p := |entries|;
      NothingRemoved(entries, f);
    }
  }

  lemma AddHolds(cache: seq<Entry>, all: seq<Entry>, m: nat, was: real, f: Frame, now: real, ttl: real, capacity: nat)
    returns (k: nat)
    requires Holds(cache, all, m, was, ttl, capacity) && Once(all) && was <= now
    ensures Holds(AddEntry(cache, f, now, capacity), Without(all, f) + [Entry(f, now)], k, now, ttl, capacity)
  {
    hide Without, Once;
    var older := all[..m];
    assert all == older + cache;
    WithoutConcat(older, cache, f);
    var grown := Without(cache, f) + [Entry(f, now)];
    var next := Without(all, f) + [Entry(f, now)];
    var m' := |Without(older, f)|;
    assert next == Without(older, f) + grown;
    var p := WithoutOnce(all, f);
    OlderExpired(all, next, m, m', p, f, was, now, ttl, capacity);
    k := if |grown| <= capacity then m' else m' + |grown| - capacity;
    LastOfGrown(Without(older, f), grown, next, k, capacity);
  }

  lemma LastOfGrown(older: seq<Entry>, grown: seq<Entry>, next: seq<Entry>, k: nat, capacity: nat)
    requires next == older + grown && k == if |grown| <= capacity then |older| else |older| + |grown| - capacity
    ensures k <= |next| && LastN(grown, capacity) == next[k..]
    ensures k > |older| ==> k == |next| - capacity
  {
  }

  lemma OlderExpired(all: seq<Entry>, next: seq<Entry>, m: nat, m': nat, p: nat, f: Frame, was: real, now: real,
                     ttl: real, capacity: nat)
    requires m <= |all| && p <= |all| && was <= now && m' == |Without(all[..m], f)|
    requires forall j :: 0 <= j < m && |all| - capacity <= j ==> was - all[j].at > ttl
    requires next == (if p == |all| then all else all[..p] + all[p + 1..]) + [Entry(f, now)]
    requires if p == |all| then forall i :: 0 <= i < |all| ==> all[i].frame != f
             else all[p].frame == f && forall i :: 0 <= i < |all| && i != p ==> all[i].frame != f
    ensures forall j :: 0 <= j < m' && |next| - capacity <= j ==> now - next[j].at > ttl
  {
    if m <= p {
      NothingRemoved(all[..m], f);
    } else {
      assert all[p] in all[..m];
      OneRemoved(all[..m], f, p);
    }
  }

  lemma {:induction false} NothingRemoved(s: seq<Entry>, f: Frame)
    requires forall i :: 0 <= i < |s| ==> s[i].frame != f
    ensures Without(s, f) == s
  {
    if s != [] {
      NothingRemoved(s[1..], f);
    }
  }

  lemma OneRemoved(s: seq<Entry>, f: Frame, p: nat)
    requires p < |s| && s[p].frame == f && forall i :: 0 <= i < |s| && i != p ==> s[i].frame != f
    ensures Without(s, f) == s[..p] + s[p + 1..]
  {
    hide Without;
    var a, b := s[..p], s[p + 1..];
    assert s == a + ([s[p]] + b);
    WithoutConcat(a, [s[p]] + b, f);
    WithoutConcat([s[p]], b, f);
    NothingRemoved(a, f);
    NothingRemoved(b, f);
    OnlyRemoved(s[p]);
  }

  lemma OnlyRemoved(e: Entry)
    ensures Without([e], e.frame) == []
  {
    assert [e][1..] == [];
  }

  // Additions and snapshots, with their times.
  datatype CacheOp = Add(frame: Frame, now: real) | Snapshot(now: real)

  predicate Advancing(ops: seq<CacheOp>) {
    forall i, j :: 0 <= i < j < |ops| ==> ops[i].now <= ops[j].now
  }

  function CacheStep(cache: seq<Entry>, op: CacheOp, ttl: real, capacity: nat): seq<Entry> {
    match op
    case Add(f, now) => AddEntry(cache, f, now, capacity)
    case Snapshot(now) => Unexpired(cache, now, ttl)
  }

  function CacheAfter(ops: seq<CacheOp>, ttl: real, capacity: nat): seq<Entry> {
    if ops == [] then [] else CacheStep(CacheAfter(ops[..|ops| - 1], ttl, capacity), ops[|ops| - 1], ttl, capacity)
  }

  function Adds(ops: seq<CacheOp>): seq<Entry> {
    if ops == [] then []
    else Adds(ops[..|ops| - 1]) + if ops[|ops| - 1].Add? then [Entry(ops[|ops| - 1].frame, ops[|ops| - 1].now)] else []
  }

  lemma {:induction false} DistinctOnce(adds: seq<Entry>)
    ensures Once(Distinct(adds)) && forall e :: e in Distinct(adds) ==> e in adds
    decreases |adds|
  {
    hide Once, Without;
    if adds == [] {
      NothingTwice();
    } else {
      var before, e := adds[..|adds| - 1], adds[|adds| - 1];
      DistinctOnce(before);
      RemoveOnce(Distinct(before), e);
      forall d | d in Distinct(adds) ensures d in adds {
        assert d in Distinct(before) || d == e;
      }
    }
  }

  lemma NothingTwice()
    ensures Once([])
  {
  }

  lemma RemoveOnce(entries: seq<Entry>, e: Entry)
    requires Once(entries)
    ensures Once(Without(entries, e.frame) + [e])
  {
    hide Without;
    var p := WithoutOnce(entries, e.frame);
    var kept := Without(entries, e.frame);
    assert forall i :: 0 <= i < |kept| ==> kept[i] == entries[if i < p then i else i + 1];
  }

  // An addition that no later one of the same frame replaces.
  predicate IsLatest(adds: seq<Entry>, i: nat)
    requires i < |adds|
  {
    forall j :: i < j < |adds| ==> adds[j].frame != adds[i].frame
  }

  ghost predicate Lasting(adds: seq<Entry>, e: Entry) {
    exists i :: 0 <= i < |adds| && adds[i] == e && IsLatest(adds, i)
  }

  lemma LastingStep(before: seq<Entry>, last: Entry, e: Entry)
    ensures Lasting(before + [last], e) <==> e == last || (Lasting(before, e) && e.frame != last.frame)
  {
    var adds := before + [last];
    if Lasting(adds, e) {
      var i :| 0 <= i < |adds| && adds[i] == e && IsLatest(adds, i);
      if i < |before| {
        assert adds[|before|] == last;
        assert IsLatest(before, i) by {
          forall j | i < j < |before| ensures before[j].frame != before[i].frame {
            assert adds[j] == before[j];
          }
        }
      }
    }
    if e == last {
      assert IsLatest(adds, |before|);
    } else if Lasting(before, e) && e.frame != last.frame {
      var i :| 0 <= i < |before| && before[i] == e && IsLatest(before, i);
      assert adds[i] == e && IsLatest(adds, i);
    }
  }

  // The list has the latest addition of every frame, and no other.
  lemma {:induction false} DistinctAreLatest(adds: seq<Entry>, e: Entry)
    ensures e in Distinct(adds) <==> Lasting(adds, e)
    decreases |adds|
  {
    hide Lasting;
    if adds == [] {
      NothingLasts(e);
    } else {
      var before, last := adds[..|adds| - 1], adds[|adds| - 1];
      assert adds == before + [last];
      DistinctAreLatest(before, e);
      LastingStep(before, last, e);
    }
  }

  lemma NothingLasts(e: Entry)
    ensures !Lasting([], e)
  {
  }

  lemma {:induction false} DistinctInOrder(adds: seq<Entry>, now: real)
    requires InOrder(adds, now)
    ensures InOrder(Distinct(adds), now)
    decreases |adds|
  {
    if adds != [] {
      var before, e := adds[..|adds| - 1], adds[|adds| - 1];
      assert InOrder(before, e.at);
      DistinctInOrder(before, e.at);
      DistinctOnce(before);
      RemoveInOrder(Distinct(before), e, now);
    }
  }

  lemma RemoveInOrder(entries: seq<Entry>, e: Entry, now: real)
    requires Once(entries) && InOrder(entries, e.at) && e.at <= now
    ensures InOrder(Without(entries, e.frame) + [e], now)
  {
    hide Without, Once, InOrder;
    var p := WithoutOnce(entries, e.frame);
    if p < |entries| {
      PieceInOrder(entries, p, e.at);
    }
    LastInOrder(Without(entries, e.frame), e, now);
  }

  lemma PieceInOrder(entries: seq<Entry>, p: nat, now: real)
    requires p < |entries| && InOrder(entries, now)
    ensures InOrder(entries[..p] + entries[p + 1..], now)
  {
    var kept := entries[..p] + entries[p + 1..];
    assert forall i :: 0 <= i < |kept| ==> kept[i] == entries[if i < p then i else i + 1];
  }

  lemma LastInOrder(entries: seq<Entry>, e: Entry, now: real)
    requires InOrder(entries, e.at) && e.at <= now
    ensures InOrder(entries + [e], now)
  {
  }

  lemma {:induction false} AddsInOrder(ops: seq<CacheOp>, now: real)
    requires Advancing(ops) && (ops != [] ==> ops[|ops| - 1].now <= now)
    ensures InOrder(Adds(ops), now)
    decreases |ops|
  {
    if ops != [] {
      AddsInOrder(ops[..|ops| - 1], ops[|ops| - 1].now);
    }
  }

  ghost predicate CacheOk(ops: seq<CacheOp>, now: real, ttl: real, capacity: nat) {
    exists m: nat :: Holds(CacheAfter(ops, ttl, capacity), Distinct(Adds(ops)), m, now, ttl, capacity)
  }

  lemma {:induction false} CacheHolds(ops: seq<CacheOp>, ttl: real, capacity: nat)
    requires ops != [] && Advancing(ops)
    ensures CacheOk(ops, ops[|ops| - 1].now, ttl, capacity)
    decreases |ops|
  {
    hide Holds, AddEntry, Unexpired, Without, Once, InOrder;
    var before, op := ops[..|ops| - 1], ops[|ops| - 1];
    var was := if before == [] then op.now else before[|before| - 1].now;
    var cache, all := CacheAfter(before, ttl, capacity), Distinct(Adds(before));
    var m: nat := 0;
    if before == [] {
      EmptyHolds(was, ttl, capacity);
    } else {
      CacheHolds(before, ttl, capacity);
      m :| Holds(cache, all, m, was, ttl, capacity);
    }
    AddsInOrder(before, was);
    DistinctInOrder(Adds(before), was);
    DistinctOnce(Adds(before));
    match op
    case Add(f, now) =>
      var k := AddHolds(cache, all, m, was, f, now, ttl, capacity);
      var adds := Adds(before) + [Entry(f, now)];
      assert adds[..|adds| - 1] == Adds(before);
      assert Distinct(Adds(ops)) == Without(all, f) + [Entry(f, now)];
      assert Holds(CacheAfter(ops, ttl, capacity), Distinct(Adds(ops)), k, now, ttl, capacity);
    case Snapshot(now) =>
      var k := SnapshotHolds(cache, all, m, was, now, ttl, capacity);
      assert Adds(before) + [] == Adds(before);
      assert Holds(CacheAfter(ops, ttl, capacity), Distinct(Adds(ops)), k, now, ttl, capacity);
  }

  lemma EmptyHolds(was: real, ttl: real, capacity: nat)
    ensures Holds([], [], 0, was, ttl, capacity)
  {
  }

  // The pruned cache refines the full history: a snapshot shows, of the last `capacity` distinct
  // frames by latest addition, exactly those added no longer than the time to live ago.
  lemma SnapshotExactly(ops: seq<CacheOp>, now: real, ttl: real, capacity: nat)
    requires ops != [] && Advancing(ops) && ops[|ops| - 1].now <= now
    ensures Unexpired(CacheAfter(ops, ttl, capacity), now, ttl)
            == Unexpired(LastN(Distinct(Adds(ops)), capacity), now, ttl)
  {
    hide Holds, Unexpired, LastN, Distinct, CacheAfter, Adds;
    CacheHolds(ops, ttl, capacity);
    var was := ops[|ops| - 1].now;
    var m: nat :| Holds(CacheAfter(ops, ttl, capacity), Distinct(Adds(ops)), m, was, ttl, capacity);
    SnapshotShows(CacheAfter(ops, ttl, capacity), Distinct(Adds(ops)), m, was, now, ttl, capacity);
  }
}
