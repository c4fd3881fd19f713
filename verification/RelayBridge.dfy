/**
 The bridge itself: what it does with a captured frame, a message of the relay and a beacon that is
 due, as a state machine over runs and as the objects of bridge/framerelay/bridge.py.
 */
module RelayBridges {
  import opened Common
  import opened Bytes
  import opened FrameBridges
  import T = TokenBuckets

  datatype Stats = Stats(
    captured: nat, relayedOut: nat, injected: nat, droppedFilter: nat, droppedEcho: nat,
    droppedBacklog: nat, droppedRate: nat)

  datatype State = State(
    seen: map<Frame, real>, beacons: seq<Entry>, bucket: T.Bucket, outbox: seq<Frame>, stats: Stats)

  // The radio tells whether it accepts a capture, a frame whether it is a beacon; the radio may fail
  // to send, and the replayer stops after the frames it could not send.
  datatype Event =
    | Capture(frame: Frame, accepted: bool, beacon: bool, now: real)
    | FromRelay(data: Frame, beacon: bool, sent: bool, now: real)
    | Replay(upTo: nat, now: real)
    | Pop(now: real)

  // What an event did: its answer, and the injections the guard was told of.
  datatype Outcome = Outcome(state: State, answer: Result<bool, string>, injections: seq<Injection>)

  const NO_STATS := Stats(0, 0, 0, 0, 0, 0, 0)

  function Start(c: T.Config): State {
    State(map[], [], T.Fresh(c), [], NO_STATS)
  }

  function Enqueue(s: State, f: Frame): State {
    if |s.outbox| < OUTBOX_MAXSIZE then s.(outbox := s.outbox + [f])
    else s.(outbox := s.outbox[1..] + [f], stats := s.stats.(droppedBacklog := s.stats.droppedBacklog + 1))
  }

  function OnCapture(c: T.Config, s: State, f: Frame, accepted: bool, beacon: bool, now: real): (o: Outcome)
  {
    var s0 := s.(stats := s.stats.(captured := s.stats.captured + 1));
    if !accepted then Outcome(s0.(stats := s0.stats.(droppedFilter := s.stats.droppedFilter + 1)), Ok(false), [])
    else
      var s1 := s0.(seen := PruneSeen(s.seen, now));
      if Duplicate(s.seen, f, now) then
        Outcome(s1.(stats := s0.stats.(droppedEcho := s.stats.droppedEcho + 1)), Ok(false), [])
      else
        var a := T.Allow(c, s.bucket, T.Call(now, |f|));
        var s2 := s1.(bucket := a.bucket);
        if !a.allowed then
          Outcome(s2.(stats := s0.stats.(droppedRate := s.stats.droppedRate + 1)), Ok(false), [])
        else
          var s3 := s2.(beacons := if beacon then AddEntry(s.beacons, f, now, BEACON_CAPACITY) else s.beacons);
          match BuildFrame(MSG_FRAME_RELAY, f)
          case Err(error) => Outcome(s3, Err(error), [])
          case Ok(built) =>
            var s4 := Enqueue(s3, built);
            Outcome(s4.(stats := s4.stats.(relayedOut := s.stats.relayedOut + 1)), Ok(true), [])
  }

  function OnMessage(c: T.Config, s: State, data: Frame, beacon: bool, sent: bool, now: real): (o: Outcome)
  {
    match ParseFrame(data)
    case None => Outcome(s, Ok(false), [])
    case Some(m) =>
      if m.kind == MSG_HEARTBEAT then Outcome(s, Ok(true), [])
      else if m.kind != MSG_FRAME_RELAY then Outcome(s, Ok(false), [])
      else
        var a := T.Allow(c, s.bucket, T.Call(now, |m.payload|));
        var s1 := s.(bucket := a.bucket);
        if !a.allowed then
          Outcome(s1.(stats := s.stats.(droppedRate := s.stats.droppedRate + 1)), Ok(false), [])
        else
          var s2 := s1.(seen := RecordSeen(s.seen, m.payload, now),
                        beacons := if beacon then AddEntry(s.beacons, m.payload, now, BEACON_CAPACITY) else s.beacons);
          Outcome(if sent then s2.(stats := s.stats.(injected := s.stats.injected + 1)) else s2, Ok(sent),
                  [Injection(m.payload, now)])
  }

  // Each replayed beacon is recorded before it is sent.
  function RecordAll(seen: map<Frame, real>, frames: seq<Frame>, now: real): map<Frame, real> {
    if frames == [] then seen else RecordSeen(RecordAll(seen, frames[..|frames| - 1], now), frames[|frames| - 1], now)
  }

  function Injections(frames: seq<Frame>, now: real): (log: seq<Injection>)
    ensures |log| == |frames| && forall i :: 0 <= i < |frames| ==> log[i] == Injection(frames[i], now)
  {
    if frames == [] then [] else Injections(frames[..|frames| - 1], now) + [Injection(frames[|frames| - 1], now)]
  }

  function FramesOf(entries: seq<Entry>): (frames: seq<Frame>)
    ensures |frames| == |entries| && forall i :: 0 <= i < |entries| ==> frames[i] == entries[i].frame
  {
    if entries == [] then [] else [entries[0].frame] + FramesOf(entries[1..])
  }

  function OnReplay(s: State, upTo: nat, now: real): (o: Outcome)
  {
    var kept := Unexpired(s.beacons, now, BEACON_TTL);
    var frames := FramesOf(kept);
    var tried := if upTo < |frames| then frames[..upTo] else frames;
    Outcome(s.(beacons := kept, seen := RecordAll(s.seen, tried, now)), Ok(true), Injections(tried, now))
  }

  function Step(c: T.Config, s: State, e: Event): (o: Outcome)
  {
    match e
    case Capture(f, accepted, beacon, now) => OnCapture(c, s, f, accepted, beacon, now)
    case FromRelay(data, beacon, sent, now) => OnMessage(c, s, data, beacon, sent, now)
    case Replay(upTo, now) => OnReplay(s, upTo, now)
    case Pop(_) => Outcome(if s.outbox == [] then s else s.(outbox := s.outbox[1..]), Ok(s.outbox != []), [])
  }

  // The state after a history, and all that the guard was told by then.
  function After(c: T.Config, h: seq<Event>): State {
    if h == [] then Start(c) else Step(c, After(c, h[..|h| - 1]), h[|h| - 1]).state
  }

  function Log(c: T.Config, h: seq<Event>): seq<Injection> {
    if h == [] then []
    else Log(c, h[..|h| - 1]) + Step(c, After(c, h[..|h| - 1]), h[|h| - 1]).injections
  }

  predicate Advancing(h: seq<Event>) {
    forall i, j :: 0 <= i < j < |h| ==> h[i].now <= h[j].now
  }

  lemma AfterAppend(c: T.Config, h: seq<Event>, e: Event)
    ensures After(c, h + [e]) == Step(c, After(c, h), e).state
    ensures Log(c, h + [e]) == Log(c, h) + Step(c, After(c, h), e).injections
  {
    assert (h + [e])[..|h|] == h;
  }

  // ---- no echo is relayed -------------------------------------------------------------------

  lemma {:induction false} RecordAllRemembers(seen: map<Frame, real>, log: seq<Injection>, frames: seq<Frame>,
                                              was: real, now: real)
    requires Remembers(seen, log, was) && was <= now
    ensures Remembers(RecordAll(seen, frames, now), log + Injections(frames, now), if frames == [] then was else now)
    decreases |frames|
  {
    hide Remembers, RecordSeen;
    if frames == [] {
      assert log + [] == log;
    } else {
      var before, f := frames[..|frames| - 1], frames[|frames| - 1];
      RecordAllRemembers(seen, log, before, was, now);
      var last := if before == [] then was else now;
      RecordRemembers(RecordAll(seen, before, now), log + Injections(before, now), last, f, now);
      assert log + Injections(frames, now) == log + Injections(before, now) + [Injection(f, now)];
    }
  }

  lemma LaterRemembers(seen: map<Frame, real>, log: seq<Injection>, was: real, now: real)
    requires Remembers(seen, log, was) && was <= now
    ensures Remembers(seen, log, now)
  {
  }

  lemma TimelyMore(log: seq<Injection>, more: seq<Injection>, was: real, now: real)
    requires Timely(log, was) && was <= now && forall i :: 0 <= i < |more| ==> more[i].at == now
    ensures Timely(log + more, now)
  {
  }

  lemma StepRemembers(c: T.Config, s: State, e: Event, log: seq<Injection>, was: real)
    requires Remembers(s.seen, log, was) && Timely(log, was) && was <= e.now
    ensures var o := Step(c, s, e);
            Remembers(o.state.seen, log + o.injections, e.now) && Timely(log + o.injections, e.now)
  {
    hide Remembers, Timely, RecordSeen, PruneSeen, T.Allow, AddEntry, BuildFrame, ParseFrame, Duplicate, RecordAll,
         Unexpired;
    var o := Step(c, s, e);
    TimelyMore(log, o.injections, was, e.now);
    LaterRemembers(s.seen, log, was, e.now);
    PruneRemembers(s.seen, log, was, e.now);
    assert log + [] == log;
    match e
    case FromRelay(data, _, _, now) =>
      if ParseFrame(data).Some? {
        RecordRemembers(s.seen, log, was, ParseFrame(data).value.payload, now);
      }
    case Replay(upTo, now) =>
      var frames := FramesOf(Unexpired(s.beacons, now, BEACON_TTL));
      var tried := if upTo < |frames| then frames[..upTo] else frames;
      RecordAllRemembers(s.seen, log, tried, was, now);
      var last := if tried == [] then was else now;
      LaterRemembers(RecordAll(s.seen, tried, now), log + Injections(tried, now), last, now);
    case _ =>
  }

  lemma {:induction false} GuardRemembers(c: T.Config, h: seq<Event>, now: real)
    requires Advancing(h) && (h != [] ==> h[|h| - 1].now <= now)
    ensures Remembers(After(c, h).seen, Log(c, h), now) && Timely(Log(c, h), now)
    decreases |h|
  {
    hide Remembers, Step;
    if h == [] {
      NothingRemembered(now);
    } else {
      var p, e := h[..|h| - 1], h[|h| - 1];
      GuardRemembers(c, p, e.now);
      StepRemembers(c, After(c, p), e, Log(c, p), e.now);
      LaterRemembers(After(c, h).seen, Log(c, h), e.now, now);
    }
  }

  lemma NothingRemembered(now: real)
    ensures Remembers(map[], [], now) && Timely([], now)
  {
  }

  // After any history, an accepted capture is taken for an echo exactly when its frame was injected
  // within the window; so no frame that was is ever relayed.
  lemma EchoesAreDropped(c: T.Config, h: seq<Event>, f: Frame, beacon: bool, now: real)
    requires Advancing(h + [Capture(f, true, beacon, now)])
    ensures var s := After(c, h);
            var o := Step(c, s, Capture(f, true, beacon, now));
            var echo := exists i :: 0 <= i < |Log(c, h)| && Log(c, h)[i].frame == f
                                    && now - Log(c, h)[i].at <= ECHO_WINDOW;
            && (o.state.stats.droppedEcho == s.stats.droppedEcho + (if echo then 1 else 0))
            && (echo ==> o.answer == Ok(false) && o.state.outbox == s.outbox && o.state.bucket == s.bucket)
  {
    hide PruneSeen, Duplicate, T.Allow, AddEntry, BuildFrame, After, Log, Remembers;
    assert Advancing(h) by {
      forall i, j | 0 <= i < j < |h| ensures h[i].now <= h[j].now {
        assert (h + [Capture(f, true, beacon, now)])[i] == h[i] && (h + [Capture(f, true, beacon, now)])[j] == h[j];
      }
    }
    if h != [] {
      var all := h + [Capture(f, true, beacon, now)];
      assert all[|h| - 1] == h[|h| - 1] && all[|h|].now == now;
    }
    GuardRemembers(c, h, now);
    DuplicateExactly(After(c, h).seen, Log(c, h), now, f, now);
  }

  // ---- the beacons that are shown again -----------------------------------------------------

  // The beacon an event makes the bridge keep: one it injects, or a capture that was neither
  // filtered, an echo nor over the rate.
  function KeptBeacon(e: Event, o: Outcome): (kept: Option<Frame>)
  {
    if e.Capture? && e.accepted && e.beacon && o.answer != Ok(false) then Some(e.frame)
    else if e.FromRelay? && e.beacon && o.injections != [] then Some(o.injections[0].frame)
    else None
  }

  // The beacons kept in a history, as far back as it goes.
  function Beacons(c: T.Config, h: seq<Event>): seq<Entry> {
    if h == [] then []
    else
      var p, e := h[..|h| - 1], h[|h| - 1];
      var kept := KeptBeacon(e, Step(c, After(c, p), e));
      Beacons(c, p) + if kept.Some? then [Entry(kept.value, e.now)] else []
  }

  // What an event does to the cache.
  function OpsOf(e: Event, o: Outcome): (ops: seq<CacheOp>)
    ensures forall op :: op in ops ==> op.now == e.now
  {
    var kept := KeptBeacon(e, o);
    if kept.Some? then [Add(kept.value, e.now)] else if e.Replay? then [Snapshot(e.now)] else []
  }

  function CacheOps(c: T.Config, h: seq<Event>): seq<CacheOp> {
    if h == [] then []
    else
      var p, e := h[..|h| - 1], h[|h| - 1];
      CacheOps(c, p) + OpsOf(e, Step(c, After(c, p), e))
  }

  lemma CacheStepOf(c: T.Config, s: State, e: Event)
    ensures var o := Step(c, s, e);
            var ops := OpsOf(e, o);
            o.state.beacons == if ops == [] then s.beacons
                               else CacheStep(s.beacons, ops[0], BEACON_TTL, BEACON_CAPACITY)
    ensures |OpsOf(e, Step(c, s, e))| <= 1
  {
    hide RecordSeen, PruneSeen, Duplicate, RecordAll, T.Allow, AddEntry, ParseFrame, Unexpired, FramesOf;
  }

  lemma CacheAfterMore(ops: seq<CacheOp>, more: seq<CacheOp>)
    requires |more| <= 1
    ensures CacheAfter(ops + more, BEACON_TTL, BEACON_CAPACITY)
            == (if more == [] then CacheAfter(ops, BEACON_TTL, BEACON_CAPACITY)
                else CacheStep(CacheAfter(ops, BEACON_TTL, BEACON_CAPACITY), more[0], BEACON_TTL, BEACON_CAPACITY))
    ensures Adds(ops + more)
            == Adds(ops) + (if more != [] && more[0].Add? then [Entry(more[0].frame, more[0].now)] else [])
  {
    if more == [] {
      assert ops + more == ops && Adds(ops) + [] == Adds(ops);
    } else {
      assert (ops + more)[..|ops|] == ops;
    }
  }

  lemma {:induction false} CacheOfRun(c: T.Config, h: seq<Event>)
    ensures After(c, h).beacons == CacheAfter(CacheOps(c, h), BEACON_TTL, BEACON_CAPACITY)
    ensures Adds(CacheOps(c, h)) == Beacons(c, h)
    decreases |h|
  {
    hide Step, CacheStep, CacheAfter, Adds;
    if h == [] {
      NoCache();
    } else {
      var p, e := h[..|h| - 1], h[|h| - 1];
      CacheOfRun(c, p);
      CacheStepOf(c, After(c, p), e);
      CacheAfterMore(CacheOps(c, p), OpsOf(e, Step(c, After(c, p), e)));
    }
  }

  lemma NoCache()
    ensures CacheAfter([], BEACON_TTL, BEACON_CAPACITY) == [] && Adds([]) == [] && Distinct([]) == []
  {
  }

  lemma {:induction false} CacheOpsAdvance(c: T.Config, h: seq<Event>, now: real)
    requires Advancing(h) && (h != [] ==> h[|h| - 1].now <= now)
    ensures FrameBridges.Advancing(CacheOps(c, h)) && forall op :: op in CacheOps(c, h) ==> op.now <= now
    decreases |h|
  {
    hide Step, OpsOf;
    if h != [] {
      var p, e := h[..|h| - 1], h[|h| - 1];
      CacheOpsAdvance(c, p, e.now);
      CacheStepOf(c, After(c, p), e);
      var ops := CacheOps(c, p);
      var both: seq<CacheOp> := CacheOps(c, h);
      forall i, j | 0 <= i < j < |both|
        ensures both[i].now <= both[j].now
      {
        assert both[i] == ops[i];
      }
    }
  }

  // After any history a replay injects, in order, the unexpired ones of the last four distinct
  // beacons the bridge has kept, up to the first that cannot be sent.
  lemma ReplayExactly(c: T.Config, h: seq<Event>, upTo: nat, now: real)
    requires Advancing(h + [Replay(upTo, now)])
    ensures var shown := FramesOf(Unexpired(LastN(Distinct(Beacons(c, h)), BEACON_CAPACITY), now, BEACON_TTL));
            Step(c, After(c, h), Replay(upTo, now)).injections
            == Injections(if upTo < |shown| then shown[..upTo] else shown, now)
  {
    hide After, CacheOps, Beacons, Unexpired, Distinct, CacheAfter, FramesOf, Injections;
    var all, ops := h + [Replay(upTo, now)], CacheOps(c, h);
    assert Advancing(h) && (h != [] ==> h[|h| - 1].now <= now) by {
      assert forall i :: 0 <= i < |h| ==> all[i] == h[i];
      assert all[|h|].now == now;
    }
    CacheOfRun(c, h);
    CacheOpsAdvance(c, h, now);
    if ops == [] {
      NoCache();
    } else {
      SnapshotExactly(ops, now, BEACON_TTL, BEACON_CAPACITY);
    }
  }

  // ---- the outbox ---------------------------------------------------------------------------

  // The frames that were put in the outbox, in order.
  function Enqueued(c: T.Config, h: seq<Event>): seq<Frame> {
    if h == [] then []
    else
      var p, e := h[..|h| - 1], h[|h| - 1];
      Enqueued(c, p)
      + if e.Capture? && Step(c, After(c, p), e).answer == Ok(true)
        then [BuildFrame(MSG_FRAME_RELAY, e.frame).value] else []
  }

  function Popped(c: T.Config, h: seq<Event>): nat {
    if h == [] then 0
    else
      var p, e := h[..|h| - 1], h[|h| - 1];
      Popped(c, p) + if e.Pop? && After(c, p).outbox != [] then 1 else 0
  }

  // The outbox is the end of what was put there; everything else has been sent, or dropped because
  // two hundred newer frames were waiting.
  predicate OutboxOk(box: seq<Frame>, all: seq<Frame>, popped: nat, dropped: nat) {
    && |box| <= OUTBOX_MAXSIZE && |all| == popped + dropped + |box| && box == all[popped + dropped..]
    && (popped == 0 ==> box == LastN(all, OUTBOX_MAXSIZE))
  }

  lemma EnqueueOk(s: State, f: Frame, all: seq<Frame>, popped: nat)
    requires OutboxOk(s.outbox, all, popped, s.stats.droppedBacklog)
    ensures OutboxOk(Enqueue(s, f).outbox, all + [f], popped, Enqueue(s, f).stats.droppedBacklog)
  {
  }

  lemma CaptureOutbox(c: T.Config, s: State, f: Frame, accepted: bool, beacon: bool, now: real)
    ensures var o := OnCapture(c, s, f, accepted, beacon, now);
            if o.answer == Ok(true) then
              && BuildFrame(MSG_FRAME_RELAY, f).Ok?
              && (var built := BuildFrame(MSG_FRAME_RELAY, f).value;
                  o.state.outbox == Enqueue(s, built).outbox
                  && o.state.stats.droppedBacklog == Enqueue(s, built).stats.droppedBacklog)
            else o.state.outbox == s.outbox && o.state.stats.droppedBacklog == s.stats.droppedBacklog
  {
    hide PruneSeen, Duplicate, T.Allow, AddEntry, BuildFrame;
  }

  lemma {:induction false} OutboxHolds(c: T.Config, h: seq<Event>)
    ensures OutboxOk(After(c, h).outbox, Enqueued(c, h), Popped(c, h), After(c, h).stats.droppedBacklog)
    decreases |h|
  {
    hide OnCapture, RecordSeen, RecordAll, T.Allow, AddEntry, ParseFrame, BuildFrame, OutboxOk, Unexpired;
    if h == [] {
      EmptyOutbox();
    } else {
      var p, e := h[..|h| - 1], h[|h| - 1];
      OutboxHolds(c, p);
      var s, all := After(c, p), Enqueued(c, p);
      assert all + [] == all;
      match e
      case Capture(f, accepted, beacon, now) =>
        CaptureOutbox(c, s, f, accepted, beacon, now);
        if Step(c, s, e).answer == Ok(true) {
          EnqueueOk(s, BuildFrame(MSG_FRAME_RELAY, f).value, all, Popped(c, p));
        }
      case Pop(_) => PopOk(s, all, Popped(c, p));
      case _ =>
    }
  }

  lemma EmptyOutbox()
    ensures OutboxOk([], [], 0, 0)
  {
  }

  lemma PopOk(s: State, all: seq<Frame>, popped: nat)
    requires OutboxOk(s.outbox, all, popped, s.stats.droppedBacklog)
    ensures s.outbox != [] ==> OutboxOk(s.outbox[1..], all, popped + 1, s.stats.droppedBacklog)
  {
  }

  // Without draining, the outbox is exactly the last two hundred frames put there, in order.
  lemma UndrainedOutbox(c: T.Config, h: seq<Event>)
    requires forall i :: 0 <= i < |h| ==> !h[i].Pop?
    ensures After(c, h).outbox == LastN(Enqueued(c, h), OUTBOX_MAXSIZE)
  {
    OutboxHolds(c, h);
    NothingPopped(c, h);
  }

  lemma {:induction false} NothingPopped(c: T.Config, h: seq<Event>)
    requires forall i :: 0 <= i < |h| ==> !h[i].Pop?
    ensures Popped(c, h) == 0
    decreases |h|
  {
    if h != [] {
      NothingPopped(c, h[..|h| - 1]);
    }
  }

  // ---- counters -----------------------------------------------------------------------------

  // Captures that no relay frame could hold.
  function Oversized(c: T.Config, h: seq<Event>): nat {
    if h == [] then 0
    else
      var p, e := h[..|h| - 1], h[|h| - 1];
      Oversized(c, p) + if e.Capture? && Step(c, After(c, p), e).answer.Err? then 1 else 0
  }

  // Filtered, echoed and relayed captures, and those too large, are all captures but the ones the
  // rate limit took; it takes messages of the relay as well.
  lemma {:induction false} CapturesAccounted(c: T.Config, h: seq<Event>)
    ensures var t := After(c, h).stats;
            && t.droppedFilter + t.droppedEcho + t.relayedOut + Oversized(c, h) <= t.captured
            && t.captured <= t.droppedFilter + t.droppedEcho + t.relayedOut + Oversized(c, h) + t.droppedRate
    decreases |h|
  {
    hide Step;
    if h != [] {
      CapturesAccounted(c, h[..|h| - 1]);
      EventAccounted(c, After(c, h[..|h| - 1]), h[|h| - 1]);
    }
  }

  // An event that is no capture changes no count of captures; a capture is counted once.
  lemma EventAccounted(c: T.Config, s: State, e: Event)
    ensures var o := Step(c, s, e);
            var t, u := s.stats, o.state.stats;
            var kept := (u.droppedFilter - t.droppedFilter) + (u.droppedEcho - t.droppedEcho)
              + (u.relayedOut - t.relayedOut)
                        + (if e.Capture? && o.answer.Err? then 1 else 0);
            && u.droppedRate >= t.droppedRate
            && kept <= u.captured - t.captured <= kept + (u.droppedRate - t.droppedRate)
  {
    hide RecordSeen, PruneSeen, Duplicate, RecordAll, T.Allow, AddEntry, ParseFrame, BuildFrame, Unexpired, FramesOf;
  }

  // ---- two bridges --------------------------------------------------------------------------

  // What one bridge puts in its outbox for a captured frame, the other takes out as that frame.
  lemma RelayIsTransparent(c: T.Config, s: State, f: Frame, beacon: bool, now: real,
                           d: T.Config, r: State, later: real, remote: bool)
    requires OnCapture(c, s, f, true, beacon, now).answer == Ok(true)
    requires T.Allow(d, r.bucket, T.Call(later, |f|)).allowed
    ensures var out := OnCapture(c, s, f, true, beacon, now).state.outbox;
            && out != []
            && (var o := OnMessage(d, r, out[|out| - 1], remote, true, later);
                o.answer == Ok(true) && o.injections == [Injection(f, later)]
                && o.state.stats.injected == r.stats.injected + 1)
  {
    hide PruneSeen, Duplicate, AddEntry, T.Allow, RecordSeen, ParseFrame;
    var built := BuildFrame(MSG_FRAME_RELAY, f).value;
    ParseOfBuilt(MSG_FRAME_RELAY, f, []);
    assert built + [] == built;
  }

  // ---- the objects --------------------------------------------------------------------------

  class EchoGuard {
    var seen: map<Frame, real>

    constructor ()
      ensures seen == map[]
    {
      seen := map[];
    }

    method Prune(now: real)
      modifies this
      ensures seen == PruneSeen(old(seen), now)
    {
      var cutoff := now - ECHO_WINDOW;
      seen := map f | f in seen && seen[f] >= cutoff :: seen[f];
    }

    method Record(f: Frame, now: real)
      modifies this
      ensures seen == RecordSeen(old(seen), f, now)
    {
      Prune(now);
      seen := seen[f := now];
    }

    method IsDuplicate(f: Frame, now: real) returns (duplicate: bool)
      modifies this
      ensures seen == PruneSeen(old(seen), now) && duplicate == Duplicate(old(seen), f, now)
    {
      Prune(now);
      return f in seen && now - seen[f] <= ECHO_WINDOW;
    }
  }

  class BeaconCache {
    const capacity: nat
    const ttl: real
    var entries: seq<Entry>

    constructor (limit: nat, timeToLive: real)
      ensures capacity == limit && ttl == timeToLive && entries == []
    {
      capacity, ttl, entries := limit, timeToLive, [];
    }

    method Keep(f: Frame, now: real)
      modifies this
      ensures entries == AddEntry(old(entries), f, now, capacity)
    {
      entries := Without(entries, f);
      entries := entries + [Entry(f, now)];
      ghost var grown := entries;
      while |entries| > capacity
        invariant |entries| <= |grown| && entries == grown[|grown| - |entries|..]
        invariant |entries| < |grown| ==> |entries| >= capacity
        decreases |entries|
      {
        entries := entries[1..];
      }
    }

    method Show(now: real) returns (frames: seq<Frame>)
      modifies this
      ensures entries == Unexpired(old(entries), now, ttl) && frames == FramesOf(entries)
    {
      entries := Unexpired(entries, now, ttl);
      frames := FramesOf(entries);
    }
  }

  class RelayBridge {
    const guard: EchoGuard
    const cache: BeaconCache
    const limiter: T.TokenBucket
    var outbox: seq<Frame>
    var stats: Stats

    ghost predicate Valid()
      reads this
    {
      cache.capacity == BEACON_CAPACITY && cache.ttl == BEACON_TTL
    }

    ghost function View(): State
      reads this, guard, cache, limiter
    {
      State(guard.seen, cache.entries, limiter.View(), outbox, stats)
    }

    constructor (c: T.Config)
      requires T.ConfigOk(c)
      ensures Valid() && limiter.config == c && View() == Start(c)
      ensures fresh(guard) && fresh(cache) && fresh(limiter)
    {
      guard := new EchoGuard();
      cache := new BeaconCache(BEACON_CAPACITY, BEACON_TTL);
      limiter := new T.TokenBucket(c);
      outbox, stats := [], NO_STATS;
    }

    method Put(f: Frame)
      modifies this
      ensures View() == Enqueue(old(View()), f)
    {
      if |outbox| >= OUTBOX_MAXSIZE {
        stats := stats.(droppedBacklog := stats.droppedBacklog + 1);
        outbox := outbox[1..];
      }
      outbox := outbox + [f];
    }

    method OnRadioCapture(f: Frame, accepted: bool, beacon: bool, now: real) returns (answer: Result<bool, string>)
      requires Valid()
      modifies this, guard, cache, limiter
      ensures Valid()
      ensures var o := Step(limiter.config, old(View()), Capture(f, accepted, beacon, now));
              View() == o.state && answer == o.answer
    {
      hide PruneSeen, Duplicate, T.Allow, AddEntry, BuildFrame;
      stats := stats.(captured := stats.captured + 1);
      if !accepted {
        stats := stats.(droppedFilter := stats.droppedFilter + 1);
        return Ok(false);
      }
      var duplicate := guard.IsDuplicate(f, now);
      if duplicate {
        stats := stats.(droppedEcho := stats.droppedEcho + 1);
        return Ok(false);
      }
      var allowed := limiter.AllowFrame(now, |f|);
      if !allowed {
        stats := stats.(droppedRate := stats.droppedRate + 1);
        return Ok(false);
      }
      if beacon {
        cache.Keep(f, now);
      }
      var built := BuildFrame(MSG_FRAME_RELAY, f);
      if built.Err? {
        return Err(built.error);
      }
      Put(built.value);
      stats := stats.(relayedOut := stats.relayedOut + 1);
      return Ok(true);
    }

    method OnWsMessage(data: Frame, beacon: bool, sent: bool, now: real) returns (answer: bool)
      requires Valid()
      modifies this, guard, cache, limiter
      ensures Valid()
      ensures var o := Step(limiter.config, old(View()), FromRelay(data, beacon, sent, now));
              View() == o.state && Ok(answer) == o.answer
    {
      hide RecordSeen, T.Allow, AddEntry, ParseFrame;
      var parsed := ParseFrame(data);
      if parsed.None? {
        return false;
      }
      var m := parsed.value;
      if m.kind == MSG_HEARTBEAT {
        return true;
      }
      if m.kind != MSG_FRAME_RELAY {
        return false;
      }
      var allowed := limiter.AllowFrame(now, |m.payload|);
      if !allowed {
        stats := stats.(droppedRate := stats.droppedRate + 1);
        return false;
      }
      guard.Record(m.payload, now);
      if beacon {
        cache.Keep(m.payload, now);
      }
      if !sent {
        return false;
      }
      stats := stats.(injected := stats.injected + 1);
      return true;
    }

    method ReplayBeacons(upTo: nat, now: real)
      requires Valid()
      modifies this, guard, cache
      ensures Valid()
      ensures View() == Step(limiter.config, old(View()), Replay(upTo, now)).state
    {
      hide RecordAll, Unexpired;
      var frames := cache.Show(now);
      if upTo < |frames| {
        frames := frames[..upTo];
      }
      InjectGuarded(frames, now);
    }

    // Each frame is recorded before it goes on the air.
    method InjectGuarded(frames: seq<Frame>, now: real)
      modifies guard
      ensures guard.seen == RecordAll(old(guard.seen), frames, now)
    {
      hide RecordSeen;
      var i := 0;
      while i < |frames|
        invariant 0 <= i <= |frames| && guard.seen == RecordAll(old(guard.seen), frames[..i], now)
      {
        guard.Record(frames[i], now);
        assert frames[..i + 1][..i] == frames[..i];
        i := i + 1;
      }
      assert frames[..i] == frames;
    }

    method Take(now: real) returns (f: Option<Frame>)
      modifies this`outbox
      ensures View() == Step(limiter.config, old(View()), Pop(now)).state
      ensures f == if old(outbox) == [] then None else Some(old(outbox)[0])
    {
      if outbox == [] {
        return None;
      }
      f := Some(outbox[0]);
      outbox := outbox[1..];
    }
  }
}
