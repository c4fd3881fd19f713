/**
 Every capture and every message accounted for: what the bridge does with it, by whether it is an
 echo, over the rate or too large, and what its counters and its rate limit say after any run.
 */
module BridgeLaws {
  import opened Common
  import opened Bytes
  import opened FrameBridges
  import opened RelayBridges
  import T = TokenBuckets

  // ---- frames of the relay ------------------------------------------------------------------

  lemma BigPair(b: seq<Byte>)
    requires |b| == 2
    ensures FromBE(b) == 0x100 * b[0] as int + b[1] as int
  {
    assert b[..1][..0] == [];
    assert FromBE(b[..1]) == b[0];
  }

  // "MWLB", a kind, a length of two bytes and at least as many bytes; what follows is ignored.
  lemma ParseExactly(data: Frame)
    ensures var length := if |data| >= 7 then 0x100 * data[5] as int + data[6] as int else 0;
            if |data| < 7 || data[0] != 0x4D || data[1] != 0x57 || data[2] != 0x4C || data[3] != 0x42
               || |data| < 7 + length then ParseFrame(data) == None
            else ParseFrame(data) == Some(Message(data[4], data[7..7 + length]))
  {
    hide FromBE;
    if |data| >= 7 {
      BigPair(data[5..7]);
      assert data[..4] == [data[0], data[1], data[2], data[3]];
    }
  }

  // ---- one event ----------------------------------------------------------------------------

  // The frame was injected within the window, by a message or a replay.
  predicate Echo(log: seq<Injection>, f: Frame, now: real) {
    exists i :: 0 <= i < |log| && log[i].frame == f && now - log[i].at <= ECHO_WINDOW
  }

  // What one capture does: it is filtered, an echo, over the rate, too large, or relayed.
  lemma CaptureExactly(c: T.Config, s: State, f: Frame, accepted: bool, beacon: bool, now: real)
    ensures var o := OnCapture(c, s, f, accepted, beacon, now);
            var echo, t, u := Duplicate(s.seen, f, now), s.stats, o.state.stats;
            var limited := T.Allow(c, s.bucket, T.Call(now, |f|));
            && u.captured == t.captured + 1 && u.injected == t.injected && o.injections == []
            && u.droppedFilter == t.droppedFilter + (if !accepted then 1 else 0)
            && u.droppedEcho == t.droppedEcho + (if accepted && echo then 1 else 0)
            && u.droppedRate == t.droppedRate + (if accepted && !echo && !limited.allowed then 1 else 0)
            && u.relayedOut == t.relayedOut + (if o.answer == Ok(true) then 1 else 0)
            && o.state.bucket == (if accepted && !echo then limited.bucket else s.bucket)
            && (o.answer == Ok(true) <==> accepted && !echo && limited.allowed && |f| <= 65535)
            && (o.answer.Err? <==> accepted && !echo && limited.allowed && |f| > 65535)
            && (o.answer != Ok(true) ==> o.state.outbox == s.outbox && u.droppedBacklog == t.droppedBacklog)
  {
    hide T.Allow, AddEntry, PruneSeen, Duplicate;
  }

  // What one message does: a heartbeat is answered, a frame injected unless it is over the rate, and
  // anything else ignored.
  lemma MessageExactly(c: T.Config, s: State, data: Frame, beacon: bool, sent: bool, now: real)
    ensures var o, m := OnMessage(c, s, data, beacon, sent, now), ParseFrame(data);
            if m.None? || m.value.kind != 0x20 then
              o == Outcome(s, Ok(m.Some? && m.value.kind == 0x04), [])
            else
              var limited := T.Allow(c, s.bucket, T.Call(now, |m.value.payload|));
              && o.state.bucket == limited.bucket && o.state.outbox == s.outbox
              && o.injections == (if limited.allowed then [Injection(m.value.payload, now)] else [])
              && o.answer == Ok(limited.allowed && sent)
              && o.state.stats == s.stats.(
                   droppedRate := s.stats.droppedRate + (if limited.allowed then 0 else 1),
                   injected := s.stats.injected + (if limited.allowed && sent then 1 else 0))
  {
    hide T.Allow, AddEntry, RecordSeen, ParseFrame;
  }

  // ---- runs ---------------------------------------------------------------------------------

  // The frames that the rate limit was asked about.
  function CallOf(e: Event, s: State): (call: Option<T.Call>)
  {
    if e.Capture? && e.accepted && !Duplicate(s.seen, e.frame, e.now) then Some(T.Call(e.now, |e.frame|))
    else if e.FromRelay? && ParseFrame(e.data).Some? && ParseFrame(e.data).value.kind == 0x20 then
      Some(T.Call(e.now, |ParseFrame(e.data).value.payload|))
    else None
  }

  function Calls(c: T.Config, h: seq<Event>): seq<T.Call> {
    if h == [] then []
    else
      var p, e := h[..|h| - 1], h[|h| - 1];
      var call := CallOf(e, After(c, p));
      Calls(c, p) + if call.Some? then [call.value] else []
  }

  // The limit is that of one bucket for both directions, in the order of the events.
  lemma {:induction false} OneBucket(c: T.Config, h: seq<Event>)
    ensures After(c, h).bucket == T.Run(c, T.Fresh(c), Calls(c, h))
    decreases |h|
  {
    hide T.Allow, Duplicate, ParseFrame, OnCapture, OnMessage, OnReplay, T.Run, T.Fresh;
    if h == [] {
      NoCalls(c);
    } else {
      var p, e := h[..|h| - 1], h[|h| - 1];
      var s := After(c, p);
      OneBucket(c, p);
      BucketStep(c, s, e);
      var call := CallOf(e, s);
      if call.Some? {
        T.RunAppend(c, T.Fresh(c), Calls(c, p), [call.value]);
        RunOne(c, s.bucket, call.value);
      } else {
        assert Calls(c, p) + [] == Calls(c, p);
      }
    }
  }

  lemma NoCalls(c: T.Config)
    ensures After(c, []).bucket == T.Run(c, T.Fresh(c), Calls(c, []))
  {
  }

  lemma RunOne(c: T.Config, b: T.Bucket, call: T.Call)
    ensures T.Run(c, b, [call]) == T.Allow(c, b, call).bucket
  {
    assert [call][1..] == [];
  }

  lemma BucketStep(c: T.Config, s: State, e: Event)
    ensures var call := CallOf(e, s);
            Step(c, s, e).state.bucket == if call.Some? then T.Allow(c, s.bucket, call.value).bucket else s.bucket
  {
    hide T.Allow, Duplicate, ParseFrame, AddEntry, RecordSeen, PruneSeen, RecordAll, Unexpired;
    match e
    case Capture(f, accepted, beacon, now) => CaptureExactly(c, s, f, accepted, beacon, now);
    case FromRelay(data, beacon, sent, now) => MessageExactly(c, s, data, beacon, sent, now);
    case _ =>
  }

  // What an event adds to the counters, by its kind, its answer and the rate limit.
  function Counts(c: T.Config, s: State, e: Event): (n: Stats)
  {
    var o, call := Step(c, s, e), CallOf(e, s);
    var over := call.Some? && !T.Allow(c, s.bucket, call.value).allowed;
    Stats(if e.Capture? then 1 else 0,
          if e.Capture? && o.answer == Ok(true) then 1 else 0,
          if e.FromRelay? && o.answer == Ok(true) && o.injections != [] then 1 else 0,
          if e.Capture? && !e.accepted then 1 else 0,
          if e.Capture? && e.accepted && Duplicate(s.seen, e.frame, e.now) then 1 else 0,
          if e.Capture? && o.answer == Ok(true) && |s.outbox| == 200 then 1 else 0,
          if over then 1 else 0)
  }

  function Plus(a: Stats, b: Stats): Stats {
    Stats(a.captured + b.captured, a.relayedOut + b.relayedOut, a.injected + b.injected,
          a.droppedFilter + b.droppedFilter, a.droppedEcho + b.droppedEcho, a.droppedBacklog + b.droppedBacklog,
          a.droppedRate + b.droppedRate)
  }

  function Total(c: T.Config, h: seq<Event>): Stats {
    if h == [] then NO_STATS
    else Plus(Total(c, h[..|h| - 1]), Counts(c, After(c, h[..|h| - 1]), h[|h| - 1]))
  }

  lemma StepCounts(c: T.Config, s: State, e: Event)
    requires |s.outbox| <= 200
    ensures Step(c, s, e).state.stats == Plus(s.stats, Counts(c, s, e))
  {
    hide T.Allow, Duplicate, ParseFrame, AddEntry, RecordSeen, PruneSeen, RecordAll, Unexpired;
    match e
    case Capture(f, accepted, beacon, now) =>
      CaptureExactly(c, s, f, accepted, beacon, now);
      CaptureOutbox(c, s, f, accepted, beacon, now);
    case FromRelay(data, beacon, sent, now) => MessageExactly(c, s, data, beacon, sent, now);
    case _ =>
  }

  // After any run every counter is the number of events that it counts.
  lemma {:induction false} StatsAreCounts(c: T.Config, h: seq<Event>)
    ensures After(c, h).stats == Total(c, h)
    decreases |h|
  {
    hide Step, Counts;
    if h != [] {
      StatsAreCounts(c, h[..|h| - 1]);
      OutboxHolds(c, h[..|h| - 1]);
      StepCounts(c, After(c, h[..|h| - 1]), h[|h| - 1]);
    }
  }

  // After any run, on a clock that does not go back, an accepted capture that was not injected within
  // the window and is not over the rate goes into the outbox, if it fits a relay frame; no other does.
  lemma RelayedExactly(c: T.Config, h: seq<Event>, f: Frame, accepted: bool, beacon: bool, now: real)
    requires RelayBridges.Advancing(h + [Capture(f, accepted, beacon, now)])
    ensures var s := After(c, h);
            var o := Step(c, s, Capture(f, accepted, beacon, now));
            o.answer == Ok(true) <==>
              && accepted && !Echo(Log(c, h), f, now) && |f| <= 65535
              && T.Allow(c, T.Run(c, T.Fresh(c), Calls(c, h)), T.Call(now, |f|)).allowed
  {
    hide T.Allow, T.Run, Duplicate, After, Log, Calls, Remembers, Timely;
    var all := h + [Capture(f, accepted, beacon, now)];
    assert RelayBridges.Advancing(h) && (h != [] ==> h[|h| - 1].now <= now) by {
      assert forall i :: 0 <= i < |h| ==> all[i] == h[i];
      assert all[|h|].now == now;
    }
    OneBucket(c, h);
    GuardRemembers(c, h, now);
    DuplicateExactly(After(c, h).seen, Log(c, h), now, f, now);
    CaptureExactly(c, After(c, h), f, accepted, beacon, now);
  }
}
