/**
 The token bucket of bridge/framerelay/rate_limit.py, over real time: a call spends one token,
 and tokens come back at a constant rate up to the burst.
 */
module TokenBuckets {
  import opened Common

  datatype Config = Config(rate: real, burst: real, logs: bool, warnInterval: real)

  datatype Stats = Stats(frames: nat, allowed: nat, dropped: nat, bytesIn: nat, bytesAllowed: nat, bytesDropped: nat)

  // The times of the warnings stand for the lines written to the log.
  datatype Bucket = Bucket(tokens: real, last: Option<real>, lastWarn: Option<real>, stats: Stats, warned: seq<real>)

  datatype Call = Call(now: real, frameLen: int)

  datatype Answer = Answer(bucket: Bucket, allowed: bool)

  predicate ConfigOk(c: Config) {
    c.rate > 0.0 && c.burst >= 1.0
  }

  const ZERO := Stats(0, 0, 0, 0, 0, 0)

  function Fresh(c: Config): Bucket {
    Bucket(c.burst, None, None, ZERO, [])
  }

  function Min(a: real, b: real): real {
    if a <= b then a else b
  }

  // What the rate brings in a stretch of time.
  function Yield(c: Config, t: real): real {
    t * c.rate
  }

  // Only time that moves forward brings tokens.
  function Refilled(c: Config, b: Bucket, now: real): (tokens: real)
  {
    if b.last.Some? && now > b.last.value then Min(c.burst, b.tokens + Yield(c, now - b.last.value))
    else b.tokens
  }

  function Length(call: Call): nat {
    if call.frameLen > 0 then call.frameLen else 0
  }

  function Counted(s: Stats, len: nat, allowed: bool): Stats {
    if allowed then
      s.(frames := s.frames + 1, bytesIn := s.bytesIn + len,
         allowed := s.allowed + 1, bytesAllowed := s.bytesAllowed + len)
    else
      s.(frames := s.frames + 1, bytesIn := s.bytesIn + len,
         dropped := s.dropped + 1, bytesDropped := s.bytesDropped + len)
  }

  predicate Warns(c: Config, b: Bucket, now: real) {
    c.logs && (b.lastWarn.None? || now - b.lastWarn.value >= c.warnInterval)
  }

  function Allow(c: Config, b: Bucket, call: Call): (a: Answer)
  {
    var tokens := Refilled(c, b, call.now);
    var ok := tokens >= 1.0;
    var next := b.(tokens := if ok then tokens - 1.0 else tokens, last := Some(call.now),
                   stats := Counted(b.stats, Length(call), ok));
    Answer(if !ok && Warns(c, b, call.now) then
             next.(lastWarn := Some(call.now), warned := b.warned + [call.now])
           else next,
           ok)
  }

  function Run(c: Config, b: Bucket, calls: seq<Call>): (end: Bucket)
    decreases |calls|
  {
    if calls == [] then b else Run(c, Allow(c, b, calls[0]).bucket, calls[1..])
  }

  // How many of the calls are allowed.
  function Passed(c: Config, b: Bucket, calls: seq<Call>): (n: nat)
    decreases |calls|
  {
    if calls == [] then 0
    else (if Allow(c, b, calls[0]).allowed then 1 else 0) + Passed(c, Allow(c, b, calls[0]).bucket, calls[1..])
  }

  // How far the clock moves forward between the calls, jumps backward not counted.
  function Forward(calls: seq<Call>): (t: real)
    ensures t >= 0.0
  {
    if |calls| <= 1 then 0.0
    else (if calls[1].now > calls[0].now then calls[1].now - calls[0].now else 0.0) + Forward(calls[1..])
  }

  predicate Ordered(calls: seq<Call>) {
    forall i, j :: 0 <= i < j < |calls| ==> calls[i].now <= calls[j].now
  }

  lemma {:induction false} ForwardOfOrdered(calls: seq<Call>)
    requires calls != [] && Ordered(calls)
    ensures Forward(calls) == calls[|calls| - 1].now - calls[0].now
  {
    if |calls| > 1 {
      assert Ordered(calls[1..]) by {
        forall i, j | 0 <= i < j < |calls[1..]| ensures calls[1..][i].now <= calls[1..][j].now {
          assert calls[1..][i] == calls[i + 1] && calls[1..][j] == calls[j + 1];
        }
      }
      ForwardOfOrdered(calls[1..]);
    }
  }

  // ---- the bound ----------------------------------------------------------------------------

  predicate Within(c: Config, b: Bucket) {
    0.0 <= b.tokens <= c.burst
  }

  lemma YieldGrows(c: Config, s: real, t: real)
    requires ConfigOk(c) && t >= 0.0
    ensures Yield(c, s + t) == Yield(c, s) + Yield(c, t) && Yield(c, t) >= 0.0
    ensures Yield(c, 0.0) == 0.0
  {
  }

  lemma RefillWithin(c: Config, b: Bucket, now: real)
    requires ConfigOk(c) && Within(c, b)
    ensures b.tokens <= Refilled(c, b, now) <= c.burst
    ensures b.last.Some? && now > b.last.value ==> Refilled(c, b, now) <= b.tokens + Yield(c, now - b.last.value)
  {
    if b.last.Some? && now > b.last.value {
      YieldGrows(c, 0.0, now - b.last.value);
    }
  }

  // Whatever the clock does, tokens stay between nothing and the burst.
  lemma {:induction false} TokensStayWithin(c: Config, b: Bucket, calls: seq<Call>)
    requires ConfigOk(c) && Within(c, b)
    ensures Within(c, Run(c, b, calls))
    decreases |calls|
  {
    if calls != [] {
      RefillWithin(c, b, calls[0].now);
      TokensStayWithin(c, Allow(c, b, calls[0]).bucket, calls[1..]);
    }
  }

  lemma {:induction false} PassedBound(c: Config, b: Bucket, calls: seq<Call>)
    requires ConfigOk(c) && Within(c, b) && calls != []
    ensures Passed(c, b, calls) as real <= Refilled(c, b, calls[0].now) + Yield(c, Forward(calls))
    decreases |calls|
  {
    hide Yield;
    RefillWithin(c, b, calls[0].now);
    YieldGrows(c, 0.0, 0.0);
    var a := Allow(c, b, calls[0]);
    if |calls| == 1 {
      assert calls[1..] == [];
    } else {
      var rest := calls[1..];
      PassedBound(c, a.bucket, rest);
      RefillWithin(c, a.bucket, rest[0].now);
      var step := if rest[0].now > calls[0].now then rest[0].now - calls[0].now else 0.0;
      assert Forward(calls) == step + Forward(rest);
      YieldGrows(c, step, Forward(rest));
    }
  }

  lemma {:induction false} RunAppend(c: Config, b: Bucket, first: seq<Call>, rest: seq<Call>)
    ensures Run(c, b, first + rest) == Run(c, Run(c, b, first), rest)
    decreases |first|
  {
    if first == [] {
      assert first + rest == rest;
    } else {
      assert (first + rest)[1..] == first[1..] + rest;
      RunAppend(c, Allow(c, b, first[0]).bucket, first[1..], rest);
    }
  }

  // In any window of the calls, on any clock, no more are allowed than the burst and what the
  // rate yields while the clock moves forward; on a clock that never goes back that is the length
  // of the window.
  lemma WindowBound(c: Config, before: seq<Call>, window: seq<Call>)
    requires ConfigOk(c) && window != []
    ensures var b := Run(c, Fresh(c), before);
            && Passed(c, b, window) as real <= c.burst + Yield(c, Forward(window))
            && (Ordered(window) ==>
                  Passed(c, b, window) as real <= c.burst + (window[|window| - 1].now - window[0].now) * c.rate)
  {
    hide Run, Passed, Ordered, Forward, Refilled;
    var b := Run(c, Fresh(c), before);
    TokensStayWithin(c, Fresh(c), before);
    PassedBound(c, b, window);
    RefillWithin(c, b, window[0].now);
    if Ordered(window) {
      ForwardOfOrdered(window);
    }
  }

  // Calls that keep the rate are never refused.
  predicate Spaced(c: Config, calls: seq<Call>) {
    forall i :: 0 <= i < |calls| - 1
      ==> calls[i].now < calls[i + 1].now && Yield(c, calls[i + 1].now - calls[i].now) >= 1.0
  }

  lemma {:induction false} SpacedPass(c: Config, b: Bucket, calls: seq<Call>)
    requires ConfigOk(c) && Within(c, b) && Spaced(c, calls)
    requires calls != [] ==> Refilled(c, b, calls[0].now) >= 1.0
    ensures Passed(c, b, calls) == |calls|
    decreases |calls|
  {
    hide Yield;
    if calls != [] {
      RefillWithin(c, b, calls[0].now);
      var a := Allow(c, b, calls[0]).bucket;
      var rest := calls[1..];
      assert Spaced(c, rest) by {
        forall i | 0 <= i < |rest| - 1
          ensures rest[i].now < rest[i + 1].now && Yield(c, rest[i + 1].now - rest[i].now) >= 1.0
        {
          assert rest[i] == calls[i + 1] && rest[i + 1] == calls[i + 2];
        }
      }
      if rest != [] {
        assert rest[0] == calls[1] && calls[0].now < calls[1].now && Yield(c, calls[1].now - calls[0].now) >= 1.0;
      }
      SpacedPass(c, a, rest);
    }
  }

  lemma SteadyTrafficPasses(c: Config, calls: seq<Call>)
    requires ConfigOk(c) && Spaced(c, calls)
    ensures Passed(c, Fresh(c), calls) == |calls|
  {
    SpacedPass(c, Fresh(c), calls);
  }

  // ---- counters and warnings ----------------------------------------------------------------

  function TotalLength(calls: seq<Call>): nat {
    if calls == [] then 0 else Length(calls[0]) + TotalLength(calls[1..])
  }

  predicate Balanced(s: Stats) {
    s.frames == s.allowed + s.dropped && s.bytesIn == s.bytesAllowed + s.bytesDropped
  }

  // Every frame and every byte of the calls is counted once, as allowed or as dropped.
  lemma {:induction false} CountersConserved(c: Config, b: Bucket, calls: seq<Call>)
    requires Balanced(b.stats)
    ensures var s, t := b.stats, Run(c, b, calls).stats;
            && Balanced(t)
            && t.frames == s.frames + |calls| && t.bytesIn == s.bytesIn + TotalLength(calls)
            && t.allowed == s.allowed + Passed(c, b, calls)
    decreases |calls|
  {
    if calls != [] {
      CountersConserved(c, Allow(c, b, calls[0]).bucket, calls[1..]);
    }
  }

  // The last warning is remembered, and warnings keep their distance.
  predicate Sparse(c: Config, b: Bucket) {
    && (b.warned != [] ==> b.lastWarn == Some(b.warned[|b.warned| - 1]))
    && (forall i :: 0 <= i < |b.warned| - 1 ==> b.warned[i + 1] - b.warned[i] >= c.warnInterval)
    && (b.lastWarn.Some? ==> b.warned != [])
  }

  lemma {:induction false} WarningsAreSparse(c: Config, b: Bucket, calls: seq<Call>)
    requires Sparse(c, b)
    ensures Sparse(c, Run(c, b, calls))
    decreases |calls|
  {
    if calls != [] {
      WarningsAreSparse(c, Allow(c, b, calls[0]).bucket, calls[1..]);
    }
  }

  // ---- the object ---------------------------------------------------------------------------

  class TokenBucket {
    const config: Config
    var tokens: real
    var last: Option<real>
    var lastWarn: Option<real>
    var stats: Stats
    var warned: seq<real>

    ghost function View(): Bucket
      reads this
    {
      Bucket(tokens, last, lastWarn, stats, warned)
    }

    constructor (c: Config)
      requires ConfigOk(c)
      ensures config == c && View() == Fresh(c)
    {
      config := c;
      tokens, last, lastWarn, stats, warned := c.burst, None, None, ZERO, [];
    }

    // A bucket, unless the rate or the burst makes no sense; the burst defaults to the rate.
    static method Make(rate: real, burst: Option<real>, logs: bool, warnInterval: real)
      returns (r: Result<TokenBucket, string>)
      ensures r.Ok? <==> rate > 0.0 && (if burst.Some? then burst.value else rate) >= 1.0
      ensures r.Ok? ==> fresh(r.value) && r.value.View() == Fresh(r.value.config)
      ensures r.Ok? ==> r.value.config == Config(rate, if burst.Some? then burst.value else rate, logs, warnInterval)
    {
      if rate <= 0.0 {
        return Err("rate must be positive");
      }
      var limit := if burst.None? then rate else burst.value;
      if limit < 1.0 {
        return Err("burst must admit at least one frame");
      }
      var bucket := new TokenBucket(Config(rate, limit, logs, warnInterval));
      return Ok(bucket);
    }

    method AllowFrame(now: real, frameLen: int) returns (allowed: bool)
      modifies this
      ensures Answer(View(), allowed) == Allow(config, old(View()), Call(now, frameLen))
    {
      if last.Some? && now > last.value {
        tokens := Min(config.burst, tokens + Yield(config, now - last.value));
      }
      last := Some(now);
      var len := if frameLen > 0 then frameLen else 0;
      stats := stats.(frames := stats.frames + 1, bytesIn := stats.bytesIn + len);
      if tokens >= 1.0 {
        tokens := tokens - 1.0;
        stats := stats.(allowed := stats.allowed + 1, bytesAllowed := stats.bytesAllowed + len);
        return true;
      }
      stats := stats.(dropped := stats.dropped + 1, bytesDropped := stats.bytesDropped + len);
      if config.logs && (lastWarn.None? || now - lastWarn.value >= config.warnInterval) {
        lastWarn := Some(now);
        warned := warned + [now];
      }
      return false;
    }
  }
}
