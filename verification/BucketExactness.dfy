/**
 What the token bucket allows: everything that keeps every window of calls within the burst and what
 the rate has yielded, and nothing else.
 */
module BucketExactness {
  import opened Common
  import opened TokenBuckets

  // The calls that are allowed among those from the i-th on.
  function PassedFrom(c: Config, calls: seq<Call>, i: nat): nat
    requires i <= |calls|
  {
    Passed(c, Run(c, Fresh(c), calls[..i]), calls[i..])
  }

  // What is left for a call of the window that starts with the i-th of the calls before it.
  function Room(c: Config, before: seq<Call>, call: Call, i: nat): real
    requires i <= |before|
  {
    c.burst + Yield(c, Forward(before[i..] + [call])) - PassedFrom(c, before, i) as real
  }

  lemma {:induction false} PassedLast(c: Config, b: Bucket, calls: seq<Call>, call: Call)
    ensures Passed(c, b, calls + [call])
            == Passed(c, b, calls) + (if Allow(c, Run(c, b, calls), call).allowed then 1 else 0)
    decreases |calls|
  {
    hide Allow;
    if calls == [] {
      assert (calls + [call])[1..] == [] && calls + [call] == [call];
    } else {
      assert (calls + [call])[1..] == calls[1..] + [call];
      PassedLast(c, Allow(c, b, calls[0]).bucket, calls[1..], call);
    }
  }

  // The time the clock moves forward between two calls.
  function Gap(first: Call, second: Call): (t: real)
    ensures t >= 0.0
  {
    if second.now > first.now then second.now - first.now else 0.0
  }

  lemma {:induction false} ForwardLast(calls: seq<Call>, d: Call, call: Call)
    ensures Forward(calls + [d] + [call]) == Forward(calls + [d]) + Gap(d, call)
    decreases |calls|
  {
    var all := calls + [d] + [call];
    if calls == [] {
      assert all[1..] == [call] && calls + [d] == [d];
    } else {
      assert all[1..] == calls[1..] + [d] + [call] && (calls + [d])[1..] == calls[1..] + [d];
      assert all[1] == (calls + [d])[1] && all[0] == calls[0];
      ForwardLast(calls[1..], d, call);
    }
  }

  lemma RunLast(c: Config, calls: seq<Call>, d: Call)
    ensures Run(c, Fresh(c), calls + [d]) == Allow(c, Run(c, Fresh(c), calls), d).bucket
  {
    hide Allow;
    RunAppend(c, Fresh(c), calls, [d]);
    assert [d][1..] == [];
  }

  // One more call uses up the room of every window that goes on, and the newest one has all of it.
  lemma RoomNext(c: Config, before: seq<Call>, d: Call, call: Call, i: nat)
    requires i <= |before|
    ensures Room(c, before + [d], call, i)
            == Room(c, before, d, i) + Yield(c, Gap(d, call))
               - (if Allow(c, Run(c, Fresh(c), before), d).allowed then 1.0 else 0.0)
  {
    hide Allow, Run, Passed, Forward;
    var all := before + [d];
    assert all[..i] == before[..i] && all[i..] == before[i..] + [d];
    assert before == before[..i] + before[i..];
    RunAppend(c, Fresh(c), before[..i], before[i..]);
    PassedLast(c, Run(c, Fresh(c), before[..i]), before[i..], d);
    ForwardLast(before[i..], d, call);
    YieldAdds(c, Forward(before[i..] + [d]), Gap(d, call));
  }

  lemma YieldAdds(c: Config, s: real, t: real)
    ensures Yield(c, s + t) == Yield(c, s) + Yield(c, t)
  {
  }

  lemma RoomNewest(c: Config, before: seq<Call>, call: Call)
    ensures Room(c, before, call, |before|) == c.burst
  {
    assert before[|before|..] == [] && [] + [call] == [call];
    assert Yield(c, 0.0) == 0.0;
  }

  // The tokens there are for a call.
  function Level(c: Config, before: seq<Call>, call: Call): real {
    Refilled(c, Run(c, Fresh(c), before), call.now)
  }

  lemma LevelNext(c: Config, before: seq<Call>, d: Call, call: Call)
    requires ConfigOk(c)
    ensures var left := Level(c, before, d) - (if Allow(c, Run(c, Fresh(c), before), d).allowed then 1.0 else 0.0);
            var filled := left + Yield(c, Gap(d, call));
            Level(c, before + [d], call) == if filled <= c.burst then filled else c.burst
  {
    hide Run;
    RunLast(c, before, d);
    TokensStayWithin(c, Fresh(c), before);
    RefillWithin(c, Run(c, Fresh(c), before), d.now);
    YieldGrows(c, 0.0, Gap(d, call));
  }

  // The level is the room of the window that has least.
  lemma {:induction false} LevelIsLeastRoom(c: Config, before: seq<Call>, call: Call)
    requires ConfigOk(c)
    ensures forall i :: 0 <= i <= |before| ==> Level(c, before, call) <= Room(c, before, call, i)
    ensures exists i :: 0 <= i <= |before| && Level(c, before, call) == Room(c, before, call, i)
    decreases |before|
  {
    hide Level, Room, Allow, Run, Yield;
    RoomNewest(c, before, call);
    if before == [] {
      FirstLevel(c, call);
      assert Level(c, before, call) == Room(c, before, call, 0);
    } else {
      var p, d := before[..|before| - 1], before[|before| - 1];
      assert before == p + [d];
      LevelIsLeastRoom(c, p, d);
      LevelNext(c, p, d, call);
      forall i | 0 <= i <= |before| ensures Level(c, before, call) <= Room(c, before, call, i) {
        if i < |before| {
          RoomNext(c, p, d, call, i);
        }
      }
      var i :| 0 <= i <= |p| && Level(c, p, d) == Room(c, p, d, i);
      RoomNext(c, p, d, call, i);
      if Level(c, before, call) == c.burst {
        assert Level(c, before, call) == Room(c, before, call, |before|);
      } else {
        assert Level(c, before, call) == Room(c, before, call, i);
      }
    }
  }

  lemma FirstLevel(c: Config, call: Call)
    ensures Level(c, [], call) == c.burst
  {
  }

  // A call is allowed if and only if every window of calls that ends with it, itself included, then
  // holds no more allowed calls than the burst and what the rate has yielded in the window.
  lemma AllowedExactly(c: Config, before: seq<Call>, call: Call)
    requires ConfigOk(c)
    ensures Allow(c, Run(c, Fresh(c), before), call).allowed <==>
              forall i :: 0 <= i <= |before| ==>
                PassedFrom(c, before, i) as real + 1.0 <= c.burst + Yield(c, Forward(before[i..] + [call]))
  {
    hide Run, Passed, Yield, Forward;
    LevelIsLeastRoom(c, before, call);
    assert Allow(c, Run(c, Fresh(c), before), call).allowed <==> Level(c, before, call) >= 1.0;
    assert forall i :: 0 <= i <= |before| ==>
        (Room(c, before, call, i) >= 1.0
         <==> PassedFrom(c, before, i) as real + 1.0 <= c.burst + Yield(c, Forward(before[i..] + [call])));
  }

  // A refused call is warned of exactly when there is a log and the last warning, if any, is long
  // enough ago; an allowed one never.
  lemma {:induction false} WarnsExactly(c: Config, before: seq<Call>, call: Call)
    requires ConfigOk(c)
    ensures var b := Run(c, Fresh(c), before);
            var a := Allow(c, b, call);
            a.bucket.warned == b.warned
                               + (if !a.allowed && c.logs
                                     && (b.warned == [] || call.now - b.warned[|b.warned| - 1] >= c.warnInterval)
                                  then [call.now] else [])
  {
    hide Run, Refilled;
    WarningsAreSparse(c, Fresh(c), before);
  }

  // Negative lengths count as nothing.
  lemma BytesExactly(c: Config, b: Bucket, call: Call)
    ensures var t := Allow(c, b, call).bucket.stats;
            && t.frames == b.stats.frames + 1
            && t.bytesIn == b.stats.bytesIn + (if call.frameLen < 0 then 0 else call.frameLen)
  {
  }

  lemma NothingCounted(c: Config)
    ensures Fresh(c).stats == Stats(0, 0, 0, 0, 0, 0) && Balanced(Fresh(c).stats)
  {
  }

  lemma {:induction false} CountedFrom(c: Config, b: Bucket, calls: seq<Call>)
    requires Balanced(b.stats) && b.stats.frames == 0 && b.stats.allowed == 0 && b.stats.bytesIn == 0
    ensures var t := Run(c, b, calls).stats;
            && t.frames == |calls| && t.allowed == Passed(c, b, calls) && t.dropped == |calls| - t.allowed
            && t.bytesIn == TotalLength(calls) && t.bytesDropped == t.bytesIn - t.bytesAllowed
  {
    CountersConserved(c, b, calls);
  }

  // A new bucket has counted nothing, so its counters tell how often and how much.
  lemma {:induction false} CountedExactly(c: Config, calls: seq<Call>)
    ensures var t := Run(c, Fresh(c), calls).stats;
            && t.frames == |calls| && t.allowed == Passed(c, Fresh(c), calls) && t.dropped == |calls| - t.allowed
            && t.bytesIn == TotalLength(calls) && t.bytesDropped == t.bytesIn - t.bytesAllowed
  {
    hide *;
    NothingCounted(c);
    CountedFrom(c, Fresh(c), calls);
  }
}
