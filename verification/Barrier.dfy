/**
 The standby and close-link barrier of bridge/frlgsim/barrier.py: the child's half of the protocol
 by which two link partners agree that a round is over.
 */
module Barriers {
  import opened Common

  const READY_EXIT_STANDBY := 0x6600
  const READY_CLOSE_LINK := 0x5F00
  const INITIATE_TIMEOUT := 120
  const IDLE_TIMEOUT := 90

  datatype Mode = Idle | Standby | Close

  // At most `maxEmits` frames are sent for one count; `burstFor` is the count of the current burst.
  datatype Burst = Burst(maxEmits: Option<nat>, burstFor: Option<nat>, sent: nat)

  datatype State = State(
    mode: Mode, initiated: bool, hostCount: Option<nat>, localCount: nat,
    sinceHost: nat, sinceInitiate: nat, rounds: nat, burst: Burst)

  datatype Event =
    | Initiate(kind: Mode)
    | HostStandby(count: nat)
    | HostClose(count: nat)
    | Frame(sawBarrier: bool)
    | Reset
    | Emit

  // What a step answers: a completed round, or the words it sends.
  datatype Answer = Nothing | Completed | Words(op: int, count: int)

  datatype Result = Result(state: State, answer: Answer)

  function Fresh(maxEmits: Option<nat>): State {
    State(Idle, false, None, 0, 0, 0, 0, Burst(maxEmits, None, 0))
  }

  function BeginBarrier(s: State, kind: Mode): State {
    if kind == Close then
      if s.mode != Close then s.(mode := Close, initiated := true, sinceHost := 0, sinceInitiate := 0) else s
    else if s.mode == Standby then s
    else
      s.(mode := Standby, initiated := true, hostCount := None, sinceHost := 0, sinceInitiate := 0,
         burst := s.burst.(burstFor := None))
  }

  function OnHostStandby(s: State, count: nat): Result {
    var heard := s.(sinceHost := 0, hostCount := Some(count));
    if s.initiated && s.mode == Standby then
      if count == s.localCount then
        Result(heard.(localCount := s.localCount + 1, rounds := s.rounds + 1, mode := Idle, initiated := false,
                      sinceInitiate := 0),
               Completed)
      else Result(heard, Nothing)
    else if count < s.localCount then Result(heard, Nothing)
    else
      var advanced := s.mode == Standby && s.hostCount.Some? && count != s.hostCount.value;
      Result(heard.(mode := Standby, initiated := if s.mode != Standby then false else s.initiated,
                    rounds := if advanced then s.rounds + 1 else s.rounds, localCount := count, sinceInitiate := 0),
             Nothing)
  }

  function OnHostClose(s: State, count: nat): State {
    s.(sinceHost := 0, hostCount := Some(count), localCount := count,
       mode := Close, initiated := if s.mode != Close then false else s.initiated)
  }

  function ObserveFrame(s: State, sawBarrier: bool): State {
    if s.mode != Standby then s
    else if sawBarrier then s.(sinceHost := 0, sinceInitiate := 0)
    else
      var t := s.(sinceHost := s.sinceHost + 1);
      if s.initiated then
        var u := t.(sinceInitiate := s.sinceInitiate + 1);
        if u.sinceInitiate > INITIATE_TIMEOUT then u.(mode := Idle, initiated := false) else u
      else if t.sinceHost > IDLE_TIMEOUT then
        t.(localCount := s.localCount + 1, rounds := s.rounds + 1, mode := Idle)
      else t
  }

  function ResetToIdle(s: State): State {
    if s.mode == Standby then
      s.(mode := Idle, initiated := false, sinceInitiate := 0, burst := s.burst.(burstFor := None))
    else s
  }

  function WordsFor(s: State): Answer {
    Words(if s.mode == Standby then READY_EXIT_STANDBY else READY_CLOSE_LINK, s.localCount % 0x1_0000)
  }

  function WantEmit(s: State): Result {
    if s.mode == Idle then Result(s, Nothing)
    else if s.burst.maxEmits.None? then Result(s, WordsFor(s))
    else
      var b := if s.burst.burstFor == Some(s.localCount) then s.burst
               else s.burst.(burstFor := Some(s.localCount), sent := 0);
      if b.sent >= b.maxEmits.value then Result(s.(burst := b), Nothing)
      else Result(s.(burst := b.(sent := b.sent + 1)), WordsFor(s))
  }

  function Step(s: State, e: Event): (r: Result)
  {
    match e
    case Initiate(kind) => Result(BeginBarrier(s, kind), Nothing)
    case HostStandby(count) => OnHostStandby(s, count)
    case HostClose(count) => Result(OnHostClose(s, count), Nothing)
    case Frame(sawBarrier) => Result(ObserveFrame(s, sawBarrier), Nothing)
    case Reset => Result(ResetToIdle(s), Nothing)
    case Emit => WantEmit(s)
  }

  function Run(s: State, es: seq<Event>): (t: State)
    decreases |es|
  {
    if es == [] then s else Run(Step(s, es[0]).state, es[1..])
  }

  // ---- counts -------------------------------------------------------------------------------

  // One more than the largest count the host has sent, at least `bound`.
  function Heard(bound: nat, es: seq<Event>): (b: nat)
    ensures b >= bound
    decreases |es|
  {
    if es == [] then bound
    else
      var c := if es[0].HostStandby? || es[0].HostClose? then es[0].count + 1 else 0;
      Heard(if c > bound then c else bound, es[1..])
  }

  // A round that the host leads is answered with a count the host has sent.
  predicate Bounded(s: State, bound: nat) {
    s.localCount <= bound && (s.mode == Standby && !s.initiated ==> s.localCount < bound)
  }

  lemma {:induction false} BoundedRun(s: State, es: seq<Event>, bound: nat)
    requires Bounded(s, bound)
    ensures Bounded(Run(s, es), Heard(bound, es))
    decreases |es|
  {
    if es != [] {
      var e := es[0];
      var c := if e.HostStandby? || e.HostClose? then e.count + 1 else 0;
      BoundedRun(Step(s, e).state, es[1..], if c > bound then c else bound);
    }
  }

  lemma {:induction false} HeardIsReached(bound: nat, es: seq<Event>)
    ensures Heard(bound, es) == bound
            || exists i :: 0 <= i < |es| && (es[i].HostStandby? || es[i].HostClose?)
                           && es[i].count + 1 == Heard(bound, es)
    decreases |es|
  {
    if es != [] {
      var c := if es[0].HostStandby? || es[0].HostClose? then es[0].count + 1 else 0;
      var next := if c > bound then c else bound;
      HeardIsReached(next, es[1..]);
      if Heard(next, es[1..]) != next {
        var i :| 0 <= i < |es[1..]| && (es[1..][i].HostStandby? || es[1..][i].HostClose?)
                 && es[1..][i].count + 1 == Heard(next, es[1..]);
        assert es[i + 1] == es[1..][i];
      } else if c > bound {
        assert es[0].count + 1 == Heard(bound, es);
      }
    }
  }

  // The local count is never more than one above a count received from the host.
  lemma CountFollowsHost(maxEmits: Option<nat>, es: seq<Event>)
    ensures Run(Fresh(maxEmits), es).localCount == 0
            || exists i :: 0 <= i < |es| && (es[i].HostStandby? || es[i].HostClose?)
                           && Run(Fresh(maxEmits), es).localCount <= es[i].count + 1
  {
    BoundedRun(Fresh(maxEmits), es, 0);
    HeardIsReached(0, es);
  }

  // Only a close with a lower count makes it fall.
  lemma CountFallsOnlyAtClose(s: State, e: Event)
    ensures Step(s, e).state.localCount < s.localCount <==> e.HostClose? && e.count < s.localCount
  {
  }

  lemma {:induction false} CountClimbsBeforeClose(s: State, es: seq<Event>)
    requires forall i :: 0 <= i < |es| ==> !es[i].HostClose?
    ensures s.localCount <= Run(s, es).localCount
    decreases |es|
  {
    if es != [] {
      CountFallsOnlyAtClose(s, es[0]);
      CountClimbsBeforeClose(Step(s, es[0]).state, es[1..]);
    }
  }

  // A round is confirmed exactly by the host's echo of the count we initiated with; giving up on it
  // leaves the count alone, while the end of a round the host led counts it.
  lemma RoundsThatCount(s: State, e: Event)
    ensures Step(s, e).answer == Completed <==>
              e.HostStandby? && s.mode == Standby && s.initiated && e.count == s.localCount
    ensures s.mode == Standby && s.initiated && e.Frame? ==> Step(s, e).state.localCount == s.localCount
    ensures s.mode == Standby && !s.initiated && e.Frame? && Step(s, e).state.mode == Idle ==>
              Step(s, e).state.localCount == s.localCount + 1
  {
  }

  // ---- a barrier ends when the host is silent -----------------------------------------------

  // How many silent frames an open standby still waits.
  predicate Patient(s: State) {
    s.mode == Standby ==> if s.initiated then s.sinceInitiate <= INITIATE_TIMEOUT else s.sinceHost <= IDLE_TIMEOUT
  }

  function Remaining(s: State): int {
    if s.initiated then INITIATE_TIMEOUT + 1 - s.sinceInitiate else IDLE_TIMEOUT + 1 - s.sinceHost
  }

  lemma {:induction false} AlwaysPatient(s: State, es: seq<Event>)
    requires Patient(s)
    ensures Patient(Run(s, es))
    decreases |es|
  {
    if es != [] {
      AlwaysPatient(Step(s, es[0]).state, es[1..]);
    }
  }

  // The host says nothing, and the engine only asks what to send.
  predicate Quiet(es: seq<Event>) {
    forall i :: 0 <= i < |es| ==> es[i] == Frame(false) || es[i] == Emit
  }

  function Silence(es: seq<Event>): nat {
    if es == [] then 0 else (if es[0] == Frame(false) then 1 else 0) + Silence(es[1..])
  }

  lemma {:induction false} IdleStaysIdle(s: State, es: seq<Event>)
    requires s.mode != Standby && Quiet(es)
    ensures Run(s, es).mode == s.mode
    decreases |es|
  {
    if es != [] {
      IdleStaysIdle(Step(s, es[0]).state, es[1..]);
    }
  }

  lemma {:induction false} SilenceEndsStandby(s: State, es: seq<Event>)
    requires Patient(s) && s.mode == Standby && Quiet(es)
    ensures Run(s, es).mode == if Silence(es) < Remaining(s) then Standby else Idle
    decreases |es|
  {
    if es != [] {
      var t := Step(s, es[0]).state;
      if t.mode == Standby {
        SilenceEndsStandby(t, es[1..]);
      } else {
        IdleStaysIdle(t, es[1..]);
      }
    }
  }

  // From any point of any run, a standby is over after 121 silent frames if we initiated it, and
  // after 91 if the host did; and it is over no sooner than its patience lasts.
  lemma StandbyEnds(maxEmits: Option<nat>, before: seq<Event>, es: seq<Event>)
    requires var s := Run(Fresh(maxEmits), before); s.mode == Standby && Quiet(es)
    ensures var s := Run(Fresh(maxEmits), before);
            && 1 <= Remaining(s) <= (if s.initiated then 121 else 91)
            && (Run(s, es).mode == Idle <==> Silence(es) >= Remaining(s))
  {
    var s := Run(Fresh(maxEmits), before);
    AlwaysPatient(Fresh(maxEmits), before);
    SilenceEndsStandby(s, es);
  }

  // ---- bursts -------------------------------------------------------------------------------

  function Sent(s: State, es: seq<Event>): nat
    decreases |es|
  {
    if es == [] then 0
    else (if Step(s, es[0]).answer.Words? then 1 else 0) + Sent(Step(s, es[0]).state, es[1..])
  }

  // The events that start a burst afresh: opening a standby that is not open, and dropping one
  // that is.
  predicate Rekeys(s: State, e: Event) {
    (e.Initiate? && e.kind != Close && s.mode != Standby) || (e.Reset? && s.mode == Standby)
  }

  // A stretch of a run in which the count stays the same and no burst is started afresh.
  predicate OneBurst(s: State, es: seq<Event>)
    decreases |es|
  {
    es == [] ||
    (&& !Rekeys(s, es[0])
     && Step(s, es[0]).state.localCount == s.localCount
     && OneBurst(Step(s, es[0]).state, es[1..]))
  }

  function Left(s: State): int
    requires s.burst.maxEmits.Some?
  {
    if s.burst.burstFor == Some(s.localCount) then s.burst.maxEmits.value - s.burst.sent else s.burst.maxEmits.value
  }

  predicate BurstOk(s: State) {
    s.burst.maxEmits.Some? && s.burst.burstFor.Some? ==> s.burst.sent <= s.burst.maxEmits.value
  }

  lemma {:induction false} BurstsStayOk(s: State, es: seq<Event>)
    requires BurstOk(s)
    ensures BurstOk(Run(s, es)) && Run(s, es).burst.maxEmits == s.burst.maxEmits
    decreases |es|
  {
    if es != [] {
      BurstsStayOk(Step(s, es[0]).state, es[1..]);
    }
  }

  lemma {:induction false} BurstSends(s: State, es: seq<Event>)
    requires BurstOk(s) && s.burst.maxEmits.Some? && OneBurst(s, es)
    ensures Sent(s, es) <= Left(s) <= s.burst.maxEmits.value
    decreases |es|
  {
    if es != [] {
      BurstSends(Step(s, es[0]).state, es[1..]);
    }
  }

  // With a limit of k, no burst of any run sends more than k frames.
  lemma BurstsAreBounded(k: nat, before: seq<Event>, es: seq<Event>)
    requires OneBurst(Run(Fresh(Some(k)), before), es)
    ensures Sent(Run(Fresh(Some(k)), before), es) <= k
  {
    BurstsStayOk(Fresh(Some(k)), before);
    BurstSends(Run(Fresh(Some(k)), before), es);
  }

  // Without a limit, every question is answered with words while a barrier is open.
  lemma UnboundedAlwaysSends(s: State)
    requires s.burst.maxEmits.None?
    ensures Step(s, Emit).answer == if s.mode == Idle then Nothing
                                    else Words(if s.mode == Standby then 0x6600 else 0x5F00, s.localCount % 0x1_0000)
    ensures Step(s, Emit).state == s
  {
  }

  // ---- closing ------------------------------------------------------------------------------

  // Silence and resets never end a close, but the start of a standby does, from either side.
  lemma CloseEndsWith(s: State, e: Event)
    requires s.mode == Close
    ensures Step(s, e).state.mode != Close <==>
              (e.Initiate? && e.kind != Close) || (e.HostStandby? && e.count >= s.localCount)
  {
  }

  // A close that is not the last word: the host asks for a standby after it.
  lemma CloseIsNotTerminal(maxEmits: Option<nat>)
    ensures Run(Fresh(maxEmits), [HostClose(13), HostStandby(13)]).mode == Standby
    ensures Run(Fresh(maxEmits), [Initiate(Close), Initiate(Standby)]).mode == Standby
  {
    assert [HostClose(13), HostStandby(13)][1..] == [HostStandby(13)];
    assert [HostStandby(13)][1..] == [];
    assert [Initiate(Close), Initiate(Standby)][1..] == [Initiate(Standby)];
    assert [Initiate(Standby)][1..] == [];
  }

  // ---- the object ---------------------------------------------------------------------------

  class BarrierResponder {
    var mode: Mode
    var initiated: bool
    var hostCount: Option<nat>
    var localCount: nat
    var sinceHost: nat
    var sinceInitiate: nat
    var rounds: nat
    var maxEmits: Option<nat>
    var burstFor: Option<nat>
    var burstSent: nat

    ghost function View(): State
      reads this
    {
      State(mode, initiated, hostCount, localCount, sinceHost, sinceInitiate, rounds,
            Burst(maxEmits, burstFor, burstSent))
    }

    constructor (limit: Option<nat>)
      ensures View() == Fresh(limit)
    {
      mode, initiated, hostCount, localCount := Idle, false, None, 0;
      sinceHost, sinceInitiate, rounds := 0, 0, 0;
      maxEmits, burstFor, burstSent := limit, None, 0;
    }

    method ResetIdle()
      modifies this
      ensures View() == Step(old(View()), Reset).state
    {
      if mode == Standby {
        mode := Idle;
        initiated := false;
        sinceInitiate := 0;
        burstFor := None;
      }
    }

    method Begin(kind: Mode)
      modifies this
      ensures View() == Step(old(View()), Initiate(kind)).state
    {
      if kind == Close {
        if mode != Close {
          mode := Close;
          initiated := true;
          sinceHost, sinceInitiate := 0, 0;
        }
        return;
      }
      if mode == Standby {
        return;
      }
      mode := Standby;
      initiated := true;
      hostCount := None;
      sinceHost, sinceInitiate := 0, 0;
      burstFor := None;
    }

    method HostStandbySlot(count: nat) returns (completed: bool)
      modifies this
      ensures Result(View(), if completed then Completed else Nothing) == Step(old(View()), HostStandby(count))
    {
      sinceHost := 0;
      var previous := hostCount;
      hostCount := Some(count);
      if initiated && mode == Standby {
        if count == localCount {
          localCount := localCount + 1;
          rounds := rounds + 1;
          mode := Idle;
          initiated := false;
          sinceInitiate := 0;
          return true;
        }
        return false;
      }
      if count < localCount {
        return false;
      }
      if mode != Standby {
        mode := Standby;
        initiated := false;
      } else if previous.Some? && count != previous.value {
        rounds := rounds + 1;
      }
      localCount := count;
      sinceInitiate := 0;
      return false;
    }

    method HostCloseSlot(count: nat)
      modifies this
      ensures View() == Step(old(View()), HostClose(count)).state
    {
      sinceHost := 0;
      hostCount := Some(count);
      localCount := count;
      if mode != Close {
        mode := Close;
        initiated := false;
      }
    }

    method Observe(sawBarrier: bool)
      modifies this
      ensures View() == Step(old(View()), Frame(sawBarrier)).state
    {
      if mode != Standby {
        return;
      }
      if sawBarrier {
        sinceHost, sinceInitiate := 0, 0;
        return;
      }
      sinceHost := sinceHost + 1;
      if initiated {
        sinceInitiate := sinceInitiate + 1;
        if sinceInitiate > INITIATE_TIMEOUT {
          mode := Idle;
          initiated := false;
        }
      } else if sinceHost > IDLE_TIMEOUT {
        localCount := localCount + 1;
        rounds := rounds + 1;
        mode := Idle;
      }
    }

    method Want() returns (answer: Answer)
      modifies this
      ensures Result(View(), answer) == Step(old(View()), Emit)
    {
      if mode == Idle {
        return Nothing;
      }
      if maxEmits.Some? {
        if burstFor != Some(localCount) {
          burstFor := Some(localCount);
          burstSent := 0;
        }
        if burstSent >= maxEmits.value {
          return Nothing;
        }
        burstSent := burstSent + 1;
      }
      return Words(if mode == Standby then READY_EXIT_STANDBY else READY_CLOSE_LINK, localCount % 0x1_0000);
    }
  }
}
