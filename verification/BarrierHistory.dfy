/**
 What the responder's fields mean in terms of the events it has seen: who opened the barrier that
 is open, how long the host has been silent, which count is sent and how many rounds have passed.
 */
module BarrierHistories {
  import opened Common
  import opened Barriers

  function After(limit: Option<nat>, h: seq<Event>): State {
    if h == [] then Fresh(limit) else Step(After(limit, h[..|h| - 1]), h[|h| - 1]).state
  }

  lemma {:induction false} AfterIsRun(limit: Option<nat>, h: seq<Event>, es: seq<Event>)
    ensures Run(After(limit, h), es) == After(limit, h + es)
    decreases |es|
  {
    hide Step;
    if es == [] {
      assert h + es == h;
    } else {
      assert (h + [es[0]])[..|h|] == h;
      assert h + [es[0]] + es[1..] == h + es;
      AfterIsRun(limit, h + [es[0]], es[1..]);
    }
  }

  // ---- one event ----------------------------------------------------------------------------

  // We have opened a standby and wait for the host to echo our count.
  predicate Ours(s: State) {
    s.mode == Standby && s.initiated
  }

  // The host broadcasts a round we have not passed, and none of ours is open.
  predicate Leads(s: State, e: Event) {
    e.HostStandby? && !Ours(s) && s.localCount <= e.count
  }

  // The host echoes the round that we have opened.
  predicate Echoes(s: State, e: Event) {
    e.HostStandby? && Ours(s) && e.count == s.localCount
  }

  // A silent frame more than the standby waits for.
  predicate GivesUp(s: State, e: Event) {
    e == Frame(false) && s.mode == Standby && Remaining(s) <= 1
  }

  // The events that open a standby and a close, and those that end them.
  lemma ModeMoves(s: State, e: Event)
    ensures var t := Step(s, e).state;
            && (t.mode == Close <==>
                  || e.HostClose? || e == Initiate(Close)
                  || (s.mode == Close && !Leads(s, e) && !e.Initiate?))
            && (t.mode == Standby <==>
                  || Leads(s, e) || (e.Initiate? && e.kind != Close)
                  || (s.mode == Standby && !Echoes(s, e) && !GivesUp(s, e) && !e.Reset? && !e.HostClose?
                      && e != Initiate(Close)))
  {
  }

  // The count is the host's while it leads, one more when a round has passed, and else stays.
  lemma CountMoves(s: State, e: Event)
    ensures Step(s, e).state.localCount ==
            if e.HostClose? || Leads(s, e) then e.count
            else if Echoes(s, e) || (GivesUp(s, e) && !s.initiated) then s.localCount + 1
            else s.localCount
  {
  }

  // ---- the count that is sent ---------------------------------------------------------------

  // Nothing but frames and questions.
  predicate Calm(es: seq<Event>) {
    forall i :: 0 <= i < |es| ==> es[i].Frame? || es[i].Emit?
  }

  predicate Sends(s: State, opcode: int, count: nat) {
    && (s.burst.maxEmits.None? ==> Step(s, Emit).answer == Words(opcode, count % 0x1_0000))
    && Step(s, Emit).answer in {Words(opcode, count % 0x1_0000), Nothing}
  }

  // A standby sends its count until it is over; the end of one that the host leads is counted.
  lemma {:induction false} StandbySends(s: State, es: seq<Event>)
    requires s.mode == Standby && Calm(es)
    ensures var t := Run(s, es);
            if t.mode == Standby then t.localCount == s.localCount && Sends(t, 0x6600, s.localCount)
            else t.mode == Idle && t.localCount == s.localCount + (if s.initiated then 0 else 1)
                 && Step(t, Emit).answer == Nothing
    decreases |es|
  {
    if es != [] {
      var t := Step(s, es[0]).state;
      CountMoves(s, es[0]);
      ModeMoves(s, es[0]);
      if t.mode == Standby {
        assert t.initiated == s.initiated;
        StandbySends(t, es[1..]);
      } else {
        NothingOpens(t, es[1..]);
      }
    }
  }

  lemma {:induction false} NothingOpens(s: State, es: seq<Event>)
    requires s.mode == Idle && Calm(es)
    ensures Run(s, es).mode == Idle && Run(s, es).localCount == s.localCount
    decreases |es|
  {
    if es != [] {
      NothingOpens(Step(s, es[0]).state, es[1..]);
    }
  }

  lemma {:induction false} CloseStays(s: State, es: seq<Event>)
    requires s.mode == Close && Calm(es)
    ensures Run(s, es).mode == Close && Run(s, es).localCount == s.localCount
    decreases |es|
  {
    if es != [] {
      CloseStays(Step(s, es[0]).state, es[1..]);
    }
  }

  // In every run a host that leads is mirrored: the words sent are a standby's, with its count in
  // 16 bits, until the host has been silent for 91 frames.
  lemma HostIsMirrored(limit: Option<nat>, h: seq<Event>, c: nat, es: seq<Event>)
    requires Leads(After(limit, h), HostStandby(c)) && Calm(es)
    ensures var t := After(limit, h + [HostStandby(c)] + es);
            if t.mode == Standby then t.localCount == c && Sends(t, 0x6600, c)
            else t.mode == Idle && t.localCount == c + 1 && Step(t, Emit).answer == Nothing
  {
    var s := After(limit, h + [HostStandby(c)]);
    assert (h + [HostStandby(c)])[..|h|] == h;
    CountMoves(After(limit, h), HostStandby(c));
    ModeMoves(After(limit, h), HostStandby(c));
    StandbySends(s, es);
    AfterIsRun(limit, h + [HostStandby(c)], es);
  }

  // A standby of ours sends our own count, and leaves it alone when nobody answers.
  lemma OursIsSent(limit: Option<nat>, h: seq<Event>, es: seq<Event>)
    requires After(limit, h).mode != Standby && Calm(es)
    ensures var s, t := After(limit, h), After(limit, h + [Initiate(Standby)] + es);
            && t.localCount == s.localCount
            && (if t.mode == Standby then Sends(t, 0x6600, s.localCount)
                else t.mode == Idle && Step(t, Emit).answer == Nothing)
  {
    var s := After(limit, h + [Initiate(Standby)]);
    assert (h + [Initiate(Standby)])[..|h|] == h;
    assert Ours(s) && s.localCount == After(limit, h).localCount;
    StandbySends(s, es);
    AfterIsRun(limit, h + [Initiate(Standby)], es);
  }

  // A close is sent with the count of the host that asked for it, or with ours.
  lemma CloseIsSent(limit: Option<nat>, h: seq<Event>, e: Event, es: seq<Event>)
    requires (e.HostClose? || e == Initiate(Close)) && Calm(es)
    ensures var t := After(limit, h + [e] + es);
            var count := if e.HostClose? then e.count else After(limit, h).localCount;
            t.mode == Close && t.localCount == count && Sends(t, 0x5F00, count)
  {
    var s := After(limit, h + [e]);
    assert (h + [e])[..|h|] == h;
    CloseStays(s, es);
    AfterIsRun(limit, h + [e], es);
  }

  // ---- who opened the barrier ---------------------------------------------------------------

  // The event that brought about the present mode.
  function Opener(limit: Option<nat>, h: seq<Event>): (opener: Option<Event>)
  {
    if h == [] then None
    else
      var p := h[..|h| - 1];
      if After(limit, h).mode != After(limit, p).mode then Some(h[|h| - 1]) else Opener(limit, p)
  }

  // A barrier counts as ours exactly when an initiate brought it about.
  lemma {:induction false} InitiatedExactly(limit: Option<nat>, h: seq<Event>)
    ensures var s := After(limit, h);
            && (s.mode != Idle ==> Opener(limit, h).Some?)
            && (s.initiated <==> s.mode != Idle && Opener(limit, h).value.Initiate?)
    decreases |h|
  {
    if h != [] {
      InitiatedExactly(limit, h[..|h| - 1]);
    }
  }

  // ---- how long the host has been silent ----------------------------------------------------

  // The silent frames since the standby was opened or the host was last heard: a frame with a
  // barrier word, or a host's standby that our own round does not wait for in vain.
  function Silent(limit: Option<nat>, h: seq<Event>): (n: nat)
  {
    if h == [] then 0
    else
      var p, e := h[..|h| - 1], h[|h| - 1];
      var s := After(limit, p);
      if s.mode != Standby then 0
      else if e == Frame(false) then Silent(limit, p) + 1
      else if e.Emit? || e.Initiate? || (e.HostStandby? && Ours(s)) then Silent(limit, p)
      else 0
  }

  lemma {:induction false} SilenceCounted(limit: Option<nat>, h: seq<Event>)
    ensures var s := After(limit, h);
            s.mode == Standby ==> (if s.initiated then s.sinceInitiate else s.sinceHost) == Silent(limit, h)
    decreases |h|
  {
    if h != [] {
      SilenceCounted(limit, h[..|h| - 1]);
    }
  }

  // After any run a silent frame ends an open standby exactly when 120 have gone before it, or 90
  // if the host leads.
  lemma SilentFrameEnds(limit: Option<nat>, h: seq<Event>)
    requires After(limit, h).mode == Standby
    ensures var patience := if After(limit, h).initiated then 120 else 90;
            After(limit, h + [Frame(false)]).mode == if Silent(limit, h) < patience then Standby else Idle
  {
    SilenceCounted(limit, h);
    assert (h + [Frame(false)])[..|h|] == h;
  }

  // ---- what the host was last heard to send -------------------------------------------------

  // The latest count of the host since we last opened a standby.
  function Heard(limit: Option<nat>, h: seq<Event>): (count: Option<nat>)
  {
    if h == [] then None
    else
      var p, e := h[..|h| - 1], h[|h| - 1];
      if e.HostStandby? || e.HostClose? then Some(e.count)
      else if e.Initiate? && e.kind != Close && After(limit, p).mode != Standby then None
      else Heard(limit, p)
  }

  lemma {:induction false} HostCountIsHeard(limit: Option<nat>, h: seq<Event>)
    ensures After(limit, h).hostCount == Heard(limit, h)
    decreases |h|
  {
    if h != [] {
      HostCountIsHeard(limit, h[..|h| - 1]);
    }
  }

  // ---- rounds -------------------------------------------------------------------------------

  // A round passes: the host echoes ours, goes on to another count, or falls silent.
  predicate Passes(limit: Option<nat>, h: seq<Event>, e: Event) {
    var s := After(limit, h);
    || Echoes(s, e)
    || (GivesUp(s, e) && !s.initiated)
    || (Leads(s, e) && s.mode == Standby && Heard(limit, h).Some? && Heard(limit, h).value != e.count)
  }

  function Passed(limit: Option<nat>, h: seq<Event>): (n: nat)
  {
    if h == [] then 0
    else Passed(limit, h[..|h| - 1]) + if Passes(limit, h[..|h| - 1], h[|h| - 1]) then 1 else 0
  }

  lemma {:induction false} RoundsArePassed(limit: Option<nat>, h: seq<Event>)
    ensures After(limit, h).rounds == Passed(limit, h)
    decreases |h|
  {
    if h != [] {
      RoundsArePassed(limit, h[..|h| - 1]);
      HostCountIsHeard(limit, h[..|h| - 1]);
    }
  }

  // ---- bursts -------------------------------------------------------------------------------

  // The questions that come while a barrier is open.
  function Asked(s: State, es: seq<Event>): nat
    decreases |es|
  {
    if es == [] then 0
    else (if es[0].Emit? && s.mode != Idle then 1 else 0) + Asked(Step(s, es[0]).state, es[1..])
  }

  // A burst answers the questions it is asked, up to its limit, and no more.
  lemma {:induction false} BurstAnswers(s: State, es: seq<Event>)
    requires BurstOk(s) && s.burst.maxEmits.Some? && OneBurst(s, es)
    ensures Sent(s, es) == if Asked(s, es) <= Left(s) then Asked(s, es) else Left(s)
    decreases |es|
  {
    if es != [] {
      BurstAnswers(Step(s, es[0]).state, es[1..]);
    }
  }

  // A standby that is opened by us or dropped, and a count without a burst, start a whole one.
  lemma FreshBurst(s: State, e: Event)
    requires s.burst.maxEmits.Some? && (Rekeys(s, e) || s.burst.burstFor != Some(Step(s, e).state.localCount))
    requires !e.Emit?
    ensures Left(Step(s, e).state) == s.burst.maxEmits.value
  {
  }
}
