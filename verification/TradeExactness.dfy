/**
 When the observer commits: exactly when the history up to the event proves a trade.  Each piece of
 evidence it holds is a function of the events it has seen.
 */
module TradeExactness {
  import opened Common
  import E = Envelopes
  import opened TradeObservers
  import opened TradeEvidence

  // ---- what the events say ------------------------------------------------------------------

  // A party that was completed at an event.
  datatype Found = Found(party: Party, at: nat)

  // The party of a seat that is complete at a point, and where it was completed.
  function LastParty(h: seq<Event>, end: nat, seat: Seat): (found: Option<Found>)
    requires end <= |h|
    decreases end
  {
    if end == 0 then None
    else if !Renews(h, end - 1, seat) then LastParty(h, end - 1, seat)
    else if h[end - 1].PartyBlock? && !Unreadable(h[end - 1]) then
      var w := Waiting(h[..end - 1], seat);
      Some(Found(w[0] + w[1] + [HashOf(h[end - 1].first), HashOf(h[end - 1].second)], end - 1))
    else None
  }

  // The evidence that starts at a point takes over what is known of the parties, unless it starts
  // because a seat was lost.
  predicate Kept(h: seq<Event>, window: nat)
    requires window <= |h|
  {
    window > 0 ==> !h[window - 1].Lost? && !Unreadable(h[window - 1])
  }

  function Standing(h: seq<Event>, window: nat, end: nat, seat: Seat): (found: Option<Found>)
    requires window <= |h| && end <= |h|
  {
    var p := LastParty(h, end, seat);
    if p.Some? && (p.value.at >= window || Kept(h, window)) then p else None
  }

  function PartyIn(found: Option<Found>): Option<Party> {
    if found.Some? then Some(found.value.party) else None
  }

  // The save counts of a seat between two points.
  function Saves(h: seq<Event>, from: nat, end: nat, seat: Seat): (counts: set<nat>)
    requires end <= |h|
    decreases end
  {
    if end <= from then {}
    else
      var e := h[end - 1];
      Saves(h, from, end - 1, seat)
      + if e.SaveCount? && e.seat == seat && 5 <= e.count <= 10 then {e.count} else {}
  }

  lemma {:induction false} SavesAre(h: seq<Event>, from: nat, end: nat, seat: Seat, c: nat)
    requires end <= |h|
    ensures c in Saves(h, from, end, seat) <==>
              5 <= c <= 10 && exists i :: from <= i < end && h[i] == SaveCount(seat, c)
    decreases end
  {
    if from < end {
      SavesAre(h, from, end - 1, seat, c);
      assert h[end - 1] == SaveCount(seat, c) ==> exists i :: from <= i < end && h[i] == SaveCount(seat, c);
    }
  }

  // A completed party that nothing has renewed since is the last one, and the other way round.
  lemma {:induction false} LastPartyIs(h: seq<Event>, end: nat, seat: Seat, at: nat, party: Party)
    requires end <= |h|
    ensures LastParty(h, end, seat) == Some(Found(party, at)) <==>
              at < end && Completes(h, at, seat, party) && Quiet(h, at + 1, end, seat)
    decreases end
  {
    if end > 0 {
      if Renews(h, end - 1, seat) {
        assert at < end - 1 ==> !Quiet(h, at + 1, end, seat);
      } else {
        LastPartyIs(h, end - 1, seat, at, party);
        assert at == end - 1 ==> !Completes(h, at, seat, party);
        assert at < end - 1 ==> (Quiet(h, at + 1, end, seat) <==> Quiet(h, at + 1, end - 1, seat)) by {
          QuietShorter(h, at + 1, end, seat);
        }
      }
    }
  }

  lemma QuietShorter(h: seq<Event>, from: nat, end: nat, seat: Seat)
    requires 0 < end <= |h| && !Renews(h, end - 1, seat)
    ensures Quiet(h, from, end, seat) <==> Quiet(h, from, end - 1, seat)
  {
    hide Renews;
  }

  // ---- more events --------------------------------------------------------------------------

  lemma RenewsStable(h: seq<Event>, e: Event, i: nat, seat: Seat)
    requires i < |h|
    ensures Renews(h + [e], i, seat) <==> Renews(h, i, seat)
  {
    assert (h + [e])[..i] == h[..i];
  }

  lemma {:induction false} LastPartyStable(h: seq<Event>, e: Event, end: nat, seat: Seat)
    requires end <= |h|
    ensures LastParty(h + [e], end, seat) == LastParty(h, end, seat)
    decreases end
  {
    hide Renews, Waiting;
    if end > 0 {
      RenewsStable(h, e, end - 1, seat);
      assert (h + [e])[..end - 1] == h[..end - 1];
      LastPartyStable(h, e, end - 1, seat);
    }
  }

  lemma StandingStable(h: seq<Event>, e: Event, window: nat, end: nat, seat: Seat)
    requires window <= |h| && end <= |h|
    ensures Standing(h + [e], window, end, seat) == Standing(h, window, end, seat)
  {
    LastPartyStable(h, e, end, seat);
    assert window > 0 ==> (h + [e])[window - 1] == h[window - 1];
  }

  lemma {:induction false} SavesStable(h: seq<Event>, e: Event, from: nat, end: nat, seat: Seat)
    requires end <= |h|
    ensures Saves(h + [e], from, end, seat) == Saves(h, from, end, seat)
    decreases end
  {
    if from < end {
      SavesStable(h, e, from, end - 1, seat);
    }
  }

  lemma LastPartyNext(h: seq<Event>, e: Event, seat: Seat)
    ensures LastParty(h + [e], |h| + 1, seat)
            == if (e.Lost? || Unreadable(e)) && e.seat == seat then None
               else if e.PartyBlock? && e.seat == seat && |Waiting(h, seat)| == 2 then
                 Some(Found(Waiting(h, seat)[0] + Waiting(h, seat)[1] + [HashOf(e.first), HashOf(e.second)], |h|))
               else LastParty(h, |h|, seat)
  {
    hide Waiting;
    assert (h + [e])[..|h|] == h;
    LastPartyStable(h, e, |h|, seat);
  }

  // ---- the evidence held --------------------------------------------------------------------

  // Exactly what the events say of one seat.
  predicate SeatExact(h: seq<Event>, s: State, n: Notes, seat: Seat) {
    && n.window <= |h| && (s.trade.confirmed ==> n.confirmed < |h|)
    && s.latest.At(seat) == PartyIn(LastParty(h, |h|, seat))
    && s.trade.pre.At(seat) == PartyIn(Standing(h, n.window, if s.trade.confirmed then n.confirmed else |h|, seat))
    && s.trade.post.At(seat) ==
       (var p := LastParty(h, |h|, seat);
        if s.trade.confirmed && p.Some? && p.value.at > n.confirmed then Some(p.value.party) else None)
    && s.trade.saves.At(seat) == (if s.trade.confirmed then Saves(h, n.confirmed + 1, |h|, seat) else {})
  }

  lemma UpdateExact(h: seq<Event>, e: Event, s: State, n: Notes, seat: Seat)
    requires SeatExact(h, s, n, seat) && !Clears(e)
    requires s.chunks.At(seat) == Waiting(h, seat) && |Waiting(h, seat)| <= 2
    ensures SeatExact(h + [e], Update(s, e), Noted(n, s, e, |h|), seat)
  {
    hide Waiting, LastParty, Saves;
    LastPartyNext(h, e, seat);
    LastPartyStable(h, e, |h|, seat);
    if s.trade.confirmed {
      SavesMore(h, e, n.confirmed + 1, seat);
    }
    SavesNone(h + [e], |h| + 1, seat);
    StandingStable(h, e, n.window, |h|, seat);
    if s.trade.confirmed {
      StandingStable(h, e, n.window, n.confirmed, seat);
    }
    PartyAdds(s, e, n, |h|, seat);
    AtBelow(h, |h|, seat);
  }

  lemma {:induction false} AtBelow(h: seq<Event>, end: nat, seat: Seat)
    requires end <= |h|
    ensures LastParty(h, end, seat).Some? ==> LastParty(h, end, seat).value.at < end
    decreases end
  {
    if end > 0 {
      AtBelow(h, end - 1, seat);
    }
  }

  lemma SavesMore(h: seq<Event>, e: Event, from: nat, seat: Seat)
    requires from <= |h|
    ensures Saves(h + [e], from, |h| + 1, seat)
            == Saves(h, from, |h|, seat)
               + if e.SaveCount? && e.seat == seat && 5 <= e.count <= 10 then {e.count} else {}
  {
    SavesStable(h, e, from, |h|, seat);
  }

  lemma SavesNone(h: seq<Event>, from: nat, seat: Seat)
    requires |h| <= from
    ensures Saves(h, from, |h|, seat) == {}
  {
  }

  // What one event adds to the evidence on one seat.
  lemma PartyAdds(s: State, e: Event, n: Notes, at: nat, seat: Seat)
    requires !Clears(e) && |s.chunks.At(seat)| <= 2
    ensures var t, m := Update(s, e), Noted(n, s, e, at);
            var six := if e.PartyBlock? && e.seat == seat && |s.chunks.At(seat)| == 2 then
                         Some(s.chunks.At(seat)[0] + s.chunks.At(seat)[1] + [HashOf(e.first), HashOf(e.second)])
                       else None;
            && m.window == n.window
            && t.latest.At(seat) == (if six.Some? then six else s.latest.At(seat))
            && t.trade.pre.At(seat) == (if six.Some? && !s.trade.confirmed then six else s.trade.pre.At(seat))
            && t.trade.post.At(seat) == (if six.Some? && s.trade.confirmed then six else s.trade.post.At(seat))
            && (s.trade.confirmed ==> t.trade.confirmed && m.confirmed == n.confirmed)
            && (!s.trade.confirmed && t.trade.confirmed ==> m.confirmed == at && e.Link?)
            && t.trade.saves.At(seat) ==
               s.trade.saves.At(seat)
               + (if s.trade.confirmed && e.SaveCount? && e.seat == seat && 5 <= e.count <= 10 then {e.count} else {})
  {
  }

  // Evidence that starts over: after a cancel or a commit with the parties that are known, after the
  // loss of a seat with none.
  lemma OverExact(h: seq<Event>, e: Event, t: State, m: Notes, seat: Seat)
    requires m.window == |h| + 1 && t.latest.At(seat) == PartyIn(LastParty(h + [e], |h| + 1, seat))
    requires t.trade == NoTrade(if e.Lost? || Unreadable(e) then PerSeat(None, None) else t.latest)
    ensures SeatExact(h + [e], t, m, seat)
  {
    hide LastParty;
    AtBelow(h + [e], |h| + 1, seat);
    assert (h + [e])[m.window - 1] == e;
  }

  lemma ClearLatest(h: seq<Event>, e: Event, s: State, seat: Seat)
    requires Clears(e) && s.latest.At(seat) == PartyIn(LastParty(h, |h|, seat))
    ensures var t := Step(s, e);
            && t.latest.At(seat) == PartyIn(LastParty(h + [e], |h| + 1, seat))
            && t.trade == NoTrade(if e.Lost? || Unreadable(e) then PerSeat(None, None) else t.latest)
  {
    hide LastParty, Waiting;
    LastPartyNext(h, e, seat);
  }

  ghost predicate Exact(h: seq<Event>, s: State, n: Notes) {
    SeatExact(h, s, n, E.MemberA) && SeatExact(h, s, n, E.MemberB)
  }

  lemma StepExact(h: seq<Event>, e: Event)
    requires Exact(h, After(h), NotesOf(h))
    ensures Exact(h + [e], After(h + [e]), NotesOf(h + [e]))
    ensures !Clears(e) ==> Exact(h + [e], Update(After(h), e), Noted(NotesOf(h), After(h), e, |h|))
  {
    hide SeatExact, Update, After, NotesOf, ResetAt, Noted, TryCommit, HasAll, Swapped, Waiting;
    var s, n := After(h), NotesOf(h);
    var m := Noted(n, s, e, |h|);
    AfterAppend(h, e);
    UpdateKeepsCommits(s, e);
    var over := m.(window := |h| + 1, pre := m.latest);
    if Clears(e) {
      ClearedExact(h, e, s, n, over, E.MemberA);
      ClearedExact(h, e, s, n, over, E.MemberB);
    } else {
      ChunksWait(h, E.MemberA);
      ChunksWait(h, E.MemberB);
      UpdateExact(h, e, s, n, E.MemberA);
      UpdateExact(h, e, s, n, E.MemberB);
      var u := Update(s, e);
      TryOutcome(u);
      if Tries(s, e) && HasAll(u.trade) && Swapped(u.trade) {
        CommittedExact(h, e, u, m, over, E.MemberA);
        CommittedExact(h, e, u, m, over, E.MemberB);
      }
    }
  }

  lemma ClearedExact(h: seq<Event>, e: Event, s: State, n: Notes, over: Notes, seat: Seat)
    requires Clears(e) && SeatExact(h, s, n, seat) && over.window == |h| + 1
    ensures SeatExact(h + [e], Step(s, e), over, seat)
  {
    hide Step, Standing, LastParty, Saves;
    ClearLatest(h, e, s, seat);
    OverExact(h, e, Step(s, e), over, seat);
  }

  lemma CommittedExact(h: seq<Event>, e: Event, u: State, m: Notes, over: Notes, seat: Seat)
    requires SeatExact(h + [e], u, m, seat) && !Clears(e) && HasAll(u.trade) && Swapped(u.trade)
    requires over.window == |h| + 1
    ensures SeatExact(h + [e], TryCommit(u), over, seat)
  {
    hide Standing, LastParty, Saves, Swapped, HasAll, TryCommit;
    TryOutcome(u);
    OverExact(h, e, TryCommit(u), over, seat);
  }

  lemma {:induction false} AlwaysExact(h: seq<Event>)
    ensures Exact(h, After(h), NotesOf(h))
    decreases |h|
  {
    hide Step, NotesOf, SeatExact;
    if h == [] {
      NothingHeld();
    } else {
      var p, e := h[..|h| - 1], h[|h| - 1];
      assert h == p + [e];
      AlwaysExact(p);
      StepExact(p, e);
    }
  }

  lemma NothingHeld()
    ensures Exact([], After([]), NotesOf([]))
  {
  }

  // ---- nothing is left to commit ------------------------------------------------------------

  predicate Ripe(t: Trade) {
    HasAll(t) && Swapped(t)
  }

  // An event that is no reason to look for a trade leaves the evidence as it is, or starts it over.
  lemma IdleTrade(s: State, e: Event)
    requires !Tries(s, e)
    ensures Update(s, e).trade == s.trade || !Update(s, e).trade.confirmed
  {
  }

  lemma {:induction false} NothingRipe(h: seq<Event>)
    ensures !Ripe(After(h).trade)
    decreases |h|
  {
    hide Update, TryCommit, Tries, Swapped;
    if h != [] {
      var s, e := After(h[..|h| - 1]), h[|h| - 1];
      NothingRipe(h[..|h| - 1]);
      TryOutcome(Update(s, e));
      if !Tries(s, e) {
        IdleTrade(s, e);
      }
    }
  }

  // ---- the evidence of a trade --------------------------------------------------------------

  // The history up to its last event proves a trade.
  ghost predicate Proves(h: seq<Event>, x: Notes, a: Part, b: Part, c: Commit)
    requires h != []
  {
    && Backed(h, |h| - 1, x, a, b, c)
    && (Kept(h, x.window) || (x.window <= x.pre.a && x.window <= x.pre.b))
  }

  // The window and the stages of a trade are where the observer noted them.
  lemma SameStages(h: seq<Event>, t: Trade, n: Notes, x: Notes)
    requires h != [] && StagesOk(h, t, n) && StagesBacked(h, |h| - 1, x)
    requires n.window <= |h| - 1
    requires (n.window > 0 ==> ResetAt(h, n.window - 1)) && forall i :: n.window <= i < |h| - 1 ==> !ResetAt(h, i)
    ensures x.window == n.window && t.confirmed && x.confirmed == n.confirmed
  {
    hide Starts, ResetAt, Commands;
    assert x.window > 0 ==> ResetAt(h, x.window - 1);
    SameStart(h, t, n, x);
    SameReady(h, t, n, x);
  }

  lemma SameStart(h: seq<Event>, t: Trade, n: Notes, x: Notes)
    requires h != [] && StagesOk(h, t, n) && StagesBacked(h, |h| - 1, x) && x.window == n.window
    ensures t.started && x.started == n.started
  {
    hide Starts, ResetAt;
    assert Starts(h, x.window, x.started);
    assert t.started ==> Starts(h, n.window, n.started);
  }

  lemma SameReady(h: seq<Event>, t: Trade, n: Notes, x: Notes)
    requires h != [] && StagesOk(h, t, n) && StagesBacked(h, |h| - 1, x) && x.window == n.window
    requires t.started && x.started == n.started
    ensures t.confirmed && x.confirmed == n.confirmed
  {
    hide Starts, ResetAt, NoStart;
    assert t.readyFinish && x.ready == n.ready by {
      assert Commands(h[x.ready], READY_FINISH_TRADE);
      if t.readyFinish {
        assert Commands(h[n.ready], READY_FINISH_TRADE);
      }
    }
    assert Commands(h[x.confirmed], CONFIRM_FINISH_TRADE);
    if t.confirmed {
      assert Commands(h[n.confirmed], CONFIRM_FINISH_TRADE);
    }
  }

  // What a proof says of a seat is what the observer holds.
  lemma SeatIsHeld(h: seq<Event>, s: State, n: Notes, x: Notes, seat: Seat, p: Part)
    requires h != [] && SeatExact(h, s, n, seat) && SelectionOk(h, s.trade.selections.At(seat), n, seat)
    requires s.trade.confirmed && x.window == n.window && x.confirmed == n.confirmed
    requires SeatBacked(h, |h| - 1, x, seat, p) && (Kept(h, x.window) || x.window <= x.pre.At(seat))
    ensures s.trade.pre.At(seat) == Some(p.before) && s.trade.post.At(seat) == Some(p.after)
    ensures s.trade.selections.At(seat) == Some(p.cursor) && Saved(s.trade.saves.At(seat))
  {
    hide Completes, Quiet, LastParty, Chosen, Saves;
    LastPartyIs(h, x.confirmed, seat, x.pre.At(seat), p.before);
    LastPartyIs(h, |h|, seat, x.post.At(seat), p.after);
    forall c | FIRST_SAVE <= c <= LAST_SAVE
      ensures c in s.trade.saves.At(seat)
    {
      SavesAre(h, n.confirmed + 1, |h|, seat, c);
      assert h[x.saved[(seat, c)]] == SaveCount(seat, c);
    }
  }

  lemma ProvenIsRipe(h: seq<Event>, s: State, n: Notes, x: Notes, a: Part, b: Part, c: Commit)
    requires h != [] && Exact(h, s, n) && EvidenceOk(h, s, n) && Proves(h, x, a, b, c) && n.window <= |h| - 1
    requires (n.window > 0 ==> ResetAt(h, n.window - 1)) && forall i :: n.window <= i < |h| - 1 ==> !ResetAt(h, i)
    ensures Ripe(s.trade)
  {
    hide SeatExact, SeatBacked, StagesBacked, StagesOk, SelectionOk, LatestOk, PreOk, PostOk, SavesOk, Kept, ResetAt,
         Saved;
    SameStages(h, s.trade, n, x);
    SeatIsHeld(h, s, n, x, E.MemberA, a);
    SeatIsHeld(h, s, n, x, E.MemberB, b);
  }

  // ---- exactly when a trade is committed ----------------------------------------------------

  lemma CommitIsProven(h: seq<Event>, e: Event)
    requires CommitsAt(h + [e], |h|)
    ensures exists x, a, b, c :: Proves(h + [e], x, a, b, c)
  {
    hide SeatExact, SeatOk, StagesOk, Update, NotesOf, Noted, Saved, Swapped, ResetAt, SeatBacked, StagesBacked, After,
         Kept;
    var s, n := After(h), NotesOf(h);
    var u, x := Update(s, e), Noted(n, s, e, |h|);
    BackedBy(h, e);
    CommittingState(h, e);
    TradeAdds(u);
    AlwaysExact(h);
    StepExact(h, e);
    EvidenceHolds(h);
    StepEvidence(h, e);
    PreKept(h + [e], u, x, E.MemberA);
    PreKept(h + [e], u, x, E.MemberB);
    assert Proves(h + [e], x, PartOf(u.trade, E.MemberA), PartOf(u.trade, E.MemberB), CommitOf(u.trade, s.index + 1));
  }

  // A party that the evidence takes over was completed in it, or was known when it started.
  lemma PreKept(h: seq<Event>, s: State, n: Notes, seat: Seat)
    requires SeatExact(h, s, n, seat) && SeatOk(h, s, n, seat)
    requires s.trade.confirmed && s.trade.pre.At(seat).Some?
    ensures Kept(h, n.window) || n.window <= n.pre.At(seat)
  {
    hide Completes, Quiet, LastParty, Chosen, Saves;
    LastPartyIs(h, n.confirmed, seat, n.pre.At(seat), s.trade.pre.At(seat).value);
  }

  lemma BackedBy(h: seq<Event>, e: Event)
    requires CommitsAt(h + [e], |h|)
    ensures var u, x := Update(After(h), e), Noted(NotesOf(h), After(h), e, |h|);
            && Ripe(u.trade)
            && Backed(h + [e], |h|, x, PartOf(u.trade, E.MemberA), PartOf(u.trade, E.MemberB),
                      CommitOf(u.trade, After(h).index + 1))
  {
    hide Backed, Update, NotesOf, Noted, After, HasAll, Swapped;
    CommitBacking(h, e);
  }

  lemma ProvenCommits(h: seq<Event>, e: Event, x: Notes, a: Part, b: Part, c: Commit)
    requires Proves(h + [e], x, a, b, c)
    ensures CommitsAt(h + [e], |h|)
  {
    hide SeatExact, SeatOk, StagesOk, Update, NotesOf, Noted, Saved, Swapped, HasAll, ResetAt, After, Proves, Tries;
    var s, n := After(h), NotesOf(h);
    AlwaysExact(h);
    EvidenceHolds(h);
    WindowIsClear(h);
    NothingRipe(h);
    if Clears(e) {
      ProvenBefore(h, e, x, a, b, c);
      ProvenIsRipe(h, s, n, x, a, b, c);
      assert false;
    }
    StepExact(h, e);
    StepEvidence(h, e);
    KeepsWindow(n, s, e, |h|);
    forall i | 0 <= i < |h| ensures ResetAt(h + [e], i) <==> ResetAt(h, i) {
      SameReset(h, e, i);
    }
    ProvenIsRipe(h + [e], Update(s, e), Noted(n, s, e, |h|), x, a, b, c);
    RipeCommits(h, e);
  }

  lemma RipeCommits(h: seq<Event>, e: Event)
    requires !Clears(e) && Ripe(Update(After(h), e).trade) && !Ripe(After(h).trade)
    ensures CommitsAt(h + [e], |h|)
  {
    hide Update, After, Swapped, HasAll, Tries;
    var s := After(h);
    assert (h + [e])[..|h|] == h && (h + [e])[..|h| + 1] == h + [e];
    AfterAppend(h, e);
    UpdateKeepsCommits(s, e);
    TryOutcome(Update(s, e));
    if !Tries(s, e) {
      IdleTrade(s, e);
      RipeConfirmed(Update(s, e).trade);
    }
  }

  lemma RipeConfirmed(t: Trade)
    requires Ripe(t)
    ensures t.confirmed
  {
  }

  // What an event that starts the evidence over seems to prove was proven before it.
  lemma ProvenBefore(h: seq<Event>, e: Event, x: Notes, a: Part, b: Part, c: Commit)
    requires Clears(e) && Proves(h + [e], x, a, b, c)
    ensures h != [] && Proves(h, x, a, b, c) && !ResetAt(h, |h| - 1)
  {
    hide Chosen, Waiting, Completes, Quiet, ResetAt, Starts, NoStart, NoCommand;
    assert (h + [e])[|h|] == e;
    assert x.confirmed < |h| && h != [] by {
      assert !Commands(e, CONFIRM_FINISH_TRADE);
    }
    SeatBefore(h, e, x, E.MemberA, a);
    SeatBefore(h, e, x, E.MemberB, b);
    StagesBefore(h, e, x);
    SameReset(h, e, |h| - 1);
    assert x.window > 0 ==> (h + [e])[x.window - 1] == h[x.window - 1];
  }

  lemma StagesBefore(h: seq<Event>, e: Event, x: Notes)
    requires h != [] && StagesBacked(h + [e], |h|, x) && x.confirmed < |h|
    ensures StagesBacked(h, |h| - 1, x)
  {
    hide ResetAt, Chosen;
    forall i | 0 <= i < |h| ensures ResetAt(h + [e], i) <==> ResetAt(h, i) {
      SameReset(h, e, i);
    }
    forall i | 0 <= i < |h| ensures Starts(h + [e], x.window, i) <==> Starts(h, x.window, i) {
      StartsStable(h, e, x.window, i);
    }
    assert forall i :: 0 <= i < |h| ==> (h + [e])[i] == h[i];
  }

  lemma SeatBefore(h: seq<Event>, e: Event, x: Notes, seat: Seat, p: Part)
    requires h != [] && Clears(e) && SeatBacked(h + [e], |h|, x, seat, p) && x.confirmed < |h|
    ensures SeatBacked(h, |h| - 1, x, seat, p)
  {
    hide Chosen, Waiting, Renews;
    var g := h + [e];
    assert g[|h|] == e;
    assert Chosen(g, x.window, |h| + 1, seat) == Chosen(h, x.window, |h|, seat) by {
      ClearSelectsNothing(e, seat);
      if x.window <= |h| {
        ChosenNext(h, e, x.window, seat);
      } else {
        NothingChosen(g, x.window, |h| + 1, seat);
      }
    }
    assert x.post.At(seat) < |h| by {
      CompletesNoClear(g, |h|, seat, p.after);
    }
    CompletesBefore(h, e, x.pre.At(seat), seat, p.before);
    CompletesBefore(h, e, x.post.At(seat), seat, p.after);
    QuietBefore(h, e, x.pre.At(seat) + 1, x.confirmed, seat);
    QuietBefore(h, e, x.post.At(seat) + 1, |h|, seat);
    forall c | FIRST_SAVE <= c <= LAST_SAVE
      ensures (seat, c) in x.saved && x.saved[(seat, c)] < |h|
    {
      assert g[x.saved[(seat, c)]] == SaveCount(seat, c);
    }
  }

  lemma ClearSelectsNothing(e: Event, seat: Seat)
    requires Clears(e)
    ensures !Selects(e, seat)
  {
  }

  lemma NothingChosen(h: seq<Event>, from: nat, end: nat, seat: Seat)
    requires end <= |h| && end <= from
    ensures Chosen(h, from, end, seat) == None
  {
  }

  lemma CompletesNoClear(h: seq<Event>, i: nat, seat: Seat, party: Party)
    requires i < |h| && Clears(h[i])
    ensures !Completes(h, i, seat, party)
  {
  }

  lemma CompletesBefore(h: seq<Event>, e: Event, m: nat, seat: Seat, party: Party)
    requires m < |h| && Completes(h + [e], m, seat, party)
    ensures Completes(h, m, seat, party)
  {
    assert (h + [e])[..m] == h[..m];
  }

  lemma QuietBefore(h: seq<Event>, e: Event, from: nat, end: nat, seat: Seat)
    requires end <= |h| && Quiet(h + [e], from, end, seat)
    ensures Quiet(h, from, end, seat)
  {
    hide Renews;
    forall i | from <= i < end ensures !Renews(h, i, seat) {
      RenewsStable(h, e, i, seat);
    }
  }

  // An event commits a trade if and only if the history up to it proves one: the stages in order
  // since the evidence last started over, the last party of each seat before the confirmation and
  // after it, all save counts, and the records selected last exchanged.
  lemma CommitsExactly(h: seq<Event>, e: Event)
    ensures CommitsAt(h + [e], |h|) <==> exists x, a, b, c :: Proves(h + [e], x, a, b, c)
  {
    hide Proves, CommitsAt;
    if CommitsAt(h + [e], |h|) {
      CommitIsProven(h, e);
    }
    if exists x, a, b, c :: Proves(h + [e], x, a, b, c) {
      var x, a, b, c :| Proves(h + [e], x, a, b, c);
      ProvenCommits(h, e, x, a, b, c);
    }
  }

  // What each command does, by its number: five of them cancel, two select, and the three stages
  // count in their order only.
  lemma CommandsExactly(s: State, seat: Seat, command: int, cursor: nat)
    ensures var t, u := s.trade, Update(s, Link(seat, command, cursor));
            && u == s.(trade := u.trade)
            && u.trade ==
               if command in {0xEEAA, 0xBBCC, 0xDDEE, 0xEEBB, 0xEECC} then
                 Trade(s.latest, PerSeat(None, None), PerSeat(None, None), false, false, false, PerSeat({}, {}))
               else
                 t.(selections :=
                      if command in {0xAABB, 0xDDDD} && cursor < 6 then t.selections.With(seat, Some(cursor))
                      else t.selections,
                    started := t.started || (command == 0xCCDD && t.selections.a.Some? && t.selections.b.Some?),
                    readyFinish := t.readyFinish || (command == 0xABCD && t.started),
                    confirmed := t.confirmed || (command == 0xDCBA && t.started && t.readyFinish))
  {
  }
}
