/**
 What the trades that the observer commits rest on: the history of events that each of them proves.
 */
module TradeEvidence {
  import opened Common
  import E = Envelopes
  import opened TradeObservers

  // ---- what the history says by itself ------------------------------------------------------

  predicate CommitsAt(h: seq<Event>, n: nat)
    requires n < |h|
  {
    |After(h[..n + 1]).commits| > |After(h[..n]).commits|
  }

  // Evidence starts over after a commit, a cancel and an invalidation.
  predicate ResetAt(h: seq<Event>, n: nat)
    requires n < |h|
  {
    Clears(h[n]) || CommitsAt(h, n)
  }

  predicate Selects(e: Event, seat: Seat) {
    && e.Link? && e.seat == seat && (e.command == READY_TO_TRADE || e.command == SET_MONS_TO_TRADE)
    && e.cursor < PARTY_SIZE
  }

  predicate Commands(e: Event, command: int) {
    e.Link? && e.command == command
  }

  // The record a seat selects last between two points of the history.
  function Chosen(h: seq<Event>, from: nat, end: nat, seat: Seat): (cursor: Option<nat>)
    requires end <= |h|
    decreases end
  {
    if end <= from then None
    else if Selects(h[end - 1], seat) then Some(h[end - 1].cursor)
    else Chosen(h, from, end - 1, seat)
  }

  lemma {:induction false} ChosenIsLast(h: seq<Event>, from: nat, end: nat, seat: Seat)
    requires end <= |h|
    ensures var c := Chosen(h, from, end, seat);
            if c.None? then forall i :: from <= i < end ==> !Selects(h[i], seat)
            else exists i :: from <= i < end && Selects(h[i], seat) && h[i].cursor == c.value
                             && forall j :: i < j < end ==> !Selects(h[j], seat)
    decreases end
  {
    if from < end {
      if !Selects(h[end - 1], seat) {
        ChosenIsLast(h, from, end - 1, seat);
      } else {
        assert h[end - 1].cursor == Chosen(h, from, end, seat).value;
      }
    }
  }

  // A START that finds both selections made.
  predicate Starts(h: seq<Event>, from: nat, i: nat)
    requires i < |h|
  {
    && Commands(h[i], START_TRADE)
    && Chosen(h, from, i, E.MemberA).Some? && Chosen(h, from, i, E.MemberB).Some?
  }

  predicate NoStart(h: seq<Event>, from: nat, end: nat)
    requires end <= |h|
  {
    forall i :: from <= i < end ==> !Starts(h, from, i)
  }

  predicate NoCommand(h: seq<Event>, from: nat, end: nat, command: int)
    requires end <= |h|
  {
    forall i :: from <= i < end ==> !Commands(h[i], command)
  }

  // A party block with a record that is neither valid nor empty.
  predicate Unreadable(e: Event) {
    e.PartyBlock? && Garbage in [e.first, e.second]
  }

  // The blocks of a seat that wait for its party to be complete.
  function Waiting(h: seq<Event>, seat: Seat): (chunks: seq<Party>)
  {
    if h == [] then []
    else
      var before, e := Waiting(h[..|h| - 1], seat), h[|h| - 1];
      if (e.Lost? || Unreadable(e)) && e.seat == seat then []
      else if e.PartyBlock? && !Unreadable(e) && e.seat == seat then
        if |before| >= 2 then [] else before + [[HashOf(e.first), HashOf(e.second)]]
      else before
  }

  // The event completes a party of the seat: it is the third block in a row.
  predicate Completes(h: seq<Event>, n: nat, seat: Seat, party: Party)
    requires n < |h|
  {
    && h[n].PartyBlock? && !Unreadable(h[n]) && h[n].seat == seat
    && (var w := Waiting(h[..n], seat);
        |w| == 2 && party == w[0] + w[1] + [HashOf(h[n].first), HashOf(h[n].second)])
  }

  // The event ends what was known of a seat's party: it completes another one, or loses the seat.
  predicate Renews(h: seq<Event>, n: nat, seat: Seat)
    requires n < |h|
  {
    || ((h[n].Lost? || Unreadable(h[n])) && h[n].seat == seat)
    || (h[n].PartyBlock? && !Unreadable(h[n]) && h[n].seat == seat && |Waiting(h[..n], seat)| == 2)
  }

  predicate Quiet(h: seq<Event>, from: nat, end: nat, seat: Seat)
    requires end <= |h|
  {
    forall i :: from <= i < end ==> !Renews(h, i, seat)
  }

  // ---- a longer history says the same of its beginning --------------------------------------

  lemma {:induction false} ChosenStable(h: seq<Event>, e: Event, from: nat, end: nat, seat: Seat)
    requires end <= |h|
    ensures Chosen(h + [e], from, end, seat) == Chosen(h, from, end, seat)
    decreases end
  {
    if from < end {
      ChosenStable(h, e, from, end - 1, seat);
    }
  }

  lemma ChosenNext(h: seq<Event>, e: Event, from: nat, seat: Seat)
    requires from <= |h|
    ensures Chosen(h + [e], from, |h| + 1, seat)
            == if Selects(e, seat) then Some(e.cursor) else Chosen(h, from, |h|, seat)
  {
    ChosenStable(h, e, from, |h|, seat);
  }

  lemma StartsStable(h: seq<Event>, e: Event, from: nat, i: nat)
    requires i < |h|
    ensures Starts(h + [e], from, i) <==> Starts(h, from, i)
  {
    ChosenStable(h, e, from, i, E.MemberA);
    ChosenStable(h, e, from, i, E.MemberB);
  }

  lemma StartsNext(h: seq<Event>, e: Event, from: nat)
    requires from <= |h|
    ensures Starts(h + [e], from, |h|) <==>
              && Commands(e, START_TRADE)
              && Chosen(h, from, |h|, E.MemberA).Some? && Chosen(h, from, |h|, E.MemberB).Some?
  {
    ChosenStable(h, e, from, |h|, E.MemberA);
    ChosenStable(h, e, from, |h|, E.MemberB);
  }

  lemma NoStartStable(h: seq<Event>, e: Event, from: nat, end: nat)
    requires end <= |h| && NoStart(h, from, end)
    ensures NoStart(h + [e], from, end)
  {
    hide Starts;
    forall i | from <= i < end ensures !Starts(h + [e], from, i) {
      StartsStable(h, e, from, i);
    }
  }

  lemma CompletesStable(h: seq<Event>, e: Event, m: nat, seat: Seat, party: Party)
    requires m < |h| && Completes(h, m, seat, party)
    ensures Completes(h + [e], m, seat, party)
  {
    assert (h + [e])[..m] == h[..m];
  }

  lemma QuietStable(h: seq<Event>, e: Event, from: nat, end: nat, seat: Seat)
    requires end <= |h| && Quiet(h, from, end, seat)
    ensures Quiet(h + [e], from, end, seat)
  {
    forall i | from <= i < end ensures !Renews(h + [e], i, seat) {
      assert (h + [e])[..i] == h[..i];
      assert !Renews(h, i, seat);
    }
  }

  lemma QuietNext(h: seq<Event>, e: Event, from: nat, seat: Seat)
    requires Quiet(h, from, |h|, seat)
    requires (e.Lost? || e.PartyBlock?) && e.seat == seat ==>
      e.PartyBlock? && !Unreadable(e) && |Waiting(h, seat)| != 2
    ensures Quiet(h + [e], from, |h| + 1, seat)
  {
    QuietStable(h, e, from, |h|, seat);
    assert (h + [e])[..|h|] == h;
  }

  // ---- notes on when each piece of evidence came --------------------------------------------

  datatype Notes = Notes(
    window: nat, started: nat, ready: nat, confirmed: nat, saved: map<(Seat, nat), nat>,
    post: PerSeat<nat>, pre: PerSeat<nat>, latest: PerSeat<nat>)

  const BLANK := Notes(0, 0, 0, 0, map[], PerSeat(0, 0), PerSeat(0, 0), PerSeat(0, 0))

  function Noted(n: Notes, s: State, e: Event, at: nat): Notes {
    match e
    case Link(seat, command, cursor) =>
      var t := Observe(s.trade, seat, command, cursor);
      n.(started := if t.started && !s.trade.started then at else n.started,
         ready := if t.readyFinish && !s.trade.readyFinish then at else n.ready,
         confirmed := if t.confirmed && !s.trade.confirmed then at else n.confirmed)
    case SaveCount(seat, count) => n.(saved := n.saved[(seat, count) := at])
    case PartyBlock(seat, _, _) =>
      if |s.chunks.At(seat)| < 2 then n
      else
        var m := n.(latest := n.latest.With(seat, at));
        if s.trade.confirmed then m.(post := n.post.With(seat, at)) else m.(pre := n.pre.With(seat, at))
    case Lost(_) => n
  }

  function NotesOf(h: seq<Event>): (n: Notes)
  {
    if h == [] then BLANK
    else
      var p := h[..|h| - 1];
      var n := Noted(NotesOf(p), After(p), h[|h| - 1], |p|);
      if ResetAt(h, |p|) then n.(window := |h|, pre := n.latest) else n
  }

  // ---- what the evidence always rests on ----------------------------------------------------

  predicate SelectionOk(h: seq<Event>, selection: Option<nat>, n: Notes, seat: Seat) {
    n.window <= |h| && selection == Chosen(h, n.window, |h|, seat)
  }

  // The latest party of a seat; the one it had before the confirmation and the one after it.
  predicate LatestOk(h: seq<Event>, party: Option<Party>, at: nat, seat: Seat) {
    party.Some? ==> at < |h| && Completes(h, at, seat, party.value) && Quiet(h, at + 1, |h|, seat)
  }

  predicate PreOk(h: seq<Event>, s: State, n: Notes, seat: Seat) {
    s.trade.pre.At(seat).Some? ==>
      if s.trade.confirmed then
        && n.pre.At(seat) < n.confirmed < |h| && Completes(h, n.pre.At(seat), seat, s.trade.pre.At(seat).value)
        && Quiet(h, n.pre.At(seat) + 1, n.confirmed, seat)
      else s.trade.pre.At(seat) == s.latest.At(seat) && n.pre.At(seat) == n.latest.At(seat)
  }

  predicate PostOk(s: State, n: Notes, seat: Seat) {
    s.trade.post.At(seat).Some? ==>
      && s.trade.confirmed && n.confirmed < n.post.At(seat)
      && s.trade.post.At(seat) == s.latest.At(seat) && n.post.At(seat) == n.latest.At(seat)
  }

  ghost predicate SavesOk(h: seq<Event>, s: State, n: Notes, seat: Seat) {
    forall c :: c in s.trade.saves.At(seat) ==>
      && s.trade.confirmed && (seat, c) in n.saved
      && n.confirmed < n.saved[(seat, c)] < |h| && h[n.saved[(seat, c)]] == SaveCount(seat, c)
  }

  ghost predicate SeatOk(h: seq<Event>, s: State, n: Notes, seat: Seat) {
    && SelectionOk(h, s.trade.selections.At(seat), n, seat) && LatestOk(h, s.latest.At(seat), n.latest.At(seat), seat)
    && PreOk(h, s, n, seat) && PostOk(s, n, seat) && SavesOk(h, s, n, seat)
  }

  // Each stage was reached at the first command that could reach it.
  predicate StagesOk(h: seq<Event>, t: Trade, n: Notes) {
    && n.window <= |h|
    && (if t.started then
          n.window <= n.started < |h| && Starts(h, n.window, n.started) && NoStart(h, n.window, n.started)
        else NoStart(h, n.window, |h|))
    && (t.readyFinish ==>
          && t.started && n.started < n.ready < |h| && Commands(h[n.ready], READY_FINISH_TRADE)
          && NoCommand(h, n.started + 1, n.ready, READY_FINISH_TRADE))
    && (t.started && !t.readyFinish ==> NoCommand(h, n.started + 1, |h|, READY_FINISH_TRADE))
    && (t.confirmed ==>
          && t.readyFinish && n.ready < n.confirmed < |h| && Commands(h[n.confirmed], CONFIRM_FINISH_TRADE)
          && NoCommand(h, n.ready + 1, n.confirmed, CONFIRM_FINISH_TRADE))
    && (t.readyFinish && !t.confirmed ==> NoCommand(h, n.ready + 1, |h|, CONFIRM_FINISH_TRADE))
  }

  ghost predicate EvidenceOk(h: seq<Event>, s: State, n: Notes) {
    SeatOk(h, s, n, E.MemberA) && SeatOk(h, s, n, E.MemberB) && StagesOk(h, s.trade, n)
  }

  // ---- one more event -----------------------------------------------------------------------

  lemma SelectionNext(h: seq<Event>, e: Event, s: State, n: Notes, seat: Seat)
    requires SelectionOk(h, s.trade.selections.At(seat), n, seat) && !Clears(e)
    ensures SelectionOk(h + [e], Update(s, e).trade.selections.At(seat), Noted(n, s, e, |h|), seat)
  {
    hide Chosen;
    ChosenNext(h, e, n.window, seat);
  }

  // Without a completed party the parties known of the seat stay, and so do their notes.
  lemma SameParties(s: State, n: Notes, e: Event, at: nat, seat: Seat)
    requires !Clears(e) && (e.PartyBlock? && e.seat == seat ==> |s.chunks.At(seat)| < 2)
    ensures var t, m := Update(s, e), Noted(n, s, e, at);
            && t.latest.At(seat) == s.latest.At(seat) && m.latest.At(seat) == n.latest.At(seat)
            && t.trade.pre.At(seat) == s.trade.pre.At(seat) && m.pre.At(seat) == n.pre.At(seat)
            && t.trade.post.At(seat) == s.trade.post.At(seat) && m.post.At(seat) == n.post.At(seat)
            && (s.trade.confirmed ==> t.trade.confirmed && m.confirmed == n.confirmed)
            && (!s.trade.confirmed && t.trade.confirmed ==> m.confirmed == at)
  {
  }

  // No party of the seat is completed.
  lemma PartiesStay(h: seq<Event>, e: Event, s: State, n: Notes, seat: Seat)
    requires LatestOk(h, s.latest.At(seat), n.latest.At(seat), seat) && PreOk(h, s, n, seat) && PostOk(s, n, seat)
    requires !Clears(e) && (e.PartyBlock? && e.seat == seat ==> |s.chunks.At(seat)| < 2)
    requires s.chunks.At(seat) == Waiting(h, seat)
    ensures var t, m := Update(s, e), Noted(n, s, e, |h|);
            && LatestOk(h + [e], t.latest.At(seat), m.latest.At(seat), seat)
            && PreOk(h + [e], t, m, seat) && PostOk(t, m, seat)
  {
    hide Completes, Quiet, Waiting, Update, Noted;
    SameParties(s, n, e, |h|, seat);
    if s.latest.At(seat).Some? {
      CompletesStable(h, e, n.latest.At(seat), seat, s.latest.At(seat).value);
      QuietNext(h, e, n.latest.At(seat) + 1, seat);
      QuietStable(h, e, n.latest.At(seat) + 1, |h|, seat);
    }
    if s.trade.pre.At(seat).Some? && s.trade.confirmed {
      CompletesStable(h, e, n.pre.At(seat), seat, s.trade.pre.At(seat).value);
      QuietStable(h, e, n.pre.At(seat) + 1, n.confirmed, seat);
    }
  }

  // A party of the seat is completed.
  lemma PartyCompleted(h: seq<Event>, e: Event, s: State, n: Notes, seat: Seat)
    requires PreOk(h, s, n, seat) && PostOk(s, n, seat) && e.PartyBlock? && !Unreadable(e) && e.seat == seat
    requires s.chunks.At(seat) == Waiting(h, seat) && |Waiting(h, seat)| == 2
    requires s.trade.confirmed ==> n.confirmed < |h|
    ensures var t, m := Update(s, e), Noted(n, s, e, |h|);
            && LatestOk(h + [e], t.latest.At(seat), m.latest.At(seat), seat)
            && PreOk(h + [e], t, m, seat) && PostOk(t, m, seat)
  {
    hide Quiet, Waiting;
    assert (h + [e])[..|h|] == h;
    NothingAfter(h + [e], seat);
    if s.trade.pre.At(seat).Some? && s.trade.confirmed {
      CompletesStable(h, e, n.pre.At(seat), seat, s.trade.pre.At(seat).value);
      QuietStable(h, e, n.pre.At(seat) + 1, n.confirmed, seat);
    }
  }

  lemma NothingAfter(h: seq<Event>, seat: Seat)
    ensures Quiet(h, |h|, |h|, seat)
  {
  }

  lemma SavesNext(h: seq<Event>, e: Event, s: State, n: Notes, seat: Seat)
    requires SavesOk(h, s, n, seat) && !Clears(e) && StagesOk(h, s.trade, n)
    ensures SavesOk(h + [e], Update(s, e), Noted(n, s, e, |h|), seat)
  {
    hide Starts, NoStart, NoCommand;
  }

  lemma SeatNext(h: seq<Event>, e: Event, s: State, n: Notes, seat: Seat)
    requires SeatOk(h, s, n, seat) && !Clears(e) && StagesOk(h, s.trade, n)
    requires s.chunks.At(seat) == Waiting(h, seat) && |Waiting(h, seat)| <= 2
    ensures SeatOk(h + [e], Update(s, e), Noted(n, s, e, |h|), seat)
  {
    hide SelectionOk, LatestOk, PreOk, PostOk, SavesOk, Update, Noted, Waiting, Starts, NoStart, NoCommand;
    SelectionNext(h, e, s, n, seat);
    SavesNext(h, e, s, n, seat);
    if e.PartyBlock? && e.seat == seat && |s.chunks.At(seat)| == 2 {
      PartyCompleted(h, e, s, n, seat);
    } else {
      PartiesStay(h, e, s, n, seat);
    }
  }

  // A stage that is not reached stays out of reach as long as its command does not come.
  lemma StartNext(h: seq<Event>, e: Event, t: Trade, u: Trade, n: Notes, m: Notes)
    requires n.window <= |h| && m.window == n.window
    requires if t.started then
               n.window <= n.started < |h| && Starts(h, n.window, n.started) && NoStart(h, n.window, n.started)
             else NoStart(h, n.window, |h|)
    requires t.selections.a == Chosen(h, n.window, |h|, E.MemberA)
             && t.selections.b == Chosen(h, n.window, |h|, E.MemberB)
    requires u.started <==> t.started || (Commands(e, START_TRADE) && t.selections.a.Some? && t.selections.b.Some?)
    requires m.started == if u.started && !t.started then |h| else n.started
    ensures if u.started then
              && m.window <= m.started <= |h| && Starts(h + [e], m.window, m.started)
              && NoStart(h + [e], m.window, m.started)
            else NoStart(h + [e], m.window, |h| + 1)
  {
    hide Starts, Chosen;
    StartsNext(h, e, n.window);
    if t.started {
      StartsStable(h, e, n.window, n.started);
      NoStartStable(h, e, n.window, n.started);
    } else {
      NoStartStable(h, e, n.window, |h|);
    }
  }

  lemma StagesNext(h: seq<Event>, e: Event, s: State, n: Notes)
    requires StagesOk(h, s.trade, n) && !Clears(e)
    requires SelectionOk(h, s.trade.selections.a, n, E.MemberA) && SelectionOk(h, s.trade.selections.b, n, E.MemberB)
    ensures StagesOk(h + [e], Update(s, e).trade, Noted(n, s, e, |h|))
  {
    hide Starts, NoStart, Chosen;
    StartNext(h, e, s.trade, Update(s, e).trade, n, Noted(n, s, e, |h|));
  }

  lemma UpdateEvidence(h: seq<Event>, e: Event, s: State, n: Notes)
    requires EvidenceOk(h, s, n) && !Clears(e)
    requires forall seat: Seat :: s.chunks.At(seat) == Waiting(h, seat) && |Waiting(h, seat)| <= 2
    ensures EvidenceOk(h + [e], Update(s, e), Noted(n, s, e, |h|))
  {
    hide SelectionOk, LatestOk, PreOk, PostOk, SavesOk, StagesOk, Update, Noted, Waiting;
    SeatNext(h, e, s, n, E.MemberA);
    SeatNext(h, e, s, n, E.MemberB);
    StagesNext(h, e, s, n);
  }

  // Evidence that starts over rests on the known parties alone.
  lemma StartOver(h: seq<Event>, s: State, n: Notes, t: State, m: Notes, seat: Seat)
    requires LatestOk(h, s.latest.At(seat), n.latest.At(seat), seat)
    requires m.latest.At(seat) == n.latest.At(seat) || t.latest.At(seat) == None
    requires t.latest.At(seat) == s.latest.At(seat) || t.latest.At(seat) == None
    requires t.trade == NoTrade(t.latest) || t.trade == NoTrade(PerSeat(None, None))
    requires m.window == |h| && m.pre == m.latest
    ensures SeatOk(h, t, m, seat)
  {
    hide Completes, Quiet;
  }

  lemma FreshStages(h: seq<Event>, n: Notes, pre: PerSeat<Option<Party>>)
    requires n.window == |h|
    ensures StagesOk(h, NoTrade(pre), n)
  {
    hide Starts;
  }

  // ---- every history ------------------------------------------------------------------------

  lemma {:induction false} ChunksWait(h: seq<Event>, seat: Seat)
    ensures After(h).chunks.At(seat) == Waiting(h, seat) && |Waiting(h, seat)| <= 2
  {
    if h != [] {
      ChunksWait(h[..|h| - 1], seat);
    }
  }

  lemma AfterAppend(h: seq<Event>, e: Event)
    ensures After(h + [e]) == Step(After(h), e)
    ensures ResetAt(h + [e], |h|) <==> Clears(e) || |Step(After(h), e).commits| > |After(h).commits|
    ensures NotesOf(h + [e]) == (var n := Noted(NotesOf(h), After(h), e, |h|);
                                 if ResetAt(h + [e], |h|) then n.(window := |h| + 1, pre := n.latest) else n)
  {
    assert (h + [e])[..|h|] == h;
    assert (h + [e])[..|h| + 1] == h + [e];
  }

  // A try either changes nothing or commits once and starts over.
  lemma TryOutcome(s: State)
    ensures var t := TryCommit(s);
            if HasAll(s.trade) && Swapped(s.trade) then
              && t.latest == s.latest && t.chunks == s.chunks && t.trade == NoTrade(s.latest)
              && t.index == s.index + 1 && t.commits == s.commits + [CommitOf(s.trade, s.index + 1)]
            else t == s
  {
  }

  lemma UpdateKeepsCommits(s: State, e: Event)
    ensures Update(s, e).commits == s.commits && Update(s, e).index == s.index
  {
  }

  // What a clearing event leaves of the state and the notes of a seat.
  lemma ClearOutcome(s: State, n: Notes, e: Event, at: nat, seat: Seat)
    requires Clears(e)
    ensures var t, m := Step(s, e), Noted(n, s, e, at);
            && t == Update(s, e) && t.commits == s.commits
            && (t.trade == NoTrade(t.latest) || t.trade == NoTrade(PerSeat(None, None)))
            && (t.latest.At(seat) == s.latest.At(seat) || t.latest.At(seat) == None)
            && (m.latest.At(seat) == n.latest.At(seat) || t.latest.At(seat) == None)
            && ((e.Lost? || e.PartyBlock?) && e.seat == seat ==> t.latest.At(seat) == None)
  {
  }

  lemma ClearsCommitNothing(s: State, e: Event)
    ensures Clears(e) ==> Step(s, e).commits == s.commits
  {
  }

  lemma ClearSeat(h: seq<Event>, e: Event, s: State, n: Notes, seat: Seat)
    requires LatestOk(h, s.latest.At(seat), n.latest.At(seat), seat) && Clears(e)
    ensures var m := Noted(n, s, e, |h|);
            SeatOk(h + [e], Step(s, e), m.(window := |h| + 1, pre := m.latest), seat)
  {
    hide Completes, Quiet, Step, Noted, Waiting, SeatOk;
    ClearOutcome(s, n, e, |h|, seat);
    var t, m := Step(s, e), Noted(n, s, e, |h|);
    if t.latest.At(seat).Some? && s.latest.At(seat).Some? {
      CompletesStable(h, e, n.latest.At(seat), seat, s.latest.At(seat).value);
      QuietNext(h, e, n.latest.At(seat) + 1, seat);
    }
    var known := s.(latest := s.latest.With(seat, t.latest.At(seat)));
    StartOver(h + [e], known, n, t, m.(window := |h| + 1, pre := m.latest), seat);
  }

  lemma StepEvidence(h: seq<Event>, e: Event)
    requires EvidenceOk(h, After(h), NotesOf(h))
    ensures EvidenceOk(h + [e], After(h + [e]), NotesOf(h + [e]))
    ensures !Clears(e) ==> EvidenceOk(h + [e], Update(After(h), e), Noted(NotesOf(h), After(h), e, |h|))
  {
    hide SelectionOk, LatestOk, PreOk, PostOk, SavesOk, StagesOk, Update, After, NotesOf, ResetAt, Noted, TryCommit,
         HasAll, Swapped, Waiting;
    var s, n := After(h), NotesOf(h);
    var m := Noted(n, s, e, |h|);
    AfterAppend(h, e);
    UpdateKeepsCommits(s, e);
    var over := m.(window := |h| + 1, pre := m.latest);
    FreshStages(h + [e], over, After(h + [e]).trade.pre);
    if Clears(e) {
      ClearOutcome(s, n, e, |h|, E.MemberA);
      ClearSeat(h, e, s, n, E.MemberA);
      ClearSeat(h, e, s, n, E.MemberB);
    } else {
      forall seat: Seat ensures s.chunks.At(seat) == Waiting(h, seat) && |Waiting(h, seat)| <= 2 {
        ChunksWait(h, seat);
      }
      UpdateEvidence(h, e, s, n);
      var u := Update(s, e);
      TryOutcome(u);
      if Tries(s, e) && HasAll(u.trade) && Swapped(u.trade) {
        StartOver(h + [e], u, m, TryCommit(u), over, E.MemberA);
        StartOver(h + [e], u, m, TryCommit(u), over, E.MemberB);
      }
    }
  }

  lemma {:induction false} EvidenceHolds(h: seq<Event>)
    ensures EvidenceOk(h, After(h), NotesOf(h))
    decreases |h|
  {
    hide Step, NotesOf, SeatOk, StagesOk;
    if h == [] {
      NoEvidence();
    } else {
      var p, e := h[..|h| - 1], h[|h| - 1];
      assert h == p + [e];
      EvidenceHolds(p);
      StepEvidence(p, e);
    }
  }

  lemma NoEvidence()
    ensures EvidenceOk([], After([]), NotesOf([]))
  {
  }

  // Evidence starts at the beginning or right after a reset, and there has been none since.
  lemma {:induction false} WindowIsClear(h: seq<Event>)
    ensures var w := NotesOf(h).window;
            && w <= |h| && (w > 0 ==> ResetAt(h, w - 1))
            && forall i :: w <= i < |h| ==> !ResetAt(h, i)
    decreases |h|
  {
    hide ResetAt, Noted, After;
    if h != [] {
      var p, e := h[..|h| - 1], h[|h| - 1];
      assert h == p + [e];
      KeepsWindow(NotesOf(p), After(p), e, |p|);
      WindowIsClear(p);
      forall i | 0 <= i < |p| ensures ResetAt(h, i) <==> ResetAt(p, i) {
        SameReset(p, e, i);
      }
    }
  }

  lemma KeepsWindow(n: Notes, s: State, e: Event, at: nat)
    ensures Noted(n, s, e, at).window == n.window
  {
  }

  lemma SameReset(h: seq<Event>, e: Event, i: nat)
    requires i < |h|
    ensures ResetAt(h + [e], i) <==> ResetAt(h, i)
  {
    assert (h + [e])[..i + 1] == h[..i + 1] && (h + [e])[..i] == h[..i];
  }

  // ---- commits ------------------------------------------------------------------------------

  // One seat's part in a trade: what it had before the confirmation and after it, and the record
  // it chose.
  datatype Part = Part(before: Party, after: Party, cursor: nat)

  // The seat's part in a trade at event `n`: its last selection, which may be later than the START;
  // its last party before the confirmation, not lost in between, and its last one after it; and
  // every save count after the confirmation.
  ghost predicate SeatBacked(h: seq<Event>, n: nat, x: Notes, seat: Seat, p: Part)
    requires n < |h|
  {
    && x.confirmed <= n
    && Chosen(h, x.window, n + 1, seat) == Some(p.cursor)
    && x.pre.At(seat) < x.confirmed && Completes(h, x.pre.At(seat), seat, p.before)
    && Quiet(h, x.pre.At(seat) + 1, x.confirmed, seat)
    && x.confirmed < x.post.At(seat) <= n && Completes(h, x.post.At(seat), seat, p.after)
    && Quiet(h, x.post.At(seat) + 1, n + 1, seat)
    && (forall c :: FIRST_SAVE <= c <= LAST_SAVE ==>
          && (seat, c) in x.saved && x.confirmed < x.saved[(seat, c)] <= n
          && h[x.saved[(seat, c)]] == SaveCount(seat, c))
  }

  // The stages of a trade: since the last reset, the first START that found both selections made,
  // the first READY_FINISH after it and the first CONFIRM after that.
  predicate StagesBacked(h: seq<Event>, n: nat, x: Notes)
    requires n < |h|
  {
    && x.window <= x.started < x.ready < x.confirmed <= n
    && (x.window > 0 ==> ResetAt(h, x.window - 1)) && (forall i :: x.window <= i < n ==> !ResetAt(h, i))
    && Starts(h, x.window, x.started) && NoStart(h, x.window, x.started)
    && Commands(h[x.ready], READY_FINISH_TRADE) && NoCommand(h, x.started + 1, x.ready, READY_FINISH_TRADE)
    && Commands(h[x.confirmed], CONFIRM_FINISH_TRADE) && NoCommand(h, x.ready + 1, x.confirmed, CONFIRM_FINISH_TRADE)
  }

  // A trade that the history up to event `n` proves: the stages, both parts, and the records the
  // two seats selected last have changed places.
  ghost predicate Backed(h: seq<Event>, n: nat, x: Notes, a: Part, b: Part, c: Commit)
    requires n < |h|
  {
    && StagesBacked(h, n, x)
    && SeatBacked(h, n, x, E.MemberA, a) && SeatBacked(h, n, x, E.MemberB, b)
    && Entry(a.before, a.cursor) == Some(c.hashA) == Entry(b.after, b.cursor)
    && Entry(b.before, b.cursor) == Some(c.hashB) == Entry(a.after, a.cursor)
  }

  ghost predicate IsBacked(h: seq<Event>, n: nat, c: Commit)
    requires n < |h|
  {
    exists x, a, b :: Backed(h, n, x, a, b, c)
  }

  function PartOf(t: Trade, seat: Seat): Part
    requires HasAll(t)
  {
    Part(t.pre.At(seat).value, t.post.At(seat).value, t.selections.At(seat).value)
  }

  lemma SeatBacking(h: seq<Event>, t: State, x: Notes, seat: Seat)
    requires h != [] && SeatOk(h, t, x, seat) && HasAll(t.trade)
    ensures SeatBacked(h, |h| - 1, x, seat, PartOf(t.trade, seat))
  {
    hide Completes, Quiet, Chosen;
  }

  lemma SwappedParts(t: Trade, index: nat)
    requires HasAll(t) && Swapped(t)
    ensures var a, b, c := PartOf(t, E.MemberA), PartOf(t, E.MemberB), CommitOf(t, index);
            && Entry(a.before, a.cursor) == Some(c.hashA) == Entry(b.after, b.cursor)
            && Entry(b.before, b.cursor) == Some(c.hashB) == Entry(a.after, a.cursor)
  {
  }

  lemma StagesBacking(h: seq<Event>, t: Trade, x: Notes)
    requires h != [] && StagesOk(h, t, x) && t.confirmed
    requires (x.window > 0 ==> ResetAt(h, x.window - 1)) && forall i :: x.window <= i < |h| - 1 ==> !ResetAt(h, i)
    ensures StagesBacked(h, |h| - 1, x)
  {
    hide Starts, NoStart, NoCommand, ResetAt;
  }

  // The state from which an event commits.
  lemma CommittingState(h: seq<Event>, e: Event)
    requires CommitsAt(h + [e], |h|)
    ensures var u := Update(After(h), e);
            && !Clears(e) && HasAll(u.trade) && Swapped(u.trade)
            && After(h + [e]) == TryCommit(u) && u.index == After(h).index && u.commits == After(h).commits
  {
    hide Update, After, Swapped, HasAll;
    assert (h + [e])[..|h|] == h && (h + [e])[..|h| + 1] == h + [e];
    AfterAppend(h, e);
    UpdateKeepsCommits(After(h), e);
    TryOutcome(Update(After(h), e));
    ClearsCommitNothing(After(h), e);
  }

  lemma TradeAdds(u: State)
    requires HasAll(u.trade) && Swapped(u.trade)
    ensures u.trade.confirmed && TryCommit(u).commits == u.commits + [CommitOf(u.trade, u.index + 1)]
  {
    hide Swapped, Saved;
  }

  // The state from which an event commits backs the trade it commits.
  lemma CommitBacking(h: seq<Event>, e: Event)
    requires CommitsAt(h + [e], |h|)
    ensures var u, x := Update(After(h), e), Noted(NotesOf(h), After(h), e, |h|);
            && HasAll(u.trade) && Swapped(u.trade)
            && Backed(h + [e], |h|, x, PartOf(u.trade, E.MemberA), PartOf(u.trade, E.MemberB),
                      CommitOf(u.trade, After(h).index + 1))
  {
    hide SeatOk, StagesOk, Update, NotesOf, Noted, Saved, Swapped, HasAll, ResetAt, SeatBacked, StagesBacked, After,
      CommitsAt, LatestOk;
    var s, n := After(h), NotesOf(h);
    var u, x := Update(s, e), Noted(n, s, e, |h|);
    CommittingState(h, e);
    TradeAdds(u);
    EvidenceHolds(h);
    StepEvidence(h, e);
    SeatBacking(h + [e], u, x, E.MemberA);
    SeatBacking(h + [e], u, x, E.MemberB);
    KeepsWindow(n, s, e, |h|);
    WindowIsClear(h);
    forall i | 0 <= i < |h| ensures ResetAt(h + [e], i) <==> ResetAt(h, i) {
      SameReset(h, e, i);
    }
    StagesBacking(h + [e], u.trade, x);
    SwappedParts(u.trade, s.index + 1);
  }

  // Every commit is backed.
  lemma CommitIsBacked(h: seq<Event>, e: Event)
    requires CommitsAt(h + [e], |h|)
    ensures var commits := After(h + [e]).commits;
            && commits != []
            && IsBacked(h + [e], |h|, commits[|commits| - 1])
  {
    hide Backed, Update, NotesOf, Noted, After, HasAll, Swapped, CommitsAt, CommitOf, TryCommit;
    CommitBacking(h, e);
    CommittingState(h, e);
    TradeAdds(Update(After(h), e));
    var u, x := Update(After(h), e), Noted(NotesOf(h), After(h), e, |h|);
    assert Backed(h + [e], |h|, x, PartOf(u.trade, E.MemberA), PartOf(u.trade, E.MemberB),
                  CommitOf(u.trade, After(h).index + 1));
  }

  // The commit that an event of a history made, and what backs it.
  ghost predicate Made(h: seq<Event>, n: nat, c: Commit)
    requires n < |h|
  {
    && CommitsAt(h, n)
    && (var commits := After(h[..n + 1]).commits; commits != [] && commits[|commits| - 1] == c)
    && IsBacked(h[..n + 1], n, c)
  }

  lemma NothingCommitted()
    ensures After([]).commits == []
  {
  }

  lemma OneMoreCommit(s: State, e: Event)
    ensures var t := Step(s, e);
            s.commits <= t.commits && |t.commits| <= |s.commits| + 1
  {
    hide Update, HasAll, Swapped;
    UpdateKeepsCommits(s, e);
    TryOutcome(Update(s, e));
  }

  // Each commit on record was made by some event, and is backed by the history up to it.
  lemma {:induction false} EveryCommitIsBacked(h: seq<Event>, i: nat)
    requires i < |After(h).commits|
    ensures exists n :: 0 <= n < |h| && Made(h, n, After(h).commits[i])
    decreases |h|
  {
    hide IsBacked, Step, After, ResetAt, NotesOf;
    NothingCommitted();
    assert h != [];
    var p, e := h[..|h| - 1], h[|h| - 1];
    assert h == p + [e];
    AfterAppend(p, e);
    OneMoreCommit(After(p), e);
    var c := After(h).commits[i];
    if i < |After(p).commits| {
      EveryCommitIsBacked(p, i);
      var n :| 0 <= n < |p| && Made(p, n, c);
      assert p[..n + 1] == h[..n + 1] && p[..n] == h[..n];
      assert Made(h, n, c);
    } else {
      assert h[..|p| + 1] == h && h[..|p|] == p;
      CommitIsBacked(p, e);
      assert Made(h, |p|, c);
    }
  }

  // ---- selections after the START -----------------------------------------------------------

  // The trade commits what the seats had selected when it was started if and only if the last
  // selection of each before the commit repeats the one it had made then.
  lemma CommitsStartedSelections(h: seq<Event>, n: nat, x: Notes, a: Part, b: Part, c: Commit)
    requires n < |h| && Backed(h, n, x, a, b, c)
    ensures (Chosen(h, x.window, x.started, E.MemberA) == Some(a.cursor)
             && Chosen(h, x.window, x.started, E.MemberB) == Some(b.cursor))
            <==> forall seat: Seat, i, j ::
                   LastChoice(h, x.window, x.started, seat, i) && LastChoice(h, x.window, n + 1, seat, j) ==>
                     h[i].cursor == h[j].cursor
  {
    hide SeatBacked, StagesBacked;
    var w := x.window;
    assert Chosen(h, w, n + 1, E.MemberA) == Some(a.cursor) && Chosen(h, w, n + 1, E.MemberB) == Some(b.cursor) by {
      PartCursors(h, n, x, a, b, c);
    }
    assert Chosen(h, w, x.started, E.MemberA).Some? && Chosen(h, w, x.started, E.MemberB).Some? && x.started <= n by {
      PartCursors(h, n, x, a, b, c);
    }
    forall seat: Seat, i, j | LastChoice(h, w, x.started, seat, i) && LastChoice(h, w, n + 1, seat, j)
      ensures Chosen(h, w, x.started, seat) == Some(h[i].cursor) && Chosen(h, w, n + 1, seat) == Some(h[j].cursor)
    {
      LastIsChosen(h, w, x.started, seat, i);
      LastIsChosen(h, w, n + 1, seat, j);
    }
    SomeChoices(h, w, x.started, n + 1, E.MemberA);
    SomeChoices(h, w, x.started, n + 1, E.MemberB);
  }

  // The event is the last selection of the seat between two points.
  predicate LastChoice(h: seq<Event>, from: nat, end: nat, seat: Seat, i: int) {
    && end <= |h| && from <= i < end && Selects(h[i], seat)
    && forall k :: i < k < end ==> !Selects(h[k], seat)
  }

  lemma PartCursors(h: seq<Event>, n: nat, x: Notes, a: Part, b: Part, c: Commit)
    requires n < |h| && Backed(h, n, x, a, b, c)
    ensures Chosen(h, x.window, n + 1, E.MemberA) == Some(a.cursor)
            && Chosen(h, x.window, n + 1, E.MemberB) == Some(b.cursor)
    ensures x.started <= n
    ensures Chosen(h, x.window, x.started, E.MemberA).Some? && Chosen(h, x.window, x.started, E.MemberB).Some?
  {
    hide Completes, Quiet, Chosen, ResetAt;
  }

  lemma {:induction false} LastIsChosen(h: seq<Event>, from: nat, end: nat, seat: Seat, i: int)
    requires LastChoice(h, from, end, seat, i)
    ensures Chosen(h, from, end, seat) == Some(h[i].cursor)
    decreases end
  {
    if i < end - 1 {
      assert !Selects(h[end - 1], seat);
      LastIsChosen(h, from, end - 1, seat, i);
    }
  }

  lemma SomeChoices(h: seq<Event>, from: nat, end: nat, later: nat, seat: Seat)
    requires end <= |h| && later <= |h| && Chosen(h, from, end, seat).Some? && Chosen(h, from, later, seat).Some?
    ensures exists i, j :: LastChoice(h, from, end, seat, i) && LastChoice(h, from, later, seat, j)
  {
    ChosenIsLast(h, from, end, seat);
    ChosenIsLast(h, from, later, seat);
    var i :| from <= i < end && Selects(h[i], seat) && forall k :: i < k < end ==> !Selects(h[k], seat);
    var j :| from <= j < later && Selects(h[j], seat) && forall k :: j < k < later ==> !Selects(h[k], seat);
    assert LastChoice(h, from, end, seat, i) && LastChoice(h, from, later, seat, j);
  }

  // ---- counts -------------------------------------------------------------------------------

  // Trades are numbered one after the other.
  lemma {:induction false} IndicesAreConsecutive(h: seq<Event>)
    ensures After(h).index == |After(h).commits|
    ensures forall i :: 0 <= i < |After(h).commits| ==> After(h).commits[i].index == i + 1
    decreases |h|
  {
    hide Update, HasAll, Swapped;
    if h != [] {
      var p, e := h[..|h| - 1], h[|h| - 1];
      IndicesAreConsecutive(p);
      UpdateKeepsCommits(After(p), e);
    }
  }

  function Confirms(h: seq<Event>): nat {
    if h == [] then 0
    else Confirms(h[..|h| - 1]) + if Commands(h[|h| - 1], CONFIRM_FINISH_TRADE) then 1 else 0
  }

  lemma ConfirmCount(s: State, e: Event)
    ensures var u := Update(s, e);
            !s.trade.confirmed && u.trade.confirmed ==> Commands(e, CONFIRM_FINISH_TRADE)
    ensures Clears(e) ==> !Update(s, e).trade.confirmed
  {
  }

  // There are never more commits than CONFIRM commands.
  lemma {:induction false} CommitsNeedConfirms(h: seq<Event>)
    ensures |After(h).commits| + (if After(h).trade.confirmed then 1 else 0) <= Confirms(h)
    decreases |h|
  {
    hide Update, Swapped;
    if h != [] {
      var p, e := h[..|h| - 1], h[|h| - 1];
      CommitsNeedConfirms(p);
      UpdateKeepsCommits(After(p), e);
      ConfirmCount(After(p), e);
      TryOutcome(Update(After(p), e));
    }
  }
}
