/**
 A trade that commits a record selected only after the START: selections are taken at any stage.
 */
module TradeReselection {
  import opened Common
  import E = Envelopes
  import opened TradeObservers
  import opened TradeEvidence

  function Run(s: State, es: seq<Event>): (t: State)
    decreases |es|
  {
    if es == [] then s else Run(Step(s, es[0]), es[1..])
  }

  lemma {:induction false} RunIsAfter(h: seq<Event>, es: seq<Event>)
    ensures After(h + es) == Run(After(h), es)
    decreases |es|
  {
    hide Step;
    if es == [] {
      assert h + es == h;
    } else {
      var next := h + [es[0]];
      assert next[..|h|] == h;
      assert next + es[1..] == h + es;
      RunIsAfter(next, es[1..]);
    }
  }

  lemma {:induction false} RunAppend(s: State, es: seq<Event>, fs: seq<Event>)
    ensures Run(s, es + fs) == Run(Run(s, es), fs)
    decreases |es|
  {
    hide Step;
    if es == [] {
      assert es + fs == fs;
    } else {
      assert (es + fs)[1..] == es[1..] + fs;
      RunAppend(Step(s, es[0]), es[1..], fs);
    }
  }

  // Three blocks of a seat.
  function Blocks(seat: Seat, a: Slot, b: Slot, c: Slot, d: Slot): seq<Event> {
    [PartyBlock(seat, a, b), PartyBlock(seat, c, d), PartyBlock(seat, Empty, Empty)]
  }

  function PartyOf(a: Slot, b: Slot, c: Slot, d: Slot): Party {
    [HashOf(a), HashOf(b), HashOf(c), HashOf(d), None, None]
  }

  predicate Readable(a: Slot, b: Slot, c: Slot, d: Slot) {
    !a.Garbage? && !b.Garbage? && !c.Garbage? && !d.Garbage?
  }

  // Three readable blocks are a party; only then may a trade be committed.
  lemma BlocksMakeParty(s: State, seat: Seat, a: Slot, b: Slot, c: Slot, d: Slot)
    requires Readable(a, b, c, d) && s.chunks.At(seat) == []
    ensures var six := PartyOf(a, b, c, d);
            var t := s.trade;
            var u := if t.confirmed then t.(post := t.post.With(seat, Some(six)))
                     else t.(pre := t.pre.With(seat, Some(six)));
            Run(s, Blocks(seat, a, b, c, d)) == TryCommit(s.(latest := s.latest.With(seat, Some(six)), trade := u))
  {
    hide TryCommit, Step;
    var es := Blocks(seat, a, b, c, d);
    var one, two := [HashOf(a), HashOf(b)], [HashOf(c), HashOf(d)];
    var s1, s2 := s.(chunks := s.chunks.With(seat, [one])), s.(chunks := s.chunks.With(seat, [one, two]));
    BlockWaits(s, seat, a, b);
    assert [] + [one] == [one];
    BlockWaits(s1, seat, c, d);
    assert [one] + [two] == [one, two];
    assert s1.chunks.With(seat, [one, two]) == s2.chunks;
    BlockCompletes(s2, seat, one, two);
    assert one + two + [None, None] == PartyOf(a, b, c, d);
    assert es[1..] == [es[1], es[2]] && es[1..][1..] == [es[2]] && [es[2]][1..] == [];
    assert s2.chunks.With(seat, []) == s.chunks;
    assert Run(s, es) == Run(s1, es[1..]) == Run(s2, [es[2]]) == Step(s2, es[2]);
  }

  lemma BlockWaits(s: State, seat: Seat, a: Slot, b: Slot)
    requires !a.Garbage? && !b.Garbage? && |s.chunks.At(seat)| < 2
    ensures Step(s, PartyBlock(seat, a, b))
            == s.(chunks := s.chunks.With(seat, s.chunks.At(seat) + [[HashOf(a), HashOf(b)]]))
  {
  }

  lemma BlockCompletes(s: State, seat: Seat, one: Party, two: Party)
    requires s.chunks.At(seat) == [one, two]
    ensures var six := one + two + [None, None];
            var t := s.trade;
            var u := if t.confirmed then t.(post := t.post.With(seat, Some(six)))
                     else t.(pre := t.pre.With(seat, Some(six)));
            Step(s, PartyBlock(seat, Empty, Empty))
            == TryCommit(s.(chunks := s.chunks.With(seat, []), latest := s.latest.With(seat, Some(six)), trade := u))
  {
    hide TryCommit;
  }

  const A := E.MemberA
  const B := E.MemberB

  // The first record is selected before the START, the second one after it.
  const LINKS := [Link(A, SET_MONS_TO_TRADE, 0), Link(B, SET_MONS_TO_TRADE, 0), Link(A, START_TRADE, 0),
                  Link(A, SET_MONS_TO_TRADE, 1), Link(A, READY_FINISH_TRADE, 0), Link(A, CONFIRM_FINISH_TRADE, 0)]

  function Agreed(pre: PerSeat<Option<Party>>): Trade {
    Trade(pre, PerSeat(None, None), PerSeat(Some(1), Some(0)), true, true, true, PerSeat({}, {}))
  }

  lemma LinksAgree(s: State)
    requires s.trade == NoTrade(s.trade.pre)
    ensures Run(s, LINKS) == s.(trade := Agreed(s.trade.pre))
  {
    hide Step;
    var t := s.trade;
    var t1 := t.(selections := PerSeat(Some(0), None));
    var t2 := t.(selections := PerSeat(Some(0), Some(0)));
    var t3 := t2.(started := true);
    var t4 := t3.(selections := PerSeat(Some(1), Some(0)));
    var t5 := t4.(readyFinish := true);
    var t6 := t5.(confirmed := true);
    LinkStep(s, LINKS[0], t1);
    LinkStep(s.(trade := t1), LINKS[1], t2);
    LinkStep(s.(trade := t2), LINKS[2], t3);
    LinkStep(s.(trade := t3), LINKS[3], t4);
    LinkStep(s.(trade := t4), LINKS[4], t5);
    LinkStep(s.(trade := t5), LINKS[5], t6);
    var es := LINKS;
    assert es[1..] == [es[1], es[2], es[3], es[4], es[5]];
    assert es[1..][1..] == [es[2], es[3], es[4], es[5]];
    assert es[1..][1..][1..] == [es[3], es[4], es[5]];
    assert es[1..][1..][1..][1..] == [es[4], es[5]];
    assert es[1..][1..][1..][1..][1..] == [es[5]];
    assert es[1..][1..][1..][1..][1..][1..] == [];
    assert Run(s, es) == Run(s.(trade := t1), es[1..]) == Run(s.(trade := t2), es[1..][1..]);
    assert Run(s, es) == Run(s.(trade := t3), es[1..][1..][1..]) == Run(s.(trade := t4), es[1..][1..][1..][1..]);
    assert Run(s, es) == Run(s.(trade := t5), es[1..][1..][1..][1..][1..]) == Run(s.(trade := t6), []);
  }

  lemma LinkStep(s: State, e: Event, t: Trade)
    requires e.Link? && e.command !in CANCEL_COMMANDS && t == Observe(s.trade, e.seat, e.command, e.cursor)
    requires s.trade.post == PerSeat(None, None)
    ensures Step(s, e) == s.(trade := t)
  {
  }

  function Saves(seat: Seat, count: nat): (es: seq<Event>)
    requires FIRST_SAVE <= count <= LAST_SAVE + 1
    decreases LAST_SAVE + 1 - count
  {
    if count == LAST_SAVE + 1 then [] else [SaveCount(seat, count)] + Saves(seat, count + 1)
  }

  function From(count: nat): (counts: set<nat>)
    ensures forall c :: c in counts <==> count <= c <= LAST_SAVE
    decreases LAST_SAVE + 1 - count
  {
    if count > LAST_SAVE then {} else {count} + From(count + 1)
  }

  // Save counts are gathered, and nothing is committed before there is a party of each seat.
  lemma {:induction false} SavesGathered(s: State, seat: Seat, count: nat)
    requires FIRST_SAVE <= count <= LAST_SAVE + 1
    requires s.trade.confirmed && s.trade.post == PerSeat(None, None)
    ensures var t := s.trade;
            Run(s, Saves(seat, count)) == s.(trade := t.(saves := t.saves.With(seat, t.saves.At(seat) + From(count))))
    decreases LAST_SAVE + 1 - count
  {
    var t := s.trade;
    if count == LAST_SAVE + 1 {
      assert t.saves.At(seat) + From(count) == t.saves.At(seat);
    } else {
      var es := Saves(seat, count);
      var next := s.(trade := t.(saves := t.saves.With(seat, t.saves.At(seat) + {count})));
      assert Step(s, es[0]) == next;
      assert es[1..] == Saves(seat, count + 1);
      SavesGathered(next, seat, count + 1);
      assert t.saves.At(seat) + {count} + From(count + 1) == t.saves.At(seat) + From(count);
    }
  }

  // ---- the history --------------------------------------------------------------------------

  function Parties(): seq<Event> {
    Blocks(A, Record(10), Record(11), Record(12), Empty) + Blocks(B, Record(20), Empty, Empty, Empty)
  }

  function AllSaves(): seq<Event> {
    Saves(A, FIRST_SAVE) + Saves(B, FIRST_SAVE)
  }

  // The second record of A has gone to B, and that of B has come in its place.
  function Traded(): seq<Event> {
    Blocks(A, Record(10), Record(20), Record(12), Empty) + Blocks(B, Record(11), Empty, Empty, Empty)
  }

  function Reselected(): seq<Event> {
    ((Parties() + LINKS) + AllSaves()) + Traded()
  }

  function OldA(): Party { PartyOf(Record(10), Record(11), Record(12), Empty) }
  function OldB(): Party { PartyOf(Record(20), Empty, Empty, Empty) }
  function NewA(): Party { PartyOf(Record(10), Record(20), Record(12), Empty) }
  function NewB(): Party { PartyOf(Record(11), Empty, Empty, Empty) }

  function Known(a: Party, b: Party, t: Trade): State {
    State(PerSeat([], []), PerSeat(Some(a), Some(b)), t, [], 0)
  }

  function Pre(): PerSeat<Option<Party>> {
    PerSeat(Some(OldA()), Some(OldB()))
  }

  lemma Prepared()
    ensures Run(INITIAL, Parties()) == Known(OldA(), OldB(), NoTrade(Pre()))
  {
    hide Blocks, PartyOf;
    BlocksMakeParty(INITIAL, A, Record(10), Record(11), Record(12), Empty);
    var s := INITIAL.(latest := PerSeat(Some(OldA()), None), trade := NoTrade(PerSeat(Some(OldA()), None)));
    BlocksMakeParty(s, B, Record(20), Empty, Empty, Empty);
    RunAppend(INITIAL, Blocks(A, Record(10), Record(11), Record(12), Empty),
              Blocks(B, Record(20), Empty, Empty, Empty));
  }

  lemma Confirmed()
    ensures var full := From(FIRST_SAVE);
            Run(INITIAL, (Parties() + LINKS) + AllSaves())
            == Known(OldA(), OldB(), Agreed(Pre()).(saves := PerSeat(full, full)))
  {
    hide Run, Parties, LINKS, Saves, OldA, OldB;
    Prepared();
    RunAppend(INITIAL, Parties(), LINKS);
    LinksAgree(Known(OldA(), OldB(), NoTrade(Pre())));
    var s := Known(OldA(), OldB(), Agreed(Pre()));
    var full := From(FIRST_SAVE);
    SavesGathered(s, A, FIRST_SAVE);
    var t := s.(trade := s.trade.(saves := PerSeat(full, {})));
    assert {} + full == full;
    SavesGathered(t, B, FIRST_SAVE);
    RunAppend(s, Saves(A, FIRST_SAVE), Saves(B, FIRST_SAVE));
    RunAppend(INITIAL, Parties() + LINKS, AllSaves());
  }

  lemma Committed()
    ensures After(Reselected()).commits == [Commit(1, 11, 20)]
  {
    hide Run, Blocks;
    Confirmed();
    var full := From(FIRST_SAVE);
    var s := Known(OldA(), OldB(), Agreed(Pre()).(saves := PerSeat(full, full)));
    BlocksMakeParty(s, A, Record(10), Record(20), Record(12), Empty);
    var t := s.(latest := PerSeat(Some(NewA()), Some(OldB())), trade := s.trade.(post := PerSeat(Some(NewA()), None)));
    BlocksMakeParty(t, B, Record(11), Empty, Empty, Empty);
    LastBlock(t);
    RunAppend(s, Blocks(A, Record(10), Record(20), Record(12), Empty), Blocks(B, Record(11), Empty, Empty, Empty));
    RunAppend(INITIAL, (Parties() + LINKS) + AllSaves(), Traded());
    assert [] + Reselected() == Reselected();
    RunIsAfter([], Reselected());
  }

  lemma LastBlock(t: State)
    requires var full := From(FIRST_SAVE);
             t == Known(NewA(), OldB(),
                        Agreed(Pre()).(saves := PerSeat(full, full), post := PerSeat(Some(NewA()), None)))
    ensures var u := t.(latest := PerSeat(Some(NewA()), Some(NewB())),
                        trade := t.trade.(post := PerSeat(Some(NewA()), Some(NewB()))));
            TryCommit(u).commits == [Commit(1, 11, 20)]
  {
  }

  // Seat A has selected its first record when the trade starts, and the trade commits its second.
  lemma CommitsLateSelection()
    ensures var h := Reselected();
            && After(h).commits == [Commit(1, 11, 20)]
            && |h| > 8 && Starts(h, 0, 8) && NoStart(h, 0, 8)
            && Chosen(h, 0, 8, A) == Some(0) && Entry(OldA(), 0) == Some(10)
            && Completes(h, 2, A, OldA())
  {
    hide Run, After, Chosen, Completes, Parties, OldA;
    Committed();
    FirstParty();
    StartedEarly();
  }

  lemma FirstParty()
    ensures |Reselected()| > 8 && Completes(Reselected(), 2, A, OldA()) && Entry(OldA(), 0) == Some(10)
  {
    hide AllSaves, Traded;
    var h := Reselected();
    assert h[0] == Parties()[0] && h[1] == Parties()[1] && h[2] == Parties()[2];
    assert h[..2] == [h[0], h[1]];
    assert h[..2][..1] == [h[0]] && [h[0]][..0] == [];
    assert Waiting([], A) == [] && Waiting([h[0]], A) == [[Some(10), Some(11)]];
    assert Waiting(h[..2], A) == [[Some(10), Some(11)], [Some(12), None]];
  }

  lemma StartedEarly()
    ensures |Reselected()| > 8 && Starts(Reselected(), 0, 8) && NoStart(Reselected(), 0, 8)
    ensures Chosen(Reselected(), 0, 8, A) == Some(0)
  {
    hide AllSaves, Traded, Chosen;
    var h, g := Reselected(), Parties() + LINKS;
    Beginning();
    assert forall i :: 0 <= i < 9 ==> h[i] == g[i];
    SameChosen(h, g, 8, A);
    SameChosen(h, g, 8, B);
    forall i | 0 <= i < 8 ensures !Starts(h, 0, i) {
      assert !Commands(h[i], START_TRADE);
    }
  }

  lemma {:induction false} SameChosen(h: seq<Event>, g: seq<Event>, end: nat, seat: Seat)
    requires end <= |h| && end <= |g| && forall i :: 0 <= i < end ==> h[i] == g[i]
    ensures Chosen(h, 0, end, seat) == Chosen(g, 0, end, seat)
  {
    if end > 0 {
      SameChosen(h, g, end - 1, seat);
    }
  }

  lemma Beginning()
    ensures var g := Parties() + LINKS;
            && |g| == 12 && Chosen(g, 0, 8, A) == Some(0) && Chosen(g, 0, 8, B) == Some(0)
            && g[8] == Link(A, START_TRADE, 0)
  {
    var g := Parties() + LINKS;
    assert g[6] == LINKS[0] && g[7] == LINKS[1] && g[8] == LINKS[2];
    assert Chosen(g, 0, 7, A) == Some(0);
  }
}
