/**
 The trade evidence of switchtrade/party_observer.py: what the passive observer gathers from party
 blocks, link commands and save counts before it records a committed trade.
 */
module TradeObservers {
  import opened Common
  import E = Envelopes

  type Seat = E.Seat

  // Record hashes stand for the records they are taken of.
  type Hash = nat

  type Party = seq<Option<Hash>>

  // One 100-byte record of a party block.
  datatype Slot = Record(hash: Hash) | Empty | Garbage

  const READY_TO_TRADE := 0xAABB
  const SET_MONS_TO_TRADE := 0xDDDD
  const START_TRADE := 0xCCDD
  const READY_FINISH_TRADE := 0xABCD
  const CONFIRM_FINISH_TRADE := 0xDCBA
  const CANCEL_COMMANDS := {0xEEAA, 0xBBCC, 0xDDEE, 0xEEBB, 0xEECC}
  const FIRST_SAVE := 5
  const LAST_SAVE := 10
  const PARTY_SIZE := 6

  datatype PerSeat<T> = PerSeat(a: T, b: T)
  {
    function At(seat: Seat): T {
      if seat.MemberA? then a else b
    }

    function With(seat: Seat, value: T): PerSeat<T> {
      if seat.MemberA? then this.(a := value) else this.(b := value)
    }
  }

  datatype Trade = Trade(
    pre: PerSeat<Option<Party>>, post: PerSeat<Option<Party>>, selections: PerSeat<Option<nat>>,
    started: bool, readyFinish: bool, confirmed: bool, saves: PerSeat<set<nat>>)

  datatype Commit = Commit(index: nat, hashA: Hash, hashB: Hash)

  datatype State = State(
    chunks: PerSeat<seq<Party>>, latest: PerSeat<Option<Party>>, trade: Trade, commits: seq<Commit>, index: nat)

  datatype Event =
    | PartyBlock(seat: Seat, first: Slot, second: Slot)
    | Link(seat: Seat, command: int, cursor: nat)
    | SaveCount(seat: Seat, count: nat)
    | Lost(seat: Seat)

  function NoTrade(pre: PerSeat<Option<Party>>): Trade {
    Trade(pre, PerSeat(None, None), PerSeat(None, None), false, false, false, PerSeat({}, {}))
  }

  const INITIAL := State(PerSeat([], []), PerSeat(None, None), NoTrade(PerSeat(None, None)), [], 0)

  // Cancelling keeps what is known of the parties; losing a seat does not.
  function Cancel(s: State): State {
    s.(trade := NoTrade(s.latest))
  }

  function Invalidate(s: State, seat: Seat): State {
    s.(chunks := s.chunks.With(seat, []), latest := s.latest.With(seat, None), trade := NoTrade(PerSeat(None, None)))
  }

  predicate Saved(saves: set<nat>) {
    forall c :: FIRST_SAVE <= c <= LAST_SAVE ==> c in saves
  }

  predicate HasAll(t: Trade) {
    && t.confirmed && t.post.a.Some? && t.post.b.Some?
    && Saved(t.saves.a) && Saved(t.saves.b)
    && t.pre.a.Some? && t.pre.b.Some? && t.selections.a.Some? && t.selections.b.Some?
  }

  function Entry(p: Party, i: nat): Option<Hash> {
    if i < |p| then p[i] else None
  }

  // The selected records have changed places.
  predicate Swapped(t: Trade)
    requires HasAll(t)
  {
    var i, j := t.selections.a.value, t.selections.b.value;
    var a, b := Entry(t.pre.a.value, i), Entry(t.pre.b.value, j);
    a.Some? && b.Some? && Entry(t.post.a.value, i) == b && Entry(t.post.b.value, j) == a
  }

  function CommitOf(t: Trade, index: nat): Commit
    requires HasAll(t) && Swapped(t)
  {
    Commit(index, Entry(t.pre.a.value, t.selections.a.value).value, Entry(t.pre.b.value, t.selections.b.value).value)
  }

  function TryCommit(s: State): (t: State)
  {
    if HasAll(s.trade) && Swapped(s.trade) then
      Cancel(s.(index := s.index + 1, commits := s.commits + [CommitOf(s.trade, s.index + 1)]))
    else s
  }

  function HashOf(s: Slot): Option<Hash> {
    if s.Record? then Some(s.hash) else None
  }

  predicate Broken(e: Event) {
    e.PartyBlock? && (e.first.Garbage? || e.second.Garbage?)
  }

  // A party is complete with its third block.
  function TakeParty(s: State, seat: Seat, first: Slot, second: Slot): (t: State)
  {
    var chunks := s.chunks.At(seat) + [[HashOf(first), HashOf(second)]];
    if |chunks| < 3 then s.(chunks := s.chunks.With(seat, chunks))
    else
      var six := chunks[|chunks| - 3] + chunks[|chunks| - 2] + chunks[|chunks| - 1];
      s.(chunks := s.chunks.With(seat, []), latest := s.latest.With(seat, Some(six)),
         trade := if s.trade.confirmed then s.trade.(post := s.trade.post.With(seat, Some(six)))
                  else s.trade.(pre := s.trade.pre.With(seat, Some(six))))
  }

  // A later stage counts only after the earlier ones.
  function Observe(t: Trade, seat: Seat, command: int, cursor: nat): Trade {
    if (command == READY_TO_TRADE || command == SET_MONS_TO_TRADE) && cursor < PARTY_SIZE then
      t.(selections := t.selections.With(seat, Some(cursor)))
    else if command == START_TRADE && t.selections.a.Some? && t.selections.b.Some? then t.(started := true)
    else if command == READY_FINISH_TRADE && t.started then t.(readyFinish := true)
    else if command == CONFIRM_FINISH_TRADE && t.started && t.readyFinish then t.(confirmed := true)
    else t
  }

  predicate CountsSave(s: State, e: Event) {
    e.SaveCount? && s.trade.confirmed && FIRST_SAVE <= e.count <= LAST_SAVE
  }

  // An event either starts the evidence over or adds to it.
  function Update(s: State, e: Event): (t: State)
  {
    match e
    case PartyBlock(seat, first, second) =>
      if Broken(e) then Invalidate(s, seat) else TakeParty(s, seat, first, second)
    case Link(seat, command, cursor) =>
      if command in CANCEL_COMMANDS then Cancel(s) else s.(trade := Observe(s.trade, seat, command, cursor))
    case SaveCount(seat, count) =>
      if CountsSave(s, e) then
        s.(trade := s.trade.(saves := s.trade.saves.With(seat, s.trade.saves.At(seat) + {count})))
      else s
    case Lost(seat) => Invalidate(s, seat)
  }

  // A cancel, and the loss of a seat.
  predicate Clears(e: Event) {
    e.Lost? || Broken(e) || (e.Link? && e.command in CANCEL_COMMANDS)
  }

  // Whether the event makes the observer look for a trade to commit.
  predicate Tries(s: State, e: Event) {
    !Clears(e) && (e.Link? || CountsSave(s, e) || (e.PartyBlock? && |s.chunks.At(e.seat)| >= 2))
  }

  function Step(s: State, e: Event): (t: State)
  {
    if Tries(s, e) then TryCommit(Update(s, e)) else Update(s, e)
  }

  // The state after a history of events.
  function After(h: seq<Event>): (s: State)
  {
    if h == [] then INITIAL else Step(After(h[..|h| - 1]), h[|h| - 1])
  }

  // ---- the object ---------------------------------------------------------------------------

  class PartyObserver {
    var partyChunks: PerSeat<seq<Party>>
    var latestHashes: PerSeat<Option<Party>>
    var pre: PerSeat<Option<Party>>
    var post: PerSeat<Option<Party>>
    var selections: PerSeat<Option<nat>>
    var started: bool
    var readyFinish: bool
    var confirmed: bool
    var saveCounts: PerSeat<set<nat>>
    var commits: seq<Commit>
    var tradeIndex: nat

    ghost function Evidence(): Trade
      reads this
    {
      Trade(pre, post, selections, started, readyFinish, confirmed, saveCounts)
    }

    ghost function View(): State
      reads this
    {
      State(partyChunks, latestHashes, Evidence(), commits, tradeIndex)
    }

    constructor ()
      ensures View() == INITIAL
    {
      partyChunks, latestHashes, commits, tradeIndex := PerSeat([], []), PerSeat(None, None), [], 0;
      pre, post, selections := PerSeat(None, None), PerSeat(None, None), PerSeat(None, None);
      started, readyFinish, confirmed, saveCounts := false, false, false, PerSeat({}, {});
    }

    method ResetTradeEvidence(keepParties: bool)
      modifies this
      ensures View() == old(View()).(trade := NoTrade(if keepParties then old(latestHashes) else PerSeat(None, None)))
    {
      pre := if keepParties then latestHashes else PerSeat(None, None);
      post, selections := PerSeat(None, None), PerSeat(None, None);
      started, readyFinish, confirmed, saveCounts := false, false, false, PerSeat({}, {});
    }

    method InvalidateSeat(seat: Seat)
      modifies this
      ensures View() == Invalidate(old(View()), seat)
    {
      partyChunks := partyChunks.With(seat, []);
      latestHashes := latestHashes.With(seat, None);
      ResetTradeEvidence(false);
    }

    method TryCommitTrade()
      modifies this
      ensures View() == TryCommit(old(View()))
    {
      if !confirmed || post.a.None? || post.b.None? {
        return;
      }
      if !Saved(saveCounts.a) || !Saved(saveCounts.b) {
        return;
      }
      if pre.a.None? || pre.b.None? || selections.a.None? || selections.b.None? {
        return;
      }
      var i, j := selections.a.value, selections.b.value;
      var preA, preB := Entry(pre.a.value, i), Entry(pre.b.value, j);
      var postA, postB := Entry(post.a.value, i), Entry(post.b.value, j);
      if preA.None? || preB.None? || postA != preB || postB != preA {
        return;
      }
      tradeIndex := tradeIndex + 1;
      commits := commits + [Commit(tradeIndex, preA.value, preB.value)];
      ResetTradeEvidence(true);
    }

    method ConsumePartyBlock(seat: Seat, first: Slot, second: Slot)
      modifies this
      ensures View() == Step(old(View()), PartyBlock(seat, first, second))
    {
      hide TryCommit;
      if first.Garbage? || second.Garbage? {
        InvalidateSeat(seat);
        return;
      }
      var chunks := partyChunks.At(seat) + [[HashOf(first), HashOf(second)]];
      partyChunks := partyChunks.With(seat, chunks);
      if |chunks| < 3 {
        return;
      }
      var six := chunks[|chunks| - 3] + chunks[|chunks| - 2] + chunks[|chunks| - 1];
      partyChunks := partyChunks.With(seat, []);
      latestHashes := latestHashes.With(seat, Some(six));
      if confirmed {
        post := post.With(seat, Some(six));
      } else {
        pre := pre.With(seat, Some(six));
      }
      TryCommitTrade();
    }

    method ObserveLinkCommand(seat: Seat, command: int, cursor: nat)
      modifies this
      ensures View() == Step(old(View()), Link(seat, command, cursor))
    {
      hide TryCommit;
      if command in CANCEL_COMMANDS {
        ResetTradeEvidence(true);
        return;
      }
      if (command == READY_TO_TRADE || command == SET_MONS_TO_TRADE) && cursor < PARTY_SIZE {
        selections := selections.With(seat, Some(cursor));
      } else if command == START_TRADE && selections.a.Some? && selections.b.Some? {
        started := true;
      } else if command == READY_FINISH_TRADE && started {
        readyFinish := true;
      } else if command == CONFIRM_FINISH_TRADE && started && readyFinish {
        confirmed := true;
      }
      TryCommitTrade();
    }

    method ObserveSaveCount(seat: Seat, count: nat)
      modifies this
      ensures View() == Step(old(View()), SaveCount(seat, count))
    {
      hide TryCommit;
      if confirmed && FIRST_SAVE <= count <= LAST_SAVE {
        saveCounts := saveCounts.With(seat, saveCounts.At(seat) + {count});
        TryCommitTrade();
      }
    }
  }
}
