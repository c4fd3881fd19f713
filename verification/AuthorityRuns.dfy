/**
 Sweeps, steps and runs of the room authority: what one transaction does to one room becomes
 what any run does to every room.
 */
module AuthorityRuns {
  import opened Common
  import opened Rooms
  import opened RoomInvariants
  import opened AuthorityModel
  import opened AuthorityInvariants
  import opened AuthorityEdits
  import opened AuthorityTransactions

  // What a step may do to a room that is there before and after: a closed room stays as it is.
  predicate RoomAdvances(n: Id, r: Room, s: Room, free: bool) {
    RoomGoes(n, r, s, free) && (!IsOpen(r) ==> s == r)
  }

  predicate Advances(db: Db, c: Db, free: bool) {
    && DbOk(c) && db.nextId <= c.nextId
    && (forall id :: id in db.rooms && id in c.rooms ==>
          RoomAdvances(db.nextId, db.rooms[id], c.rooms[id], free && PhasesOk(db)))
    && (forall id :: id in c.rooms && id !in db.rooms ==> db.nextId <= id)
    && (free && PhasesOk(db) ==> PhasesOk(c))
  }

  lemma StandsStill(db: Db, free: bool)
    requires DbOk(db)
    ensures Advances(db, db, free)
  {
    hide RoomOk, Evolves;
    forall id | id in db.rooms ensures RoomAdvances(db.nextId, db.rooms[id], db.rooms[id], free && PhasesOk(db)) {
      RowOf(db, id);
      EvolvesReflexive(db.nextId, db.rooms[id]);
    }
  }

  lemma GoesAdvances(db: Db, c: Db, room: Id, free: bool)
    requires DbOk(db) && room in db.rooms && Goes(db, c, room, free)
    requires IsOpen(db.rooms[room]) || c.rooms[room] == db.rooms[room]
    ensures Advances(db, c, free)
  {
    hide DbOk, RoomOk, Evolves, PhasesOk;
    forall id | id in db.rooms && id in c.rooms
      ensures RoomAdvances(db.nextId, db.rooms[id], c.rooms[id], free && PhasesOk(db))
    {
      RowOf(db, id);
      EvolvesReflexive(db.nextId, db.rooms[id]);
    }
  }

  lemma AddsAdvances(db: Db, c: Db, room: Id, free: bool)
    requires DbOk(db) && Adds(db, c, room)
    ensures Advances(db, c, free)
  {
    hide DbOk, RoomOk, Evolves, PhasesOk;
    forall id | id in db.rooms && id in c.rooms
      ensures RoomAdvances(db.nextId, db.rooms[id], c.rooms[id], free && PhasesOk(db))
    {
      RowOf(db, id);
      EvolvesReflexive(db.nextId, db.rooms[id]);
    }
  }

  lemma RoomAdvancesOn(n: Id, n': Id, r: Room, s: Room, t: Room, free: bool)
    requires RoomOk(r) && RoomOk(s) && RoomOk(t) && n <= n' && (free ==> PhaseOk(s))
    requires RoomAdvances(n, r, s, free) && RoomAdvances(n', s, t, free)
    ensures RoomAdvances(n, r, t, free)
  {
    RoomGoesOn(n, n', r, s, t, free);
  }

  lemma AdvancesOn(a: Db, b: Db, c: Db, free: bool)
    requires DbOk(a) && Advances(a, b, free) && Advances(b, c, free)
    ensures Advances(a, c, free)
  {
    hide DbOk, RoomOk, Evolves, PhaseOk;
    forall id | id in a.rooms && id in c.rooms
      ensures RoomAdvances(a.nextId, a.rooms[id], c.rooms[id], free && PhasesOk(a))
    {
      RowOf(a, id);
      RowOf(c, id);
      RowOf(b, id);
      var together := free && PhasesOk(a);
      RoomAdvancesOn(a.nextId, b.nextId, a.rooms[id], b.rooms[id], c.rooms[id], together);
    }
  }

  // ---- sweeps -------------------------------------------------------------------------------

  lemma TimeoutGoes(db: Db, room: Id, now: Time)
    requires DbOk(db) && room in db.rooms && IsOpen(db.rooms[room])
    ensures Goes(db, Timeout(db, room, now), room, true) && IsOpen(Timeout(db, room, now).rooms[room])
  {
    hide DbOk, Goes, Good, RoomOk, IdsBelow;
    RowOf(db, room);
    GoesNowhere(db, room, true);
    var r := db.rooms[room];
    var e := TimeoutEdit(r, now);
    if e.Changed? {
      ForceGood(db.nextId, r, ForcedTimeout, Some("D_BARRIER_TIMEOUT"), now);
      CommitGoes(db, db.nextId, room, e.room, e.event, None, e.revoke, true);
    }
  }

  lemma {:induction false} PresencesGo(db: Db, room: Id, i: nat, now: Time)
    requires DbOk(db) && room in db.rooms && IsOpen(db.rooms[room])
    ensures Goes(db, Presences(db, room, i, now), room, true)
    decreases |db.rooms[room].members| - i
  {
    hide DbOk, Goes, Good, RoomOk, IdsBelow, Commit, PresenceEdit;
    RowOf(db, room);
    GoesNowhere(db, room, true);
    var r := db.rooms[room];
    if i < |r.members| {
      var e := PresenceEdit(r, i, now);
      if e.Changed? {
        PresenceGood(db.nextId, r, i, now);
        CommitGoes(db, db.nextId, room, e.room, e.event, Some(r.members[i].id), e.revoke, true);
        var c := Commit(db, room, e.room, e.event, Some(r.members[i].id), e.revoke);
        Committed(db, room, e.room, e.event, Some(r.members[i].id), e.revoke);
        PresencesGo(c, room, i + 1, now);
        GoesOn(db, c, Presences(c, room, i + 1, now), room, true);
      } else {
        PresencesGo(db, room, i + 1, now);
      }
    }
  }

  lemma Committed(db: Db, room: Id, s: Room, kind: EventType, actor: Option<Id>, revoke: Revocation)
    ensures var c := Commit(db, room, s, kind, actor, revoke);
            && c.rooms[room] == s.(version := s.version + 1, lastEvent := db.log.next)
            && c.nextId == db.nextId && c.commands == db.commands
  {
  }

  lemma SweepRoomGoes(db: Db, room: Id, now: Time)
    requires DbOk(db) && room in db.rooms
    ensures Goes(db, SweepRoom(db, room, now), room, true)
    ensures IsOpen(db.rooms[room]) || SweepRoom(db, room, now) == db
  {
    hide DbOk, Goes, Expire, Timeout, Presences;
    ExpireGoes(db, room, now, true);
    var loaded := Expire(db, room, now);
    if IsOpen(loaded.rooms[room]) {
      TimeoutGoes(db, room, now);
      var timed := Timeout(db, room, now);
      GoesKeys(db, timed, room);
      PresencesGo(timed, room, 0, now);
      GoesOn(db, timed, Presences(timed, room, 0, now), room, true);
    }
  }

  lemma SweepRoomAdvances(db: Db, room: Id, now: Time)
    requires DbOk(db) && room in db.rooms
    ensures Advances(db, SweepRoom(db, room, now), true) && SweepRoom(db, room, now).rooms.Keys == db.rooms.Keys
  {
    hide DbOk, Goes, SweepRoom, Advances;
    SweepRoomGoes(db, room, now);
    GoesKeys(db, SweepRoom(db, room, now), room);
    GoesAdvances(db, SweepRoom(db, room, now), room, true);
  }

  lemma GoesKeys(db: Db, c: Db, room: Id)
    requires Goes(db, c, room, true)
    ensures c.rooms.Keys == db.rooms.Keys && DbOk(c) && db.nextId <= c.nextId
  {
    hide DbOk;
  }

  lemma {:induction false} SweepRoomsAdvances(db: Db, from: Id, upTo: Id, now: Time)
    requires DbOk(db)
    ensures Advances(db, SweepRooms(db, from, upTo, now), true)
    ensures SweepRooms(db, from, upTo, now).rooms.Keys == db.rooms.Keys
    decreases upTo - from
  {
    hide DbOk, SweepRoom, RoomAdvances;
    StandsStill(db, true);
    if from < upTo {
      if from in db.rooms {
        var c := SweepRoom(db, from, now);
        SweepRoomAdvances(db, from, now);
        SweepRoomsAdvances(c, from + 1, upTo, now);
        AdvancesOn(db, c, SweepRooms(c, from + 1, upTo, now), true);
      } else {
        SweepRoomsAdvances(db, from + 1, upTo, now);
      }
    }
  }

  lemma ForgetLog(log: Log, rooms: set<Id>, n: Id)
    requires LogOk(log, n)
    ensures LogOk(Log(Selected(log.events, rooms), log.next), n)
  {
    assert Ordered(log.events);
    SelectedOrdered(log.events, rooms);
    var kept := Selected(log.events, rooms);
    forall i | 0 <= i < |kept| ensures kept[i].sequence < log.next && kept[i].room < n {
      assert kept[i] in log.events;
    }
  }

  lemma ForgetIndex(index: Index, rooms: map<Id, Room>, kept: map<Id, Room>)
    requires IndexOk(index, rooms) && kept.Keys <= rooms.Keys && forall id :: id in kept ==> kept[id] == rooms[id]
    ensures IndexOk(Index(map c | c in index.code && index.code[c] in kept :: index.code[c],
                          map l | l in index.listing && index.listing[l] in kept :: index.listing[l]), kept)
  {
    forall id | id in kept ensures Indexed(index, kept[id].key, id) {
      assert Indexed(index, rooms[id].key, id);
    }
  }

  lemma ForgetHistory(events: seq<Event>, rooms: set<Id>, id: Id, r: Room)
    requires id in rooms && HistoryOk(events, id, r)
    ensures HistoryOk(Selected(events, rooms), id, r)
  {
    HistorySelected(events, rooms, id);
  }

  lemma ForgetOk(db: Db, now: Time)
    requires DbOk(db)
    ensures DbOk(Forget(db, now))
  {
    hide RoomOk, IdsBelow, Present, IndexOk, LogOk, Retained, HistoryOk, Selected, History;
    var c := Forget(db, now);
    forall id | id in c.rooms ensures RoomRow(c, id) {
      assert RoomRow(db, id);
      ForgetHistory(db.log.events, c.rooms.Keys, id, db.rooms[id]);
    }
    forall m | m in c.creds ensures CredRow(c, m) {
      assert CredRow(db, m);
    }
    ForgetIndex(db.index, db.rooms, c.rooms);
    ForgetLog(db.log, c.rooms.Keys, db.nextId);
  }

  lemma SweepAdvances(db: Db, now: Time)
    requires DbOk(db)
    ensures Advances(db, Sweep(db, now), true)
  {
    hide DbOk, RoomAdvances, PhaseOk;
    SweepRoomsAdvances(db, 0, db.nextId, now);
    ForgetOk(SweepRooms(db, 0, db.nextId, now), now);
  }

  // ---- steps --------------------------------------------------------------------------------

  predicate Locks(t: Timed) {
    t.op.Call? && LocksRole(t.op.request)
  }

  lemma RelayAdvances(db: Db, room: Id, e: Edit, now: Time)
    requires DbOk(db) && room in db.rooms
    requires e.Changed? ==> Good(db.nextId, db.nextId, Expire(db, room, now).rooms[room], e.room, e.revoke, true)
    requires Apply(Expire(db, room, now), room, e).Ok? && (e.Changed? ==> IsOpen(Expire(db, room, now).rooms[room]))
    ensures Advances(db, Apply(Expire(db, room, now), room, e).value.db, true)
  {
    hide DbOk, Goes, Good, Expire, Advances;
    var loaded := Expire(db, room, now);
    ExpireGoes(db, room, now, true);
    GoesKeys(db, loaded, room);
    if e.Changed? {
      CommitGoes(db, db.nextId, room, e.room, e.event, None, e.revoke, true);
      GoesAdvances(db, Commit(db, room, e.room, e.event, None, e.revoke), room, true);
    } else {
      GoesAdvances(db, loaded, room, true);
    }
  }

  lemma LoadedRow(db: Db, room: Id, now: Time)
    requires DbOk(db) && room in db.rooms
    ensures var c := Expire(db, room, now);
            && RoomOk(c.rooms[room]) && IdsBelow(c.rooms[room], c.nextId) && c.nextId == db.nextId
  {
    hide DbOk, Goes, RoomOk, IdsBelow;
    ExpireGoes(db, room, now, true);
    GoesKeys(db, Expire(db, room, now), room);
    RowOf(Expire(db, room, now), room);
  }

  lemma TransportAdvances(db: Db, room: Id, attempt: Id, code: string, now: Time)
    requires DbOk(db) && FailTransport(db, room, attempt, code, now).Ok?
    ensures Advances(db, FailTransport(db, room, attempt, code, now).value.db, true)
  {
    hide DbOk, Advances, RoomOk, IdsBelow, Good, Expire;
    LoadedRow(db, room, now);
    var r := Expire(db, room, now).rooms[room];
    var e := TransportFailEdit(r, attempt, code, now);
    if e.Changed? {
      TransportFailGood(db.nextId, r, attempt, code, now);
    }
    RelayAdvances(db, room, e, now);
  }

  lemma ForceAdvances(db: Db, room: Id, attempt: Id, code: string, now: Time)
    requires DbOk(db) && ForceD(db, room, attempt, code, now).Ok?
    ensures Advances(db, ForceD(db, room, attempt, code, now).value.db, true)
  {
    hide DbOk, Advances, RoomOk, IdsBelow, Good, Expire;
    LoadedRow(db, room, now);
    var r := Expire(db, room, now).rooms[room];
    var e := ForceEdit(r, attempt, code, now);
    if e.Changed? {
      ForceGood(db.nextId, r, ForcedFailure, Some(code), now);
    }
    RelayAdvances(db, room, e, now);
  }

  lemma SecretAdvances(db: Db, q: Request, now: Time)
    requires DbOk(db) && IsSecret(q) && SecretTx(db, q, now).Ok?
    ensures Advances(db, SecretTx(db, q, now).value.db, true)
  {
    hide DbOk, Goes, Adds, Advances, JoinRoom, Expire, IsOpen;
    match q
    case CreateRoom(_, rejected, listed, draws) =>
      CreateAdds(db, rejected, listed, draws, now);
      AddsAdvances(db, Create(db, rejected, listed, draws, now).value.db, db.nextId, true);
    case JoinByCode(_, code) =>
      LoadAndJoin(db, db.index.code[code], now, true);
      GoesAdvances(db, Join(db, code, now).value.db, db.index.code[code], true);
    case JoinListed(_, listing) =>
      LoadAndJoin(db, db.index.listing[listing], now, true);
      GoesAdvances(db, JoinPublic(db, listing, now).value.db, db.index.listing[listing], true);
    case Return(room, token) =>
      ReconnectGoes(db, room, token, now);
      GoesAdvances(db, Reconnect(db, room, token, now).value.db, room, true);
  }

  lemma RememberAdvances(db: Db, c: Db, k: Command, response: Response, now: Time, free: bool)
    requires Advances(db, c, free)
    ensures Advances(db, Remember(c, k, response, now), free)
  {
    hide RoomAdvances, PhaseOk;
    SameTablesOk(c, Remember(c, k, response, now));
  }

  lemma SecretStepAdvances(store: Store, q: Request, id: string, now: Time)
    requires DbOk(store.db) && IsSecret(q)
    ensures Advances(store.db, Step(store, Timed(now, Call(id, q))).store.db, true)
  {
    hide DbOk, Advances, SecretTx, FindSecret;
    StandsStill(store.db, true);
    var k, tx := Command(ScopeOf(q).value, id), SecretTx(store.db, q, now);
    if FindSecret(store, k, now).found == Ok(None) && tx.Ok? {
      SecretAdvances(store.db, q, now);
      RememberAdvances(store.db, tx.value.db, k, Marker(tx.value.response), now, true);
    }
  }

  lemma MemberStepAdvances(db: Db, q: Request, id: string, now: Time)
    requires DbOk(db) && !IsSecret(q) && MemberCall(db, q, id, now).Ok?
    ensures Advances(db, MemberCall(db, q, id, now).value.db, !LocksRole(q))
  {
    hide DbOk, Goes, Advances, MemberCall;
    MemberCallGoes(db, q, id, now);
    GoesAdvances(db, MemberCall(db, q, id, now).value.db, q.room, !LocksRole(q));
  }

  lemma ViewAdvances(db: Db, room: Id, bearer: Option<Token>, now: Time)
    requires DbOk(db) && View(db, room, bearer, now).Ok?
    ensures Advances(db, View(db, room, bearer, now).value.db, true)
  {
    hide DbOk, Goes, Advances, Session;
    SessionGoes(db, bearer, room, now, true);
    GoesAdvances(db, View(db, room, bearer, now).value.db, room, true);
  }

  lemma StepAdvances(store: Store, t: Timed)
    requires DbOk(store.db)
    ensures Advances(store.db, Step(store, t).store.db, !Locks(t))
  {
    hide DbOk, Advances, MemberCall, View, FailTransport, ForceD, Sweep, SecretStep, SecretTx, IsSecret;
    StandsStill(store.db, !Locks(t));
    match t.op
    case Call(id, q) =>
      if IsSecret(q) {
        SecretStepAdvances(store, q, id, t.now);
        NeverLocks(q);
      } else if MemberCall(store.db, q, id, t.now).Ok? {
        MemberStepAdvances(store.db, q, id, t.now);
      }
    case Snapshot(room, bearer) =>
      if View(store.db, room, bearer, t.now).Ok? {
        ViewAdvances(store.db, room, bearer, t.now);
      }
    case TransportLost(room, attempt, code) =>
      if FailTransport(store.db, room, attempt, code, t.now).Ok? {
        TransportAdvances(store.db, room, attempt, code, t.now);
      }
    case Force(room, attempt, code) =>
      if ForceD(store.db, room, attempt, code, t.now).Ok? {
        ForceAdvances(store.db, room, attempt, code, t.now);
      }
    case SweepPresence => SweepAdvances(store.db, t.now);
  }

  lemma NeverLocks(q: Request)
    requires IsSecret(q)
    ensures !LocksRole(q)
  {
  }

  predicate LockFree(steps: seq<Timed>) {
    forall i :: 0 <= i < |steps| ==> !Locks(steps[i])
  }

  lemma LessFree(db: Db, c: Db)
    requires Advances(db, c, true)
    ensures Advances(db, c, false)
  {
    hide DbOk, Evolves;
  }

  // Any run, from any good database: rooms only advance, and they keep their order of phases and
  // their barriers as long as no role is locked again.
  lemma {:induction false} RunAdvances(store: Store, steps: seq<Timed>)
    requires DbOk(store.db)
    ensures Advances(store.db, Run(store, steps).db, LockFree(steps))
    decreases |steps|
  {
    hide DbOk, Step, RoomAdvances, PhasesOk;
    var free := LockFree(steps);
    StandsStill(store.db, free);
    if steps != [] {
      var next := Step(store, steps[0]).store;
      StepAdvances(store, steps[0]);
      RunAdvances(next, steps[1..]);
      var end := Run(next, steps[1..]);
      if free {
        assert LockFree(steps[1..]);
      } else {
        if !Locks(steps[0]) {
          LessFree(store.db, next.db);
        }
        if LockFree(steps[1..]) {
          LessFree(next.db, end.db);
        }
      }
      AdvancesOn(store.db, next.db, end.db, free);
    }
  }

  lemma EmptyOk()
    ensures DbOk(EMPTY.db) && PhasesOk(EMPTY.db)
  {
  }
}
