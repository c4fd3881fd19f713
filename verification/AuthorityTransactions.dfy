/**
 Every step of the room authority keeps its database and moves rooms forward only; so do runs.
 */
module AuthorityTransactions {
  import opened Common
  import opened Rooms
  import opened RoomInvariants
  import opened AuthorityModel
  import opened AuthorityInvariants
  import opened AuthorityEdits

  predicate SameTables(db: Db, c: Db) {
    c.rooms == db.rooms && c.index == db.index && c.creds == db.creds && c.log == db.log && c.nextId == db.nextId
  }

  lemma SameTablesOk(db: Db, c: Db)
    requires DbOk(db) && SameTables(db, c)
    ensures DbOk(c)
  {
    forall id | id in c.rooms ensures RoomRow(c, id) {
      assert RoomRow(db, id);
    }
    forall m | m in c.creds ensures CredRow(c, m) {
      assert CredRow(db, m);
    }
  }

  lemma GoesAndTables(a: Db, b: Db, c: Db, room: Id, free: bool)
    requires Goes(a, b, room, free) && SameTables(b, c)
    ensures Goes(a, c, room, free)
  {
    SameTablesOk(b, c);
  }

  // ---- one room -----------------------------------------------------------------------------

  lemma RowOf(db: Db, room: Id)
    requires DbOk(db) && room in db.rooms
    ensures var r := db.rooms[room];
            r.key.id == room && room < db.nextId && RoomOk(r) && IdsBelow(r, db.nextId)
  {
    hide RoomOk, HistoryOk, CredRow, IndexOk, LogOk;
    assert RoomRow(db, room);
  }

  lemma ExpireGoes(db: Db, room: Id, now: Time, free: bool)
    requires DbOk(db) && room in db.rooms
    ensures Goes(db, Expire(db, room, now), room, free)
    ensures IsOpen(Expire(db, room, now).rooms[room]) ==> Expire(db, room, now) == db
    ensures !IsOpen(db.rooms[room]) ==> Expire(db, room, now) == db
  {
    var r := db.rooms[room];
    assert RoomRow(db, room);
    GoesNowhere(db, room, free);
    if Overdue(r, now) {
      ExpireGood(db.nextId, r);
      CommitGoes(db, db.nextId, room, ExpireEdit(r).room, RoomExpired, None, Everyone, free);
    }
  }

  // The bearer of an active credential is a reachable member of an open room.
  lemma HolderPresent(db: Db, bearer: Token)
    requires DbOk(db) && Holds(db, bearer)
    ensures var room := db.creds[bearer.member].room;
            room in db.rooms && IsOpen(db.rooms[room]) && Present(db.rooms[room], bearer.member)
  {
    assert CredRow(db, bearer.member);
  }

  lemma PresentIndex(r: Room, m: Id)
    requires RoomOk(r) && Present(r, m)
    ensures var i := IndexOf(r.members, m);
            i.Some? && Reachable(r.members[i.value].presence) && r.members[i.value].presence != Left
  {
  }

  lemma AnswerGoes(a: Db, b: Db, room: Id, k: Command, me: Id, now: Time, free: bool)
    requires Goes(a, b, room, free) && room in b.rooms
    ensures Goes(a, Answer(b, room, k, me, now).value.db, room, free)
  {
    GoesAndTables(a, b, Answer(b, room, k, me, now).value.db, room, free);
  }

  lemma SettleGoes(db: Db, room: Id, e: Edit, k: Command, me: Id, now: Time, free: bool)
    requires DbOk(db) && room in db.rooms
    requires e.Changed? ==> Good(db.nextId, db.nextId + 1, db.rooms[room], e.room, e.revoke, free)
    requires Settle(db, room, e, k, me, now).Ok?
    ensures Goes(db, Settle(db, room, e, k, me, now).value.db, room, free)
  {
    hide DbOk, Goes, Good, Commit, Answer;
    if e.Same? {
      GoesNowhere(db, room, free);
      AnswerGoes(db, db, room, k, me, now, free);
    } else {
      CommitGoes(db, db.nextId + 1, room, e.room, e.event, Some(me), e.revoke, free);
      var b := Commit(db, room, e.room, e.event, Some(me), e.revoke).(nextId := db.nextId + 1);
      AnswerGoes(db, b, room, k, me, now, free);
    }
  }

  lemma MutateGoes(db: Db, room: Id, me: Id, k: Command, action: Action, expected: Option<nat>, now: Time)
    requires DbOk(db) && room in db.rooms && (IsOpen(db.rooms[room]) ==> Present(db.rooms[room], me))
    requires Mutate(db, room, me, k, action, expected, now).Ok?
    ensures Goes(db, Mutate(db, room, me, k, action, expected, now).value.db, room, !action.LockRole?)
  {
    hide DbOk, Goes, Good, RoomOk, IdsBelow, Settle, Present, Stale, ActionEdit, Reachable, Answer;
    var r, free := db.rooms[room], !action.LockRole?;
    RowOf(db, room);
    GoesNowhere(db, room, free);
    if Stale(r, me, action, expected) == Idle {
      AnswerGoes(db, db, room, k, me, now, free);
    } else {
      PresentIndex(r, me);
      var i := IndexOf(r.members, me).value;
      var e := ActionEdit(r, i, action, db.nextId, now);
      if e.Changed? {
        ActionGood(db.nextId, r, i, action, now);
      }
      SettleGoes(db, room, e, k, me, now, free);
    }
  }

  predicate LocksRole(q: Request) {
    q.Act? && q.action.LockRole?
  }

  lemma MemberTxGoes(db: Db, q: Request, me: Id, k: Command, now: Time)
    requires DbOk(db) && !IsSecret(q) && q.room in db.rooms
    requires IsOpen(db.rooms[q.room]) ==> Present(db.rooms[q.room], me)
    requires MemberTx(db, q, me, k, now).Ok?
    ensures Goes(db, MemberTx(db, q, me, k, now).value.db, q.room, !LocksRole(q))
  {
    hide DbOk, Goes, Good, RoomOk, IdsBelow, Settle, Mutate, Present, BeginDEdit, AckDEdit;
    RowOf(db, q.room);
    var r := db.rooms[q.room];
    match q
    case Act(room, _, action, expected) => MutateGoes(db, room, me, k, action, expected, now);
    case BeginClosing(room, _, attempt, closing, version) =>
      var e := BeginDEdit(r, me, attempt, closing, version, now);
      if e.Changed? {
        BeginDGood(db.nextId, r, me, attempt, closing, version, now);
      }
      SettleGoes(db, room, e, k, me, now, true);
    case AckQuiescent(room, _, attempt, quiescent, version) =>
      var e := AckDEdit(r, me, attempt, quiescent, version, now);
      if e.Changed? {
        AckGood(db.nextId, r, me, attempt, quiescent, version, now);
      }
      SettleGoes(db, room, e, k, me, now, true);
  }

  lemma SessionGoes(db: Db, bearer: Option<Token>, room: Id, now: Time, free: bool)
    requires DbOk(db) && Session(db, bearer, room, now).Ok?
    ensures var c := Session(db, bearer, room, now).value;
            && Goes(db, c, room, free) && room in db.rooms && room in c.rooms && IsOpen(db.rooms[room])
            && (IsOpen(c.rooms[room]) ==> Present(c.rooms[room], bearer.value.member))
  {
    HolderPresent(db, bearer.value);
    ExpireGoes(db, room, now, free);
  }

  lemma MemberCallGoes(db: Db, q: Request, id: string, now: Time)
    requires DbOk(db) && !IsSecret(q) && MemberCall(db, q, id, now).Ok?
    ensures Goes(db, MemberCall(db, q, id, now).value.db, q.room, !LocksRole(q))
    ensures q.room in db.rooms && IsOpen(db.rooms[q.room])
  {
    var free := !LocksRole(q);
    SessionGoes(db, q.bearer, q.room, now, free);
    var loaded := Session(db, q.bearer, q.room, now).value;
    var k := Command(ScopeOf(q).value, id);
    if k !in loaded.commands {
      MemberTxGoes(loaded, q, q.bearer.value.member, k, now);
      GoesOn(db, loaded, MemberTx(loaded, q, q.bearer.value.member, k, now).value.db, q.room, free);
    }
  }

  // ---- joining and coming back --------------------------------------------------------------

  lemma IssueGoes(a: Db, db: Db, room: Id, member: Id, free: bool)
    requires Goes(a, db, room, free) && room in db.rooms && member < db.nextId
    requires IsOpen(db.rooms[room]) && Present(db.rooms[room], member)
    ensures Goes(a, Issue(db, room, member), room, free)
  {
    IssueOk(db, room, member);
  }

  lemma IssueOk(db: Db, room: Id, member: Id)
    requires DbOk(db) && room in db.rooms && member < db.nextId
    requires IsOpen(db.rooms[room]) && Present(db.rooms[room], member)
    ensures DbOk(Issue(db, room, member))
  {
    var c := Issue(db, room, member);
    forall id | id in c.rooms ensures RoomRow(c, id) {
      assert RoomRow(db, id);
    }
    forall m | m in c.creds ensures CredRow(c, m) {
      assert m != member ==> CredRow(db, m);
    }
  }

  lemma CommitPresent(db: Db, room: Id, s: Room, kind: EventType, actor: Option<Id>, revoke: Revocation, m: Id)
    requires IsOpen(s) && Present(s, m)
    ensures var c := Commit(db, room, s, kind, actor, revoke); IsOpen(c.rooms[room]) && Present(c.rooms[room], m)
  {
    var c := Commit(db, room, s, kind, actor, revoke);
    assert c.rooms[room].members == s.members;
  }

  lemma JoinRoomGoes(db: Db, room: Id, now: Time, free: bool)
    requires DbOk(db) && room in db.rooms && IsOpen(db.rooms[room]) && JoinRoom(db, room, now).Ok?
    ensures Goes(db, JoinRoom(db, room, now).value.db, room, free)
  {
    hide DbOk, Goes, Good, Commit, Issue, JoinEdit;
    var r, me := db.rooms[room], db.nextId;
    var e := JoinEdit(r, me, now);
    RowOf(db, room);
    JoinGood(me, me + 3, r, now);
    JoinedGoes(db, room, e, me, free);
  }

  lemma JoinedGoes(db: Db, room: Id, e: Edit, me: Id, free: bool)
    requires DbOk(db) && room in db.rooms && me == db.nextId && e.Changed?
    requires Good(me, me + 3, db.rooms[room], e.room, e.revoke, true) && IsOpen(e.room) && Present(e.room, me)
    ensures var joined := Commit(db, room, e.room, e.event, Some(me), e.revoke).(nextId := me + 3);
            Goes(db, Issue(joined, room, me), room, free)
  {
    hide DbOk, Goes, Commit, Issue, Present, RoomOk, Evolves, PhaseOk, EditOk;
    CommitGoes(db, me + 3, room, e.room, e.event, Some(me), e.revoke, free);
    CommitPresent(db, room, e.room, e.event, Some(me), e.revoke, me);
    IssueGoes(db, Commit(db, room, e.room, e.event, Some(me), e.revoke).(nextId := me + 3), room, me, free);
  }

  lemma LoadAndJoin(db: Db, room: Id, now: Time, free: bool)
    requires DbOk(db) && room in db.rooms
    requires IsOpen(Expire(db, room, now).rooms[room]) && JoinRoom(Expire(db, room, now), room, now).Ok?
    ensures Goes(db, JoinRoom(Expire(db, room, now), room, now).value.db, room, free)
    ensures IsOpen(db.rooms[room])
  {
    ExpireGoes(db, room, now, free);
    JoinRoomGoes(db, room, now, free);
  }

  lemma RotateOk(db: Db, member: Id, now: Time)
    requires DbOk(db) && member in db.creds
    ensures DbOk(Rotate(db, member, now)) && Moves(db, Rotate(db, member, now), db.creds[member].room, true)
  {
    hide RoomOk, HistoryOk, IdsBelow, Present, IndexOk, LogOk, PhaseOk, Evolves;
    var c := Rotate(db, member, now);
    DrawIds(db, c.nextId);
    var d := db.(nextId := c.nextId);
    forall id | id in c.rooms ensures RoomRow(c, id) {
      assert RoomRow(d, id);
    }
    forall m | m in c.creds ensures CredRow(c, m) {
      assert CredRow(d, m);
    }
    var room := db.creds[member].room;
    assert CredRow(db, member) && RoomRow(db, room);
    EvolvesReflexive(db.nextId, db.rooms[room]);
  }

  lemma ReadmitGoes(db: Db, room: Id, i: nat, me: Id, now: Time, active: bool)
    requires DbOk(db) && room in db.rooms && i < |db.rooms[room].members|
    requires me in db.creds && db.creds[me].room == room
    requires Readmit(db, room, i, me, now, active).Ok?
    ensures Goes(db, Readmit(db, room, i, me, now, active).value.db, room, true)
    ensures IsOpen(db.rooms[room])
  {
    var rotated := Rotate(db, me, now);
    RotateOk(db, me, now);
    assert RoomRow(rotated, room);
    ReconnectGood(rotated.nextId, rotated.nextId, rotated.rooms[room], i, now);
    var s := ReconnectEdit(rotated.rooms[room], i, now).room;
    CommitGoes(rotated, rotated.nextId, room, s, MemberReconnected, Some(me), NoOne, true);
    GoesOn(db, rotated, Commit(rotated, room, s, MemberReconnected, Some(me), NoOne), room, true);
  }

  lemma ReconnectGoes(db: Db, room: Id, token: Token, now: Time)
    requires DbOk(db) && Reconnect(db, room, token, now).Ok?
    ensures Goes(db, Reconnect(db, room, token, now).value.db, room, true)
    ensures room in db.rooms && IsOpen(db.rooms[room])
  {
    ExpireGoes(db, room, now, true);
    var loaded := Expire(db, room, now);
    var i := IndexOf(loaded.rooms[room].members, token.member).value;
    ReadmitGoes(loaded, room, i, token.member, now, db.creds[token.member].active);
  }

  // ---- a new room ---------------------------------------------------------------------------

  // A room under a fresh id joins the others, which stay as they are.
  predicate Adds(db: Db, c: Db, room: Id) {
    && DbOk(c) && db.nextId <= room && db.nextId <= c.nextId && c.rooms.Keys == db.rooms.Keys + {room}
    && (forall id :: id in db.rooms ==> c.rooms[id] == db.rooms[id])
    && (PhasesOk(db) ==> PhasesOk(c))
  }

  lemma NoHistory(events: seq<Event>, room: Id)
    requires forall i :: 0 <= i < |events| ==> events[i].room < room
    ensures History(events, room) == []
  {
  }

  lemma NewIndex(index: Index, rooms: map<Id, Room>, id: Id, r: Room)
    requires IndexOk(index, rooms) && id !in rooms && r.key.code !in index.code
    requires r.key.listing.Some? ==> r.key.listing.value !in index.listing
    ensures IndexOk(Grown(index, r.key, id), rooms[id := r])
  {
    var grown, added := Grown(index, r.key, id), rooms[id := r];
    forall i | i in added ensures Indexed(grown, added[i].key, i) {
      assert i != id ==> Indexed(index, rooms[i].key, i);
    }
  }

  lemma NewListing(db: Db, l: Id)
    requires DbOk(db) && db.nextId <= l
    ensures l !in db.index.listing
  {
    forall k | k in db.index.listing ensures k < db.nextId {
      assert RoomRow(db, db.index.listing[k]);
    }
  }

  lemma NewId(db: Db)
    requires DbOk(db)
    ensures db.nextId !in db.rooms
  {
    forall id | id in db.rooms ensures id < db.nextId {
      assert RoomRow(db, id);
    }
  }

  lemma NewRoomRow(db: Db, r: Room, listed: bool, now: Time)
    requires LogOk(db.log, db.nextId) && r == NewRoom(db.nextId, listed, r.key.code, now)
    ensures var c := Commit(db.(nextId := db.nextId + 5), r.key.id, r, RoomCreated, Some(r.key.owner), NoOne);
            && RoomRow(c, r.key.id) && PhaseOk(c.rooms[r.key.id])
  {
    var id := db.nextId;
    NoHistory(db.log.events, id);
    HistoryAppend(db.log.events, Event(db.log.next, id, 1, RoomCreated, Some(id + 1)), id);
  }

  // Everything but the index of a database that has one more room.
  lemma CreatedRows(db: Db, c: Db, r: Room, listed: bool, now: Time)
    requires DbOk(db) && r == NewRoom(db.nextId, listed, r.key.code, now) && db.nextId !in db.rooms
    requires c == Commit(db.(nextId := db.nextId + 5), r.key.id, r, RoomCreated, Some(r.key.owner), NoOne)
    ensures forall id :: id in c.rooms ==> RoomRow(c, id)
    ensures PhasesOk(db) ==> PhasesOk(c)
  {
    hide RoomOk, HistoryOk, IdsBelow, CredRow, IndexOk, PhaseOk;
    var n := db.nextId;
    var d := db.(nextId := n + 5);
    NewRoomRow(db, r, listed, now);
    DrawIds(db, n + 5);
    forall id | id in c.rooms ensures RoomRow(c, id) && (id != n ==> c.rooms[id] == db.rooms[id]) {
      if id != n {
        assert RoomRow(d, id);
        CommitOther(d, n, r, RoomCreated, Some(r.key.owner), NoOne, id);
      }
    }
  }

  lemma CreatedCreds(db: Db, c: Db, r: Room, listed: bool, now: Time)
    requires DbOk(db) && r == NewRoom(db.nextId, listed, r.key.code, now) && db.nextId !in db.rooms
    requires c == Commit(db.(nextId := db.nextId + 5), r.key.id, r, RoomCreated, Some(r.key.owner), NoOne)
    ensures forall m :: m in c.creds ==> CredRow(c, m)
  {
    forall m | m in c.creds ensures CredRow(c, m) {
      assert CredRow(db, m);
    }
  }

  lemma CreatedOk(db: Db, c: Db, r: Room, listed: bool, now: Time)
    requires DbOk(db) && r == NewRoom(db.nextId, listed, r.key.code, now) && r.key.code !in db.index.code
    requires c == Commit(db.(index := Grown(db.index, r.key, r.key.id), nextId := db.nextId + 5),
                         r.key.id, r, RoomCreated, Some(r.key.owner), NoOne)
    ensures DbOk(c) && (PhasesOk(db) ==> PhasesOk(c))
  {
    hide RoomOk, HistoryOk, IdsBelow, PhaseOk, Indexed, Grown;
    NewId(db);
    var b := Commit(db.(nextId := db.nextId + 5), r.key.id, r, RoomCreated, Some(r.key.owner), NoOne);
    CreatedRows(db, b, r, listed, now);
    CreatedCreds(db, b, r, listed, now);
    forall id | id in c.rooms ensures RoomRow(c, id) {
      assert RoomRow(b, id);
    }
    forall m | m in c.creds ensures CredRow(c, m) {
      assert CredRow(b, m);
    }
    NewListing(db, db.nextId + 4);
    NewIndex(db.index, db.rooms, r.key.id, c.rooms[r.key.id]);
    LogKept(db.log, db.nextId + 5, r.key.id, 1, RoomCreated, Some(r.key.owner));
  }

  lemma CreatedAdds(db: Db, c: Db, r: Room, listed: bool, now: Time)
    requires DbOk(db) && r == NewRoom(db.nextId, listed, r.key.code, now) && r.key.code !in db.index.code
    requires c == Commit(db.(index := Grown(db.index, r.key, r.key.id), nextId := db.nextId + 5),
                         r.key.id, r, RoomCreated, Some(r.key.owner), NoOne)
    ensures Adds(db, c, db.nextId) && r.key.owner < c.nextId
  {
    hide DbOk, PhasesOk;
    NewId(db);
    CreatedOk(db, c, r, listed, now);
  }

  lemma OwnerPresent(id: Id, listed: bool, code: Id, now: Time)
    ensures var r := NewRoom(id, listed, code, now); IsOpen(r) && Present(r, r.key.owner)
  {
    assert NewRoom(id, listed, code, now).members[0].id == id + 1;
  }

  lemma CreateAdds(db: Db, rejected: Option<int>, listed: bool, draws: seq<Id>, now: Time)
    requires DbOk(db) && Create(db, rejected, listed, draws, now).Ok?
    ensures Adds(db, Create(db, rejected, listed, draws, now).value.db, db.nextId)
  {
    hide DbOk, Adds, Commit, Issue, Grown, PhasesOk, Present;
    var r := NewRoom(db.nextId, listed, NewCode(draws, db.index.code).value, now);
    var d := db.(index := Grown(db.index, r.key, r.key.id), nextId := db.nextId + 5);
    var c := Commit(d, r.key.id, r, RoomCreated, Some(r.key.owner), NoOne);
    NewId(db);
    CreatedAdds(db, c, r, listed, now);
    OwnerPresent(db.nextId, listed, r.key.code, now);
    CommitPresent(d, r.key.id, r, RoomCreated, Some(r.key.owner), NoOne, r.key.owner);
    IssueAdds(db, c, r.key.id, r.key.owner);
  }

  lemma IssueAdds(db: Db, c: Db, room: Id, member: Id)
    requires Adds(db, c, room) && member < c.nextId && IsOpen(c.rooms[room]) && Present(c.rooms[room], member)
    ensures Adds(db, Issue(c, room, member), room)
  {
    IssueOk(c, room, member);
  }
}
