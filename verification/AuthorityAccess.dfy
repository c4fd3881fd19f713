/**
 Whom the authority serves: every member that is present in an open room has an active credential
 for it, so it is let in with its latest token, and may come back with its reconnect token.
 */
module AuthorityAccess {
  import opened Common
  import opened Rooms
  import opened RoomInvariants
  import opened AuthorityModel
  import opened AuthorityInvariants
  import opened AuthorityEdits
  import opened AuthorityTransactions
  import opened AuthorityRuns
  import opened AuthorityProperties
  import opened AuthorityBearers

  predicate HasCred(db: Db, room: Id, m: Id) {
    m in db.creds && db.creds[m].active && db.creds[m].room == room
  }

  ghost predicate RoomServed(db: Db, room: Id)
    requires room in db.rooms
  {
    IsOpen(db.rooms[room]) ==> forall m :: Present(db.rooms[room], m) ==> HasCred(db, room, m)
  }

  ghost predicate Served(db: Db) {
    forall room :: room in db.rooms ==> RoomServed(db, room)
  }

  // Nobody comes back into reach by an edit, and who stays keeps its credential.
  ghost predicate NoneReturns(r: Room, s: Room, revoke: Revocation) {
    IsOpen(s) ==> IsOpen(r) && !revoke.Everyone? && forall m :: Present(s, m) ==> Present(r, m) && revoke != Only(m)
  }

  // ---- edits --------------------------------------------------------------------------------

  // Members keep their places, and only those that may have come into reach no worse off.
  predicate SamePlaces(r: Room, s: Room, revoke: Revocation) {
    && IsOpen(r) && !revoke.Everyone? && |s.members| == |r.members|
    && forall i :: 0 <= i < |r.members| ==>
         && s.members[i].id == r.members[i].id
         && (Reachable(s.members[i].presence) ==>
               Reachable(r.members[i].presence) && revoke != Only(s.members[i].id))
  }

  lemma PlacesNone(r: Room, s: Room, revoke: Revocation)
    requires IsOpen(s) ==> SamePlaces(r, s, revoke)
    ensures NoneReturns(r, s, revoke)
  {
    if IsOpen(s) {
      forall m | Present(s, m) ensures Present(r, m) && revoke != Only(m) {
        var i :| 0 <= i < |s.members| && s.members[i].id == m && Reachable(s.members[i].presence);
        assert r.members[i].id == m && Reachable(r.members[i].presence);
      }
    }
  }

  lemma VacatePlaces(r: Room, i: nat, now: Time)
    requires RoomOk(r) && IsOpen(r) && i < |r.members|
    ensures SamePlaces(r, Vacate(r, i, now), Only(r.members[i].id))
  {
  }

  lemma ActionPlaces(r: Room, i: nat, action: Action, newId: Id, now: Time)
    requires RoomOk(r) && IsOpen(r) && i < |r.members| && Reachable(r.members[i].presence)
    requires ActionEdit(r, i, action, newId, now).Changed?
    ensures var e := ActionEdit(r, i, action, newId, now); NoneReturns(r, e.room, e.revoke)
  {
    hide NoneReturns, Complementary, CreatorOf, AllReady, FailureCode;
    var e := ActionEdit(r, i, action, newId, now);
    match action {
      case Leave => VacatePlaces(r, i, now);
      case RemoveOffline(target) => VacatePlaces(r, IndexOf(r.members, target).value, now);
      case _ =>
    }
    PlacesNone(r, e.room, e.revoke);
  }

  lemma BeginDPlaces(r: Room, me: Id, attempt: Id, p: ClosingPayload, expected: nat, now: Time)
    requires RoomOk(r) && BeginDEdit(r, me, attempt, p, expected, now).Changed?
    ensures var e := BeginDEdit(r, me, attempt, p, expected, now); NoneReturns(r, e.room, e.revoke)
  {
    hide NoneReturns;
    var e := BeginDEdit(r, me, attempt, p, expected, now);
    PlacesNone(r, e.room, e.revoke);
  }

  lemma AckPlaces(r: Room, me: Id, attempt: Id, p: QuiescentPayload, expected: nat, now: Time)
    requires RoomOk(r) && IsOpen(r) && AckDEdit(r, me, attempt, p, expected, now).Changed?
    ensures var e := AckDEdit(r, me, attempt, p, expected, now); NoneReturns(r, e.room, e.revoke)
  {
    hide NoneReturns, Reported, Clean;
    var e := AckDEdit(r, me, attempt, p, expected, now);
    PlacesNone(r, e.room, e.revoke);
  }

  lemma RelayPlaces(r: Room, attempt: Id, code: string, now: Time)
    requires RoomOk(r)
    ensures var e := TransportFailEdit(r, attempt, code, now); e.Changed? ==> NoneReturns(r, e.room, e.revoke)
    ensures var e := ForceEdit(r, attempt, code, now); e.Changed? ==> NoneReturns(r, e.room, e.revoke)
    ensures var e := TimeoutEdit(r, now); IsOpen(r) && e.Changed? ==> NoneReturns(r, e.room, e.revoke)
  {
    hide NoneReturns;
    var e, f, g := TransportFailEdit(r, attempt, code, now), ForceEdit(r, attempt, code, now), TimeoutEdit(r, now);
    if e.Changed? {
      PlacesNone(r, e.room, e.revoke);
    }
    if f.Changed? {
      PlacesNone(r, f.room, f.revoke);
    }
    if IsOpen(r) && g.Changed? {
      PlacesNone(r, g.room, g.revoke);
    }
  }

  lemma PresencePlaces(r: Room, i: nat, now: Time)
    requires RoomOk(r) && IsOpen(r) && i < |r.members| && PresenceEdit(r, i, now).Changed?
    ensures var e := PresenceEdit(r, i, now); NoneReturns(r, e.room, e.revoke)
  {
    hide NoneReturns;
    var e := PresenceEdit(r, i, now);
    PlacesNone(r, e.room, e.revoke);
  }

  // ---- transactions -------------------------------------------------------------------------

  lemma CommitServed(db: Db, room: Id, s: Room, kind: EventType, actor: Option<Id>, revoke: Revocation)
    requires Served(db) && room in db.rooms && NoneReturns(db.rooms[room], s, revoke)
    ensures Served(Commit(db, room, s, kind, actor, revoke))
  {
    var c := Commit(db, room, s, kind, actor, revoke);
    forall id | id in c.rooms ensures RoomServed(c, id) {
      assert RoomServed(db, id);
      if id == room {
        assert c.rooms[room].members == s.members;
        forall m | IsOpen(s) && Present(c.rooms[room], m) ensures HasCred(c, room, m) {
          assert Present(s, m);
          assert HasCred(db, room, m);
        }
      }
    }
  }

  lemma ExpireServed(db: Db, room: Id, now: Time)
    requires Served(db) && room in db.rooms
    ensures Served(Expire(db, room, now))
  {
    hide Commit, Served, Present;
    if Overdue(db.rooms[room], now) {
      CommitServed(db, room, ExpireEdit(db.rooms[room]).room, RoomExpired, None, Everyone);
    }
  }

  lemma SameServed(db: Db, c: Db)
    requires Served(db) && c.rooms == db.rooms && c.creds == db.creds
    ensures Served(c)
  {
    forall id | id in c.rooms ensures RoomServed(c, id) {
      assert RoomServed(db, id);
    }
  }

  lemma SettleServed(db: Db, room: Id, e: Edit, k: Command, me: Id, now: Time)
    requires Served(db) && room in db.rooms && Settle(db, room, e, k, me, now).Ok?
    requires e.Changed? ==> NoneReturns(db.rooms[room], e.room, e.revoke)
    ensures Served(Settle(db, room, e, k, me, now).value.db)
  {
    hide Served, NoneReturns, Commit;
    if e.Changed? {
      CommitServed(db, room, e.room, e.event, Some(me), e.revoke);
      SameServed(Commit(db, room, e.room, e.event, Some(me), e.revoke), Settle(db, room, e, k, me, now).value.db);
    } else {
      SameServed(db, Settle(db, room, e, k, me, now).value.db);
    }
  }

  lemma MutateServed(db: Db, room: Id, me: Id, k: Command, action: Action, expected: Option<nat>, now: Time)
    requires DbOk(db) && Served(db) && room in db.rooms && Mutate(db, room, me, k, action, expected, now).Ok?
    requires IsOpen(db.rooms[room]) ==> Present(db.rooms[room], me)
    ensures Served(Mutate(db, room, me, k, action, expected, now).value.db)
  {
    hide DbOk, Served, RoomOk, IdsBelow, Settle, Present, Stale, ActionEdit, Answer, NoneReturns;
    var r := db.rooms[room];
    RowOf(db, room);
    if Stale(r, me, action, expected) == Idle {
      AnswerServed(db, room, k, me, now);
    } else {
      PresentIndex(r, me);
      var i := IndexOf(r.members, me).value;
      var e := ActionEdit(r, i, action, db.nextId, now);
      if e.Changed? {
        ActionPlaces(r, i, action, db.nextId, now);
      }
      SettleServed(db, room, e, k, me, now);
    }
  }

  lemma AnswerServed(db: Db, room: Id, k: Command, me: Id, now: Time)
    requires Served(db) && room in db.rooms
    ensures Served(Answer(db, room, k, me, now).value.db)
  {
    hide Served;
    SameServed(db, Answer(db, room, k, me, now).value.db);
  }

  lemma MemberTxServed(db: Db, q: Request, me: Id, k: Command, now: Time)
    requires DbOk(db) && Served(db) && !IsSecret(q) && q.room in db.rooms && MemberTx(db, q, me, k, now).Ok?
    requires if IsOpen(db.rooms[q.room]) then Present(db.rooms[q.room], me) else !q.AckQuiescent?
    ensures Served(MemberTx(db, q, me, k, now).value.db)
  {
    hide DbOk, Served, RoomOk, IdsBelow, Settle, Mutate, Present, BeginDEdit, AckDEdit, NoneReturns;
    RowOf(db, q.room);
    var r := db.rooms[q.room];
    match q
    case Act(room, _, action, expected) => MutateServed(db, room, me, k, action, expected, now);
    case BeginClosing(room, _, attempt, closing, version) =>
      var e := BeginDEdit(r, me, attempt, closing, version, now);
      if e.Changed? {
        BeginDPlaces(r, me, attempt, closing, version, now);
      }
      SettleServed(db, room, e, k, me, now);
    case AckQuiescent(room, _, attempt, quiescent, version) =>
      var e := AckDEdit(r, me, attempt, quiescent, version, now);
      if e.Changed? {
        AckPlaces(r, me, attempt, quiescent, version, now);
      }
      SettleServed(db, room, e, k, me, now);
  }

  lemma SessionServed(db: Db, bearer: Option<Token>, room: Id, now: Time)
    requires DbOk(db) && Served(db) && Session(db, bearer, room, now).Ok?
    ensures var c := Session(db, bearer, room, now).value;
            && c == Expire(db, room, now) && room in db.rooms && Served(c) && DbOk(c)
            && (IsOpen(c.rooms[room]) ==> c == db && Present(c.rooms[room], bearer.value.member))
            && (IsOpen(c.rooms[room]) <==> !Overdue(db.rooms[room], now))
  {
    hide DbOk, Served, Goes;
    SessionGoes(db, bearer, room, now, true);
    ExpireServed(db, room, now);
    ExpireGoes(db, room, now, true);
    GoesKeys(db, Expire(db, room, now), room);
  }

  // The report of a side for a room whose time is over.
  predicate LateAck(db: Db, q: Request, now: Time) {
    q.AckQuiescent? && q.room in db.rooms && Overdue(db.rooms[q.room], now)
  }

  lemma MemberCallServed(db: Db, q: Request, id: string, now: Time)
    requires DbOk(db) && Served(db) && !IsSecret(q) && MemberCall(db, q, id, now).Ok? && !LateAck(db, q, now)
    ensures Served(MemberCall(db, q, id, now).value.db)
  {
    hide DbOk, Served, Session, MemberTx, Expire, Present, Overdue;
    SessionServed(db, q.bearer, q.room, now);
    var loaded := Session(db, q.bearer, q.room, now).value;
    var k := Command(ScopeOf(q).value, id);
    if k !in loaded.commands {
      MemberTxServed(loaded, q, q.bearer.value.member, k, now);
    }
  }

  lemma ApplyServed(db: Db, room: Id, e: Edit)
    requires Served(db) && room in db.rooms && Apply(db, room, e).Ok?
    requires e.Changed? ==> NoneReturns(db.rooms[room], e.room, e.revoke)
    ensures Served(Apply(db, room, e).value.db)
  {
    hide Served, NoneReturns, Commit;
    if e.Changed? {
      CommitServed(db, room, e.room, e.event, None, e.revoke);
    }
  }

  lemma RelayServed(db: Db, room: Id, attempt: Id, code: string, now: Time)
    requires DbOk(db) && Served(db)
    ensures FailTransport(db, room, attempt, code, now).Ok? ==>
              Served(FailTransport(db, room, attempt, code, now).value.db)
    ensures ForceD(db, room, attempt, code, now).Ok? ==> Served(ForceD(db, room, attempt, code, now).value.db)
  {
    hide DbOk, Served, NoneReturns, Expire, Apply, TransportFailEdit, ForceEdit, DCode, RoomOk, IdsBelow;
    if room in db.rooms {
      var c := Expire(db, room, now);
      ExpireServed(db, room, now);
      LoadedRow(db, room, now);
      RelayPlaces(c.rooms[room], attempt, code, now);
      var e, f := TransportFailEdit(c.rooms[room], attempt, code, now), ForceEdit(c.rooms[room], attempt, code, now);
      if Apply(c, room, e).Ok? {
        ApplyServed(c, room, e);
      }
      if Apply(c, room, f).Ok? {
        ApplyServed(c, room, f);
      }
    }
  }

  // ---- sweeps -------------------------------------------------------------------------------

  lemma {:induction false} PresencesServed(db: Db, room: Id, i: nat, now: Time)
    requires DbOk(db) && Served(db) && room in db.rooms && IsOpen(db.rooms[room])
    ensures Served(Presences(db, room, i, now))
    decreases |db.rooms[room].members| - i
  {
    hide DbOk, Served, Goes, Good, RoomOk, IdsBelow, Commit, PresenceEdit, NoneReturns;
    RowOf(db, room);
    var r := db.rooms[room];
    if i < |r.members| {
      var e := PresenceEdit(r, i, now);
      if e.Changed? {
        var actor := Some(r.members[i].id);
        var c := Commit(db, room, e.room, e.event, actor, e.revoke);
        PresenceGood(db.nextId, r, i, now);
        CommitGoes(db, db.nextId, room, e.room, e.event, actor, e.revoke, true);
        Committed(db, room, e.room, e.event, actor, e.revoke);
        assert c.(nextId := db.nextId) == c;
        GoesKeys(db, c, room);
        PresencePlaces(r, i, now);
        CommitServed(db, room, e.room, e.event, actor, e.revoke);
        PresencesServed(c, room, i + 1, now);
      } else {
        PresencesServed(db, room, i + 1, now);
      }
    }
  }

  lemma SweepRoomServed(db: Db, room: Id, now: Time)
    requires DbOk(db) && Served(db) && room in db.rooms
    ensures Served(SweepRoom(db, room, now))
  {
    hide DbOk, Served, Goes, RoomOk, IdsBelow, Expire, Presences, NoneReturns, TimeoutEdit, Commit;
    ExpireServed(db, room, now);
    ExpireGoes(db, room, now, true);
    var loaded := Expire(db, room, now);
    GoesKeys(db, loaded, room);
    if IsOpen(loaded.rooms[room]) {
      RowOf(loaded, room);
      var e := TimeoutEdit(loaded.rooms[room], now);
      RelayPlaces(loaded.rooms[room], 0, "", now);
      if e.Changed? {
        CommitServed(loaded, room, e.room, e.event, None, e.revoke);
      }
      TimeoutGoes(loaded, room, now);
      GoesKeys(loaded, Timeout(loaded, room, now), room);
      PresencesServed(Timeout(loaded, room, now), room, 0, now);
    }
  }

  lemma {:induction false} SweepRoomsServed(db: Db, from: Id, upTo: Id, now: Time)
    requires DbOk(db) && Served(db)
    ensures Served(SweepRooms(db, from, upTo, now))
    decreases upTo - from
  {
    hide DbOk, Served, SweepRoom, RoomAdvances, PhasesOk;
    if from < upTo {
      if from in db.rooms {
        SweepRoomServed(db, from, now);
        SweepRoomAdvances(db, from, now);
        SweepRoomsServed(SweepRoom(db, from, now), from + 1, upTo, now);
      } else {
        SweepRoomsServed(db, from + 1, upTo, now);
      }
    }
  }

  lemma ForgetServed(db: Db, now: Time)
    requires Served(db)
    ensures Served(Forget(db, now))
  {
    hide Retained, Present;
    var c := Forget(db, now);
    forall id | id in c.rooms ensures RoomServed(c, id) {
      assert RoomServed(db, id);
    }
  }

  lemma SweepServed(db: Db, now: Time)
    requires DbOk(db) && Served(db)
    ensures Served(Sweep(db, now))
  {
    hide DbOk, Served, SweepRooms, Forget;
    SweepRoomsServed(db, 0, db.nextId, now);
    ForgetServed(SweepRooms(db, 0, db.nextId, now), now);
  }

  // ---- new members --------------------------------------------------------------------------

  // Whoever is in the room after a join was there before it, or is the new member.
  lemma JoinedMembers(r: Room, newId: Id, now: Time, m: Id)
    requires RoomOk(r) && JoinEdit(r, newId, now).Changed? && Present(JoinEdit(r, newId, now).room, m)
    ensures m == newId || Present(r, m)
  {
    var s := JoinEdit(r, newId, now).room;
    ActiveOf(r.members);
    var i :| 0 <= i < |s.members| && s.members[i].id == m && Reachable(s.members[i].presence);
    if i < |Active(r.members)| {
      assert s.members[i] in r.members;
      var j :| 0 <= j < |r.members| && r.members[j] == s.members[i];
      assert r.members[j].id == m && Reachable(r.members[j].presence);
    }
  }

  lemma IssueServed(db: Db, c: Db, room: Id, me: Id)
    requires Served(db) && room in c.rooms && c.rooms.Keys <= db.rooms.Keys + {room}
    requires forall id :: id in c.rooms && id != room ==> c.rooms[id] == db.rooms[id]
    requires forall m :: m in c.creds && m != me ==> m in db.creds && c.creds[m] == db.creds[m]
    requires forall m :: m in db.creds && m != me ==> m in c.creds
    requires HasCred(c, room, me) && (me in db.creds ==> db.creds[me].room == room)
    requires forall m :: Present(c.rooms[room], m) ==> m == me || (room in db.rooms && IsOpen(db.rooms[room])
                                                                   && Present(db.rooms[room], m))
    ensures Served(c)
  {
    forall id | id in c.rooms ensures RoomServed(c, id) {
      if id in db.rooms {
        assert RoomServed(db, id);
      }
      forall m | IsOpen(c.rooms[id]) && Present(c.rooms[id], m) ensures HasCred(c, id, m) {
        if id != room {
          assert HasCred(db, id, m);
        } else if m != me {
          assert HasCred(db, id, m);
        }
      }
    }
  }

  lemma CreateServed(db: Db, rejected: Option<int>, listed: bool, draws: seq<Id>, now: Time)
    requires DbOk(db) && Served(db) && Create(db, rejected, listed, draws, now).Ok?
    ensures Served(Create(db, rejected, listed, draws, now).value.db)
  {
    hide DbOk, Served, FirstFree;
    NewId(db);
    FreshMember(db, db.nextId + 1);
    NoCredsOf(db, db.nextId);
    var c := Create(db, rejected, listed, draws, now).value.db;
    OwnerAlone(c.rooms[db.nextId], db.nextId + 1);
    IssueServed(db, c, db.nextId, db.nextId + 1);
  }

  lemma FreshMember(db: Db, m: Id)
    requires DbOk(db) && db.nextId <= m
    ensures m !in db.creds
  {
    forall k | k in db.creds ensures k < db.nextId {
      assert CredRow(db, k);
    }
  }

  lemma NoCredsOf(db: Db, room: Id)
    requires DbOk(db) && room !in db.rooms
    ensures forall m :: m in db.creds ==> db.creds[m].room != room
  {
    forall m | m in db.creds ensures db.creds[m].room != room {
      assert CredRow(db, m);
    }
  }

  lemma OwnerAlone(r: Room, owner: Id)
    requires |r.members| == 1 && r.members[0].id == owner
    ensures forall m :: Present(r, m) ==> m == owner
  {
  }

  lemma JoinServed(db: Db, room: Id, now: Time)
    requires DbOk(db) && Served(db) && room in db.rooms && IsOpen(db.rooms[room]) && JoinRoom(db, room, now).Ok?
    ensures Served(JoinRoom(db, room, now).value.db)
  {
    hide DbOk, Served, RoomOk, IdsBelow, JoinEdit;
    RowOf(db, room);
    var r, me := db.rooms[room], db.nextId;
    FreshMember(db, me);
    var e, c := JoinEdit(r, me, now), JoinRoom(db, room, now).value.db;
    JoinRevokesNone(r, me, now);
    forall m | Present(c.rooms[room], m) ensures m == me || Present(r, m) {
      SameMembersPresent(c.rooms[room], e.room, m);
      JoinedMembers(r, me, now, m);
    }
    IssueServed(db, c, room, me);
  }

  lemma JoinRevokesNone(r: Room, me: Id, now: Time)
    ensures JoinEdit(r, me, now).Changed? ==> JoinEdit(r, me, now).revoke == NoOne
  {
  }

  lemma SameMembersPresent(r: Room, s: Room, m: Id)
    requires r.members == s.members
    ensures Present(r, m) <==> Present(s, m)
  {
  }

  lemma ReturnServed(db: Db, room: Id, token: Token, now: Time)
    requires DbOk(db) && Served(db) && Reconnect(db, room, token, now).Ok?
    ensures Served(Reconnect(db, room, token, now).value.db)
  {
    hide DbOk, Served, IndexOf, RoomOk, IdsBelow;
    var me := token.member;
    ExpireTokens(db, room, now);
    ActiveStays(db, room, now, me);
    var r, c := db.rooms[room], Reconnect(db, room, token, now).value.db;
    forall m | Present(c.rooms[room], m) ensures m == me || Present(r, m) {
      ReturnedMembers(r, IndexOf(r.members, me).value, now, c.rooms[room], m);
    }
    IssueServed(db, c, room, me);
  }

  lemma ReturnedMembers(r: Room, i: nat, now: Time, s: Room, m: Id)
    requires i < |r.members| && s.members == ReconnectEdit(r, i, now).room.members && Present(s, m)
    ensures m == r.members[i].id || Present(r, m)
  {
    var j :| 0 <= j < |s.members| && s.members[j].id == m && Reachable(s.members[j].presence);
    if j != i {
      assert r.members[j].id == m && Reachable(r.members[j].presence);
    }
  }

  lemma LoadJoinServed(db: Db, room: Id, now: Time)
    requires DbOk(db) && Served(db) && room in db.rooms
    requires IsOpen(Expire(db, room, now).rooms[room]) && JoinRoom(Expire(db, room, now), room, now).Ok?
    ensures Served(JoinRoom(Expire(db, room, now), room, now).value.db)
  {
    hide DbOk, Served, JoinRoom;
    ExpireGoes(db, room, now, true);
    JoinServed(db, room, now);
  }

  lemma SecretTxServed(db: Db, q: Request, now: Time)
    requires DbOk(db) && Served(db) && IsSecret(q) && SecretTx(db, q, now).Ok?
    ensures Served(SecretTx(db, q, now).value.db)
  {
    hide DbOk, Served, JoinRoom, Expire, Create, Reconnect, IsOpen;
    match q
    case CreateRoom(_, rejected, listed, draws) => CreateServed(db, rejected, listed, draws, now);
    case JoinByCode(_, code) => LoadJoinServed(db, db.index.code[code], now);
    case JoinListed(_, listing) => LoadJoinServed(db, db.index.listing[listing], now);
    case Return(room, token) => ReturnServed(db, room, token, now);
  }

  // ---- steps and runs -----------------------------------------------------------------------

  // The report of a side for a room whose time is over when it arrives.
  predicate Late(store: Store, t: Timed) {
    t.op.Call? && LateAck(store.db, t.op.request, t.now)
  }

  lemma StepServed(store: Store, t: Timed)
    requires DbOk(store.db) && Served(store.db) && !Late(store, t)
    ensures Served(Step(store, t).store.db)
  {
    hide DbOk, Served, MemberCall, View, FailTransport, ForceD, Sweep, SecretStep, SecretTx, IsSecret;
    match t.op
    case Call(id, q) =>
      if IsSecret(q) {
        SecretScoped(q);
        SecretStepServed(store, Command(ScopeOf(q).value, id), q, t.now);
      } else if MemberCall(store.db, q, id, t.now).Ok? {
        MemberCallServed(store.db, q, id, t.now);
      }
    case Snapshot(room, bearer) =>
      if View(store.db, room, bearer, t.now).Ok? {
        ViewServed(store.db, room, bearer, t.now);
      }
    case TransportLost(room, attempt, code) => RelayServed(store.db, room, attempt, code, t.now);
    case Force(room, attempt, code) => RelayServed(store.db, room, attempt, code, t.now);
    case SweepPresence => SweepServed(store.db, t.now);
  }

  lemma SecretStepServed(store: Store, k: Command, q: Request, now: Time)
    requires DbOk(store.db) && Served(store.db) && IsSecret(q)
    ensures Served(SecretStep(store, k, SecretTx(store.db, q, now), now).store.db)
  {
    hide DbOk, Served, SecretTx, FindSecret;
    var tx := SecretTx(store.db, q, now);
    if tx.Ok? {
      SecretTxServed(store.db, q, now);
      SameServed(tx.value.db, Remember(tx.value.db, k, Marker(tx.value.response), now));
    }
  }

  lemma ViewServed(db: Db, room: Id, bearer: Option<Token>, now: Time)
    requires DbOk(db) && Served(db) && View(db, room, bearer, now).Ok?
    ensures Served(View(db, room, bearer, now).value.db)
  {
    hide DbOk, Served, Session;
    SessionServed(db, bearer, room, now);
  }

  // No report comes after the time of its room is over.
  predicate NoneLate(steps: seq<Timed>) {
    forall i :: 0 <= i < |steps| ==> !Late(Run(EMPTY, steps[..i]), steps[i])
  }

  lemma {:induction false} ServedRun(steps: seq<Timed>)
    requires NoneLate(steps)
    ensures Served(After(steps))
    decreases |steps|
  {
    hide DbOk, PhasesOk, Step, Run, Late, Served;
    if steps == [] {
      NobodyServed();
    } else {
      var p, t := steps[..|steps| - 1], steps[|steps| - 1];
      assert forall i :: 0 <= i < |p| ==> p[..i] == steps[..i] && !Late(Run(EMPTY, steps[..i]), steps[i]);
      ServedRun(p);
      ReachableOk(p);
      LastStep(steps);
      StepServed(Run(EMPTY, p), t);
    }
  }

  lemma NobodyServed()
    ensures Served(After([]))
  {
  }

  // In every run without such a report, a member that is online or may come back to an open room
  // has an active credential for it; and only such members do.
  lemma PresentExactly(steps: seq<Timed>, room: Id, m: Id)
    requires NoneLate(steps) && room in After(steps).rooms
    ensures HasCred(After(steps), room, m) <==>
              IsOpen(After(steps).rooms[room])
              && exists i :: 0 <= i < |After(steps).rooms[room].members|
                             && After(steps).rooms[room].members[i].id == m
                             && (After(steps).rooms[room].members[i].presence == Online
                                 || After(steps).rooms[room].members[i].presence == Reconnecting)
  {
    hide DbOk, Served, Run;
    ServedRun(steps);
    var r := After(steps).rooms[room];
    if HasCred(After(steps), room, m) {
      CredentialsFollowMembers(steps, m);
    }
    if IsOpen(r) && exists i :: 0 <= i < |r.members| && r.members[i].id == m
                                && (r.members[i].presence == Online || r.members[i].presence == Reconnecting) {
      assert Present(r, m);
      RoomServedAt(After(steps), room);
    }
  }

  lemma RoomServedAt(db: Db, room: Id)
    requires Served(db) && room in db.rooms
    ensures RoomServed(db, room)
  {
  }

  // So with its latest token a present member reads its room, until its time is over.
  lemma PresentIsServed(steps: seq<Timed>, room: Id, m: Id, now: Time)
    requires NoneLate(steps) && room in After(steps).rooms && IsOpen(After(steps).rooms[room])
    requires Present(After(steps).rooms[room], m) && !Overdue(After(steps).rooms[room], now)
    ensures LatestGrant(steps, m).Some?
    ensures Step(Run(EMPTY, steps), Timed(now, Snapshot(room, Some(LatestGrant(steps, m).value.token)))).reply
            == Ok(Public(After(steps).rooms[room], m))
  {
    hide DbOk, Served, LatestGrant, Run, Present;
    ServedRun(steps);
    GrantedRun(steps, m);
    RoomServedAt(After(steps), room);
    assert HasCred(After(steps), room, m);
  }

  // A return that is not a repetition succeeds exactly with the latest reconnect token of a member,
  // or the one that replaced within the last 90 seconds, while the room is open and the member may
  // still be waited for.
  lemma ReturnExactly(steps: seq<Timed>, t: Timed)
    requires NoneLate(steps) && t.op.Call? && t.op.request.Return? && t.op.id != ""
    requires t.op.request.room in After(steps).rooms
    requires var k := Command(ScopeOf(t.op.request).value, t.op.id);
             k !in Run(EMPTY, steps).secrets && k !in After(steps).commands
               && |Run(EMPTY, steps).secrets| < 4096
    ensures var room, token := t.op.request.room, t.op.request.token;
            var r, g := After(steps).rooms[room], LatestGrant(steps, token.member);
            Step(Run(EMPTY, steps), t).reply.Ok? <==>
              && g.Some?
              && (token == g.value.reconnect
                  || (g.value.replaced == Some(token) && t.now < g.value.at + 90 * SECOND))
              && IsOpen(r) && !Overdue(r, t.now)
              && Waited(r, token.member, t.now)
  {
    hide DbOk, Served, LatestGrant, Run, Overdue, RoomOk, IdsBelow, Present, MayWait;
    var room, token := t.op.request.room, t.op.request.token;
    var db := After(steps);
    ServedRun(steps);
    ReachableOk(steps);
    GrantedRun(steps, token.member);
    RowOf(db, room);
    WaitingServed(db, room, token.member, t.now);
    ReturnAnswer(Run(EMPTY, steps), t);
    ReturnsExactly(db, room, token, t.now);
  }

  // The member is there and its time to come back is not over.
  predicate MayWait(m: Member, now: Time) {
    m.presence in {Online, Reconnecting} && !(m.deadline.Some? && m.deadline.value <= now)
  }

  predicate Waited(r: Room, m: Id, now: Time) {
    exists i :: 0 <= i < |r.members| && r.members[i].id == m && MayWait(r.members[i], now)
  }

  lemma ReturnAnswer(store: Store, t: Timed)
    requires t.op.Call? && t.op.request.Return? && t.op.id != ""
    requires var k := Command(ScopeOf(t.op.request).value, t.op.id);
             k !in store.secrets && k !in store.db.commands && |store.secrets| < SECRET_CAPACITY
    ensures Step(store, t).reply.Ok? <==> Reconnect(store.db, t.op.request.room, t.op.request.token, t.now).Ok?
  {
    hide Reconnect;
  }

  lemma WaitingServed(db: Db, room: Id, m: Id, now: Time)
    requires Served(db) && room in db.rooms
    ensures IsOpen(db.rooms[room]) && Waited(db.rooms[room], m, now) ==> HasCred(db, room, m)
  {
    var r := db.rooms[room];
    if IsOpen(r) && Waited(r, m, now) {
      assert Present(r, m);
      RoomServedAt(db, room);
    }
  }

  lemma ReturnsExactly(db: Db, room: Id, token: Token, now: Time)
    requires DbOk(db) && room in db.rooms && RoomOk(db.rooms[room])
    requires var r := db.rooms[room];
             IsOpen(r) && Waited(r, token.member, now) ==> HasCred(db, room, token.member)
    ensures var r, m := db.rooms[room], token.member;
            Reconnect(db, room, token, now).Ok? <==>
              && m in db.creds && (db.creds[m].reconnect == token
                                   || (db.creds[m].previous == Some(token) && now < db.creds[m].previousUntil))
              && IsOpen(r) && !Overdue(r, now)
              && Waited(r, m, now)
  {
    hide DbOk, Overdue;
    var r, m := db.rooms[room], token.member;
    if !Overdue(r, now) {
      var i := IndexOf(r.members, m);
      assert forall j :: 0 <= j < |r.members| && r.members[j].id == m ==> i == Some(j) by {
        OneIndex(r, m);
      }
      if i.Some? {
        assert MayReconnect(r, i.value, now) <==> IsOpen(r) && MayWait(r.members[i.value], now);
      }
    } else {
      OverdueOpen(db, room, now);
    }
  }

  // Why a return is refused: for its token, for a member that another one has replaced, for the room
  // or the time of the member, or for its credential, in that order.
  lemma ReturnRefusedExactly(db: Db, room: Id, token: Token, now: Time)
    requires room in db.rooms && RoomOk(db.rooms[room])
    ensures var r, m, d := db.rooms[room], token.member, Reconnect(db, room, token, now);
            if !(&& m in db.creds && db.creds[m].room == room
                 && (db.creds[m].reconnect == token
                     || (db.creds[m].previous == Some(token) && now < db.creds[m].previousUntil))) then d == Err(401)
            else if forall i :: 0 <= i < |r.members| ==> r.members[i].id != m then d == Err(500)
            else if !IsOpen(r) || Overdue(r, now) || !Waited(r, m, now) then d == Err(410)
            else if !db.creds[m].active then d == Err(401)
            else d.Ok?
  {
    hide Overdue, RoomOk, MayReconnect;
    var r, m := db.rooms[room], token.member;
    var i := IndexOf(r.members, m);
    assert forall j :: 0 <= j < |r.members| && r.members[j].id == m ==> i == Some(j) by {
      OneIndex(r, m);
    }
    ReturnsWhen(db, room, m, now);
  }

  lemma ReturnsWhen(db: Db, room: Id, m: Id, now: Time)
    requires room in db.rooms && RoomOk(db.rooms[room])
    ensures var r, s := db.rooms[room], Expire(db, room, now).rooms[room];
            && s.members == r.members
            && forall i :: 0 <= i < |r.members| ==>
                 (MayReconnect(s, i, now) <==> IsOpen(r) && !Overdue(r, now) && MayWait(r.members[i], now))
  {
    hide RoomOk;
  }

  lemma OneIndex(r: Room, m: Id)
    requires RoomOk(r)
    ensures forall j :: 0 <= j < |r.members| && r.members[j].id == m ==> IndexOf(r.members, m) == Some(j)
  {
    if |r.members| == 2 {
      assert r.members[1..][0] == r.members[1];
    }
  }

  lemma OverdueOpen(db: Db, room: Id, now: Time)
    requires room in db.rooms && Overdue(db.rooms[room], now)
    ensures !IsOpen(Expire(db, room, now).rooms[room])
  {
  }
}
