/**
 The report that comes too late.  Reading a room whose time is over expires it and revokes all its
 credentials, but the report of the second side, carried out in the same transaction, puts the room
 back to its ready check: it is open again, and nobody may enter.
 */
module AuthorityReopenings {
  import opened Common
  import E = Envelopes
  import opened Rooms
  import opened RoomInvariants
  import opened AuthorityModel
  import opened AuthorityInvariants
  import opened AuthorityEdits
  import opened AuthorityTransactions
  import opened AuthorityRuns
  import opened AuthorityProperties
  import opened AuthorityBearers
  import opened AuthorityAccess
  import opened AuthorityRevivals

  // The attempt that a report is for has the report of the other seat and none of this one.
  predicate SecondReport(r: Room, me: Id) {
    && r.attempt.Some? && r.attempt.value.d.Some? && IndexOf(r.members, me).Some?
    && var seat := r.members[IndexOf(r.members, me).value].seat;
    r.attempt.value.d.value.Side(seat).None? && r.attempt.value.d.value.Side(seat.Peer()).Some?
  }

  lemma AckOpens(r: Room, me: Id, attempt: Id, p: QuiescentPayload, expected: nat, now: Time)
    requires !IsOpen(r) && AckDEdit(r, me, attempt, p, expected, now).Changed?
    ensures IsOpen(AckDEdit(r, me, attempt, p, expected, now).room) <==> SecondReport(r, me)
    ensures AckDEdit(r, me, attempt, p, expected, now).revoke == NoOne
    ensures var s := AckDEdit(r, me, attempt, p, expected, now).room;
            |s.members| == |r.members|
            && forall i :: 0 <= i < |r.members| ==> s.members[i].id == r.members[i].id
                                                    && s.members[i].presence == r.members[i].presence
  {
    hide Reported, Clean;
  }

  // A report that is carried out for a room whose time is over opens it again exactly when it is
  // the second one; and exactly then present members are left without credentials.
  lemma LateReportReopens(db: Db, q: Request, id: string, now: Time)
    requires DbOk(db) && Served(db) && LateAck(db, q, now) && MemberCall(db, q, id, now).Ok?
    requires Command(ScopeOf(q).value, id) !in db.commands
    ensures var c := MemberCall(db, q, id, now).value.db;
            && q.room in c.rooms
            && (IsOpen(c.rooms[q.room]) <==> SecondReport(db.rooms[q.room], q.bearer.value.member))
            && (Served(c) <==> !IsOpen(c.rooms[q.room]))
  {
    hide DbOk, Served, AckDEdit, Present, SecondReport;
    var me, r := q.bearer.value.member, db.rooms[q.room];
    HolderPresent(db, q.bearer.value);
    var loaded := Expire(db, q.room, now);
    ExpireServed(db, q.room, now);
    NobodyLeft(db, q.room, now);
    var e := AckDEdit(loaded.rooms[q.room], me, q.attempt, q.quiescent, q.version, now);
    var c := MemberCall(db, q, id, now).value.db;
    SameReports(r, loaded.rooms[q.room], me);
    if e.Changed? {
      AckOpens(loaded.rooms[q.room], me, q.attempt, q.quiescent, q.version, now);
      StaysPresent(r, c.rooms[q.room], me);
      assert !HasCred(c, q.room, me);
      if IsOpen(c.rooms[q.room]) {
        Unserved(c, q.room, me);
      } else {
        CommitServed(loaded, q.room, e.room, e.event, Some(me), e.revoke);
        SameServed(Commit(loaded, q.room, e.room, e.event, Some(me), e.revoke), c);
      }
    } else {
      RepeatedReport(loaded.rooms[q.room], me, q.attempt, q.quiescent, q.version, now);
      SameServed(loaded, c);
    }
  }

  lemma NobodyLeft(db: Db, room: Id, now: Time)
    requires room in db.rooms && Overdue(db.rooms[room], now)
    ensures forall m :: !HasCred(Expire(db, room, now), room, m)
    ensures !IsOpen(Expire(db, room, now).rooms[room])
  {
  }

  lemma SameReports(r: Room, s: Room, me: Id)
    requires s.members == r.members && s.attempt == r.attempt
    ensures SecondReport(s, me) <==> SecondReport(r, me)
  {
  }

  lemma RepeatedReport(r: Room, me: Id, attempt: Id, p: QuiescentPayload, expected: nat, now: Time)
    requires AckDEdit(r, me, attempt, p, expected, now).Same?
    ensures !SecondReport(r, me)
  {
    hide Reported;
  }

  lemma StaysPresent(r: Room, s: Room, m: Id)
    requires Present(r, m) && |s.members| == |r.members|
    requires forall i :: 0 <= i < |r.members| ==> s.members[i].id == r.members[i].id
                                                  && s.members[i].presence == r.members[i].presence
    ensures Present(s, m)
  {
    var i :| 0 <= i < |r.members| && r.members[i].id == m && Reachable(r.members[i].presence);
    assert s.members[i].id == m;
  }

  lemma Unserved(db: Db, room: Id, m: Id)
    requires room in db.rooms && IsOpen(db.rooms[room]) && Present(db.rooms[room], m) && !HasCred(db, room, m)
    ensures !Served(db)
  {
    assert !RoomServed(db, room);
  }

  // ---- a run that ends so -------------------------------------------------------------------

  function Zeros(n: nat): (s: string)
    ensures |s| == n && forall i :: 0 <= i < n ==> s[i] == '0'
  {
    if n == 0 then "" else "0" + Zeros(n - 1)
  }

  const HASH := Zeros(64)
  const INTENT := Intent(Canceled, None, "A", 1)
  const CLEAN := Evidence(true, true, true, true, true, false)
  const REPORT := Report("r", 1, HASH, CLEAN)

  function QuietOf(seat: Seat): QuiescentPayload {
    QuiescentPayload(true, 9, Some(seat), Some(1), Some(CLEAN), Some("r"), Some(1), Some(HASH))
  }

  // The owner freezes the outcome and reports at once; the guest reports when the room is over.
  const Beginning := Timed(0, Call("1", BeginClosing(0, Some(OWNER), 9,
    ClosingPayload(true, 9, Some(1), Some(Canceled), None, Some("A")), 4)))
  const Reporting := Timed(0, Call("1", AckQuiescent(0, Some(OWNER), 9, QuietOf(E.MemberA), 5)))
  const LateReport := Timed(ROOM_TTL, Call("1", AckQuiescent(0, Some(GUEST), 9, QuietOf(E.MemberB), 7)))

  function ClosingRoom(version: nat, sideA: Option<Report>): Room {
    RoomOf(version, ConnectionAttempt, Connecting.members,
           Some(Attempt(9, 1, 1, Phase.Closing, Some(1), true, 4, None, 0,
                        Some(DRecord(INTENT, E.MemberA, D_BARRIER, sideA, None,
                                     WaitingForSides, Pending, None, None)))))
  }

  lemma Begins()
    ensures var q := Beginning.op.request;
            var e := BeginDEdit(Connecting, 1, q.attempt, q.closing, q.version, 0);
            e.Changed? && e.revoke.NoOne?
            && ClosingRoom(5, None) == e.room.(version := e.room.version + 1, lastEvent := 5)
  {
    assert DGate("A") && !DGate("");
  }

  lemma Reports()
    ensures var q := Reporting.op.request;
            var e := AckDEdit(ClosingRoom(5, None), 1, q.attempt, q.quiescent, q.version, 0);
            e.Changed? && e.revoke.NoOne?
            && ClosingRoom(6, Some(REPORT)) == e.room.(version := e.room.version + 1, lastEvent := 6)
  {
    assert Sha256(HASH);
  }

  // A request of the owner that changes the room and revokes nothing.
  lemma OwnerActs(store: Store, t: Timed, e: Edit, r: Room, n: Id, s: Room)
    requires Alone(store.db, r, n) && |r.members| == 2 && !Overdue(r, 0) && |s.members| == 2
    requires t.now == 0 && t.op.Call? && t.op.id == "1" && !IsSecret(t.op.request)
    requires t.op.request.room == 0 && t.op.request.bearer == Some(OWNER)
    requires var k := Command(ScopeOf(t.op.request).value, "1");
             k !in store.db.commands && MemberTx(store.db, t.op.request, 1, k, 0) == Settle(store.db, 0, e, k, 1, 0)
    requires e.Changed? && e.revoke.NoOne? && s == e.room.(version := e.room.version + 1, lastEvent := r.version + 1)
    requires s.version == r.version + 1
    ensures var next := Step(store, t).store;
            Alone(next.db, s, n + 1)
            && next.db.commands.Keys == store.db.commands.Keys + {Command(ScopeOf(t.op.request).value, "1")}
  {
    hide MemberTx, Overdue;
    assert Session(store.db, Some(OWNER), 0, 0) == Ok(store.db);
  }

  lemma Waits()
    ensures var s := Run(EMPTY, Failing[..4] + [Beginning] + [Reporting]);
            Alone(s.db, ClosingRoom(6, Some(REPORT)), 12)
            && Command(QuiescentScope(5, 9), "1") !in s.db.commands
  {
    hide Step, Alone, MemberTx, BeginDEdit, AckDEdit;
    Assembles();
    var before := Failing[..2];
    GetsReady(before, Run(EMPTY, before));
    assert before + [Failing[2]] + [Failing[3]] == Failing[..4];
    var s := Run(EMPTY, Failing[..4]);
    Begins();
    BeginsTx(s);
    var q := Beginning.op.request;
    OwnerActs(s, Beginning, BeginDEdit(Connecting, 1, q.attempt, q.closing, q.version, 0), Connecting, 10,
              ClosingRoom(5, None));
    Next(Failing[..4], Beginning);
    var t := Run(EMPTY, Failing[..4] + [Beginning]);
    Reports();
    ReportsTx(t);
    var p := Reporting.op.request;
    OwnerActs(t, Reporting, AckDEdit(ClosingRoom(5, None), 1, p.attempt, p.quiescent, p.version, 0),
              ClosingRoom(5, None), 11, ClosingRoom(6, Some(REPORT)));
    Next(Failing[..4] + [Beginning], Reporting);
  }

  lemma BeginsTx(s: Store)
    requires Alone(s.db, Connecting, 10)
    ensures var q, k := Beginning.op.request, Command(ScopeOf(Beginning.op.request).value, "1");
            MemberTx(s.db, q, 1, k, 0)
            == Settle(s.db, 0, BeginDEdit(Connecting, 1, q.attempt, q.closing, q.version, 0), k, 1, 0)
  {
    hide Settle, BeginDEdit;
  }

  lemma ReportsTx(s: Store)
    requires Alone(s.db, ClosingRoom(5, None), 11)
    ensures var q, k := Reporting.op.request, Command(ScopeOf(Reporting.op.request).value, "1");
            MemberTx(s.db, q, 1, k, 0)
            == Settle(s.db, 0, AckDEdit(ClosingRoom(5, None), 1, q.attempt, q.quiescent, q.version, 0), k, 1, 0)
  {
    hide Settle, AckDEdit;
  }

  // Reached from an empty store: the room is past its time and open, its members are online, and no
  // credential lets anybody in.
  lemma LateReportLocksOut()
    ensures var db := After(Failing[..4] + [Beginning] + [Reporting] + [LateReport]);
            && 0 in db.rooms && IsOpen(db.rooms[0]) && db.rooms[0].key.expiresAt <= ROOM_TTL
            && |db.rooms[0].members| == 2
            && (forall i :: 0 <= i < 2 ==> db.rooms[0].members[i].presence == Online)
            && (forall m :: m in db.creds && db.creds[m].room == 0 ==> !db.creds[m].active)
  {
    hide Step;
    var steps := Failing[..4] + [Beginning] + [Reporting];
    Waits();
    Next(steps, LateReport);
    LateStep(Run(EMPTY, steps));
  }

  lemma LateStep(store: Store)
    requires Alone(store.db, ClosingRoom(6, Some(REPORT)), 12)
    requires Command(QuiescentScope(5, 9), "1") !in store.db.commands
    ensures var db := Step(store, LateReport).store.db;
            && 0 in db.rooms && IsOpen(db.rooms[0]) && db.rooms[0].key.expiresAt <= ROOM_TTL
            && |db.rooms[0].members| == 2
            && (forall i :: 0 <= i < 2 ==> db.rooms[0].members[i].presence == Online)
            && (forall m :: m in db.creds && db.creds[m].room == 0 ==> !db.creds[m].active)
  {
    hide AckDEdit;
    var r := ClosingRoom(6, Some(REPORT));
    assert Overdue(r, ROOM_TTL);
    LateEdit(ExpireEdit(r).room.(version := 7, lastEvent := 7));
  }

  lemma LateEdit(r: Room)
    requires r == ClosingRoom(6, Some(REPORT)).(state := Expired, version := 7, lastEvent := 7)
    ensures var e := AckDEdit(r, 5, 9, QuietOf(E.MemberB), 7, ROOM_TTL);
            && e.Changed? && e.revoke == NoOne && IsOpen(e.room) && e.room.key == r.key && |e.room.members| == 2
            && forall i :: 0 <= i < 2 ==> e.room.members[i].presence == Online
  {
    assert Sha256(HASH);
    assert IndexOf(r.members, 5) == Some(1);
  }
}
