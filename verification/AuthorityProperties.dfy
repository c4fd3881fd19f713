/**
 The guarantees of the room authority, for every run that starts with an empty database.
 */
module AuthorityProperties {
  import opened Common
  import E = Envelopes
  import opened Rooms
  import opened RoomInvariants
  import opened AuthorityModel
  import opened AuthorityInvariants
  import opened AuthorityEdits
  import opened AuthorityTransactions
  import opened AuthorityRuns

  function After(steps: seq<Timed>): Db {
    Run(EMPTY, steps).db
  }

  lemma ReachableOk(steps: seq<Timed>)
    ensures DbOk(After(steps)) && (LockFree(steps) ==> PhasesOk(After(steps)))
  {
    hide DbOk, PhasesOk, RoomAdvances;
    EmptyOk();
    RunAdvances(EMPTY, steps);
  }

  lemma {:induction false} RunAppend(store: Store, first: seq<Timed>, rest: seq<Timed>)
    ensures Run(store, first + rest) == Run(Run(store, first), rest)
    decreases |first|
  {
    hide Step;
    if first == [] {
      assert first + rest == rest;
    } else {
      assert (first + rest)[1..] == first[1..] + rest;
      RunAppend(Step(store, first[0]).store, first[1..], rest);
    }
  }

  // ---- rooms --------------------------------------------------------------------------------

  // The owner keeps the first seat and never leaves; a second member has the other seat; an
  // attempt needs both, is role locked, and has one of them for its creator.
  lemma RoomShape(steps: seq<Timed>, id: Id)
    requires id in After(steps).rooms
    ensures var r := After(steps).rooms[id];
            && 1 <= |r.members| <= 2
            && r.members[0].id == r.key.owner && r.members[0].seat == E.MemberA && r.members[0].presence != Left
            && (|r.members| == 2 ==> r.members[1].seat == E.MemberB && r.members[1].id != r.key.owner)
            && (r.attempt.Some? ==>
                  && |r.members| == 2 && r.members[1].presence != Left
                  && r.attempt.value.roleLocked
                  && r.attempt.value.creator in {Some(r.members[0].id), Some(r.members[1].id)}
                  && r.attempt.value.number == r.attempt.value.activation == r.lastAttemptNumber)
  {
    hide DbOk;
    ReachableOk(steps);
    RowOf(After(steps), id);
  }

  // Without a repeated role lock, an open room is connecting or trading exactly while an attempt runs.
  lemma StateFollowsAttempt(steps: seq<Timed>, id: Id)
    requires LockFree(steps) && id in After(steps).rooms && IsOpen(After(steps).rooms[id])
    ensures var r := After(steps).rooms[id];
            (r.state == ConnectionAttempt || r.state == Trading)
              <==> (r.attempt.Some? && !r.attempt.value.phase.Terminal())
  {
    hide DbOk;
    ReachableOk(steps);
    assert PhaseOk(After(steps).rooms[id]);
  }

  // A room code, and a listing, belong to one room.
  lemma CodesAreUnique(steps: seq<Timed>, i: Id, j: Id)
    requires i in After(steps).rooms && j in After(steps).rooms && i != j
    ensures var r, s := After(steps).rooms[i].key, After(steps).rooms[j].key;
            r.code != s.code && (r.listing.Some? ==> r.listing != s.listing)
  {
    hide RoomRow, CredRow, LogOk, Run;
    ReachableOk(steps);
    var db := After(steps);
    assert Indexed(db.index, db.rooms[i].key, i) && Indexed(db.index, db.rooms[j].key, j);
  }

  // An active credential opens an open room to a member that is online or may come back.
  lemma CredentialsFollowMembers(steps: seq<Timed>, m: Id)
    requires m in After(steps).creds && After(steps).creds[m].active
    ensures var db := After(steps);
            var room := db.creds[m].room;
            && room in db.rooms && IsOpen(db.rooms[room])
            && exists i :: 0 <= i < |db.rooms[room].members| && db.rooms[room].members[i].id == m
                           && (db.rooms[room].members[i].presence == Online
                               || db.rooms[room].members[i].presence == Reconnecting)
  {
    hide RoomRow, IndexOk, LogOk, Run;
    ReachableOk(steps);
    var db := After(steps);
    assert CredRow(db, m);
    var r := db.rooms[db.creds[m].room];
    var i :| 0 <= i < |r.members| && r.members[i].id == m && Reachable(r.members[i].presence);
    assert r.members[i].id == m;
  }

  // ---- the event log ------------------------------------------------------------------------

  // The events of a room, oldest first, are its versions 1, 2, ... up to the current one, and the
  // room's last event is the latest of them.
  lemma EventsAreVersions(steps: seq<Timed>, id: Id)
    requires id in After(steps).rooms
    ensures var db := After(steps);
            var r, h := db.rooms[id], History(db.log.events, id);
            && (forall e :: e in h <==> e in db.log.events && e.room == id)
            && |h| == r.version > 0
            && (forall i :: 0 <= i < |h| ==> h[i].version == i + 1)
            && (forall i :: 0 <= i < |h| ==> h[i].sequence <= r.lastEvent == h[|h| - 1].sequence)
  {
    hide RoomOk, IndexOk, CredRow, Run;
    ReachableOk(steps);
    var db := After(steps);
    assert RoomRow(db, id);
    assert Ordered(db.log.events);
    HistoryMembers(db.log.events, id);
    HistoryOrdered(db.log.events, id);
  }

  lemma {:induction false} HistoryOrdered(events: seq<Event>, room: Id)
    requires Ordered(events)
    ensures Ordered(History(events, room))
  {
    if events != [] {
      assert Ordered(events[1..]) by {
        forall i, j | 0 <= i < j < |events[1..]| ensures events[1..][i].sequence < events[1..][j].sequence {
          assert events[1..][i] == events[i + 1] && events[1..][j] == events[j + 1];
        }
      }
      HistoryOrdered(events[1..], room);
      HistoryMembers(events[1..], room);
      var rest := History(events[1..], room);
      forall j | 0 <= j < |rest| ensures events[0].sequence < rest[j].sequence {
        assert rest[j] in events[1..];
      }
    }
  }

  // Whatever happens between two points of a run, a room that is there at both is the same or has
  // a later version.
  lemma ChangesRaiseVersion(first: seq<Timed>, rest: seq<Timed>, id: Id)
    requires id in After(first).rooms && id in After(first + rest).rooms
    ensures var r, s := After(first).rooms[id], After(first + rest).rooms[id];
            s == r || r.version < s.version
  {
    hide DbOk, PhasesOk, Run, Evolves;
    ReachableOk(first);
    RunAppend(EMPTY, first, rest);
    RunAdvances(Run(EMPTY, first), rest);
  }

  // A closed or expired room never changes, and no credential opens it.
  lemma ClosedForever(first: seq<Timed>, rest: seq<Timed>, id: Id)
    requires id in After(first).rooms && !IsOpen(After(first).rooms[id]) && id in After(first + rest).rooms
    ensures After(first + rest).rooms[id] == After(first).rooms[id]
    ensures forall m :: m in After(first + rest).creds && After(first + rest).creds[m].room == id ==>
              !After(first + rest).creds[m].active
  {
    hide DbOk, PhasesOk, Run, Evolves;
    ReachableOk(first);
    RunAppend(EMPTY, first, rest);
    RunAdvances(Run(EMPTY, first), rest);
    NoCredential(After(first + rest), id);
  }

  lemma NoCredential(db: Db, id: Id)
    requires DbOk(db) && id in db.rooms && !IsOpen(db.rooms[id])
    ensures forall m :: m in db.creds && db.creds[m].room == id ==> !db.creds[m].active
  {
    hide RoomRow, IndexOk, LogOk;
    forall m | m in db.creds && db.creds[m].room == id ensures !db.creds[m].active {
      assert CredRow(db, m);
    }
  }

  // ---- attempts and the shutdown barrier ----------------------------------------------------

  lemma EvolvedRoom(first: seq<Timed>, rest: seq<Timed>, id: Id)
    requires LockFree(first + rest) && id in After(first).rooms && id in After(first + rest).rooms
    ensures RoomOk(After(first).rooms[id]) && IdsBelow(After(first).rooms[id], After(first).nextId)
    ensures Evolves(After(first).nextId, After(first).rooms[id], After(first + rest).rooms[id])
    ensures PhaseOk(After(first).rooms[id]) && PhaseOk(After(first + rest).rooms[id])
  {
    hide DbOk, Run, Evolves, PhaseOk, RoomOk, IdsBelow;
    assert LockFree(first) && LockFree(rest) by {
      forall i | 0 <= i < |first| ensures !Locks(first[i]) {
        assert first[i] == (first + rest)[i];
      }
      forall i | 0 <= i < |rest| ensures !Locks(rest[i]) {
        assert rest[i] == (first + rest)[|first| + i];
      }
    }
    ReachableOk(first);
    ReachableOk(first + rest);
    RunAppend(EMPTY, first, rest);
    RunAdvances(Run(EMPTY, first), rest);
    RowOf(After(first), id);
  }

  // One attempt at two points of a run: its phase has not gone back, its members are the same,
  // and a terminal phase has changed only to the recorded outcome, once both sides had reported.
  lemma AttemptProgress(first: seq<Timed>, rest: seq<Timed>, id: Id)
    requires LockFree(first + rest) && id in After(first).rooms && id in After(first + rest).rooms
    requires After(first).rooms[id].attempt.Some? && After(first + rest).rooms[id].attempt.Some?
    ensures var r, s := After(first).rooms[id], After(first + rest).rooms[id];
            var a, b := r.attempt.value, s.attempt.value;
            if b.id == a.id then
              && a.number == b.number && a.phase.Rank() <= b.phase.Rank()
              && |s.members| == |r.members| && (forall i :: 0 <= i < |r.members| ==> s.members[i].id == r.members[i].id)
              && (a.phase.Terminal() && b.phase != a.phase ==>
                    && a.d.Some? && b.phase == a.d.value.intent.outcome
                    && b.d.Some? && b.d.value.sideA.Some? && b.d.value.sideB.Some?)
            else a.number < b.number
  {
    hide Run, PhaseOk, Evolves, AttemptEvolves, BarrierOk;
    EvolvedRoom(first, rest, id);
    Progress(After(first).nextId, After(first).rooms[id], After(first + rest).rooms[id]);
  }

  lemma Progress(n: Id, r: Room, s: Room)
    requires RoomOk(r) && IdsBelow(r, n) && Evolves(n, r, s) && PhaseOk(s) && r.attempt.Some? && s.attempt.Some?
    ensures var a, b := r.attempt.value, s.attempt.value;
            if b.id == a.id then
              && a.number == b.number && a.phase.Rank() <= b.phase.Rank() && SameMembers(r, s)
              && (a.phase.Terminal() && b.phase != a.phase ==>
                    && a.d.Some? && b.phase == a.d.value.intent.outcome
                    && b.d.Some? && b.d.value.sideA.Some? && b.d.value.sideB.Some?)
            else a.number < b.number
    ensures s.attempt.value.id == r.attempt.value.id && r.attempt.value.d.Some? ==>
              s.attempt.value.d.Some? && DEvolves(r.attempt.value.d.value, s.attempt.value.d.value)
  {
  }

  // What the two-sided barrier says at any point of a run.  Two reports are verified exactly when
  // everything in both is exited, released and absent, and nothing was forced.
  lemma BarrierFacts(steps: seq<Timed>, id: Id)
    requires LockFree(steps) && id in After(steps).rooms
    requires After(steps).rooms[id].attempt.Some? && After(steps).rooms[id].attempt.value.d.Some?
    ensures var a := After(steps).rooms[id].attempt.value;
            var d := a.d.value;
            && (d.barrier == TwoSideTerminal <==> d.sideA.Some? && d.sideB.Some?)
            && (d.barrier == WaitingForSides <==> d.cleanup == Pending)
            && (d.barrier != WaitingForSides ==> a.phase == d.intent.outcome && d.intent.outcome.Terminal())
            && (a.phase == Closing || a.phase.Terminal())
            && d.intent.activation == a.activation
    ensures var d := After(steps).rooms[id].attempt.value.d.value;
            if d.sideA.Some? && d.sideB.Some? then
              var x, y := d.sideA.value.evidence, d.sideB.value.evidence;
              if x.endpointExited && x.transportExited && x.threadsExited && x.ldnReleased && x.interfacesAbsent
                 && x.forced == false
                 && y.endpointExited && y.transportExited && y.threadsExited && y.ldnReleased && y.interfacesAbsent
                 && y.forced == false
              then d.cleanup == Verified && d.secondary == None
              else d.cleanup == CleanupFailed && d.secondary == Some("D_SIDE_CLEANUP_FAILED")
            else
              && d.cleanup != Verified
              && (d.barrier == ForcedTimeout ==> d.secondary == Some("D_BARRIER_TIMEOUT"))
  {
    hide DbOk, Run;
    ReachableOk(steps);
    RowOf(After(steps), id);
    assert PhaseOk(After(steps).rooms[id]);
  }

  // What is recorded at the barrier of an attempt stays recorded: the intent with its outcome,
  // failure code, gate and generation, and the report of each side.
  lemma BarrierIsFrozen(first: seq<Timed>, rest: seq<Timed>, id: Id)
    requires LockFree(first + rest) && id in After(first).rooms && id in After(first + rest).rooms
    requires var a, b := After(first).rooms[id].attempt, After(first + rest).rooms[id].attempt;
             a.Some? && b.Some? && a.value.id == b.value.id && a.value.d.Some?
    ensures var d, e := After(first).rooms[id].attempt.value.d.value, After(first + rest).rooms[id].attempt.value.d;
            && e.Some? && e.value.intent == d.intent && e.value.deadline == d.deadline
            && (d.sideA.Some? ==> e.value.sideA == d.sideA) && (d.sideB.Some? ==> e.value.sideB == d.sideB)
            && (d.barrier != WaitingForSides ==> e.value.barrier != WaitingForSides)
            && (d.barrier == TwoSideTerminal ==> e.value.barrier == TwoSideTerminal)
  {
    hide Run, PhaseOk, Evolves, AttemptEvolves, BarrierOk, RoomOk;
    EvolvedRoom(first, rest, id);
    Progress(After(first).nextId, After(first).rooms[id], After(first + rest).rooms[id]);
  }

  // ---- deadlines ----------------------------------------------------------------------------

  // No barrier of an open room waits past its deadline.
  predicate InTime(r: Room, now: Time) {
    IsOpen(r) && r.attempt.Some? && r.attempt.value.phase == Closing && r.attempt.value.d.Some? ==>
      now < r.attempt.value.d.value.deadline
  }

  lemma TimeoutInTime(db: Db, room: Id, now: Time)
    requires room in db.rooms && RoomOk(db.rooms[room])
    ensures InTime(Timeout(db, room, now).rooms[room], now)
  {
  }

  lemma PresenceInTime(r: Room, i: nat, now: Time)
    requires i < |r.members| && PresenceEdit(r, i, now).Changed? && InTime(r, now)
    ensures InTime(PresenceEdit(r, i, now).room, now) || !IsOpen(r)
  {
  }

  lemma {:induction false} PresencesInTime(db: Db, room: Id, i: nat, now: Time)
    requires room in db.rooms && InTime(db.rooms[room], now) && IsOpen(db.rooms[room])
    ensures InTime(Presences(db, room, i, now).rooms[room], now)
    decreases |db.rooms[room].members| - i
  {
    hide PresenceEdit;
    if i < |db.rooms[room].members| {
      var e := PresenceEdit(db.rooms[room], i, now);
      if e.Changed? {
        var c := Commit(db, room, e.room, e.event, Some(db.rooms[room].members[i].id), e.revoke);
        PresenceInTime(db.rooms[room], i, now);
        if IsOpen(e.room) {
          PresencesInTime(c, room, i + 1, now);
        } else {
          PresenceStaysOpen(db.rooms[room], i, now);
        }
      } else {
        PresencesInTime(db, room, i + 1, now);
      }
    }
  }

  lemma PresenceStaysOpen(r: Room, i: nat, now: Time)
    requires i < |r.members| && PresenceEdit(r, i, now).Changed? && IsOpen(r)
    ensures IsOpen(PresenceEdit(r, i, now).room)
  {
  }

  lemma SweepRoomInTime(db: Db, room: Id, now: Time)
    requires DbOk(db) && room in db.rooms
    ensures InTime(SweepRoom(db, room, now).rooms[room], now)
  {
    hide DbOk, RoomOk, IdsBelow, Goes, Expire, Timeout, Presences;
    var loaded := Expire(db, room, now);
    ExpireGoes(db, room, now, true);
    if IsOpen(loaded.rooms[room]) {
      RowOf(db, room);
      TimeoutInTime(db, room, now);
      TimeoutGoes(db, room, now);
      PresencesInTime(Timeout(db, room, now), room, 0, now);
    }
  }

  // Sweeping one room leaves the others alone.
  lemma SweepRoomOthers(db: Db, room: Id, now: Time, id: Id)
    requires DbOk(db) && room in db.rooms && id in db.rooms && id != room
    ensures var c := SweepRoom(db, room, now); id in c.rooms && c.rooms[id] == db.rooms[id]
  {
    SweepRoomAdvances(db, room, now);
    SweepRoomGoes(db, room, now);
  }

  lemma {:induction false} SweepInTime(db: Db, from: Id, upTo: Id, now: Time, id: Id)
    requires DbOk(db) && id in db.rooms && id < upTo && (id < from ==> InTime(db.rooms[id], now))
    ensures var c := SweepRooms(db, from, upTo, now); id in c.rooms && InTime(c.rooms[id], now)
    decreases upTo - from
  {
    hide DbOk, SweepRoom, RoomAdvances, InTime, PhasesOk;
    if from < upTo {
      if from in db.rooms {
        SweepRoomAdvances(db, from, now);
        if id == from {
          SweepRoomInTime(db, from, now);
        } else {
          SweepRoomOthers(db, from, now, id);
        }
        SweepInTime(SweepRoom(db, from, now), from + 1, upTo, now, id);
      } else {
        SweepInTime(db, from + 1, upTo, now, id);
      }
    }
  }

  // After a sweep at or past its deadline, no barrier of an open room is still waiting.
  lemma NothingWaitsPastDeadline(steps: seq<Timed>, now: Time, id: Id)
    requires id in After(steps + [Timed(now, SweepPresence)]).rooms
    ensures var r := After(steps + [Timed(now, SweepPresence)]).rooms[id];
            IsOpen(r) && r.attempt.Some? && r.attempt.value.d.Some? && r.attempt.value.d.value.deadline <= now ==>
              r.attempt.value.phase != Closing
  {
    hide DbOk, RoomAdvances, SweepRooms, Run, Retained, RoomOk, IdsBelow;
    var db := After(steps);
    ReachableOk(steps);
    RunAppend(EMPTY, steps, [Timed(now, SweepPresence)]);
    OneStep(Run(EMPTY, steps), Timed(now, SweepPresence));
    assert After(steps + [Timed(now, SweepPresence)]) == Sweep(db, now);
    SweepRoomsAdvances(db, 0, db.nextId, now);
    RowOf(db, id);
    SweepInTime(db, 0, db.nextId, now, id);
  }

  lemma OneStep(store: Store, t: Timed)
    ensures Run(store, [t]) == Step(store, t).store
  {
    hide Step;
    assert [t][1..] == [];
  }
}
