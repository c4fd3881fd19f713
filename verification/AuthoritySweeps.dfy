/**
 What a sweep makes of every room: the barrier first, then the members in their order, each room by
 itself.
 */
module AuthoritySweeps {
  import opened Common
  import opened Rooms
  import opened RoomInvariants
  import opened AuthorityModel
  import opened AuthorityInvariants
  import opened AuthorityEdits
  import opened AuthorityTransactions
  import opened AuthorityRuns
  import opened AuthorityProperties

  // The rooms are alike but for the number of their last event.
  predicate Alike(r: Room, s: Room) {
    r.(lastEvent := 0) == s.(lastEvent := 0)
  }

  // A change makes a new version; anything else leaves the room as it is.
  function Edited(r: Room, e: Edit): (s: Room)
  {
    if e.Changed? then e.room.(version := e.room.version + 1) else r
  }

  function MemberSwept(r: Room, i: nat, now: Time): (s: Room)
  {
    if i < |r.members| then Edited(r, PresenceEdit(r, i, now)) else r
  }

  // A room whose time is over is expired and no more; in an open one an overdue barrier ends, then
  // the first member is missed or not, then the second.
  function Swept(r: Room, now: Time): (s: Room)
  {
    if Overdue(r, now) then Edited(r, ExpireEdit(r))
    else if !IsOpen(r) then r
    else MemberSwept(MemberSwept(Edited(r, TimeoutEdit(r, now)), 0, now), 1, now)
  }

  lemma TimeoutAlike(r: Room, s: Room, now: Time)
    requires Alike(r, s)
    ensures Alike(Edited(r, TimeoutEdit(r, now)), Edited(s, TimeoutEdit(s, now)))
  {
    assert r == s.(lastEvent := r.lastEvent);
  }

  lemma MemberAlike(r: Room, s: Room, i: nat, now: Time)
    requires Alike(r, s)
    ensures Alike(MemberSwept(r, i, now), MemberSwept(s, i, now))
  {
    assert r == s.(lastEvent := r.lastEvent);
  }

  lemma SweptAlike(r: Room, s: Room, now: Time)
    requires Alike(r, s)
    ensures Alike(Swept(r, now), Swept(s, now))
  {
    hide TimeoutEdit, PresenceEdit, MemberSwept, Edited;
    assert r == s.(lastEvent := r.lastEvent);
    if Overdue(r, now) {
      ExpireAlike(r, s);
    } else if IsOpen(r) {
      TimeoutAlike(r, s, now);
      var t, u := Edited(r, TimeoutEdit(r, now)), Edited(s, TimeoutEdit(s, now));
      MemberAlike(t, u, 0, now);
      MemberAlike(MemberSwept(t, 0, now), MemberSwept(u, 0, now), 1, now);
    }
  }

  lemma ExpireAlike(r: Room, s: Room)
    requires Alike(r, s)
    ensures Alike(Edited(r, ExpireEdit(r)), Edited(s, ExpireEdit(s)))
  {
  }

  // ---- the tables ---------------------------------------------------------------------------

  lemma CommitAlike(db: Db, room: Id, e: Edit, actor: Option<Id>)
    requires e.Changed?
    ensures Alike(Commit(db, room, e.room, e.event, actor, e.revoke).rooms[room], Edited(e.room, e))
  {
  }

  lemma {:induction false} PresencesSwept(db: Db, room: Id, i: nat, now: Time)
    requires room in db.rooms && |db.rooms[room].members| <= 2 && i <= 2
    ensures var r := db.rooms[room];
            Alike(Presences(db, room, i, now).rooms[room],
                  if i == 0 then MemberSwept(MemberSwept(r, 0, now), 1, now)
                  else if i == 1 then MemberSwept(r, 1, now) else r)
    decreases 2 - i
  {
    hide PresenceEdit, Commit;
    var r := db.rooms[room];
    if i < |r.members| {
      var e := PresenceEdit(r, i, now);
      if e.Changed? {
        var actor := Some(r.members[i].id);
        var c := Commit(db, room, e.room, e.event, actor, e.revoke);
        CommitAlike(db, room, e, actor);
        Committed(db, room, e.room, e.event, actor, e.revoke);
        PresencesSwept(c, room, i + 1, now);
        if i == 0 {
          MemberAlike(c.rooms[room], MemberSwept(r, 0, now), 1, now);
        }
      } else {
        PresencesSwept(db, room, i + 1, now);
      }
    }
  }

  lemma SweepRoomExactly(db: Db, room: Id, now: Time)
    requires DbOk(db) && room in db.rooms
    ensures Alike(SweepRoom(db, room, now).rooms[room], Swept(db.rooms[room], now))
  {
    hide DbOk, Presences, TimeoutEdit, PresenceEdit, MemberSwept, RoomOk, IdsBelow, Goes;
    RowOf(db, room);
    var r, loaded := db.rooms[room], Expire(db, room, now);
    if IsOpen(loaded.rooms[room]) {
      StaysOpen(db, room, now);
      TimeoutGoes(db, room, now);
      var timed := Timeout(db, room, now);
      GoesKeys(db, timed, room);
      RowOf(timed, room);
      TwoMembers(timed.rooms[room]);
      PresencesSwept(timed, room, 0, now);
      TimedAlike(db, room, now);
      MemberAlike(timed.rooms[room], Edited(r, TimeoutEdit(r, now)), 0, now);
      MemberAlike(MemberSwept(timed.rooms[room], 0, now), MemberSwept(Edited(r, TimeoutEdit(r, now)), 0, now), 1, now);
    }
  }

  lemma TwoMembers(r: Room)
    requires RoomOk(r)
    ensures |r.members| <= 2
  {
  }

  lemma StaysOpen(db: Db, room: Id, now: Time)
    requires room in db.rooms && IsOpen(Expire(db, room, now).rooms[room])
    ensures Expire(db, room, now) == db && !Overdue(db.rooms[room], now) && IsOpen(db.rooms[room])
  {
  }

  lemma TimedAlike(db: Db, room: Id, now: Time)
    requires room in db.rooms
    ensures Alike(Timeout(db, room, now).rooms[room], Edited(db.rooms[room], TimeoutEdit(db.rooms[room], now)))
  {
    hide TimeoutEdit;
  }

  lemma {:induction false} SweepRoomsExactly(db: Db, from: Id, upTo: Id, now: Time, id: Id)
    requires DbOk(db) && id in db.rooms
    ensures id in SweepRooms(db, from, upTo, now).rooms
    ensures Alike(SweepRooms(db, from, upTo, now).rooms[id],
                  if from <= id < upTo then Swept(db.rooms[id], now) else db.rooms[id])
    decreases upTo - from
  {
    hide DbOk, SweepRoom, RoomAdvances, PhasesOk, Swept, Alike;
    AlikeItself(db.rooms[id]);
    if from < upTo {
      if from in db.rooms {
        var c := SweepRoom(db, from, now);
        SweepRoomAdvances(db, from, now);
        SweepRoomsExactly(c, from + 1, upTo, now, id);
        if id == from {
          SweepRoomExactly(db, from, now);
          AlikeOn(SweepRooms(c, from + 1, upTo, now).rooms[id], c.rooms[id], Swept(db.rooms[id], now));
        } else {
          SweepRoomOthers(db, from, now, id);
        }
      } else {
        SweepRoomsExactly(db, from + 1, upTo, now, id);
      }
    }
  }

  lemma AlikeItself(r: Room)
    ensures Alike(r, r)
  {
  }

  lemma AlikeOn(r: Room, s: Room, t: Room)
    requires Alike(r, s) && Alike(s, t)
    ensures Alike(r, t)
  {
  }

  // After any run, a sweep makes of every room that it does not forget exactly what is due there.
  lemma SweepExactly(steps: seq<Timed>, now: Time, id: Id)
    requires id in After(steps + [Timed(now, SweepPresence)]).rooms
    ensures id in After(steps).rooms
    ensures Alike(After(steps + [Timed(now, SweepPresence)]).rooms[id], Swept(After(steps).rooms[id], now))
  {
    hide DbOk, SweepRooms, Run, Retained, RoomOk, IdsBelow, Swept, Alike, RoomAdvances;
    var db := After(steps);
    ReachableOk(steps);
    RunAppend(EMPTY, steps, [Timed(now, SweepPresence)]);
    OneStep(Run(EMPTY, steps), Timed(now, SweepPresence));
    assert After(steps + [Timed(now, SweepPresence)]) == Sweep(db, now);
    SweepRoomsAdvances(db, 0, db.nextId, now);
    RowOf(db, id);
    SweepRoomsExactly(db, 0, db.nextId, now, id);
  }
}
