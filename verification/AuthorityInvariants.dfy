/**
 What every transaction of the room authority keeps: the rows of the database fit together, the
 event log is the version history of every room, and no credential outlives its membership.
 */
module AuthorityInvariants {
  import opened Common
  import opened Rooms
  import opened RoomInvariants
  import opened AuthorityModel

  // The member is in the room and can be reached or may come back.
  predicate Present(r: Room, m: Id) {
    exists i :: 0 <= i < |r.members| && r.members[i].id == m && Reachable(r.members[i].presence)
  }

  predicate Reachable(p: Presence) {
    p == Online || p == Reconnecting
  }

  predicate IdsBelow(r: Room, n: Id) {
    && r.key.id < n && (r.key.listing.Some? ==> r.key.listing.value < n)
    && (forall i :: 0 <= i < |r.members| ==> r.members[i].id < n)
    && (r.attempt.Some? ==> r.attempt.value.id < n)
  }

  function History(events: seq<Event>, room: Id): (h: seq<Event>)
  {
    if events == [] then []
    else (if events[0].room == room then [events[0]] else []) + History(events[1..], room)
  }

  // The events of a room are its versions, and the room knows the last of them.
  predicate HistoryOk(events: seq<Event>, room: Id, r: Room) {
    var h := History(events, room);
    && 0 < |h| == r.version
    && (forall i :: 0 <= i < |h| ==> h[i].version == i + 1)
    && h[|h| - 1].sequence == r.lastEvent
  }

  predicate LogOk(log: Log, n: Id) {
    && (forall i, j :: 0 <= i < j < |log.events| ==> log.events[i].sequence < log.events[j].sequence)
    && (forall i :: 0 <= i < |log.events| ==> log.events[i].sequence < log.next && log.events[i].room < n)
  }

  predicate RoomRow(db: Db, id: Id)
    requires id in db.rooms
  {
    var r := db.rooms[id];
    && r.key.id == id && RoomOk(r) && IdsBelow(r, db.nextId)
    && HistoryOk(db.log.events, id, r)
  }

  predicate Indexed(index: Index, k: RoomKey, id: Id) {
    && k.code in index.code && index.code[k.code] == id
    && (k.listing.Some? ==> k.listing.value in index.listing && index.listing[k.listing.value] == id)
  }

  // Codes and listings find their room and no other.
  predicate IndexOk(index: Index, rooms: map<Id, Room>) {
    && (forall id :: id in rooms ==> Indexed(index, rooms[id].key, id))
    && (forall c :: c in index.code ==> index.code[c] in rooms && rooms[index.code[c]].key.code == c)
    && (forall l :: l in index.listing ==>
          index.listing[l] in rooms && rooms[index.listing[l]].key.listing == Some(l))
  }

  // An active credential belongs to a reachable member of an open room.
  predicate CredRow(db: Db, m: Id)
    requires m in db.creds
  {
    var c := db.creds[m];
    && m < db.nextId && c.token.member == m && c.room in db.rooms
    && (c.active ==> IsOpen(db.rooms[c.room]) && Present(db.rooms[c.room], m))
  }

  predicate DbOk(db: Db) {
    && (forall id :: id in db.rooms ==> RoomRow(db, id))
    && (forall m :: m in db.creds ==> CredRow(db, m))
    && IndexOk(db.index, db.rooms) && LogOk(db.log, db.nextId)
  }

  predicate PhasesOk(db: Db) {
    forall id :: id in db.rooms ==> PhaseOk(db.rooms[id])
  }

  // ---- what an edit must guarantee ----------------------------------------------------------

  ghost predicate KeepsPresent(r: Room, s: Room, revoke: Revocation) {
    revoke.Everyone? || forall m :: Present(r, m) && revoke != Only(m) ==> Present(s, m)
  }

  ghost predicate EditOk(n: Id, r: Room, s: Room, revoke: Revocation) {
    && s.key == r.key && s.version == r.version && RoomOk(s) && IdsBelow(s, n)
    && KeepsPresent(r, s, revoke) && (!IsOpen(s) ==> revoke.Everyone? || !IsOpen(r))
  }

  // ---- the effect of transactions on one room -----------------------------------------------

  // A room is as it was, or has a later version; without a repeated role lock it has evolved.
  predicate RoomGoes(n: Id, r: Room, s: Room, free: bool) {
    && (s == r || r.version < s.version)
    && (free ==> Evolves(n, r, s))
  }

  // Only the named room changes.
  predicate Goes(db: Db, c: Db, room: Id, free: bool) {
    DbOk(c) && Moves(db, c, room, free)
  }

  predicate Moves(db: Db, c: Db, room: Id, free: bool) {
    && db.nextId <= c.nextId && c.rooms.Keys == db.rooms.Keys
    && (forall id :: id in db.rooms && id != room ==> c.rooms[id] == db.rooms[id])
    && (free && PhasesOk(db) ==> PhasesOk(c))
    && (room in db.rooms ==> RoomGoes(db.nextId, db.rooms[room], c.rooms[room], free && PhasesOk(db)))
  }

  lemma EvolvesReflexive(n: Id, r: Room)
    requires RoomOk(r)
    ensures Evolves(n, r, r)
  {
  }

  lemma GoesNowhere(db: Db, room: Id, free: bool)
    requires DbOk(db) && room in db.rooms
    ensures Goes(db, db, room, free)
  {
    assert RoomRow(db, room);
    EvolvesReflexive(db.nextId, db.rooms[room]);
  }

  lemma RoomGoesOn(n: Id, n': Id, r: Room, s: Room, t: Room, free: bool)
    requires RoomOk(r) && RoomOk(s) && RoomOk(t) && n <= n' && (free ==> PhaseOk(s))
    requires RoomGoes(n, r, s, free) && RoomGoes(n', s, t, free)
    ensures RoomGoes(n, r, t, free)
  {
    if free {
      EvolvesTransitive(n, n', r, s, t);
    }
  }

  lemma GoesOn(a: Db, b: Db, c: Db, room: Id, free: bool)
    requires DbOk(a) && room in a.rooms && Goes(a, b, room, free) && Goes(b, c, room, free)
    ensures Goes(a, c, room, free)
  {
    assert RoomRow(a, room) && RoomRow(b, room) && RoomRow(c, room);
    RoomGoesOn(a.nextId, b.nextId, a.rooms[room], b.rooms[room], c.rooms[room], free && PhasesOk(a));
  }

  // ---- the log ------------------------------------------------------------------------------

  lemma {:induction false} HistoryAppend(events: seq<Event>, e: Event, room: Id)
    ensures History(events + [e], room) == History(events, room) + if e.room == room then [e] else []
  {
    if events == [] {
      assert (events + [e])[1..] == [];
    } else {
      assert (events + [e])[1..] == events[1..] + [e];
      HistoryAppend(events[1..], e, room);
    }
  }

  lemma {:induction false} HistoryMembers(events: seq<Event>, room: Id)
    ensures forall e :: e in History(events, room) <==> e in events && e.room == room
  {
    if events != [] {
      HistoryMembers(events[1..], room);
    }
  }

  lemma {:induction false} HistorySelected(events: seq<Event>, rooms: set<Id>, room: Id)
    requires room in rooms
    ensures History(Selected(events, rooms), room) == History(events, room)
  {
    if events != [] {
      HistorySelected(events[1..], rooms, room);
      var rest := Selected(events[1..], rooms);
      if events[0].room in rooms {
        assert ([events[0]] + rest)[1..] == rest;
      } else {
        assert [] + rest == rest;
      }
    }
  }

  predicate Ordered(events: seq<Event>) {
    forall i, j :: 0 <= i < j < |events| ==> events[i].sequence < events[j].sequence
  }

  lemma {:induction false} SelectedOrdered(events: seq<Event>, rooms: set<Id>)
    requires Ordered(events)
    ensures Ordered(Selected(events, rooms))
  {
    if events != [] {
      assert Ordered(events[1..]) by {
        forall i, j | 0 <= i < j < |events[1..]| ensures events[1..][i].sequence < events[1..][j].sequence {
          assert events[1..][i] == events[i + 1] && events[1..][j] == events[j + 1];
        }
      }
      SelectedOrdered(events[1..], rooms);
      var rest := Selected(events[1..], rooms);
      forall j | 0 <= j < |rest| ensures events[0].sequence < rest[j].sequence {
        assert rest[j] in events[1..];
      }
    }
  }

  // ---- committing ---------------------------------------------------------------------------

  lemma DrawIds(db: Db, n: Id)
    requires DbOk(db) && db.nextId <= n
    ensures DbOk(db.(nextId := n))
    ensures PhasesOk(db) == PhasesOk(db.(nextId := n))
  {
    var d := db.(nextId := n);
    forall id | id in d.rooms ensures RoomRow(d, id) {
      assert RoomRow(db, id);
    }
    forall m | m in d.creds ensures CredRow(d, m) {
      assert CredRow(db, m);
    }
  }

  lemma HistoryGrows(log: Log, room: Id, r: Room, kind: EventType, actor: Option<Id>)
    requires HistoryOk(log.events, room, r)
    ensures HistoryOk(Append(log, room, r.version + 1, kind, actor).events, room,
                      r.(version := r.version + 1, lastEvent := log.next))
  {
    HistoryAppend(log.events, Event(log.next, room, r.version + 1, kind, actor), room);
  }

  lemma OtherHistory(log: Log, room: Id, version: nat, kind: EventType, actor: Option<Id>, id: Id)
    requires id != room
    ensures History(Append(log, room, version, kind, actor).events, id) == History(log.events, id)
  {
    HistoryAppend(log.events, Event(log.next, room, version, kind, actor), id);
  }

  lemma CommitRoom(db: Db, room: Id, s: Room, kind: EventType, actor: Option<Id>, revoke: Revocation)
    requires room in db.rooms && RoomRow(db, room) && EditOk(db.nextId, db.rooms[room], s, revoke)
    ensures RoomRow(Commit(db, room, s, kind, actor, revoke), room)
  {
    HistoryGrows(db.log, room, db.rooms[room], kind, actor);
  }

  lemma CommitOther(db: Db, room: Id, s: Room, kind: EventType, actor: Option<Id>, revoke: Revocation, id: Id)
    requires id in db.rooms && id != room && RoomRow(db, id)
    ensures RoomRow(Commit(db, room, s, kind, actor, revoke), id)
  {
    OtherHistory(db.log, room, s.version + 1, kind, actor, id);
  }

  lemma CommitCred(db: Db, room: Id, s: Room, kind: EventType, actor: Option<Id>, revoke: Revocation, m: Id)
    requires DbOk(db) && room in db.rooms && EditOk(db.nextId, db.rooms[room], s, revoke)
    requires m in db.creds
    ensures CredRow(Commit(db, room, s, kind, actor, revoke), m)
  {
    assert CredRow(db, m);
    var c := Commit(db, room, s, kind, actor, revoke);
    if c.creds[m].active && db.creds[m].room == room {
      assert Present(s, m);
      assert c.rooms[room].members == s.members;
      assert Present(c.rooms[room], m);
    }
  }

  lemma IndexKept(index: Index, rooms: map<Id, Room>, room: Id, s: Room)
    requires IndexOk(index, rooms) && room in rooms && s.key == rooms[room].key
    ensures IndexOk(index, rooms[room := s])
  {
    var changed := rooms[room := s];
    forall id | id in changed ensures Indexed(index, changed[id].key, id) {
      assert Indexed(index, rooms[id].key, id);
    }
  }

  lemma LogKept(log: Log, n: Id, room: Id, version: nat, kind: EventType, actor: Option<Id>)
    requires LogOk(log, n) && room < n
    ensures LogOk(Append(log, room, version, kind, actor), n)
  {
  }

  lemma CommitOk(db: Db, room: Id, s: Room, kind: EventType, actor: Option<Id>, revoke: Revocation)
    requires DbOk(db) && room in db.rooms && EditOk(db.nextId, db.rooms[room], s, revoke)
    ensures DbOk(Commit(db, room, s, kind, actor, revoke))
  {
    var c := Commit(db, room, s, kind, actor, revoke);
    assert RoomRow(db, room);
    assert room < db.nextId;
    forall id | id in c.rooms ensures RoomRow(c, id) {
      if id == room {
        CommitRoom(db, room, s, kind, actor, revoke);
      } else {
        assert RoomRow(db, id);
        CommitOther(db, room, s, kind, actor, revoke, id);
      }
    }
    forall m | m in c.creds ensures CredRow(c, m) {
      CommitCred(db, room, s, kind, actor, revoke, m);
    }
    IndexKept(db.index, db.rooms, room, c.rooms[room]);
    LogKept(db.log, db.nextId, room, s.version + 1, kind, actor);
  }

  lemma EvolvesAnyVersion(n: Id, r: Room, s: Room, version: nat, last: nat)
    requires PhaseOk(s) && Evolves(n, r, s)
    ensures PhaseOk(s.(version := version, lastEvent := last))
            && Evolves(n, r, s.(version := version, lastEvent := last))
  {
  }

  lemma CommitMoves(db: Db, room: Id, s: Room, kind: EventType, actor: Option<Id>, revoke: Revocation, free: bool)
    requires room in db.rooms && s.version == db.rooms[room].version
    requires free && PhaseOk(db.rooms[room]) ==> PhaseOk(s) && Evolves(db.nextId, db.rooms[room], s)
    ensures Moves(db, Commit(db, room, s, kind, actor, revoke), room, free)
  {
    var c := Commit(db, room, s, kind, actor, revoke);
    if free && PhasesOk(db) {
      EvolvesAnyVersion(db.nextId, db.rooms[room], s, s.version + 1, db.log.next);
      forall id | id in c.rooms ensures PhaseOk(c.rooms[id]) {
        assert id != room ==> c.rooms[id] == db.rooms[id];
      }
    }
  }

  // What a good edit of a room is, when the ids from `n` up to `k` are drawn with it.
  ghost predicate Good(n: Id, k: Id, r: Room, s: Room, revoke: Revocation, free: bool) {
    && n <= k && EditOk(k, r, s, revoke)
    && (free && PhaseOk(r) ==> PhaseOk(s) && Evolves(n, r, s))
  }

  // A good edit, committed, keeps the database and moves its room only.
  lemma CommitGoes(db: Db, k: Id, room: Id, s: Room, kind: EventType, actor: Option<Id>, revoke: Revocation, free: bool)
    requires DbOk(db) && room in db.rooms && Good(db.nextId, k, db.rooms[room], s, revoke, free)
    ensures Goes(db, Commit(db, room, s, kind, actor, revoke).(nextId := k), room, free)
  {
    DrawIds(db, k);
    CommitOk(db.(nextId := k), room, s, kind, actor, revoke);
    CommitMoves(db, room, s, kind, actor, revoke, free);
  }
}
