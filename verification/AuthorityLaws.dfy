/**
 What each step of the authority leaves in its tables: the room with its next version, one event with
 its actor, the credentials that are revoked, the command on record, and nothing else.
 */
module AuthorityLaws {
  import opened Common
  import E = Envelopes
  import opened Rooms
  import opened RoomInvariants
  import opened AuthorityModel
  import opened AuthorityInvariants
  import opened AuthorityEdits
  import opened AuthorityTransactions
  import opened AuthorityRuns
  import opened AuthorityProperties
  import opened AuthorityCommands

  // ---- one change ---------------------------------------------------------------------------

  // The room has its next version, which the log holds as one event under the next number; exactly
  // the credentials that the change revokes are inactive; codes and listings stay.
  predicate Changes(db: Db, c: Db, room: Id, s: Room, kind: EventType, actor: Option<Id>, revoke: Revocation) {
    && c.rooms == db.rooms[room := s.(version := s.version + 1, lastEvent := db.log.next)]
    && c.log.events == db.log.events + [Event(db.log.next, room, s.version + 1, kind, actor)]
    && c.log.next == db.log.next + 1
    && c.index == db.index
    && c.creds.Keys == db.creds.Keys
    && forall m :: m in db.creds ==>
         var off := db.creds[m].room == room && (revoke == Everyone || revoke == Only(m));
         c.creds[m] == db.creds[m].(active := if off then false else db.creds[m].active)
  }

  lemma CommitChanges(db: Db, room: Id, s: Room, kind: EventType, actor: Option<Id>, revoke: Revocation)
    ensures var c := Commit(db, room, s, kind, actor, revoke);
            Changes(db, c, room, s, kind, actor, revoke) && c.commands == db.commands && c.nextId == db.nextId
  {
  }

  // A room whose time is over is expired when it is read, and nobody's credential opens it then.
  lemma ExpiresExactly(db: Db, room: Id, now: Time)
    requires room in db.rooms
    ensures var c := Expire(db, room, now);
            if Overdue(db.rooms[room], now) then
              Changes(db, c, room, db.rooms[room].(state := Expired), RoomExpired, None, Everyone)
              && c.commands == db.commands && c.nextId == db.nextId
            else c == db
  {
  }

  // ---- commands of members ------------------------------------------------------------------

  // What a request asks of a room.
  function Asks(r: Room, q: Request, me: Id, newId: Id, now: Time): (e: Edit)
    requires !IsSecret(q)
  {
    match q
    case Act(_, _, action, expected) =>
      if !IsOpen(r) || Stale(r, me, action, expected) == Conflict then Refused(409)
      else if Stale(r, me, action, expected) == Idle then Same
      else
        var i := IndexOf(r.members, me);
        if i.None? then Refused(500) else ActionEdit(r, i.value, action, newId, now)
    case BeginClosing(_, _, attempt, closing, version) => BeginDEdit(r, me, attempt, closing, version, now)
    case AckQuiescent(_, _, attempt, quiescent, version) => AckDEdit(r, me, attempt, quiescent, version, now)
  }

  // The bearer is let into a room that is there.
  predicate Enters(db: Db, bearer: Option<Token>, room: Id) {
    && bearer.Some? && bearer.value.member in db.creds
    && db.creds[bearer.value.member].token == bearer.value && db.creds[bearer.value.member].active
    && db.creds[bearer.value.member].room == room && room in db.rooms
  }

  lemma EntersExactly(db: Db, bearer: Option<Token>, room: Id, now: Time)
    ensures Enters(db, bearer, room) ==> Session(db, bearer, room, now) == Ok(Expire(db, room, now))
    ensures !Enters(db, bearer, room) ==>
              Session(db, bearer, room, now) ==
              Err(if bearer.None? || bearer.value.member !in db.creds
                     || db.creds[bearer.value.member].token != bearer.value || !db.creds[bearer.value.member].active
                  then 401 else if db.creds[bearer.value.member].room != room then 403 else 404)
  {
  }

  // A new command of a member that is let in is refused with nothing changed, or recorded with its
  // answer, alone or with the one change it asks for, of which it is the actor.
  lemma CommandExactly(store: Store, t: Timed)
    requires t.op.Call? && !IsSecret(t.op.request) && t.op.id != ""
    requires Enters(store.db, t.op.request.bearer, t.op.request.room)
    requires KeyOf(t).value !in store.db.commands
    ensures var q, db, o := t.op.request, store.db, Step(store, t);
            var me, loaded := q.bearer.value.member, Expire(db, q.room, t.now);
            var e, c := Asks(loaded.rooms[q.room], q, me, db.nextId, t.now), o.store.db;
            if e.Refused? then o == Outcome(store, Err(e.status))
            else
              && o.store.secrets == store.secrets && q.room in c.rooms
              && o.reply == Ok(Public(c.rooms[q.room], me))
              && c.commands == db.commands[KeyOf(t).value := Row(o.reply.value, t.now)]
              && (if e.Same? then c == loaded.(commands := c.commands)
                  else Changes(loaded, c, q.room, e.room, e.event, Some(me), e.revoke) && c.nextId == db.nextId + 1)
  {
    hide Expire, Session, ActionEdit, BeginDEdit, AckDEdit, Stale, IndexOf;
    var q := t.op.request;
    EntersExactly(store.db, q.bearer, q.room, t.now);
    ExpiresExactly(store.db, q.room, t.now);
    SettleExactly(Expire(store.db, q.room, t.now), q, q.bearer.value.member, KeyOf(t).value, t.now);
  }

  lemma SettleExactly(db: Db, q: Request, me: Id, k: Command, now: Time)
    requires !IsSecret(q) && q.room in db.rooms
    ensures var e, d := Asks(db.rooms[q.room], q, me, db.nextId, now), MemberTx(db, q, me, k, now);
            if e.Refused? then d == Err(e.status)
            else
              && d.Ok? && var c := d.value.db;
              && q.room in c.rooms && d.value.response == Public(c.rooms[q.room], me)
              && c.commands == db.commands[k := Row(d.value.response, now)]
              && (if e.Same? then c == db.(commands := c.commands)
                  else Changes(db, c, q.room, e.room, e.event, Some(me), e.revoke) && c.nextId == db.nextId + 1)
  {
    hide ActionEdit, BeginDEdit, AckDEdit, Stale, IndexOf;
  }

  // A command that is recorded, or not named, changes no more than the time of its room; without an
  // identifier it is refused.
  lemma RepeatedExactly(store: Store, t: Timed)
    requires t.op.Call? && !IsSecret(t.op.request)
    requires Enters(store.db, t.op.request.bearer, t.op.request.room)
    requires t.op.id == "" || KeyOf(t).value in store.db.commands
    ensures var o := Step(store, t);
            if t.op.id == "" then o == Outcome(store, Err(400))
            else
              && o.reply == Ok(store.db.commands[KeyOf(t).value].response)
              && o.store == store.(db := Expire(store.db, t.op.request.room, t.now))
  {
    hide Expire, Session;
    EntersExactly(store.db, t.op.request.bearer, t.op.request.room, t.now);
    ExpiresExactly(store.db, t.op.request.room, t.now);
  }

  // A bearer that is let in reads its room.
  lemma SnapshotExactly(store: Store, t: Timed)
    requires t.op.Snapshot?
    ensures var b, o := t.op.bearer, Step(store, t);
            if !Enters(store.db, b, t.op.room) then o.reply.Err? && o.store == store
            else
              var c := Expire(store.db, t.op.room, t.now);
              o == Outcome(store.(db := c), Ok(Public(c.rooms[t.op.room], b.value.member)))
  {
    hide Expire, Session;
    EntersExactly(store.db, t.op.bearer, t.op.room, t.now);
    if Enters(store.db, t.op.bearer, t.op.room) {
      ExpiresExactly(store.db, t.op.room, t.now);
    }
  }

  // Commands are told apart by who gives them, by what they are called, and by what they are about.
  lemma ScopesApart(q: Request, p: Request)
    requires ScopeOf(q).Some? && ScopeOf(p).Some?
    ensures ScopeOf(q) == ScopeOf(p) <==>
              || (q.CreateRoom? && p.CreateRoom? && SameClient(q.client, p.client))
              || (q.JoinByCode? && p.JoinByCode? && SameClient(q.client, p.client) && q.code == p.code)
              || (q.JoinListed? && p.JoinListed? && SameClient(q.client, p.client) && q.listing == p.listing)
              || (q.Act? && p.Act? && q.bearer.value.member == p.bearer.value.member && SameName(q.action, p.action))
              || (q.BeginClosing? && p.BeginClosing? && q.bearer.value.member == p.bearer.value.member
                  && q.attempt == p.attempt)
              || (q.AckQuiescent? && p.AckQuiescent? && q.bearer.value.member == p.bearer.value.member
                  && q.attempt == p.attempt)
              || (q.Return? && p.Return? && q.room == p.room && q.token == p.token)
  {
  }

  predicate SameClient(a: string, b: string) {
    a == b || (a in ["", "anonymous"] && b in ["", "anonymous"])
  }

  predicate SameName(a: Action, b: Action) {
    || (a.Ready? && b.Ready?) || (a.Heartbeat? && b.Heartbeat?) || (a.StartAttempt? && b.StartAttempt?)
    || (a.ClaimCreator? && b.ClaimCreator?) || (a.TransferCreator? && b.TransferCreator?)
    || (a.LockRole? && b.LockRole?) || (a.SetPhase? && b.SetPhase?) || (a.Leave? && b.Leave?)
    || (a.RemoveOffline? && b.RemoveOffline?) || (a.Close? && b.Close?) || (a.Unknown? && b.Unknown?)
  }

  // ---- secret commands ----------------------------------------------------------------------

  // The transaction of a secret command that is neither cached nor on record.
  lemma SecretExactly(store: Store, t: Timed)
    requires t.op.Call? && IsSecret(t.op.request) && t.op.id != ""
    requires KeyOf(t).value !in store.secrets && KeyOf(t).value !in store.db.commands && |store.secrets| < 4096
    ensures var k, tx, o := KeyOf(t).value, SecretTx(store.db, t.op.request, t.now), Step(store, t);
            if tx.Err? then o == Outcome(store, Err(tx.error))
            else
              && o.reply == Ok(tx.value.response)
              && o.store.secrets == store.secrets[k := Cached(t.now + 600 * SECOND, tx.value.response)]
              && o.store.db.(commands := store.db.commands) == tx.value.db.(commands := store.db.commands)
              && o.store.db.commands.Keys == tx.value.db.commands.Keys + {k}
              && o.store.db.commands[k].createdAt == t.now
              && (tx.value.response.Secret? ==>
                    o.store.db.commands[k].response == Response.Completed(tx.value.response.room.key.id))
  {
    hide SecretTx;
    NotThere(store.secrets, KeyOf(t).value);
  }

  // The secrets that stay in the cache: all of them while it is small, else those still good; one
  // that is asked for when its time is over goes.
  predicate CacheIs(was: map<Command, Cached>, k: Command, now: Time, o: Outcome) {
    var kept := if |was| < 4096 then was else Live(was, now);
    o.store.secrets ==
      if (k in was && now < was[k].until) || (k !in kept && |kept| >= 4096) then kept
      else if o.reply.Ok? then kept[k := Cached(now + 600 * SECOND, o.reply.value)]
      else kept - {k}
  }

  lemma CacheExactly(store: Store, t: Timed)
    requires t.op.Call? && IsSecret(t.op.request) && t.op.id != ""
    ensures CacheIs(store.secrets, KeyOf(t).value, t.now, Step(store, t))
  {
    hide SecretTx, SecretStep, CacheIs;
    CacheStep(store, KeyOf(t).value, SecretTx(store.db, t.op.request, t.now), t.now);
  }

  lemma CacheStep(store: Store, k: Command, tx: Result<Done, int>, now: Time)
    requires k.id != ""
    ensures CacheIs(store.secrets, k, now, SecretStep(store, k, tx, now))
  {
  }

  lemma LiveExactly(secrets: map<Command, Cached>, now: Time, c: Command)
    ensures c in Live(secrets, now) <==> c in secrets && now < secrets[c].until
    ensures c in Live(secrets, now) ==> Live(secrets, now)[c] == secrets[c]
  {
  }

  lemma NotThere<K, V>(m: map<K, V>, k: K)
    requires k !in m
    ensures m - {k} == m
  {
  }

  // ---- new rooms and members ----------------------------------------------------------------

  // The first of at most a hundred draws that no room has.
  lemma {:induction false} FirstFreeExactly(draws: seq<Id>, used: map<Id, Id>)
    ensures var code := FirstFree(draws, used);
            if code.None? then forall i :: 0 <= i < |draws| ==> draws[i] in used
            else exists i :: 0 <= i < |draws| && draws[i] == code.value && code.value !in used
                             && forall j :: 0 <= j < i ==> draws[j] in used
  {
    if draws != [] && draws[0] in used {
      FirstFreeExactly(draws[1..], used);
      if FirstFree(draws[1..], used).Some? {
        var i :| 0 <= i < |draws[1..]| && draws[1..][i] == FirstFree(draws[1..], used).value
                 && FirstFree(draws[1..], used).value !in used && forall j :: 0 <= j < i ==> draws[1..][j] in used;
        assert forall j :: 0 <= j < i + 1 ==> draws[j] in used by {
          forall j | 0 <= j < i + 1 ensures draws[j] in used {
            assert j > 0 ==> draws[j] == draws[1..][j - 1];
          }
        }
        assert draws[i + 1] == draws[1..][i];
      }
    }
  }

  lemma DrawsExactly(draws: seq<Id>, used: map<Id, Id>)
    ensures NewCode(draws, used) == FirstFree(if |draws| <= 100 then draws else draws[..100], used)
  {
  }

  // A new room waits half an hour for a partner and lives six hours; its owner is online in the
  // first seat, has the only credential, and is the actor of its first event.
  lemma CreateExactly(db: Db, rejected: Option<int>, listed: bool, draws: seq<Id>, now: Time)
    requires db.nextId !in db.rooms && db.nextId + 1 !in db.creds
    ensures var d, code := Create(db, rejected, listed, draws, now), NewCode(draws, db.index.code);
            if rejected.Some? then d == Err(rejected.value)
            else if code.None? then d == Err(503)
            else
              && d.Ok? && var c, n := d.value.db, db.nextId;
              && c.rooms.Keys == db.rooms.Keys + {n} && (forall id :: id in db.rooms ==> c.rooms[id] == db.rooms[id])
              && c.nextId > n + 4 && c.commands == db.commands
              && var r := c.rooms[n];
              && r.key == RoomKey(n, code.value, if listed then Some(n + 4) else None, n + 1, now + 6 * 3600 * SECOND)
              && r.version == 1 && r.lastEvent == db.log.next && r.state == WaitingForPartner
              && r.waitingExpiresAt == Some(now + 1800 * SECOND) && r.attempt == None && r.lastAttemptNumber == 0
              && r.members == [Member(n + 1, E.MemberA, Online, false, None, None, now)]
              && c.log == Log(db.log.events + [Event(db.log.next, n, 1, RoomCreated, Some(n + 1))], db.log.next + 1)
              && c.index.code == db.index.code[code.value := n]
              && c.index.listing == (if listed then db.index.listing[n + 4 := n] else db.index.listing)
              && c.creds.Keys == db.creds.Keys + {n + 1} && c.creds[n + 1].room == n && c.creds[n + 1].active
              && (forall m :: m in db.creds ==> c.creds[m] == db.creds[m])
              && d.value.response == Secret(r, n + 1, c.creds[n + 1].token, c.creds[n + 1].reconnect)
  {
    hide FirstFree;
  }

  // By its code or its listing an open room is joined, a listed one only while its owner may come
  // back; the new member has a credential and is the actor of the event.
  lemma JoinsExactly(db: Db, q: Request, now: Time)
    requires DbOk(db) && (q.JoinByCode? || q.JoinListed?)
    ensures var table := if q.JoinByCode? then db.index.code else db.index.listing;
            var key := if q.JoinByCode? then q.code else q.listing;
            var d := SecretTx(db, q, now);
            if key !in table then d == Err(404)
            else
              var r := db.rooms[table[key]];
              var away := q.JoinListed? && r.members[0].presence !in {Online, Reconnecting};
              if !IsOpen(r) || Overdue(r, now) || away then d == Err(410)
              else if |r.members| == 2 && r.members[1].presence != Left then d == Err(409)
              else
                && d.Ok? && var c, me, e := d.value.db, db.nextId, JoinEdit(r, db.nextId, now);
                && c.rooms == db.rooms[r.key.id := e.room.(version := r.version + 1, lastEvent := db.log.next)]
                && c.log.events == db.log.events + [Event(db.log.next, r.key.id, r.version + 1, MemberJoined, Some(me))]
                && c.index == db.index && c.commands == db.commands && me < c.nextId
                && c.creds.Keys == db.creds.Keys + {me} && c.creds[me].room == r.key.id && c.creds[me].active
                && (forall m :: m in db.creds && m != me ==> c.creds[m] == db.creds[m])
                && d.value.response == Secret(c.rooms[r.key.id], me, c.creds[me].token, c.creds[me].reconnect)
  {
    hide DbOk, JoinEdit, Overdue, RoomOk, IdsBelow, Expire;
    var table := if q.JoinByCode? then db.index.code else db.index.listing;
    var key := if q.JoinByCode? then q.code else q.listing;
    if key in table {
      IndexedRoom(db, q, now);
      var r := db.rooms[table[key]];
      OwnerFirst(r);
      JoinEdits(r, db.nextId, now);
      FreshCred(db);
    }
  }

  lemma IndexedRoom(db: Db, q: Request, now: Time)
    requires DbOk(db) && (q.JoinByCode? || q.JoinListed?)
    ensures var table := if q.JoinByCode? then db.index.code else db.index.listing;
            var key := if q.JoinByCode? then q.code else q.listing;
            key in table ==>
              && table[key] in db.rooms && db.rooms[table[key]].key.id == table[key] && RoomOk(db.rooms[table[key]])
              && (IsOpen(Expire(db, table[key], now).rooms[table[key]]) <==>
                    IsOpen(db.rooms[table[key]]) && !Overdue(db.rooms[table[key]], now))
              && (!Overdue(db.rooms[table[key]], now) ==> Expire(db, table[key], now) == db)
  {
    hide RoomOk, HistoryOk, IdsBelow, CredRow, LogOk;
    var table := if q.JoinByCode? then db.index.code else db.index.listing;
    var key := if q.JoinByCode? then q.code else q.listing;
    if key in table {
      assert RoomRow(db, table[key]);
    }
  }

  lemma OwnerFirst(r: Room)
    requires RoomOk(r)
    ensures OwnerAvailable(r) <==> r.members[0].presence in {Online, Reconnecting}
  {
  }

  lemma JoinEdits(r: Room, newId: Id, now: Time)
    requires RoomOk(r)
    ensures var e := JoinEdit(r, newId, now);
            if |r.members| == 2 && r.members[1].presence != Left then e == Refused(409)
            else e.Changed? && e.event == MemberJoined && e.revoke == NoOne && e.room.version == r.version
  {
    ActiveOf(r.members);
  }

  lemma FreshCred(db: Db)
    requires DbOk(db)
    ensures db.nextId !in db.creds
  {
    forall k | k in db.creds ensures k < db.nextId {
      assert CredRow(db, k);
    }
  }

  // ---- the relay's own steps ----------------------------------------------------------------

  // The loss of a transport and a forced barrier tell whether they changed the room; nobody is the
  // actor.
  lemma RelayExactly(store: Store, t: Timed)
    requires t.op.TransportLost? || t.op.Force?
    ensures var db, o := store.db, Step(store, t);
            if t.op.Force? && !DCode(t.op.code) then o == Outcome(store, Err(400))
            else if t.op.room !in db.rooms then o == Outcome(store, Err(404))
            else
              var loaded := Expire(db, t.op.room, t.now);
              var r := loaded.rooms[t.op.room];
              var e := if t.op.Force? then ForceEdit(r, t.op.attempt, t.op.code, t.now)
                       else TransportFailEdit(r, t.op.attempt, t.op.code, t.now);
              && o.store.secrets == store.secrets
              && (if e.Changed? then
                    && o.reply == Ok(Flag(true))
                    && Changes(loaded, o.store.db, t.op.room, e.room, e.event, None, e.revoke)
                    && o.store.db.commands == db.commands && o.store.db.nextId == db.nextId
                  else o.reply == Ok(Flag(false)) && o.store.db == loaded)
  {
    hide Expire, DCode, ForceEdit, TransportFailEdit;
    if t.op.room in store.db.rooms {
      ExpiresExactly(store.db, t.op.room, t.now);
      NeverRefused(Expire(store.db, t.op.room, t.now).rooms[t.op.room], t.op.attempt, t.op.code, t.now);
    }
  }

  lemma NeverRefused(r: Room, attempt: Id, code: string, now: Time)
    ensures !ForceEdit(r, attempt, code, now).Refused? && !TransportFailEdit(r, attempt, code, now).Refused?
  {
  }

  // ---- forgetting ---------------------------------------------------------------------------

  // A sweep forgets commands older than a day, and closed or expired rooms two weeks after their
  // time, with their credentials, codes and events; all else is kept.
  lemma ForgetExactly(db: Db, now: Time)
    ensures var c := Forget(db, now);
            var gone := set r | r in db.rooms && !IsOpen(db.rooms[r])
                                && db.rooms[r].key.expiresAt < now - 14 * 86400 * SECOND;
            && c.rooms.Keys == db.rooms.Keys - gone && (forall r :: r in c.rooms ==> c.rooms[r] == db.rooms[r])
            && (forall k :: k in c.commands <==> k in db.commands && db.commands[k].createdAt >= now - 86400 * SECOND)
            && (forall k :: k in c.commands ==> c.commands[k] == db.commands[k])
            && (forall m :: m in c.creds <==> m in db.creds && db.creds[m].room in c.rooms)
            && (forall m :: m in c.creds ==> c.creds[m] == db.creds[m])
            && (forall e :: e in c.log.events <==> e in db.log.events && e.room in c.rooms)
            && c.log.next == db.log.next && c.nextId == db.nextId
            && (forall k :: k in c.index.code <==> k in db.index.code && db.index.code[k] in c.rooms)
            && (forall k :: k in c.index.code ==> c.index.code[k] == db.index.code[k])
            && (forall k :: k in c.index.listing <==> k in db.index.listing && db.index.listing[k] in c.rooms)
            && (forall k :: k in c.index.listing ==> c.index.listing[k] == db.index.listing[k])
  {
    hide Selected;
  }
}
