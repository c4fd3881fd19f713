/**
 The store of relay/authority.py: its tables and its cache of secret responses as fields that the
 methods change in place.  Every public method is one transaction, rolled back when it refuses;
 each does exactly what module AuthorityModel says of that step.
 */
module AuthorityStores {
  import opened Common
  import opened Rooms
  import opened AuthorityModel
  import opened RoomDocuments

  // A transaction ran: it left these tables and this reply, or refused.
  predicate Ran(tx: Result<Done, int>, db: Db, reply: Result<Response, int>) {
    match tx
    case Ok(done) => db == done.db && reply == Ok(done.response)
    case Err(status) => reply == Err(status)
  }

  class AuthorityStore {
    var rooms: map<Id, Room>
    var codes: map<Id, Id>
    var listings: map<Id, Id>
    var credentials: map<Id, Credential>
    var commands: map<Command, Row>
    var events: seq<Event>
    var nextSequence: nat
    var nextId: Id
    var secrets: map<Command, Cached>

    ghost function Tables(): Db
      reads this
    {
      Db(rooms, Index(codes, listings), credentials, commands, Log(events, nextSequence), nextId)
    }

    ghost function State(): Store
      reads this
    {
      Store(Tables(), secrets)
    }

    // The tables as they will be once the document is saved.
    ghost function Pending(room: Id, doc: RoomDocument): Db
      reads this, doc
    {
      Tables().(rooms := rooms[room := doc.View()])
    }

    constructor ()
      ensures State() == EMPTY
    {
      rooms, codes, listings, credentials, commands := map[], map[], map[], map[], map[];
      events, nextSequence, nextId, secrets := [], 1, 0, map[];
    }

    // ---- transactions and rows --------------------------------------------------------------

    method Begin() returns (saved: Db)
      ensures saved == Tables()
    {
      saved := Db(rooms, Index(codes, listings), credentials, commands, Log(events, nextSequence), nextId);
    }

    method Rollback(saved: Db)
      modifies this
      ensures Tables() == saved && secrets == old(secrets)
    {
      rooms, codes, listings := saved.rooms, saved.index.code, saved.index.listing;
      credentials, commands := saved.creds, saved.commands;
      events, nextSequence, nextId := saved.log.events, saved.log.next, saved.nextId;
    }

    // The next version of a document, its event, and the credentials it takes.
    method Record(room: Id, doc: RoomDocument, kind: EventType, actor: Option<Id>, revoke: Revocation)
      modifies this, doc
      ensures Pending(room, doc) == Commit(old(Tables()), room, old(doc.View()), kind, actor, revoke)
      ensures rooms == old(rooms) && secrets == old(secrets) && nextId == old(nextId) && doc.members == old(doc.members)
    {
      if revoke != NoOne {
        credentials := Revoke(credentials, room, revoke);
      }
      doc.version := doc.version + 1;
      events := events + [Event(nextSequence, room, doc.version, kind, actor)];
      doc.lastEvent := nextSequence;
      nextSequence := nextSequence + 1;
      NobodyRevoked(old(credentials), room);
    }

    method Save(room: Id, doc: RoomDocument)
      modifies this`rooms
      ensures Tables() == old(Pending(room, doc))
    {
      var r := doc.Export();
      rooms := rooms[room := r];
    }

    method Load(room: Id, now: Time) returns (doc: RoomDocument?)
      modifies this
      ensures secrets == old(secrets)
      ensures doc == null <==> room !in old(rooms)
      ensures doc == null ==> Tables() == old(Tables())
      ensures doc != null ==> fresh(doc) && Tables() == Expire(old(Tables()), room, now) && doc.View() == rooms[room]
    {
      if room !in rooms {
        return null;
      }
      doc := new RoomDocument(rooms[room]);
      if Overdue(rooms[room], now) {
        doc.state := Expired;
        Record(room, doc, RoomExpired, None, Everyone);
        Save(room, doc);
      }
    }

    method Credentials(bearer: Option<Token>, room: Id, now: Time) returns (doc: RoomDocument?, status: int)
      modifies this
      ensures secrets == old(secrets)
      ensures var s := Session(old(Tables()), bearer, room, now);
              if s.Ok? then doc != null && fresh(doc) && Tables() == s.value && doc.View() == rooms[room]
              else doc == null && s == Err(status) && Tables() == old(Tables())
    {
      doc, status := null, 401;
      if bearer.None? || bearer.value.member !in credentials {
        return;
      }
      var c := credentials[bearer.value.member];
      if c.token != bearer.value || !c.active {
        return;
      }
      if c.room != room {
        status := 403;
        return;
      }
      status := 404;
      doc := Load(room, now);
    }

    method RememberResponse(k: Command, response: Response, now: Time)
      modifies this`commands
      ensures Tables() == Remember(old(Tables()), k, response, now)
    {
      commands := commands[k := Row(response, now)];
    }

    method CommandResponse(k: Command) returns (r: Result<Option<Response>, int>)
      ensures r == Recorded(Tables(), k)
    {
      if k.id == "" {
        return Err(400);
      }
      return Ok(if k in commands then Some(commands[k].response) else None);
    }

    // ---- the commands of a member -----------------------------------------------------------

    // What an applied document becomes in the tables, with the answer its member gets.
    method Conclude(room: Id, doc: RoomDocument, v: Verdict, k: Command, me: Id, now: Time, ghost e: Edit)
      returns (reply: Result<Response, int>)
      requires room in rooms && Follows(v, rooms[room], doc.View(), e)
      modifies this, doc
      ensures secrets == old(secrets)
      ensures Ran(Settle(old(Tables()), room, e, k, me, now), Tables(), reply)
    {
      hide Commit;
      if v.Refuse? {
        return Err(v.status);
      }
      if v.Apply? {
        Record(room, doc, v.event, Some(me), v.revoke);
        Save(room, doc);
        nextId := nextId + 1;
      }
      var r := doc.Export();
      RememberResponse(k, Public(r, me), now);
      return Ok(Public(r, me));
    }

    method MutateTx(room: Id, bearer: Option<Token>, id: string, action: Action, expected: Option<nat>, now: Time)
      returns (reply: Result<Response, int>)
      modifies this
      ensures secrets == old(secrets)
      ensures Ran(MemberCall(old(Tables()), Act(room, bearer, action, expected), id, now), Tables(), reply)
    {
      hide Settle, ActionEdit, Stale, Follows;
      var doc, status := Credentials(bearer, room, now);
      if doc == null {
        return Err(status);
      }
      var me := bearer.value.member;
      var k := Command(ActionScope(me, NameOf(action)), id);
      var recorded := CommandResponse(k);
      if recorded.Err? {
        return Err(recorded.error);
      }
      if recorded.value.Some? {
        return Ok(recorded.value.value);
      }
      if doc.state == Closed || doc.state == Expired {
        return Err(409);
      }
      var r := doc.Export();
      var stale := Stale(r, me, action, expected);
      if stale == Conflict {
        return Err(409);
      }
      if stale == Idle {
        RememberResponse(k, Public(r, me), now);
        return Ok(Public(r, me));
      }
      var i := IndexOf(doc.members, me);
      if i.None? {
        return Err(500);
      }
      var v := doc.Act(i.value, action, nextId, now);
      reply := Conclude(room, doc, v, k, me, now, ActionEdit(r, i.value, action, nextId, now));
    }

    method Mutate(room: Id, bearer: Option<Token>, id: string, action: Action, expected: Option<nat>, now: Time)
      returns (reply: Result<Response, int>)
      modifies this
      ensures Outcome(State(), reply) == Step(old(State()), Timed(now, Call(id, Act(room, bearer, action, expected))))
    {
      hide MemberCall;
      var saved := Begin();
      reply := MutateTx(room, bearer, id, action, expected, now);
      if reply.Err? {
        Rollback(saved);
      }
    }

    method BeginDClosingTx(room: Id, bearer: Option<Token>, id: string, attempt: Id, p: ClosingPayload, version: nat,
                           now: Time)
      returns (reply: Result<Response, int>)
      modifies this
      ensures secrets == old(secrets)
      ensures Ran(MemberCall(old(Tables()), BeginClosing(room, bearer, attempt, p, version), id, now), Tables(), reply)
    {
      hide Settle, BeginDEdit, Follows;
      var doc, status := Credentials(bearer, room, now);
      if doc == null {
        return Err(status);
      }
      var me := bearer.value.member;
      var k := Command(ClosingScope(me, attempt), id);
      var recorded := CommandResponse(k);
      if recorded.Err? {
        return Err(recorded.error);
      }
      if recorded.value.Some? {
        return Ok(recorded.value.value);
      }
      ghost var r := doc.View();
      var v := doc.BeginClosing(me, attempt, p, version, now);
      reply := Conclude(room, doc, v, k, me, now, BeginDEdit(r, me, attempt, p, version, now));
    }

    method BeginDClosing(room: Id, bearer: Option<Token>, id: string, attempt: Id, p: ClosingPayload, version: nat,
                         now: Time)
      returns (reply: Result<Response, int>)
      modifies this
      ensures Outcome(State(), reply)
              == Step(old(State()), Timed(now, Call(id, BeginClosing(room, bearer, attempt, p, version))))
    {
      hide MemberCall;
      var saved := Begin();
      reply := BeginDClosingTx(room, bearer, id, attempt, p, version, now);
      if reply.Err? {
        Rollback(saved);
      }
    }

    method AcknowledgeDTx(room: Id, bearer: Option<Token>, id: string, attempt: Id, p: QuiescentPayload, version: nat,
                          now: Time)
      returns (reply: Result<Response, int>)
      modifies this
      ensures secrets == old(secrets)
      ensures Ran(MemberCall(old(Tables()), AckQuiescent(room, bearer, attempt, p, version), id, now), Tables(), reply)
    {
      hide Settle, AckDEdit, Follows;
      var doc, status := Credentials(bearer, room, now);
      if doc == null {
        return Err(status);
      }
      var me := bearer.value.member;
      var k := Command(QuiescentScope(me, attempt), id);
      var recorded := CommandResponse(k);
      if recorded.Err? {
        return Err(recorded.error);
      }
      if recorded.value.Some? {
        return Ok(recorded.value.value);
      }
      ghost var r := doc.View();
      var v := doc.Acknowledge(me, attempt, p, version, now);
      reply := Conclude(room, doc, v, k, me, now, AckDEdit(r, me, attempt, p, version, now));
    }

    method AcknowledgeDQuiescent(room: Id, bearer: Option<Token>, id: string, attempt: Id, p: QuiescentPayload,
                                 version: nat, now: Time)
      returns (reply: Result<Response, int>)
      modifies this
      ensures Outcome(State(), reply)
              == Step(old(State()), Timed(now, Call(id, AckQuiescent(room, bearer, attempt, p, version))))
    {
      hide MemberCall;
      var saved := Begin();
      reply := AcknowledgeDTx(room, bearer, id, attempt, p, version, now);
      if reply.Err? {
        Rollback(saved);
      }
    }

    // Reading a room is a transaction of its own only in that it may expire it.
    method Snapshot(room: Id, bearer: Option<Token>, now: Time) returns (reply: Result<Response, int>)
      modifies this
      ensures Outcome(State(), reply) == Step(old(State()), Timed(now, Op.Snapshot(room, bearer)))
    {
      hide Expire;
      var doc, status := Credentials(bearer, room, now);
      if doc == null {
        return Err(status);
      }
      var r := doc.Export();
      return Ok(Public(r, bearer.value.member));
    }

    // ---- commands with secret responses -----------------------------------------------------

    method SecretResponse(k: Command, now: Time) returns (found: Result<Option<Response>, int>)
      modifies this`secrets
      ensures var l := FindSecret(old(State()), k, now); secrets == l.secrets && found == l.found
    {
      if k.id == "" {
        return Err(400);
      }
      if |secrets| >= SECRET_CAPACITY {
        secrets := Live(secrets, now);
        if |secrets| >= SECRET_CAPACITY && k !in secrets {
          return Err(503);
        }
      }
      if k in secrets && secrets[k].until > now {
        return Ok(Some(secrets[k].response));
      }
      secrets := secrets - {k};
      if k in commands {
        return Err(409);
      }
      return Ok(None);
    }

    // A transaction whose response is a secret, once it is known not to be a repetition.
    method KeepSecret(k: Command, reply: Result<Response, int>, saved: Db, now: Time)
      modifies this
      ensures reply.Err? ==> Tables() == saved && secrets == old(secrets)
      ensures reply.Ok? ==> Tables() == Remember(old(Tables()), k, Marker(reply.value), now)
                            && secrets == old(secrets)[k := Cached(now + SECRET_RESPONSE, reply.value)]
    {
      if reply.Err? {
        Rollback(saved);
      } else {
        secrets := secrets[k := Cached(now + SECRET_RESPONSE, reply.value)];
        RememberResponse(k, Marker(reply.value), now);
      }
    }

    // The first of a hundred drawn codes that no room has.
    method DrawCode(draws: seq<Id>) returns (code: Option<Id>)
      ensures code == NewCode(draws, codes)
    {
      var tried := if |draws| <= CODE_DRAWS then draws else draws[..CODE_DRAWS];
      var i := 0;
      while i < |tried|
        invariant 0 <= i <= |tried| && FirstFree(tried[i..], codes) == FirstFree(tried, codes)
      {
        if tried[i] !in codes {
          return Some(tried[i]);
        }
        i := i + 1;
      }
      return None;
    }

    // The credential of a new member, and its secret response.
    method Credential(room: Id, doc: RoomDocument, member: Id) returns (response: Response)
      requires room in rooms && doc.View() == rooms[room]
      modifies this`credentials
      ensures Secrets(Issue(old(Tables()), room, member), room, member) == Ok(Done(Tables(), response))
    {
      var token, reconnect := Token(member, member + 1), Token(member, member + 2);
      credentials := credentials[member := AuthorityModel.Credential(token, reconnect, None, 0, room, true)];
      var r := doc.Export();
      response := Secret(r, member, token, reconnect);
    }

    // A new room is entered under its code, and under its listing if it has one.
    method Register(key: RoomKey, room: Id)
      modifies this
      ensures Tables() == old(Tables()).(index := Grown(old(Tables()).index, key, room), nextId := old(nextId) + 5)
      ensures secrets == old(secrets)
    {
      nextId := nextId + 5;
      codes := codes[key.code := room];
      if key.listing.Some? {
        listings := listings[key.listing.value := room];
      }
    }

    method CreateTx(rejected: Option<int>, listed: bool, draws: seq<Id>, now: Time)
      returns (reply: Result<Response, int>)
      modifies this
      ensures secrets == old(secrets)
      ensures Ran(AuthorityModel.Create(old(Tables()), rejected, listed, draws, now), Tables(), reply)
    {
      hide Commit, Issue, NewCode;
      if rejected.Some? {
        return Err(rejected.value);
      }
      var code := DrawCode(draws);
      if code.None? {
        return Err(503);
      }
      var room := nextId;
      var doc := new RoomDocument(NewRoom(room, listed, code.value, now));
      Register(doc.key, room);
      Record(room, doc, RoomCreated, Some(doc.key.owner), NoOne);
      Save(room, doc);
      var response := Credential(room, doc, doc.key.owner);
      return Ok(response);
    }

    method Create(client: string, rejected: Option<int>, listed: bool, draws: seq<Id>, id: string, now: Time)
      returns (reply: Result<Response, int>)
      modifies this
      ensures Outcome(State(), reply)
              == Step(old(State()), Timed(now, Call(id, CreateRoom(client, rejected, listed, draws))))
    {
      hide FindSecret, AuthorityModel.Create, Marker, Remember;
      var k := Command(CreateScope(if client == "" then "anonymous" else client), id);
      var found := SecretResponse(k, now);
      if found.Err? {
        return Err(found.error);
      }
      if found.value.Some? {
        return Ok(found.value.value);
      }
      var saved := Begin();
      reply := CreateTx(rejected, listed, draws, now);
      KeepSecret(k, reply, saved, now);
    }

    method JoinLoaded(room: Id, doc: RoomDocument, now: Time) returns (reply: Result<Response, int>)
      requires room in rooms && doc.View() == rooms[room]
      modifies this, doc
      ensures secrets == old(secrets)
      ensures Ran(JoinRoom(old(Tables()), room, now), Tables(), reply)
    {
      hide Commit, Issue, JoinEdit;
      var me := nextId;
      var v := doc.Admit(me, now);
      if v.Refuse? {
        return Err(v.status);
      }
      if v.Keep? {
        return Err(500);
      }
      Record(room, doc, v.event, Some(me), v.revoke);
      Save(room, doc);
      nextId := me + 3;
      var response := Credential(room, doc, me);
      return Ok(response);
    }

    method JoinTx(code: Id, now: Time) returns (reply: Result<Response, int>)
      modifies this
      ensures secrets == old(secrets)
      ensures Ran(AuthorityModel.Join(old(Tables()), code, now), Tables(), reply)
    {
      hide JoinRoom, Expire;
      if code !in codes {
        return Err(404);
      }
      var room := codes[code];
      var doc := Load(room, now);
      if doc == null {
        return Err(404);
      }
      if doc.state == Closed || doc.state == Expired {
        return Err(410);
      }
      reply := JoinLoaded(room, doc, now);
    }

    method Join(client: string, code: Id, id: string, now: Time) returns (reply: Result<Response, int>)
      modifies this
      ensures Outcome(State(), reply) == Step(old(State()), Timed(now, Call(id, JoinByCode(client, code))))
    {
      hide FindSecret, AuthorityModel.Join, Marker, Remember;
      var k := Command(JoinScope(if client == "" then "anonymous" else client, code), id);
      var found := SecretResponse(k, now);
      if found.Err? {
        return Err(found.error);
      }
      if found.value.Some? {
        return Ok(found.value.value);
      }
      var saved := Begin();
      reply := JoinTx(code, now);
      KeepSecret(k, reply, saved, now);
    }

    method JoinPublicTx(listing: Id, now: Time) returns (reply: Result<Response, int>)
      modifies this
      ensures secrets == old(secrets)
      ensures Ran(AuthorityModel.JoinPublic(old(Tables()), listing, now), Tables(), reply)
    {
      hide JoinRoom, Expire, OwnerAvailable;
      if listing !in listings {
        return Err(404);
      }
      var room := listings[listing];
      var doc := Load(room, now);
      if doc == null {
        return Err(404);
      }
      var r := doc.Export();
      if doc.state == Closed || doc.state == Expired || !OwnerAvailable(r) {
        return Err(410);
      }
      reply := JoinLoaded(room, doc, now);
    }

    method JoinPublic(client: string, listing: Id, id: string, now: Time) returns (reply: Result<Response, int>)
      modifies this
      ensures Outcome(State(), reply) == Step(old(State()), Timed(now, Call(id, JoinListed(client, listing))))
    {
      hide FindSecret, AuthorityModel.JoinPublic, Marker, Remember;
      var k := Command(PublicJoinScope(if client == "" then "anonymous" else client, listing), id);
      var found := SecretResponse(k, now);
      if found.Err? {
        return Err(found.error);
      }
      if found.value.Some? {
        return Ok(found.value.value);
      }
      var saved := Begin();
      reply := JoinPublicTx(listing, now);
      KeepSecret(k, reply, saved, now);
    }

    method ReconnectTx(room: Id, token: Token, now: Time) returns (reply: Result<Response, int>)
      modifies this
      ensures secrets == old(secrets)
      ensures Ran(AuthorityModel.Reconnect(old(Tables()), room, token, now), Tables(), reply)
    {
      hide Expire, Commit;
      var me := token.member;
      if me !in credentials || !MayUse(credentials[me], room, token, now) {
        return Err(401);
      }
      var row := credentials[me];
      var doc := Load(room, now);
      if doc == null {
        return Err(404);
      }
      var i := IndexOf(doc.members, me);
      if i.None? {
        return Err(500);
      }
      reply := ReadmitTx(room, doc, i.value, me, row.active, now);
    }

    method ReadmitTx(room: Id, doc: RoomDocument, i: nat, me: Id, active: bool, now: Time)
      returns (reply: Result<Response, int>)
      requires room in rooms && doc.View() == rooms[room] && i < |doc.members|
      modifies this, doc
      ensures secrets == old(secrets)
      ensures Ran(Readmit(old(Tables()), room, i, me, now, active), Tables(), reply)
    {
      hide Commit;
      if doc.state == Closed || doc.state == Expired || doc.members[i].presence == Left {
        return Err(410);
      }
      if doc.members[i].presence == Offline || (doc.members[i].deadline.Some? && doc.members[i].deadline.value <= now) {
        return Err(410);
      }
      if !active || me !in credentials {
        return Err(401);
      }
      var token, reconnect := Token(me, nextId), Token(me, nextId + 1);
      var row := credentials[me];
      credentials := credentials[me := row.(token := token, reconnect := reconnect, previous := Some(row.reconnect),
                                            previousUntil := now + RECONNECT_WINDOW)];
      nextId := nextId + 2;
      assert Tables() == Rotate(old(Tables()), me, now);
      doc.Seen(i, now);
      Record(room, doc, MemberReconnected, Some(me), NoOne);
      Save(room, doc);
      var r := doc.Export();
      KeepsTokens(Rotate(old(Tables()), me, now), room, r, me);
      return Ok(Secret(r, me, token, reconnect));
    }

    method Reconnect(room: Id, token: Token, id: string, now: Time) returns (reply: Result<Response, int>)
      modifies this
      ensures Outcome(State(), reply) == Step(old(State()), Timed(now, Call(id, Return(room, token))))
    {
      hide FindSecret, AuthorityModel.Reconnect, Marker, Remember;
      var k := Command(ReconnectScope(room, token), id);
      var found := SecretResponse(k, now);
      if found.Err? {
        return Err(found.error);
      }
      if found.value.Some? {
        return Ok(found.value.value);
      }
      var saved := Begin();
      reply := ReconnectTx(room, token, now);
      KeepSecret(k, reply, saved, now);
    }

    // ---- the relay's own steps --------------------------------------------------------------

    method Applied(room: Id, doc: RoomDocument, v: Verdict, ghost e: Edit) returns (reply: Result<Response, int>)
      requires room in rooms && Follows(v, rooms[room], doc.View(), e)
      modifies this, doc
      ensures secrets == old(secrets)
      ensures Ran(AuthorityModel.Apply(old(Tables()), room, e), Tables(), reply)
    {
      hide Commit;
      if v.Refuse? {
        return Err(v.status);
      }
      if v.Keep? {
        return Ok(Flag(false));
      }
      Record(room, doc, v.event, None, v.revoke);
      Save(room, doc);
      return Ok(Flag(true));
    }

    method FailTransportAttempt(room: Id, attempt: Id, code: string, now: Time) returns (reply: Result<Response, int>)
      modifies this
      ensures Outcome(State(), reply) == Step(old(State()), Timed(now, TransportLost(room, attempt, code)))
    {
      hide TransportFailEdit, Follows, Expire;
      var saved := Begin();
      var doc := Load(room, now);
      if doc == null {
        return Err(404);
      }
      ghost var r := doc.View();
      var v := doc.LoseTransport(attempt, code, now);
      reply := Applied(room, doc, v, TransportFailEdit(r, attempt, code, now));
      if reply.Err? {
        Rollback(saved);
      }
    }

    method ForceDBarrier(room: Id, attempt: Id, code: string, now: Time) returns (reply: Result<Response, int>)
      modifies this
      ensures Outcome(State(), reply) == Step(old(State()), Timed(now, Force(room, attempt, code)))
    {
      hide ForceEdit, Follows, Expire, DCode;
      if !DCode(code) {
        return Err(400);
      }
      var saved := Begin();
      var doc := Load(room, now);
      if doc == null {
        return Err(404);
      }
      ghost var r := doc.View();
      var v := doc.Force(attempt, code, now);
      reply := Applied(room, doc, v, ForceEdit(r, attempt, code, now));
      if reply.Err? {
        Rollback(saved);
      }
    }

    // A change that a sweep makes is recorded; the document is saved only at the end.
    method WatchBarrier(room: Id, doc: RoomDocument, now: Time) returns (changed: bool)
      requires room in rooms && doc.View() == rooms[room]
      modifies this, doc
      ensures secrets == old(secrets) && rooms == old(rooms)
      ensures !changed ==> doc.View() == old(doc.View())
      ensures Pending(room, doc) == Timeout(old(Tables()), room, now)
    {
      hide Commit;
      changed := false;
      assert rooms[room := doc.View()] == rooms;
      var v := doc.TimeOut(now);
      if v.Apply? {
        Record(room, doc, v.event, None, v.revoke);
        changed := true;
      }
    }

    method WatchMember(room: Id, doc: RoomDocument, i: nat, now: Time, already: bool) returns (changed: bool)
      requires i < |doc.members| && room in rooms
      modifies this, doc
      ensures secrets == old(secrets) && rooms == old(rooms) && |doc.members| == |old(doc.members)|
      ensures already ==> changed
      ensures !changed ==> doc.View() == old(doc.View())
      ensures Presences(Pending(room, doc), room, i + 1, now) == Presences(old(Pending(room, doc)), room, i, now)
    {
      hide Commit, PresenceEdit;
      NeverRefused(doc.View(), i, now);
      changed := already;
      var member := doc.members[i].id;
      var v := doc.WatchPresence(i, now);
      if v.Apply? {
        ghost var r := doc.View();
        ghost var stale := Tables();
        Record(room, doc, v.event, Some(member), v.revoke);
        OverStale(old(Pending(room, doc)), stale, room, r, v.event, Some(member), v.revoke);
        changed := true;
      }
    }

    method SweepOne(room: Id, now: Time)
      requires room in rooms
      modifies this
      ensures secrets == old(secrets) && Tables() == SweepRoom(old(Tables()), room, now)
    {
      hide Commit, Expire, Timeout, Overdue;
      var doc := Load(room, now);
      if doc.state == Closed || doc.state == Expired {
        return;
      }
      ghost var loaded := Tables();
      var changed := WatchBarrier(room, doc, now);
      changed := WatchMembers(room, doc, now, changed);
      if changed {
        Save(room, doc);
      } else {
        assert rooms[room := doc.View()] == rooms;
      }
    }

    method WatchMembers(room: Id, doc: RoomDocument, now: Time, already: bool) returns (changed: bool)
      requires room in rooms
      modifies this, doc
      ensures secrets == old(secrets) && rooms == old(rooms)
      ensures already ==> changed
      ensures !changed ==> doc.View() == old(doc.View())
      ensures Pending(room, doc) == Presences(old(Pending(room, doc)), room, 0, now)
    {
      ghost var timed := Pending(room, doc);
      changed := already;
      var i := 0;
      while i < |doc.members|
        invariant secrets == old(secrets) && rooms == old(rooms) && 0 <= i
        invariant (already ==> changed) && (!changed ==> doc.View() == old(doc.View()))
        invariant Presences(Pending(room, doc), room, i, now) == Presences(timed, room, 0, now)
        decreases |doc.members| - i
      {
        changed := WatchMember(room, doc, i, now, changed);
        i := i + 1;
      }
    }

    method SweepPresence(now: Time)
      modifies this
      ensures Outcome(State(), Ok(Swept)) == Step(old(State()), Timed(now, Op.SweepPresence))
    {
      hide SweepRoom;
      ghost var was := Tables();
      var id := 0;
      var upTo := nextId;
      while id < upTo
        invariant 0 <= id <= upTo == was.nextId && secrets == old(secrets)
        invariant SweepRooms(Tables(), id, upTo, now) == SweepRooms(was, 0, upTo, now)
      {
        if id in rooms {
          SweepOne(id, now);
        }
        id := id + 1;
      }
      assert Tables() == SweepRooms(was, 0, upTo, now);
      Delete(now);
    }

    // What is too old to keep is deleted, with all that refers to it.
    method Delete(now: Time)
      modifies this
      ensures Tables() == Forget(old(Tables()), now) && secrets == old(secrets)
    {
      hide Selected, Retained;
      commands := map k | k in commands && now - COMMAND_RETENTION <= commands[k].createdAt :: commands[k];
      rooms := map r | r in rooms && Retained(rooms[r], now) :: rooms[r];
      codes := map c | c in codes && codes[c] in rooms :: codes[c];
      listings := map l | l in listings && listings[l] in rooms :: listings[l];
      credentials := map m | m in credentials && credentials[m].room in rooms :: credentials[m];
      DeleteEvents();
    }

    method DeleteEvents()
      modifies this`events
      ensures events == Selected(old(events), rooms.Keys)
    {
      hide Selected;
      var kept := [];
      var i := 0;
      assert events[0..] == events && kept + Selected(events, rooms.Keys) == Selected(events, rooms.Keys);
      while i < |events|
        invariant 0 <= i <= |events| && events == old(events)
        invariant kept + Selected(events[i..], rooms.Keys) == Selected(events, rooms.Keys)
      {
        SelectNext(events[i..], rooms.Keys, kept);
        assert events[i..][1..] == events[i + 1..];
        if events[i].room in rooms {
          kept := kept + [events[i]];
        }
        i := i + 1;
      }
      assert events[i..] == [];
      SelectNext(events[i..], rooms.Keys, kept);
      events := kept;
    }
  }

  lemma SelectNext(events: seq<Event>, rooms: set<Id>, kept: seq<Event>)
    ensures kept + Selected(events, rooms)
            == if events == [] then kept
               else (if events[0].room in rooms then kept + [events[0]] else kept) + Selected(events[1..], rooms)
  {
  }

  lemma NeverRefused(r: Room, i: nat, now: Time)
    requires i < |r.members|
    ensures !PresenceEdit(r, i, now).Refused?
  {
  }

  // A commit does not look at what the tables have for the room it replaces.
  lemma OverStale(db: Db, stale: Db, room: Id, r: Room, kind: EventType, actor: Option<Id>, revoke: Revocation)
    requires room in db.rooms && db == stale.(rooms := db.rooms) && db.rooms == stale.rooms[room := db.rooms[room]]
    ensures Commit(db, room, r, kind, actor, revoke) == Commit(stale, room, r, kind, actor, revoke)
  {
    assert db.rooms[room := r.(version := r.version + 1, lastEvent := db.log.next)]
        == stale.rooms[room := r.(version := r.version + 1, lastEvent := db.log.next)];
  }

  lemma KeepsTokens(db: Db, room: Id, s: Room, me: Id)
    requires me in db.creds
    ensures forall r: Room, kind: EventType, actor: Option<Id> ::
      var c := Commit(db, room, r, kind, actor, NoOne); me in c.creds && c.creds[me] == db.creds[me]
  {
  }

  lemma NobodyRevoked(creds: map<Id, Credential>, room: Id)
    ensures Revoke(creds, room, NoOne) == creds
  {
  }
}
