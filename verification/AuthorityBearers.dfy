/**
 Who is let in.  The tokens of a member are those of its latest issuing transaction, every other
 bearer is refused, and a member that is present in an open room is never refused.
 */
module AuthorityBearers {
  import opened Common
  import opened Rooms
  import opened RoomInvariants
  import opened AuthorityModel
  import opened AuthorityInvariants
  import opened AuthorityEdits
  import opened AuthorityTransactions
  import opened AuthorityRuns
  import opened AuthorityProperties

  // ---- tokens in the tables -----------------------------------------------------------------

  // No credential is new or has other tokens, but for the named member.
  predicate SameTokens(db: Db, c: Db, but: Option<Id>) {
    forall m :: m in c.creds && Some(m) != but ==>
      m in db.creds && c.creds[m] == db.creds[m].(active := c.creds[m].active)
  }

  lemma CommitTokens(db: Db, room: Id, s: Room, kind: EventType, actor: Option<Id>, revoke: Revocation)
    ensures SameTokens(db, Commit(db, room, s, kind, actor, revoke), None)
  {
  }

  lemma TokensOn(a: Db, b: Db, c: Db, but: Option<Id>)
    requires SameTokens(a, b, None) && SameTokens(b, c, but)
    ensures SameTokens(a, c, but)
  {
  }

  lemma ExpireTokens(db: Db, room: Id, now: Time)
    requires room in db.rooms
    ensures SameTokens(db, Expire(db, room, now), None)
  {
  }

  lemma SettleTokens(db: Db, room: Id, e: Edit, k: Command, me: Id, now: Time)
    requires room in db.rooms && Settle(db, room, e, k, me, now).Ok?
    ensures SameTokens(db, Settle(db, room, e, k, me, now).value.db, None)
  {
  }

  lemma MemberTxTokens(db: Db, q: Request, me: Id, k: Command, now: Time)
    requires !IsSecret(q) && q.room in db.rooms && MemberTx(db, q, me, k, now).Ok?
    ensures SameTokens(db, MemberTx(db, q, me, k, now).value.db, None)
  {
    hide Settle, BeginDEdit, AckDEdit, ActionEdit, Stale;
    var r := db.rooms[q.room];
    match q
    case Act(room, _, action, expected) =>
      if Stale(r, me, action, expected) == Proceed {
        SettleTokens(db, room, ActionEdit(r, IndexOf(r.members, me).value, action, db.nextId, now), k, me, now);
      }
    case BeginClosing(room, _, attempt, closing, version) =>
      SettleTokens(db, room, BeginDEdit(r, me, attempt, closing, version, now), k, me, now);
    case AckQuiescent(room, _, attempt, quiescent, version) =>
      SettleTokens(db, room, AckDEdit(r, me, attempt, quiescent, version, now), k, me, now);
  }

  lemma MemberCallTokens(db: Db, q: Request, id: string, now: Time)
    requires !IsSecret(q) && MemberCall(db, q, id, now).Ok?
    ensures SameTokens(db, MemberCall(db, q, id, now).value.db, None)
  {
    hide MemberTx, Expire;
    ExpireTokens(db, q.room, now);
    var loaded := Expire(db, q.room, now);
    var k := Command(ScopeOf(q).value, id);
    if k !in loaded.commands {
      MemberTxTokens(loaded, q, q.bearer.value.member, k, now);
      TokensOn(db, loaded, MemberTx(loaded, q, q.bearer.value.member, k, now).value.db, None);
    }
  }

  lemma ApplyTokens(db: Db, room: Id, e: Edit, now: Time)
    requires room in db.rooms && Apply(Expire(db, room, now), room, e).Ok?
    ensures SameTokens(db, Apply(Expire(db, room, now), room, e).value.db, None)
  {
    ExpireTokens(db, room, now);
  }

  // ---- sweeps -------------------------------------------------------------------------------

  lemma {:induction false} PresencesTokens(db: Db, room: Id, i: nat, now: Time)
    requires room in db.rooms
    ensures SameTokens(db, Presences(db, room, i, now), None)
    decreases |db.rooms[room].members| - i
  {
    hide Commit, PresenceEdit;
    if i < |db.rooms[room].members| {
      var e := PresenceEdit(db.rooms[room], i, now);
      if e.Changed? {
        var actor := Some(db.rooms[room].members[i].id);
        var c := Commit(db, room, e.room, e.event, actor, e.revoke);
        CommitTokens(db, room, e.room, e.event, actor, e.revoke);
        Committed(db, room, e.room, e.event, actor, e.revoke);
        PresencesTokens(c, room, i + 1, now);
        TokensOn(db, c, Presences(c, room, i + 1, now), None);
      } else {
        PresencesTokens(db, room, i + 1, now);
      }
    }
  }

  lemma SweepRoomTokens(db: Db, room: Id, now: Time)
    requires room in db.rooms
    ensures SameTokens(db, SweepRoom(db, room, now), None)
  {
    hide Expire, Timeout, Presences;
    ExpireTokens(db, room, now);
    var loaded := Expire(db, room, now);
    if IsOpen(loaded.rooms[room]) {
      TimeoutTokens(loaded, room, now);
      var timed := Timeout(loaded, room, now);
      PresencesTokens(timed, room, 0, now);
      TokensOn(db, loaded, timed, None);
      TokensOn(db, timed, Presences(timed, room, 0, now), None);
    }
  }

  lemma TimeoutTokens(db: Db, room: Id, now: Time)
    requires room in db.rooms
    ensures SameTokens(db, Timeout(db, room, now), None)
  {
  }

  lemma {:induction false} SweepRoomsTokens(db: Db, from: Id, upTo: Id, now: Time)
    ensures SameTokens(db, SweepRooms(db, from, upTo, now), None)
    decreases upTo - from
  {
    hide SweepRoom;
    if from < upTo {
      var c := if from in db.rooms then SweepRoom(db, from, now) else db;
      if from in db.rooms {
        SweepRoomTokens(db, from, now);
      }
      SweepRoomsTokens(c, from + 1, upTo, now);
      TokensOn(db, c, SweepRooms(c, from + 1, upTo, now), None);
    }
  }

  lemma SweepTokens(db: Db, now: Time)
    ensures SameTokens(db, Sweep(db, now), None)
  {
    hide SweepRooms;
    SweepRoomsTokens(db, 0, db.nextId, now);
    TokensOn(db, SweepRooms(db, 0, db.nextId, now), Sweep(db, now), None);
  }

  // ---- issuing ------------------------------------------------------------------------------

  // A transaction that issues tokens hands out those in the row of the member it answers, with new
  // serials; the member is new, or its former reconnect token stays good for a short while.
  predicate Issued(db: Db, c: Db, response: Response, now: Time) {
    && response.Secret? && db.nextId < c.nextId
    && SameTokens(db, c, Some(response.me))
    && response.me in c.creds && c.creds[response.me].active && response.me < c.nextId
    && c.creds[response.me].token == response.token && c.creds[response.me].reconnect == response.reconnect
    && response.token.member == response.me && response.reconnect.member == response.me
    && db.nextId <= response.token.serial < c.nextId && db.nextId <= response.reconnect.serial < c.nextId
    && (if c.creds[response.me].previous.None? then db.nextId <= response.me
        else
          && response.me in db.creds && c.creds[response.me].previous.value == db.creds[response.me].reconnect
          && c.creds[response.me].previousUntil == now + RECONNECT_WINDOW)
  }

  lemma CreateIssues(db: Db, rejected: Option<int>, listed: bool, draws: seq<Id>, now: Time)
    requires Create(db, rejected, listed, draws, now).Ok?
    ensures var d := Create(db, rejected, listed, draws, now).value; Issued(db, d.db, d.response, now)
  {
    hide FirstFree;
  }

  lemma JoinIssues(db: Db, room: Id, now: Time)
    requires room in db.rooms && JoinRoom(Expire(db, room, now), room, now).Ok?
    ensures var d := JoinRoom(Expire(db, room, now), room, now).value; Issued(db, d.db, d.response, now)
  {
    ExpireTokens(db, room, now);
  }

  lemma ReturnIssues(db: Db, room: Id, token: Token, now: Time)
    requires DbOk(db) && Reconnect(db, room, token, now).Ok?
    ensures var d := Reconnect(db, room, token, now).value;
            && Issued(db, d.db, d.response, now) && d.response.me == token.member
            && token.member in db.creds && MayUse(db.creds[token.member], room, token, now)
  {
    hide DbOk, IndexOf;
    ExpireTokens(db, room, now);
    ActiveStays(db, room, now, token.member);
    MemberIds(db, token.member);
  }

  lemma ActiveStays(db: Db, room: Id, now: Time, m: Id)
    requires room in db.rooms && m in Expire(db, room, now).creds && IsOpen(Expire(db, room, now).rooms[room])
    ensures Expire(db, room, now) == db
  {
  }

  lemma MemberIds(db: Db, m: Id)
    requires DbOk(db) && m in db.creds
    ensures m < db.nextId
  {
    assert CredRow(db, m);
  }

  lemma SecretTxIssues(db: Db, q: Request, now: Time)
    requires DbOk(db) && IsSecret(q) && SecretTx(db, q, now).Ok?
    ensures var d := SecretTx(db, q, now).value; Issued(db, d.db, d.response, now)
  {
    hide DbOk, Issued, JoinRoom, Expire, Create, Reconnect, SameTokens;
    match q
    case CreateRoom(_, rejected, listed, draws) => CreateIssues(db, rejected, listed, draws, now);
    case JoinByCode(_, code) => JoinIssues(db, db.index.code[code], now);
    case JoinListed(_, listing) => JoinIssues(db, db.index.listing[listing], now);
    case Return(room, token) => ReturnIssues(db, room, token, now);
  }

  // ---- steps --------------------------------------------------------------------------------

  // The step is a create, a join or a return that issues tokens: it does not repeat a cached answer.
  predicate Issues(store: Store, t: Timed) {
    var o := Step(store, t);
    t.op.Call? && IsSecret(t.op.request) && o.reply.Ok? && o.reply.value.Secret? && o.store.db != store.db
  }

  lemma StepIssues(store: Store, t: Timed)
    requires DbOk(store.db) && Issues(store, t)
    ensures Issued(store.db, Step(store, t).store.db, Step(store, t).reply.value, t.now)
  {
    hide DbOk, SecretTx, FindSecret;
    SecretTxIssues(store.db, t.op.request, t.now);
  }

  lemma StepTokens(store: Store, t: Timed)
    requires DbOk(store.db) && !Issues(store, t)
    ensures SameTokens(store.db, Step(store, t).store.db, None)
  {
    hide DbOk, SameTokens, SecretStep, MemberCall, View, FailTransport, ForceD, Sweep, IsSecret, SecretTx;
    NoChange(store.db);
    match t.op
    case Call(id, q) =>
      if IsSecret(q) {
        SecretScoped(q);
        SecretTokens(store, Command(ScopeOf(q).value, id), q, t.now);
      } else if MemberCall(store.db, q, id, t.now).Ok? {
        MemberCallTokens(store.db, q, id, t.now);
      }
    case Snapshot(room, bearer) =>
      if View(store.db, room, bearer, t.now).Ok? {
        ViewTokens(store.db, room, bearer, t.now);
      }
    case TransportLost(room, attempt, code) =>
      if FailTransport(store.db, room, attempt, code, t.now).Ok? {
        LostTokens(store.db, room, attempt, code, t.now);
      }
    case Force(room, attempt, code) =>
      if ForceD(store.db, room, attempt, code, t.now).Ok? {
        ForceTokens(store.db, room, attempt, code, t.now);
      }
    case SweepPresence => SweepTokens(store.db, t.now);
  }

  lemma SecretScoped(q: Request)
    requires IsSecret(q)
    ensures ScopeOf(q).Some?
  {
  }

  lemma NoChange(db: Db)
    ensures SameTokens(db, db, None)
  {
  }

  lemma SecretTokens(store: Store, k: Command, q: Request, now: Time)
    requires DbOk(store.db) && IsSecret(q)
    requires var o := SecretStep(store, k, SecretTx(store.db, q, now), now);
             !(o.reply.Ok? && o.reply.value.Secret? && o.store.db != store.db)
    ensures SameTokens(store.db, SecretStep(store, k, SecretTx(store.db, q, now), now).store.db, None)
  {
    hide DbOk, SecretTx, FindSecret;
    if SecretTx(store.db, q, now).Ok? {
      SecretTxIssues(store.db, q, now);
    }
  }

  lemma ViewTokens(db: Db, room: Id, bearer: Option<Token>, now: Time)
    requires View(db, room, bearer, now).Ok?
    ensures SameTokens(db, View(db, room, bearer, now).value.db, None)
  {
    hide Expire;
    ExpireTokens(db, room, now);
  }

  lemma LostTokens(db: Db, room: Id, attempt: Id, code: string, now: Time)
    requires FailTransport(db, room, attempt, code, now).Ok?
    ensures SameTokens(db, FailTransport(db, room, attempt, code, now).value.db, None)
  {
    hide Expire, Apply, TransportFailEdit;
    ApplyTokens(db, room, TransportFailEdit(Expire(db, room, now).rooms[room], attempt, code, now), now);
  }

  lemma ForceTokens(db: Db, room: Id, attempt: Id, code: string, now: Time)
    requires ForceD(db, room, attempt, code, now).Ok?
    ensures SameTokens(db, ForceD(db, room, attempt, code, now).value.db, None)
  {
    hide Expire, Apply, ForceEdit, DCode;
    ApplyTokens(db, room, ForceEdit(Expire(db, room, now).rooms[room], attempt, code, now), now);
  }

  // ---- runs ---------------------------------------------------------------------------------

  // What a member was last given, the reconnect token that replaced, and when.
  datatype Grant = Grant(token: Token, reconnect: Token, replaced: Option<Token>, at: Time)

  function LatestGrant(steps: seq<Timed>, m: Id): (g: Option<Grant>)
  {
    if steps == [] then None
    else
      var p, t := steps[..|steps| - 1], steps[|steps| - 1];
      var store, before := Run(EMPTY, p), LatestGrant(p, m);
      var reply := Step(store, t).reply;
      if Issues(store, t) && reply.value.me == m then
        Some(Grant(reply.value.token, reply.value.reconnect,
                   if before.Some? then Some(before.value.reconnect) else None, t.now))
      else before
  }

  lemma LastStep(steps: seq<Timed>)
    requires steps != []
    ensures Run(EMPTY, steps) == Step(Run(EMPTY, steps[..|steps| - 1]), steps[|steps| - 1]).store
  {
    hide Step;
    var p, t := steps[..|steps| - 1], steps[|steps| - 1];
    assert steps == p + [t];
    RunAppend(EMPTY, p, [t]);
    OneStep(Run(EMPTY, p), t);
  }

  // The row of a member holds what it was last given, for as long as there is a row.
  predicate Granted(db: Db, m: Id, g: Option<Grant>) {
    && (m in db.creds ==>
          && g.Some? && db.creds[m].token == g.value.token && db.creds[m].reconnect == g.value.reconnect
          && db.creds[m].previous == g.value.replaced
          && (g.value.replaced.Some? ==> db.creds[m].previousUntil == g.value.at + RECONNECT_WINDOW))
    && (g.Some? ==> m < db.nextId && g.value.token.serial < db.nextId && g.value.reconnect.serial < db.nextId
                    && g.value.token.member == m && g.value.reconnect.member == m)
  }

  lemma {:induction false} GrantedRun(steps: seq<Timed>, m: Id)
    ensures Granted(After(steps), m, LatestGrant(steps, m))
    decreases |steps|
  {
    hide DbOk, PhasesOk, Issues, Step, Run, RoomAdvances;
    if steps == [] {
      NothingGranted(m);
    } else {
      var p, t := steps[..|steps| - 1], steps[|steps| - 1];
      var store := Run(EMPTY, p);
      GrantedRun(p, m);
      ReachableOk(p);
      LastStep(steps);
      StepAdvances(store, t);
      if Issues(store, t) {
        StepIssues(store, t);
      } else {
        StepTokens(store, t);
      }
    }
  }

  lemma NothingGranted(m: Id)
    ensures Granted(After([]), m, None)
  {
  }

  // The steps that a bearer must be named for.
  predicate NeedsBearer(op: Op) {
    op.Snapshot? || (op.Call? && !IsSecret(op.request))
  }

  function BearerOf(op: Op): Option<Token>
    requires NeedsBearer(op)
  {
    if op.Snapshot? then op.bearer else op.request.bearer
  }

  lemma UnknownBearer(store: Store, t: Timed)
    requires NeedsBearer(t.op)
    requires var b := BearerOf(t.op);
             b.None? || b.value.member !in store.db.creds || store.db.creds[b.value.member].token != b.value
    ensures Step(store, t).reply == Err(401) && Step(store, t).store == store
  {
  }

  // After any run a command or a read needs the token its member was last given; any other bearer
  // is refused with 401 and changes nothing.
  lemma OnlyLatestToken(steps: seq<Timed>, t: Timed)
    requires NeedsBearer(t.op)
    ensures var b, o := BearerOf(t.op), Step(Run(EMPTY, steps), t);
            b.None? || LatestGrant(steps, b.value.member).None?
              || LatestGrant(steps, b.value.member).value.token != b.value
            ==> o.reply == Err(401) && o.store == Run(EMPTY, steps)
  {
    hide Step, Run, LatestGrant;
    var b := BearerOf(t.op);
    if b.Some? {
      GrantedRun(steps, b.value.member);
    }
    if b.None? || LatestGrant(steps, b.value.member).None?
      || LatestGrant(steps, b.value.member).value.token != b.value {
      UnknownBearer(Run(EMPTY, steps), t);
    }
  }

  // A later grant has new tokens.
  lemma {:induction false} GrantsAreNew(first: seq<Timed>, rest: seq<Timed>, m: Id)
    ensures var g := LatestGrant(first + rest, m);
            g == LatestGrant(first, m)
            || (g.Some? && After(first).nextId <= g.value.token.serial
                && After(first).nextId <= g.value.reconnect.serial)
    decreases |rest|
  {
    hide DbOk, PhasesOk, Step, Run, Issued, Advances;
    if rest == [] {
      assert first + rest == first;
    } else {
      var init, t := rest[..|rest| - 1], rest[|rest| - 1];
      var all := first + rest;
      assert all[..|all| - 1] == first + init && all[|all| - 1] == t;
      GrantsAreNew(first, init, m);
      ReachableOk(first);
      ReachableOk(first + init);
      NextGrows(first, init);
      if Issues(Run(EMPTY, first + init), t) {
        StepIssues(Run(EMPTY, first + init), t);
        SerialsNew(After(first + init), Step(Run(EMPTY, first + init), t).store.db,
                   Step(Run(EMPTY, first + init), t).reply.value, t.now);
      }
    }
  }

  lemma SerialsNew(db: Db, c: Db, response: Response, now: Time)
    requires Issued(db, c, response, now)
    ensures db.nextId <= response.token.serial && db.nextId <= response.reconnect.serial
  {
  }

  lemma NextGrows(first: seq<Timed>, rest: seq<Timed>)
    ensures After(first).nextId <= After(first + rest).nextId
  {
    hide DbOk, PhasesOk, Step, Run, RoomAdvances;
    ReachableOk(first);
    RunAppend(EMPTY, first, rest);
    RunAdvances(Run(EMPTY, first), rest);
  }

  // A token that was replaced is refused for good.
  lemma ReplacedForGood(first: seq<Timed>, next: seq<Timed>, rest: seq<Timed>, token: Token, t: Timed)
    requires LatestGrant(first, token.member).Some? && LatestGrant(first, token.member).value.token == token
    requires LatestGrant(first + next, token.member) != LatestGrant(first, token.member)
    requires NeedsBearer(t.op) && BearerOf(t.op) == Some(token)
    ensures Step(Run(EMPTY, first + next + rest), t).reply == Err(401)
  {
    hide Step, Run, LatestGrant;
    var m := token.member;
    GrantedRun(first, m);
    GrantsAreNew(first, next, m);
    GrantsAreNew(first + next, rest, m);
    NextGrows(first, next);
    OnlyLatestToken(first + next + rest, t);
  }
}
