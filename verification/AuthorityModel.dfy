/**
 The room authority of relay/authority.py as a state machine.  One step is one call of the
 store: a transaction that either commits everything it did or, when it refuses, nothing.
 Identifiers, tokens and event sequences are drawn from counters; a token names the member it
 was issued to, as its hash does in the credentials table.
 */
module AuthorityModel {
  import opened Common
  import opened Rooms

  const COMMAND_RETENTION := 24 * 60 * 60 * SECOND
  const AUTHORITY_RETENTION := 14 * 24 * 60 * 60 * SECOND
  const SECRET_RESPONSE := 10 * 60 * SECOND
  const SECRET_CAPACITY := 4096
  const CODE_DRAWS := 100

  datatype Token = Token(member: Id, serial: Id)

  datatype Credential = Credential(
    token: Token, reconnect: Token, previous: Option<Token>, previousUntil: Time, room: Id, active: bool)

  datatype Event = Event(sequence: nat, room: Id, version: nat, kind: EventType, actor: Option<Id>)

  datatype ActionName =
    | ReadyName | HeartbeatName | AttemptName | ClaimName | TransferName | LockName | PhaseName
    | LeaveName | RemoveName | CloseName | UnknownName

  // Whose command identifiers are told apart from whose.
  datatype Scope =
    | CreateScope(client: string)
    | JoinScope(client: string, code: Id)
    | PublicJoinScope(client: string, listing: Id)
    | ActionScope(member: Id, action: ActionName)
    | ClosingScope(member: Id, attempt: Id)
    | QuiescentScope(member: Id, attempt: Id)
    | ReconnectScope(room: Id, token: Token)

  datatype Command = Command(scope: Scope, id: string)

  datatype Response =
    | Public(room: Room, me: Id)
    | Secret(room: Room, me: Id, token: Token, reconnect: Token)
    | Completed(id: Id)
    | Flag(done: bool)
    | Swept

  datatype Row = Row(response: Response, createdAt: Time)

  datatype Cached = Cached(until: Time, response: Response)

  datatype Log = Log(events: seq<Event>, next: nat)

  // The unique indices of the rooms table.
  datatype Index = Index(code: map<Id, Id>, listing: map<Id, Id>)

  datatype Db = Db(
    rooms: map<Id, Room>, index: Index, creds: map<Id, Credential>, commands: map<Command, Row>,
    log: Log, nextId: Id)

  // The cache of secret responses lives beside the database, so a rollback does not undo it.
  datatype Store = Store(db: Db, secrets: map<Command, Cached>)

  const EMPTY := Store(Db(map[], Index(map[], map[]), map[], map[], Log([], 1), 0), map[])

  // What a transaction that commits leaves behind.
  datatype Done = Done(db: Db, response: Response)

  datatype Outcome = Outcome(store: Store, reply: Result<Response, int>)

  // ---- rows ---------------------------------------------------------------------------------

  function Revoke(creds: map<Id, Credential>, room: Id, revoke: Revocation): (revoked: map<Id, Credential>)
    ensures revoked.Keys == creds.Keys
  {
    map m | m in creds ::
      if creds[m].room == room && (revoke.Everyone? || revoke == Only(m)) then creds[m].(active := false)
      else creds[m]
  }

  // A changed room gets its next version, one event and a new document.
  function Commit(db: Db, room: Id, r: Room, kind: EventType, actor: Option<Id>, revoke: Revocation): (c: Db)
    ensures room in c.rooms && c.rooms.Keys == db.rooms.Keys + {room}
  {
    var s := r.(version := r.version + 1, lastEvent := db.log.next);
    db.(rooms := db.rooms[room := s],
        creds := Revoke(db.creds, room, revoke),
        log := Append(db.log, room, s.version, kind, actor))
  }

  function Append(log: Log, room: Id, version: nat, kind: EventType, actor: Option<Id>): Log {
    Log(log.events + [Event(log.next, room, version, kind, actor)], log.next + 1)
  }

  function Remember(db: Db, k: Command, response: Response, now: Time): Db {
    db.(commands := db.commands[k := Row(response, now)])
  }

  // Reading a room whose time is over expires it.
  function Load(db: Db, room: Id, now: Time): (l: Result<Db, int>)
    ensures l.Ok? ==> room in db.rooms && l.value.rooms.Keys == db.rooms.Keys
  {
    if room !in db.rooms then Err(404)
    else Ok(Expire(db, room, now))
  }

  function Expire(db: Db, room: Id, now: Time): (e: Db)
    requires room in db.rooms
    ensures e.rooms.Keys == db.rooms.Keys
  {
    var r := db.rooms[room];
    if Overdue(r, now) then Commit(db, room, ExpireEdit(r).room, RoomExpired, None, Everyone) else db
  }

  predicate Holds(db: Db, bearer: Token) {
    bearer.member in db.creds && db.creds[bearer.member].token == bearer && db.creds[bearer.member].active
  }

  // The room of a bearer, once its credential has been checked.
  function Session(db: Db, bearer: Option<Token>, room: Id, now: Time): (s: Result<Db, int>)
    ensures s.Ok? ==> bearer.Some? && Holds(db, bearer.value) && Load(db, room, now) == s
  {
    if bearer.None? || !Holds(db, bearer.value) then Err(401)
    else if db.creds[bearer.value.member].room != room then Err(403)
    else Load(db, room, now)
  }

  // ---- idempotent commands ------------------------------------------------------------------

  function Recorded(db: Db, k: Command): (r: Result<Option<Response>, int>)
  {
    if k.id == "" then Err(400)
    else Ok(if k in db.commands then Some(db.commands[k].response) else None)
  }

  function Answer(db: Db, room: Id, k: Command, me: Id, now: Time): (d: Result<Done, int>)
    requires room in db.rooms
  {
    var response := Public(db.rooms[room], me);
    Ok(Done(Remember(db, k, response, now), response))
  }

  // A command either changes its room and is remembered, is remembered only, or is refused.
  function Settle(db: Db, room: Id, e: Edit, k: Command, me: Id, now: Time): (d: Result<Done, int>)
    requires room in db.rooms
  {
    match e
    case Refused(status) => Err(status)
    case Same => Answer(db, room, k, me, now)
    case Changed(s, kind, revoke) =>
      Answer(Commit(db, room, s, kind, Some(me), revoke).(nextId := db.nextId + 1), room, k, me, now)
  }

  function NameOf(action: Action): ActionName {
    match action
    case Ready(_, _) => ReadyName
    case Heartbeat => HeartbeatName
    case StartAttempt => AttemptName
    case ClaimCreator(_) => ClaimName
    case TransferCreator(_, _) => TransferName
    case LockRole(_) => LockName
    case SetPhase(_, _, _) => PhaseName
    case Leave => LeaveName
    case RemoveOffline(_) => RemoveName
    case Close => CloseName
    case Unknown => UnknownName
  }

  function Mutate(db: Db, room: Id, me: Id, k: Command, action: Action, expected: Option<nat>, now: Time)
    : (d: Result<Done, int>)
    requires room in db.rooms
  {
    var r := db.rooms[room];
    if !IsOpen(r) then Err(409)
    else
      match Stale(r, me, action, expected)
      case Conflict => Err(409)
      case Idle => Answer(db, room, k, me, now)
      case Proceed =>
        match IndexOf(r.members, me)
        case None => Err(500)
        case Some(i) => Settle(db, room, ActionEdit(r, i, action, db.nextId, now), k, me, now)
  }

  // ---- secret responses ---------------------------------------------------------------------

  datatype Lookup = Lookup(secrets: map<Command, Cached>, found: Result<Option<Response>, int>)

  function Live(secrets: map<Command, Cached>, now: Time): map<Command, Cached> {
    map k | k in secrets && secrets[k].until > now :: secrets[k]
  }

  function Prune(secrets: map<Command, Cached>, now: Time): map<Command, Cached> {
    if |secrets| >= SECRET_CAPACITY then Live(secrets, now) else secrets
  }

  // A secret is repeated while the cache has it; afterwards the command is only known to be done.
  function FindSecret(store: Store, k: Command, now: Time): (l: Lookup)
  {
    var pruned := Prune(store.secrets, now);
    if k.id == "" then Lookup(store.secrets, Err(400))
    else if |store.secrets| >= SECRET_CAPACITY && |pruned| >= SECRET_CAPACITY && k !in pruned then
      Lookup(pruned, Err(503))
    else if k in pruned && pruned[k].until > now then Lookup(pruned, Ok(Some(pruned[k].response)))
    else Lookup(pruned - {k}, if k in store.db.commands then Err(409) else Ok(None))
  }

  // All that the database keeps of a secret response.
  function Marker(response: Response): Response {
    if response.Secret? then Response.Completed(response.room.key.id) else response
  }

  // What a secret command makes of the store, given what its transaction would do.
  function SecretStep(store: Store, k: Command, tx: Result<Done, int>, now: Time): (o: Outcome)
  {
    var l := FindSecret(store, k, now);
    if l.found.Err? then Outcome(store.(secrets := l.secrets), Err(l.found.error))
    else if l.found.value.Some? then Outcome(store.(secrets := l.secrets), Ok(l.found.value.value))
    else
      match tx
      case Err(status) => Outcome(store.(secrets := l.secrets), Err(status))
      case Ok(done) =>
        Outcome(Store(Remember(done.db, k, Marker(done.response), now),
                      l.secrets[k := Cached(now + SECRET_RESPONSE, done.response)]),
                Ok(done.response))
  }

  function FirstFree(draws: seq<Id>, used: map<Id, Id>): (code: Option<Id>)
    ensures code.Some? ==> code.value in draws && code.value !in used
    ensures code.None? ==> forall c :: c in draws ==> c in used
  {
    if draws == [] then None
    else if draws[0] !in used then Some(draws[0])
    else FirstFree(draws[1..], used)
  }

  function NewCode(draws: seq<Id>, used: map<Id, Id>): (code: Option<Id>)
    ensures code.Some? ==> code.value !in used
  {
    FirstFree(if |draws| <= CODE_DRAWS then draws else draws[..CODE_DRAWS], used)
  }

  // A member, its token and its reconnect token take three identifiers.
  function Issue(db: Db, room: Id, member: Id): Db {
    var issued := Credential(Token(member, member + 1), Token(member, member + 2), None, 0, room, true);
    db.(creds := db.creds[member := issued])
  }

  function Secrets(db: Db, room: Id, member: Id): Result<Done, int>
    requires room in db.rooms && member in db.creds
  {
    Ok(Done(db, Secret(db.rooms[room], member, db.creds[member].token, db.creds[member].reconnect)))
  }

  function NewRoom(id: Id, listed: bool, code: Id, now: Time): Room {
    var listing := if listed then Some(id + 4) else None;
    var owner := Member(id + 1, E.MemberA, Online, false, None, None, now);
    Room(RoomKey(id, code, listing, id + 1, now + ROOM_TTL), 0, 0, WaitingForPartner, Some(now + WAITING_TTL),
         [owner], None, 0)
  }

  function Grown(index: Index, k: RoomKey, room: Id): Index {
    Index(index.code[k.code := room],
          if k.listing.Some? then index.listing[k.listing.value := room] else index.listing)
  }

  function Create(db: Db, rejected: Option<int>, listed: bool, draws: seq<Id>, now: Time): (d: Result<Done, int>)
  {
    if rejected.Some? then Err(rejected.value)
    else
      var code := NewCode(draws, db.index.code);
      if code.None? then Err(503)
      else
        var r := NewRoom(db.nextId, listed, code.value, now);
        var indexed := db.(index := Grown(db.index, r.key, r.key.id), nextId := db.nextId + 5);
        Secrets(Issue(Commit(indexed, r.key.id, r, RoomCreated, Some(r.key.owner), NoOne), r.key.id, r.key.owner),
                r.key.id, r.key.owner)
  }

  // A loaded room takes one more member.
  function JoinRoom(db: Db, room: Id, now: Time): (d: Result<Done, int>)
    requires room in db.rooms
  {
    match JoinEdit(db.rooms[room], db.nextId, now)
    case Refused(status) => Err(status)
    case Same => Err(500)
    case Changed(s, kind, revoke) =>
      var me := db.nextId;
      Secrets(Issue(Commit(db, room, s, kind, Some(me), revoke).(nextId := me + 3), room, me), room, me)
  }

  function Join(db: Db, code: Id, now: Time): (d: Result<Done, int>)
  {
    if code !in db.index.code then Err(404)
    else
      match Load(db, db.index.code[code], now)
      case Err(status) => Err(status)
      case Ok(loaded) =>
        if !IsOpen(loaded.rooms[db.index.code[code]]) then Err(410)
        else JoinRoom(loaded, db.index.code[code], now)
  }

  predicate OwnerAvailable(r: Room) {
    var i := IndexOf(r.members, r.key.owner);
    i.Some? && (r.members[i.value].presence == Online || r.members[i.value].presence == Reconnecting)
  }

  function JoinPublic(db: Db, listing: Id, now: Time): (d: Result<Done, int>)
  {
    if listing !in db.index.listing then Err(404)
    else
      match Load(db, db.index.listing[listing], now)
      case Err(status) => Err(status)
      case Ok(loaded) =>
        var r := loaded.rooms[db.index.listing[listing]];
        if !IsOpen(r) || !OwnerAvailable(r) then Err(410)
        else JoinRoom(loaded, db.index.listing[listing], now)
  }

  // The reconnect token of a member, or the one it replaced a short while ago.
  predicate MayUse(c: Credential, room: Id, token: Token, now: Time) {
    c.room == room && (c.reconnect == token || (c.previous == Some(token) && c.previousUntil > now))
  }

  function Rotate(db: Db, member: Id, now: Time): Db
    requires member in db.creds
  {
    var c := db.creds[member];
    db.(creds := db.creds[member := c.(token := Token(member, db.nextId), reconnect := Token(member, db.nextId + 1),
                                       previous := Some(c.reconnect), previousUntil := now + RECONNECT_WINDOW)],
        nextId := db.nextId + 2)
  }

  function Reconnect(db: Db, room: Id, token: Token, now: Time): (d: Result<Done, int>)
  {
    var me := token.member;
    if me !in db.creds || !MayUse(db.creds[me], room, token, now) then Err(401)
    else
      match Load(db, room, now)
      case Err(status) => Err(status)
      case Ok(loaded) =>
        match IndexOf(loaded.rooms[room].members, me)
        case None => Err(500)
        case Some(i) => Readmit(loaded, room, i, me, now, db.creds[me].active)
  }

  // Whether the credential was active is known from before the room was loaded.
  function Readmit(db: Db, room: Id, i: nat, me: Id, now: Time, active: bool): (d: Result<Done, int>)
    requires room in db.rooms && i < |db.rooms[room].members|
  {
    if !MayReconnect(db.rooms[room], i, now) then Err(410)
    else if !active || me !in db.creds then Err(401)
    else
      var s := ReconnectEdit(db.rooms[room], i, now).room;
      Secrets(Commit(Rotate(db, me, now), room, s, MemberReconnected, Some(me), NoOne), room, me)
  }

  // ---- the relay's own steps ----------------------------------------------------------------

  // A step of the relay itself tells whether it changed the room.
  function Apply(db: Db, room: Id, e: Edit): (d: Result<Done, int>)
  {
    match e
    case Refused(status) => Err(status)
    case Same => Ok(Done(db, Flag(false)))
    case Changed(s, kind, revoke) =>
      Ok(Done(Commit(db, room, s, kind, None, revoke), Flag(true)))
  }

  function FailTransport(db: Db, room: Id, attempt: Id, code: string, now: Time): (d: Result<Done, int>)
  {
    match Load(db, room, now)
    case Err(status) => Err(status)
    case Ok(loaded) => Apply(loaded, room, TransportFailEdit(loaded.rooms[room], attempt, code, now))
  }

  function ForceD(db: Db, room: Id, attempt: Id, code: string, now: Time): (d: Result<Done, int>)
  {
    if !DCode(code) then Err(400)
    else
      match Load(db, room, now)
      case Err(status) => Err(status)
      case Ok(loaded) => Apply(loaded, room, ForceEdit(loaded.rooms[room], attempt, code, now))
  }

  function Timeout(db: Db, room: Id, now: Time): (swept: Db)
    requires room in db.rooms
    ensures swept.rooms.Keys == db.rooms.Keys
  {
    match TimeoutEdit(db.rooms[room], now)
    case Changed(s, kind, revoke) => Commit(db, room, s, kind, None, revoke)
    case _ => db
  }

  // The presence of the members from `i` on, in order.
  function Presences(db: Db, room: Id, i: nat, now: Time): (swept: Db)
    requires room in db.rooms
    ensures swept.rooms.Keys == db.rooms.Keys
    decreases |db.rooms[room].members| - i
  {
    if |db.rooms[room].members| <= i then db
    else
      match PresenceEdit(db.rooms[room], i, now)
      case Changed(s, kind, revoke) =>
        Presences(Commit(db, room, s, kind, Some(db.rooms[room].members[i].id), revoke), room, i + 1, now)
      case _ => Presences(db, room, i + 1, now)
  }

  function SweepRoom(db: Db, room: Id, now: Time): (swept: Db)
    requires room in db.rooms
    ensures swept.rooms.Keys == db.rooms.Keys
  {
    var loaded := Expire(db, room, now);
    if !IsOpen(loaded.rooms[room]) then loaded
    else
      var timed := Timeout(loaded, room, now);
      Presences(timed, room, 0, now)
  }

  // Rooms are swept in the order of their creation.
  function SweepRooms(db: Db, from: Id, upTo: Id, now: Time): (swept: Db)
    decreases upTo - from
  {
    if upTo <= from then db
    else SweepRooms(if from in db.rooms then SweepRoom(db, from, now) else db, from + 1, upTo, now)
  }

  predicate Retained(r: Room, now: Time) {
    IsOpen(r) || now - AUTHORITY_RETENTION <= r.key.expiresAt
  }

  function Selected(events: seq<Event>, rooms: set<Id>): (kept: seq<Event>)
    ensures forall e :: e in kept <==> e in events && e.room in rooms
  {
    if events == [] then []
    else (if events[0].room in rooms then [events[0]] else []) + Selected(events[1..], rooms)
  }

  // Old commands and old closed rooms are deleted, the latter with all that refers to them.
  function Forget(db: Db, now: Time): (kept: Db)
  {
    var rooms := map r | r in db.rooms && Retained(db.rooms[r], now) :: db.rooms[r];
    Db(rooms,
       Index(map c | c in db.index.code && db.index.code[c] in rooms :: db.index.code[c],
             map l | l in db.index.listing && db.index.listing[l] in rooms :: db.index.listing[l]),
       map m | m in db.creds && db.creds[m].room in rooms :: db.creds[m],
       map k | k in db.commands && now - COMMAND_RETENTION <= db.commands[k].createdAt :: db.commands[k],
       Log(Selected(db.log.events, rooms.Keys), db.log.next),
       db.nextId)
  }

  function Sweep(db: Db, now: Time): Db {
    Forget(SweepRooms(db, 0, db.nextId, now), now)
  }

  // ---- steps --------------------------------------------------------------------------------

  datatype Request =
    | CreateRoom(client: string, rejected: Option<int>, listed: bool, draws: seq<Id>)
    | JoinByCode(client: string, code: Id)
    | JoinListed(client: string, listing: Id)
    | Act(room: Id, bearer: Option<Token>, action: Action, expected: Option<nat>)
    | BeginClosing(room: Id, bearer: Option<Token>, attempt: Id, closing: ClosingPayload, version: nat)
    | AckQuiescent(room: Id, bearer: Option<Token>, attempt: Id, quiescent: QuiescentPayload, version: nat)
    | Return(room: Id, token: Token)

  datatype Op =
    | Call(id: string, request: Request)
    | Snapshot(room: Id, bearer: Option<Token>)
    | TransportLost(room: Id, attempt: Id, code: string)
    | Force(room: Id, attempt: Id, code: string)
    | SweepPresence

  // A step and the time it is taken at.
  datatype Timed = Timed(now: Time, op: Op)

  function Client(name: string): string {
    if name == "" then "anonymous" else name
  }

  // The key under which a request is remembered; a bearer's token names its member.
  function ScopeOf(q: Request): Option<Scope> {
    match q
    case CreateRoom(client, _, _, _) => Some(CreateScope(Client(client)))
    case JoinByCode(client, code) => Some(JoinScope(Client(client), code))
    case JoinListed(client, listing) => Some(PublicJoinScope(Client(client), listing))
    case Act(_, bearer, action, _) =>
      if bearer.None? then None else Some(ActionScope(bearer.value.member, NameOf(action)))
    case BeginClosing(_, bearer, attempt, _, _) =>
      if bearer.None? then None else Some(ClosingScope(bearer.value.member, attempt))
    case AckQuiescent(_, bearer, attempt, _, _) =>
      if bearer.None? then None else Some(QuiescentScope(bearer.value.member, attempt))
    case Return(room, token) => Some(ReconnectScope(room, token))
  }

  predicate IsSecret(q: Request) {
    q.CreateRoom? || q.JoinByCode? || q.JoinListed? || q.Return?
  }

  // The transaction of a secret request.
  function SecretTx(db: Db, q: Request, now: Time): Result<Done, int>
    requires IsSecret(q)
  {
    match q
    case CreateRoom(_, rejected, listed, draws) => Create(db, rejected, listed, draws, now)
    case JoinByCode(_, code) => Join(db, code, now)
    case JoinListed(_, listing) => JoinPublic(db, listing, now)
    case Return(room, token) => Reconnect(db, room, token, now)
  }

  // The transaction of a member's request in its loaded room, when it is not a repetition.
  function MemberTx(db: Db, q: Request, me: Id, k: Command, now: Time): Result<Done, int>
    requires !IsSecret(q) && q.room in db.rooms
  {
    match q
    case Act(room, _, action, expected) => Mutate(db, room, me, k, action, expected, now)
    case BeginClosing(room, _, attempt, closing, version) =>
      Settle(db, room, BeginDEdit(db.rooms[room], me, attempt, closing, version, now), k, me, now)
    case AckQuiescent(room, _, attempt, quiescent, version) =>
      Settle(db, room, AckDEdit(db.rooms[room], me, attempt, quiescent, version, now), k, me, now)
  }

  function MemberCall(db: Db, q: Request, id: string, now: Time): (d: Result<Done, int>)
    requires !IsSecret(q)
  {
    match Session(db, q.bearer, q.room, now)
    case Err(status) => Err(status)
    case Ok(loaded) =>
      var k := Command(ScopeOf(q).value, id);
      match Recorded(loaded, k)
      case Err(status) => Err(status)
      case Ok(Some(response)) => Ok(Done(loaded, response))
      case Ok(None) => MemberTx(loaded, q, q.bearer.value.member, k, now)
  }

  // All or nothing.
  function Finish(store: Store, tx: Result<Done, int>): Outcome {
    match tx
    case Err(status) => Outcome(store, Err(status))
    case Ok(done) => Outcome(store.(db := done.db), Ok(done.response))
  }

  function View(db: Db, room: Id, bearer: Option<Token>, now: Time): (d: Result<Done, int>)
  {
    match Session(db, bearer, room, now)
    case Err(status) => Err(status)
    case Ok(loaded) => Ok(Done(loaded, Public(loaded.rooms[room], bearer.value.member)))
  }

  function Step(store: Store, t: Timed): (o: Outcome)
  {
    match t.op
    case Call(id, q) =>
      if IsSecret(q) then SecretStep(store, Command(ScopeOf(q).value, id), SecretTx(store.db, q, t.now), t.now)
      else Finish(store, MemberCall(store.db, q, id, t.now))
    case Snapshot(room, bearer) => Finish(store, View(store.db, room, bearer, t.now))
    case TransportLost(room, attempt, code) => Finish(store, FailTransport(store.db, room, attempt, code, t.now))
    case Force(room, attempt, code) => Finish(store, ForceD(store.db, room, attempt, code, t.now))
    case SweepPresence => Outcome(store.(db := Sweep(store.db, t.now)), Ok(Swept))
  }

  function Run(store: Store, steps: seq<Timed>): (end: Store)
    decreases |steps|
  {
    if steps == [] then store else Run(Step(store, steps[0]).store, steps[1..])
  }
}
