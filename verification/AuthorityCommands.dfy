/**
 A command is carried out at most once: the step that carries it out records it in the same
 transaction, and while it is on record a repetition is answered without another effect.
 */
module AuthorityCommands {
  import opened Common
  import opened Rooms
  import opened AuthorityModel

  function KeyOf(t: Timed): Option<Command> {
    if t.op.Call? && ScopeOf(t.op.request).Some? then Some(Command(ScopeOf(t.op.request).value, t.op.id)) else None
  }

  predicate SecretScope(s: Scope) {
    s.CreateScope? || s.JoinScope? || s.PublicJoinScope? || s.ReconnectScope?
  }

  // At most a room whose time is over has been expired.
  predicate OnlyExpires(db: Db, c: Db, now: Time) {
    c == db || exists room :: room in db.rooms && c == Expire(db, room, now)
  }

  // The command was carried out at the given time, with the given response.
  predicate Holding(store: Store, k: Command, response: Response, at: Time) {
    && k in store.db.commands && store.db.commands[k].createdAt == at
    && (if SecretScope(k.scope) then k in store.secrets ==> store.secrets[k].response == response
        else store.db.commands[k].response == response)
  }

  lemma SettleRecords(db: Db, room: Id, e: Edit, k: Command, me: Id, now: Time)
    requires room in db.rooms && Settle(db, room, e, k, me, now).Ok?
    ensures var d := Settle(db, room, e, k, me, now).value;
            d.db.commands == db.commands[k := Row(d.response, now)]
  {
  }

  lemma MemberTxRecords(db: Db, q: Request, me: Id, k: Command, now: Time)
    requires !IsSecret(q) && q.room in db.rooms && MemberTx(db, q, me, k, now).Ok?
    ensures var d := MemberTx(db, q, me, k, now).value;
            d.db.commands == db.commands[k := Row(d.response, now)]
  {
    hide Settle, BeginDEdit, AckDEdit, ActionEdit, Stale;
    var r := db.rooms[q.room];
    match q
    case Act(room, _, action, expected) =>
      if Stale(r, me, action, expected) == Proceed {
        SettleRecords(db, room, ActionEdit(r, IndexOf(r.members, me).value, action, db.nextId, now), k, me, now);
      }
    case BeginClosing(room, _, attempt, closing, version) =>
      SettleRecords(db, room, BeginDEdit(r, me, attempt, closing, version, now), k, me, now);
    case AckQuiescent(room, _, attempt, quiescent, version) =>
      SettleRecords(db, room, AckDEdit(r, me, attempt, quiescent, version, now), k, me, now);
  }

  lemma ExpireCommands(db: Db, room: Id, now: Time)
    requires room in db.rooms
    ensures Expire(db, room, now).commands == db.commands
  {
  }

  lemma SecretTxCommands(db: Db, q: Request, now: Time)
    requires IsSecret(q) && SecretTx(db, q, now).Ok?
    ensures SecretTx(db, q, now).value.db.commands == db.commands
  {
    hide JoinEdit, Expire, IsOpen, OwnerAvailable;
    match q
    case CreateRoom(_, _, _, _) =>
    case JoinByCode(_, code) => ExpireCommands(db, db.index.code[code], now);
    case JoinListed(_, listing) => ExpireCommands(db, db.index.listing[listing], now);
    case Return(room, _) => ExpireCommands(db, room, now);
  }

  lemma ScopeSecret(q: Request)
    requires ScopeOf(q).Some?
    ensures SecretScope(ScopeOf(q).value) <==> IsSecret(q)
  {
  }

  lemma PruneKeeps(secrets: map<Command, Cached>, now: Time)
    ensures forall k :: k in Prune(secrets, now) ==> k in secrets && Prune(secrets, now)[k] == secrets[k]
  {
  }

  lemma FindSecretKeeps(store: Store, k: Command, now: Time)
    ensures var l := FindSecret(store, k, now);
            && (forall c :: c in l.secrets ==> c in store.secrets && l.secrets[c] == store.secrets[c])
            && (l.found.Ok? ==> k.id != "")
            && (l.found.Ok? && l.found.value.Some?
                ==> k in store.secrets && l.found.value.value == store.secrets[k].response)
            && (l.found == Ok(None) ==> k !in store.db.commands)
  {
    PruneKeeps(store.secrets, now);
  }

  // While a command is on record, repeating it has no effect, and an answer is the first answer.
  lemma Replay(store: Store, t: Timed, k: Command, response: Response, at: Time)
    requires Holding(store, k, response, at) && KeyOf(t) == Some(k)
    ensures var o := Step(store, t);
            OnlyExpires(store.db, o.store.db, t.now) && (o.reply.Ok? ==> o.reply.value == response)
  {
    hide FindSecret, SecretTx, MemberTx, Expire;
    ScopeSecret(t.op.request);
    if IsSecret(t.op.request) {
      FindSecretKeeps(store, k, t.now);
    } else if Session(store.db, t.op.request.bearer, t.op.request.room, t.now).Ok? {
      ExpireCommands(store.db, t.op.request.room, t.now);
    }
  }

  // Nothing but an expired room, or the first effect of a command, on record with its response.
  predicate FirstEffect(store: Store, o: Outcome, k: Command, now: Time) {
    || OnlyExpires(store.db, o.store.db, now)
    || (&& k.id != "" && k !in store.db.commands
        && o.reply.Ok? && Holding(o.store, k, o.reply.value, now))
  }

  lemma SecretEffect(store: Store, k: Command, tx: Result<Done, int>, now: Time)
    requires SecretScope(k.scope)
    ensures FirstEffect(store, SecretStep(store, k, tx, now), k, now)
  {
    hide FindSecret;
    FindSecretKeeps(store, k, now);
  }

  lemma MemberEffect(store: Store, q: Request, id: string, now: Time)
    requires !IsSecret(q) && q.bearer.Some?
    ensures FirstEffect(store, Finish(store, MemberCall(store.db, q, id, now)), Command(ScopeOf(q).value, id), now)
  {
    hide MemberTx, Expire;
    var k := Command(ScopeOf(q).value, id);
    if Session(store.db, q.bearer, q.room, now).Ok? {
      var loaded := Session(store.db, q.bearer, q.room, now).value;
      ExpireCommands(store.db, q.room, now);
      assert OnlyExpires(store.db, loaded, now);
      if k.id != "" && k !in loaded.commands && MemberTx(loaded, q, q.bearer.value.member, k, now).Ok? {
        MemberTxRecords(loaded, q, q.bearer.value.member, k, now);
      }
    }
  }

  // A step that does more than expire a room is the first of its command, and records it.
  lemma EffectRecords(store: Store, t: Timed)
    requires t.op.Call?
    ensures var o, k := Step(store, t), KeyOf(t);
            || OnlyExpires(store.db, o.store.db, t.now)
            || (k.Some? && FirstEffect(store, o, k.value, t.now))
  {
    hide SecretStep, SecretTx, FirstEffect;
    var q := t.op.request;
    if IsSecret(q) {
      SecretEffect(store, Command(ScopeOf(q).value, t.op.id), SecretTx(store.db, q, t.now), t.now);
    } else if q.bearer.Some? {
      hide MemberCall;
      MemberEffect(store, q, t.op.id, t.now);
    }
  }

  // ---- how long a command stays on record ---------------------------------------------------

  lemma {:induction false} PresencesCommands(db: Db, room: Id, i: nat, now: Time)
    requires room in db.rooms
    ensures Presences(db, room, i, now).commands == db.commands
    decreases |db.rooms[room].members| - i
  {
    if i < |db.rooms[room].members| {
      var e := PresenceEdit(db.rooms[room], i, now);
      if e.Changed? {
        PresencesCommands(Commit(db, room, e.room, e.event, Some(db.rooms[room].members[i].id), e.revoke), room, i + 1,
                          now);
      } else {
        PresencesCommands(db, room, i + 1, now);
      }
    }
  }

  lemma {:induction false} SweepCommands(db: Db, from: Id, upTo: Id, now: Time)
    ensures SweepRooms(db, from, upTo, now).commands == db.commands
    decreases upTo - from
  {
    hide Expire, Presences, TimeoutEdit;
    if from < upTo {
      if from in db.rooms {
        ExpireCommands(db, from, now);
        PresencesCommands(Timeout(Expire(db, from, now), from, now), from, 0, now);
        SweepCommands(SweepRoom(db, from, now), from + 1, upTo, now);
      } else {
        SweepCommands(db, from + 1, upTo, now);
      }
    }
  }

  // A sweep late enough to delete what was recorded at the given time.
  predicate Forgets(t: Timed, at: Time) {
    t.op.SweepPresence? && at < t.now - COMMAND_RETENTION
  }

  lemma SecretStepHolds(store: Store, t: Timed, k: Command, response: Response, at: Time)
    requires Holding(store, k, response, at) && t.op.Call? && IsSecret(t.op.request)
    ensures Holding(Step(store, t).store, k, response, at)
  {
    hide FindSecret, SecretTx;
    var q := t.op.request;
    var c := Command(ScopeOf(q).value, t.op.id);
    FindSecretKeeps(store, c, t.now);
    if SecretTx(store.db, q, t.now).Ok? {
      SecretTxCommands(store.db, q, t.now);
    }
  }

  lemma MemberStepHolds(store: Store, t: Timed, k: Command, response: Response, at: Time)
    requires Holding(store, k, response, at) && t.op.Call? && !IsSecret(t.op.request)
    ensures Holding(Step(store, t).store, k, response, at)
  {
    hide MemberTx, Expire;
    var q := t.op.request;
    if Session(store.db, q.bearer, q.room, t.now).Ok? {
      var c := Command(ScopeOf(q).value, t.op.id);
      var loaded := Session(store.db, q.bearer, q.room, t.now).value;
      ExpireCommands(store.db, q.room, t.now);
      if c !in loaded.commands && MemberTx(loaded, q, q.bearer.value.member, c, t.now).Ok? {
        MemberTxRecords(loaded, q, q.bearer.value.member, c, t.now);
      }
    }
  }

  lemma StepHolds(store: Store, t: Timed, k: Command, response: Response, at: Time)
    requires Holding(store, k, response, at) && !Forgets(t, at)
    ensures Holding(Step(store, t).store, k, response, at)
  {
    hide Expire, MemberCall, SecretStep, SecretTx, SweepRooms, TransportFailEdit, ForceEdit;
    match t.op
    case Call(id, q) =>
      if IsSecret(q) {
        SecretStepHolds(store, t, k, response, at);
      } else {
        MemberStepHolds(store, t, k, response, at);
      }
    case Snapshot(room, _) =>
      if room in store.db.rooms {
        ExpireCommands(store.db, room, t.now);
      }
    case TransportLost(room, _, _) =>
      if room in store.db.rooms {
        ExpireCommands(store.db, room, t.now);
      }
    case Force(room, _, _) =>
      if room in store.db.rooms {
        ExpireCommands(store.db, room, t.now);
      }
    case SweepPresence => SweepCommands(store.db, 0, store.db.nextId, t.now);
  }

  lemma {:induction false} RunHolds(store: Store, steps: seq<Timed>, k: Command, response: Response, at: Time)
    requires Holding(store, k, response, at) && forall i :: 0 <= i < |steps| ==> !Forgets(steps[i], at)
    ensures Holding(Run(store, steps), k, response, at)
    decreases |steps|
  {
    hide Step, Holding, Forgets;
    if steps != [] {
      StepHolds(store, steps[0], k, response, at);
      RunHolds(Step(store, steps[0]).store, steps[1..], k, response, at);
    }
  }

  // At most once.  A step either does no more than expire a room, or carries out its command; then,
  // as long as no sweep has come more than the retention after it, the same command has no effect
  // and is only ever answered alike.
  lemma AtMostOnce(store: Store, first: Timed, between: seq<Timed>, again: Timed)
    requires first.op.Call?
    requires KeyOf(again) == KeyOf(first)
    requires forall i :: 0 <= i < |between| ==> !Forgets(between[i], first.now)
    ensures var o := Step(store, first);
            var before := Run(o.store, between);
            var p := Step(before, again);
            || OnlyExpires(store.db, o.store.db, first.now)
            || (&& o.reply.Ok? && OnlyExpires(before.db, p.store.db, again.now)
                && (p.reply.Ok? ==> p.reply.value == o.reply.value))
  {
    hide Step, Holding, OnlyExpires, Forgets, Run;
    EffectRecords(store, first);
    var o := Step(store, first);
    if !OnlyExpires(store.db, o.store.db, first.now) {
      var k := KeyOf(first).value;
      RunHolds(o.store, between, k, o.reply.value, first.now);
      Replay(Run(o.store, between), again, k, o.reply.value, first.now);
    }
  }

  // A secret is never handed out twice by carrying its command out again: the cache repeats it,
  // or the repetition is told that the command is done, or that the cache is full of other
  // secrets that are still good.
  lemma SecretRepeated(store: Store, t: Timed)
    requires t.op.Call? && IsSecret(t.op.request) && KeyOf(t).value in store.db.commands && KeyOf(t).value.id != ""
    ensures var o, k := Step(store, t), KeyOf(t).value;
            && o.store.db == store.db
            && o.reply == if k in store.secrets && t.now < store.secrets[k].until then Ok(store.secrets[k].response)
                          else if |store.secrets| >= 4096 && |Live(store.secrets, t.now)| >= 4096
                          then Err(503)
                          else Err(409)
  {
  }
}
