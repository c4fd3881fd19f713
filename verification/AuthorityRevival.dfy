/**
 A run in which locking the role revives a failed attempt: a room is created and joined, both
 members are ready, the transport is lost, and the owner locks the role.
 */
module AuthorityRevivals {
  import opened Common
  import E = Envelopes
  import opened Rooms
  import opened RoomInvariants
  import opened AuthorityModel
  import opened AuthorityInvariants
  import opened AuthorityEdits
  import opened AuthorityTransactions
  import opened AuthorityRuns
  import opened AuthorityProperties

  const OWNER := Token(1, 2)
  const GUEST := Token(5, 6)

  function ActOf(bearer: Token, action: Action): Timed {
    Timed(0, Call("1", Act(0, Some(bearer), action, None)))
  }

  const Failing: seq<Timed> := [
    Timed(0, Call("1", CreateRoom("", None, false, [0]))),
    Timed(0, Call("1", JoinByCode("", 0))),
    ActOf(OWNER, Ready(true, Some(Creator))),
    ActOf(GUEST, Ready(true, Some(Finder))),
    Timed(0, TransportLost(0, 9, "session.failed"))]

  const Reviving := ActOf(OWNER, LockRole(9))

  // The room after its creation and each of the steps that follow.
  function MemberOf(owner: bool, role: Option<Role>): Member {
    Member(if owner then 1 else 5, if owner then E.MemberA else E.MemberB, Online, role.Some?, role, None, 0)
  }

  const KEY := RoomKey(0, 0, None, 1, ROOM_TTL)

  function RoomOf(version: nat, state: RoomState, members: seq<Member>, attempt: Option<Attempt>): Room {
    Room(KEY, version, version, state, if |members| == 1 then Some(WAITING_TTL) else None, members, attempt,
         if attempt.Some? then 1 else 0)
  }

  const Waiting := RoomOf(1, WaitingForPartner, [MemberOf(true, None)], None)
  const Joined := RoomOf(2, ReadyCheck, [MemberOf(true, None), MemberOf(false, None)], None)
  const OneReady := RoomOf(3, WaitingForComplementaryRole, [MemberOf(true, Some(Creator)), MemberOf(false, None)], None)
  const Connecting := RoomOf(4, ConnectionAttempt, [MemberOf(true, Some(Creator)), MemberOf(false, Some(Finder))],
                             Some(Attempt(9, 1, 1, ConnectingSwitches, Some(1), true, 4, None, 0, None)))
  const FailedRoom := RoomOf(5, ReadyCheck, [MemberOf(true, None), MemberOf(false, None)],
                             Some(Attempt(9, 1, 1, Failed, Some(1), true, 4, Some("session.failed"), 0, None)))

  function Issued(token: Token, room: Id): Credential {
    Credential(token, Token(token.member, token.serial + 1), None, 0, room, true)
  }

  // The database holds this room alone; its members have their tokens.
  predicate Alone(db: Db, r: Room, n: Id) {
    && db.rooms == map[0 := r] && db.index == Index(map[0 := 0], map[]) && db.nextId == n
    && db.log.next == r.version + 1
    && 1 in db.creds && db.creds[1] == Issued(OWNER, 0)
    && (|r.members| == 2 ==> 5 in db.creds && db.creds[5] == Issued(GUEST, 0))
  }

  lemma Creates()
    ensures var s := Step(EMPTY, Failing[0]).store;
            && Alone(s.db, Waiting, 5)
            && s.db.commands.Keys == {Command(CreateScope("anonymous"), "1")}
            && s.secrets.Keys == {Command(CreateScope("anonymous"), "1")}
  {
    assert FirstFree([0], map[]) == Some(0);
    assert NewCode([0], map[]) == Some(0);
    assert NewRoom(0, false, 0, 0).(version := 1, lastEvent := 1) == Waiting;
  }

  lemma Joins(store: Store)
    requires Alone(store.db, Waiting, 5) && |store.secrets| == 1
    requires Command(JoinScope("anonymous", 0), "1") !in store.db.commands
    requires Command(JoinScope("anonymous", 0), "1") !in store.secrets
    ensures var s := Step(store, Failing[1]).store;
            && Alone(s.db, Joined, 8)
            && s.db.commands.Keys == store.db.commands.Keys + {Command(JoinScope("anonymous", 0), "1")}
  {
    assert Active(Waiting.members) == Waiting.members by {
      assert Waiting.members[1..] == [];
    }
    assert JoinEdit(Waiting, 5, 0).room.(version := 2, lastEvent := 2) == Joined;
  }

  // A command of a member that changes the room and revokes nothing.
  lemma Acts(store: Store, bearer: Token, action: Action, r: Room, n: Id, i: nat, s: Room)
    requires Alone(store.db, r, n) && |r.members| == 2 && !Overdue(r, 0) && IsOpen(r)
    requires bearer == OWNER || bearer == GUEST
    requires i < 2 && IndexOf(r.members, bearer.member) == Some(i)
    requires Command(ActionScope(bearer.member, NameOf(action)), "1") !in store.db.commands
    requires var e := ActionEdit(r, i, action, n, 0);
             e.Changed? && e.revoke.NoOne? && s == e.room.(version := e.room.version + 1, lastEvent := r.version + 1)
    requires s.version == r.version + 1 && |s.members| == 2
    ensures var t := Step(store, ActOf(bearer, action)).store;
            && Alone(t.db, s, n + 1)
            && t.db.commands.Keys == store.db.commands.Keys + {Command(ActionScope(bearer.member, NameOf(action)), "1")}
  {
    hide ActionEdit, IndexOf, Overdue;
    var db := store.db;
    assert Session(db, Some(bearer), 0, 0) == Ok(db);
  }

  lemma OneIsReady()
    ensures var e := ActionEdit(Joined, 0, Ready(true, Some(Creator)), 8, 0);
            e.Changed? && e.revoke.NoOne? && OneReady == e.room.(version := e.room.version + 1, lastEvent := 3)
  {
    var r1 := OneReady.members;
    assert Active(r1) == r1 by {
      ActiveBoth(r1);
    }
    assert !AllReady(r1) by {
      assert r1[1] in r1 && !r1[1].ready;
    }
    assert Joined.members[0 := MemberOf(true, Some(Creator))] == r1;
  }

  lemma ActiveBoth(ms: seq<Member>)
    requires |ms| == 2 && ms[0].presence != Left && ms[1].presence != Left
    ensures Active(ms) == ms
  {
    assert ms[1..][1..] == [] && ms[1..][0] == ms[1];
    assert Active(ms[1..]) == [ms[1]];
    assert ms == [ms[0]] + [ms[1]];
  }

  lemma BothAreReady()
    ensures var e := ActionEdit(OneReady, 1, Ready(true, Some(Finder)), 9, 0);
            e.Changed? && e.revoke.NoOne? && Connecting == e.room.(version := e.room.version + 1, lastEvent := 4)
  {
    hide Active;
    var ms := Connecting.members;
    ActiveBoth(ms);
    assert AllReady(ms);
    assert OneReady.members[1 := MemberOf(false, Some(Finder))] == ms;
    assert Complementary(ms) by {
      assert ms[0] in ms && ms[1] in ms;
    }
    assert CreatorOf(ms) == Some(1);
  }

  lemma Loses(store: Store)
    requires Alone(store.db, Connecting, 10)
    ensures var s := Step(store, Failing[4]).store;
            Alone(s.db, FailedRoom, 10) && s.db.commands == store.db.commands
  {
    var ms := Reset(Connecting.members, false);
    assert ms == FailedRoom.members;
    assert FailAttempt(Connecting, "session.failed", false, 0).(version := 5, lastEvent := 5) == FailedRoom;
  }

  lemma Next(steps: seq<Timed>, t: Timed)
    ensures Run(EMPTY, steps + [t]) == Step(Run(EMPTY, steps), t).store
  {
    hide Step;
    RunAppend(EMPTY, steps, [t]);
    assert [t][1..] == [];
  }

  // The members have arrived.
  lemma Assembles()
    ensures var s := Run(EMPTY, Failing[..2]);
            && Alone(s.db, Joined, 8)
            && s.db.commands.Keys == {Command(CreateScope("anonymous"), "1"), Command(JoinScope("anonymous", 0), "1")}
  {
    hide Step, Alone;
    Creates();
    Next([], Failing[0]);
    assert [] + [Failing[0]] == Failing[..1];
    var s := Run(EMPTY, Failing[..1]);
    assert |s.secrets| == |s.secrets.Keys|;
    Joins(s);
    Next(Failing[..1], Failing[1]);
    assert Failing[..1] + [Failing[1]] == Failing[..2];
  }

  lemma GetsReady(before: seq<Timed>, s: Store)
    requires s == Run(EMPTY, before) && Alone(s.db, Joined, 8)
    requires Command(ActionScope(1, ReadyName), "1") !in s.db.commands
    requires Command(ActionScope(5, ReadyName), "1") !in s.db.commands
    ensures var t := Run(EMPTY, before + [Failing[2]] + [Failing[3]]);
            && Alone(t.db, Connecting, 10)
            && t.db.commands.Keys == s.db.commands.Keys + {Command(ActionScope(1, ReadyName), "1"),
                                                           Command(ActionScope(5, ReadyName), "1")}
  {
    hide Step, Alone, ActionEdit;
    OneIsReady();
    Acts(s, OWNER, Ready(true, Some(Creator)), Joined, 8, 0, OneReady);
    Next(before, Failing[2]);
    var t := Run(EMPTY, before + [Failing[2]]);
    BothAreReady();
    Acts(t, GUEST, Ready(true, Some(Finder)), OneReady, 9, 1, Connecting);
    Next(before + [Failing[2]], Failing[3]);
  }

  lemma Fails()
    ensures var s := Run(EMPTY, Failing);
            Alone(s.db, FailedRoom, 10) && Command(ActionScope(1, LockName), "1") !in s.db.commands
  {
    hide Step, Alone;
    Assembles();
    var before := Failing[..2];
    GetsReady(before, Run(EMPTY, before));
    assert before + [Failing[2]] + [Failing[3]] == Failing[..4];
    var s := Run(EMPTY, Failing[..4]);
    Loses(s);
    Next(Failing[..4], Failing[4]);
    assert Failing[..4] + [Failing[4]] == Failing;
  }

  // Without any lock_role the room is as it should be; the first one revives the failed attempt
  // while the room stays at its ready check.
  lemma LockRoleRevives()
    ensures LockFree(Failing)
    ensures var r := After(Failing).rooms;
            0 in r && r[0].attempt.Some? && r[0].attempt.value.phase == Failed && RoomOk(r[0]) && PhaseOk(r[0])
    ensures var r := After(Failing + [Reviving]).rooms;
            0 in r && Running(r[0]) && r[0].state == ReadyCheck && r[0].attempt.value.error.Some? && !PhaseOk(r[0])
  {
    hide Step;
    Fails();
    var s := Run(EMPTY, Failing);
    var e := ActionEdit(FailedRoom, 0, LockRole(9), 10, 0);
    var revived := e.room.(version := 6, lastEvent := 6);
    Acts(s, OWNER, LockRole(9), FailedRoom, 10, 0, revived);
    Next(Failing, Reviving);
  }
}
