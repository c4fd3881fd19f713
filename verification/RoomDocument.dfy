/**
 The room document that the methods of AuthorityStore load, change in place and save.  Each
 method makes of the document what module Rooms makes of a room.
 */
module RoomDocuments {
  import opened Common
  import E = Envelopes
  import opened Rooms

  // What a command says of a document it was given; after a refusal the document is dropped.
  datatype Verdict = Apply(event: EventType, revoke: Revocation) | Keep | Refuse(status: int)

  predicate Follows(v: Verdict, was: Room, now: Room, e: Edit) {
    match e
    case Changed(r, event, revoke) => v == Apply(event, revoke) && now == r
    case Same => v == Keep && now == was
    case Refused(status) => v == Refuse(status)
  }

  class RoomDocument {
    const key: RoomKey
    var version: nat
    var lastEvent: nat
    var state: RoomState
    var waitingExpiresAt: Option<Time>
    var members: seq<Member>
    var attempt: Option<Attempt>
    var lastAttemptNumber: nat

    ghost function View(): Room
      reads this
    {
      Room(key, version, lastEvent, state, waitingExpiresAt, members, attempt, lastAttemptNumber)
    }

    constructor (r: Room)
      ensures View() == r
    {
      key, version, lastEvent, state := r.key, r.version, r.lastEvent, r.state;
      waitingExpiresAt, members := r.waitingExpiresAt, r.members;
      attempt, lastAttemptNumber := r.attempt, r.lastAttemptNumber;
    }

    method Export() returns (r: Room)
      ensures r == View()
    {
      r := Room(key, version, lastEvent, state, waitingExpiresAt, members, attempt, lastAttemptNumber);
    }

    // Every member, or every member that has not left, is made not ready, one after the other.
    method ResetReadiness(leftToo: bool)
      modifies this`members
      ensures View() == ResetMembers(old(View()), leftToo)
    {
      ghost var was := members;
      var i := 0;
      while i < |members|
        invariant 0 <= i <= |members| == |was|
        invariant forall k :: 0 <= k < i ==>
          members[k] == if leftToo || was[k].presence != Left then Unready(was[k]) else was[k]
        invariant forall k :: i <= k < |was| ==> members[k] == was[k]
      {
        if leftToo || members[i].presence != Left {
          members := members[i := Unready(members[i])];
        }
        i := i + 1;
      }
      assert members == Reset(was, leftToo);
    }

    method StartNextAttempt(newId: Id, now: Time)
      modifies this
      ensures View() == BeginAttempt(old(View()), newId, now)
    {
      var creator := CreatorOf(Active(members));
      var number := lastAttemptNumber + 1;
      lastAttemptNumber := number;
      attempt := Some(Attempt(newId, number, number, ConnectingSwitches, creator, true, version + 1, None, now, None));
      state := ConnectionAttempt;
    }

    method Readiness(i: nat, ready: bool, role: Option<Role>, newId: Id, now: Time) returns (v: Verdict)
      requires i < |members|
      modifies this
      ensures Follows(v, old(View()), View(), ReadyEdit(old(View()), i, ready, role, newId, now))
    {
      if ready && role.None? {
        return Refuse(400);
      }
      var member := members[i].(ready := ready, role := if ready then role else None);
      members := members[i := member];
      var event := if ready then MemberReady else MemberNotReady;
      var active := Active(members);
      if !ready && attempt.Some? && attempt.value.phase.Terminal() {
        attempt := None;
      }
      if attempt.Some? && !attempt.value.phase.Terminal() {
        if !member.ready || member.role != LocalRole(attempt.value, member.id) {
          return Refuse(409);
        }
        return Apply(event, NoOne);
      }
      if |active| == 2 && AllReady(active) && Complementary(active) {
        StartNextAttempt(newId, now);
        return Apply(AttemptStarted, NoOne);
      }
      state := if ready then WaitingForComplementaryRole else ReadyCheck;
      return Apply(event, NoOne);
    }

    method Seen(i: nat, now: Time)
      requires i < |members|
      modifies this`members
      ensures View() == HeartbeatEdit(old(View()), i, now).room
    {
      members := members[i := members[i].(presence := Online, deadline := None, lastSeen := now)];
    }

    method Start(newId: Id, now: Time) returns (v: Verdict)
      modifies this
      ensures Follows(v, old(View()), View(), StartEdit(old(View()), newId, now))
    {
      if attempt.Some? && !attempt.value.phase.Terminal() {
        return Keep;
      }
      var active := Active(members);
      if |active| != 2 || !AllReady(active) {
        return Refuse(409);
      }
      if !Complementary(active) {
        return Refuse(409);
      }
      StartNextAttempt(newId, now);
      return Apply(AttemptStarted, NoOne);
    }

    method Claim(me: Id, now: Time) returns (v: Verdict)
      modifies this`attempt
      ensures Follows(v, old(View()), View(), ClaimEdit(old(View()), me, now))
    {
      if attempt.None? || attempt.value.roleLocked {
        return Refuse(409);
      }
      if attempt.value.creator.None? {
        attempt := Some(attempt.value.(creator := Some(me), phase := CreatorGuidance, updatedAt := now));
      }
      return Apply(CreatorClaimed, NoOne);
    }

    method Transfer(me: Id, target: Id, now: Time) returns (v: Verdict)
      modifies this`attempt
      ensures Follows(v, old(View()), View(), TransferEdit(old(View()), me, target, now))
    {
      if attempt.None? || attempt.value.roleLocked || attempt.value.creator != Some(me) {
        return Refuse(409);
      }
      if !exists m :: m in members && m.id == target && m.presence != Left {
        return Refuse(400);
      }
      attempt := Some(attempt.value.(creator := Some(target), updatedAt := now));
      return Apply(CreatorTransferred, NoOne);
    }

    method Lock(now: Time) returns (v: Verdict)
      modifies this`attempt
      ensures Follows(v, old(View()), View(), LockRoleEdit(old(View()), now))
    {
      if attempt.None? || attempt.value.creator.None? {
        return Refuse(409);
      }
      attempt := Some(attempt.value.(roleLocked := true, roleLockVersion := version + 1,
                                     phase := ConnectingSwitches, updatedAt := now));
      return Apply(RoleLocked, NoOne);
    }

    method Advance(phase: Option<Phase>, code: Option<string>, now: Time) returns (v: Verdict)
      modifies this
      ensures Follows(v, old(View()), View(), PhaseEdit(old(View()), phase, code, now))
    {
      hide FailureCode, Reset;
      if phase.None? || attempt.None? {
        return Refuse(400);
      }
      var next, a := phase.value, attempt.value;
      var given := if code.Some? && code.value != "" then code.value else "session.failed";
      if next == Failed && !FailureCode(given) {
        return Refuse(400);
      }
      if a.phase == next {
        if next == Failed && a.error == Some("relay.peer_lost") && given != "relay.peer_lost" {
          attempt := Some(a.(error := Some(given), updatedAt := now));
          return Apply(FailureRefined, NoOne);
        }
        return Keep;
      }
      if a.phase.Terminal() || a.phase.Rank() > next.Rank() {
        return Refuse(409);
      }
      attempt := Some(a.(phase := next, error := if next == Failed then Some(given) else a.error, updatedAt := now));
      if next == TradingRoom {
        state := Trading;
      } else if next.Terminal() {
        ResetReadiness(false);
        state := ReadyCheck;
      }
      return Apply(AttemptPhase(next), NoOne);
    }

    // A member's seat falls free, and everybody starts over.
    method Empty(i: nat, now: Time)
      requires i < |members|
      modifies this
      ensures View() == Vacate(old(View()), i, now)
    {
      hide Reset;
      members := members[i := members[i].(presence := Left)];
      ResetReadiness(true);
      attempt := None;
      state := WaitingForPartner;
      waitingExpiresAt := Some(if now + WAITING_TTL <= key.expiresAt then now + WAITING_TTL else key.expiresAt);
    }

    method Depart(i: nat, now: Time) returns (v: Verdict)
      requires i < |members|
      modifies this
      ensures Follows(v, old(View()), View(), LeaveEdit(old(View()), i, now))
    {
      hide Vacate;
      if key.owner == members[i].id {
        return Refuse(409);
      }
      if attempt.Some? && attempt.value.roleLocked && !attempt.value.phase.Terminal() {
        return Refuse(409);
      }
      var id := members[i].id;
      Empty(i, now);
      return Apply(MemberLeft, Only(id));
    }

    method Remove(me: Id, target: Id, now: Time) returns (v: Verdict)
      modifies this
      ensures Follows(v, old(View()), View(), RemoveEdit(old(View()), me, target, now))
    {
      hide Vacate;
      if key.owner != me {
        return Refuse(403);
      }
      if attempt.Some? && attempt.value.roleLocked && !attempt.value.phase.Terminal() {
        return Refuse(409);
      }
      var i := IndexOf(members, target);
      if i.None? || target == me {
        return Refuse(400);
      }
      if members[i.value].presence != Offline {
        return Refuse(409);
      }
      Empty(i.value, now);
      return Apply(MemberRemoved, Only(target));
    }

    method Shut(me: Id, now: Time) returns (v: Verdict)
      modifies this
      ensures Follows(v, old(View()), View(), CloseEdit(old(View()), me, now))
    {
      if key.owner != me {
        return Refuse(403);
      }
      if attempt.Some? && !attempt.value.phase.Terminal() {
        attempt := Some(attempt.value.(phase := Canceled, updatedAt := now));
      }
      state := Closed;
      return Apply(RoomClosed, Everyone);
    }

    // The commands of a member, told apart by name.
    method Act(i: nat, action: Action, newId: Id, now: Time) returns (v: Verdict)
      requires i < |members|
      modifies this
      ensures Follows(v, old(View()), View(), ActionEdit(old(View()), i, action, newId, now))
    {
      hide ReadyEdit, StartEdit, ClaimEdit, TransferEdit, LockRoleEdit, PhaseEdit, LeaveEdit, RemoveEdit, CloseEdit;
      var me := members[i].id;
      if Named(action).Some? && (attempt.None? || attempt.value.id != Named(action).value) {
        return Refuse(409);
      }
      match action
      case Ready(ready, role) => v := Readiness(i, ready, role, newId, now);
      case Heartbeat =>
        Seen(i, now);
        v := Apply(MemberHeartbeat, NoOne);
      case StartAttempt => v := Start(newId, now);
      case ClaimCreator(_) => v := Claim(me, now);
      case TransferCreator(_, target) => v := Transfer(me, target, now);
      case LockRole(_) => v := Lock(now);
      case SetPhase(_, phase, code) => v := Advance(phase, code, now);
      case Leave => v := Depart(i, now);
      case RemoveOffline(target) => v := Remove(me, target, now);
      case Close => v := Shut(me, now);
      case Unknown => v := Refuse(404);
    }

    // One more member, after those that have left are dropped.
    method Admit(newId: Id, now: Time) returns (v: Verdict)
      modifies this
      ensures Follows(v, old(View()), View(), JoinEdit(old(View()), newId, now))
    {
      if |Active(members)| >= 2 {
        return Refuse(409);
      }
      members := Active(members);
      members := members + [Member(newId, E.MemberB, Online, false, None, None, now)];
      state := ReadyCheck;
      waitingExpiresAt := None;
      return Apply(MemberJoined, NoOne);
    }

    // ---- the two-sided shutdown barrier -----------------------------------------------------

    method Terminalize(barrier: Barrier, cleanup: Cleanup, secondary: Option<string>, now: Time)
      requires attempt.Some? && attempt.value.d.Some?
      modifies this
      ensures View() == TerminalizeD(old(View()), old(attempt.value), old(attempt.value.d.value), barrier, cleanup,
                                     secondary, now)
    {
      hide Reset;
      var a, d := attempt.value, attempt.value.d.value;
      d := d.(barrier := barrier, cleanup := cleanup, secondary := secondary, terminalizedAt := Some(now));
      a := a.(d := Some(d), phase := d.intent.outcome,
              error := if d.intent.outcome == Failed then d.intent.code else None, updatedAt := now);
      attempt := Some(a);
      state := ReadyCheck;
      ResetReadiness(false);
    }

    method BeginClosing(me: Id, id: Id, p: ClosingPayload, expected: nat, now: Time) returns (v: Verdict)
      modifies this`attempt
      ensures Follows(v, old(View()), View(), BeginDEdit(old(View()), me, id, p, expected, now))
    {
      hide Requested;
      if attempt.None? || attempt.value.id != id {
        return Refuse(409);
      }
      var i := IndexOf(members, me);
      if i.None? || members[i.value].presence == Left {
        return Refuse(409);
      }
      var a := attempt.value;
      var requested := Requested(a, id, p);
      if requested.Err? {
        return Refuse(requested.error);
      }
      if a.d.Some? {
        return if a.d.value.intent != requested.value then Refuse(409) else Keep;
      }
      if a.phase.Terminal() || expected != version {
        return Refuse(409);
      }
      attempt := Some(a.(phase := Closing, updatedAt := now,
                         d := Some(DRecord(requested.value, members[i.value].seat, now + D_BARRIER, None, None,
                                           WaitingForSides, Pending, None, None))));
      return Apply(AttemptClosing, NoOne);
    }

    method Acknowledge(me: Id, id: Id, p: QuiescentPayload, expected: nat, now: Time) returns (v: Verdict)
      modifies this
      ensures Follows(v, old(View()), View(), AckDEdit(old(View()), me, id, p, expected, now))
    {
      hide Reported, Clean, TerminalizeD;
      if attempt.None? || attempt.value.id != id {
        return Refuse(409);
      }
      var i := IndexOf(members, me);
      if i.None? || members[i.value].presence == Left {
        return Refuse(409);
      }
      var a, seat := attempt.value, members[i.value].seat;
      if a.d.None? || (a.phase != Closing && !a.phase.Terminal()) {
        return Refuse(409);
      }
      var report := Reported(a.d.value, seat, id, p);
      if report.Err? {
        return Refuse(report.error);
      }
      if a.d.value.Side(seat).Some? {
        return if a.d.value.Side(seat).value != report.value then Refuse(409) else Keep;
      }
      if expected != version {
        return Refuse(409);
      }
      var d := a.d.value.WithSide(seat, report.value);
      if d.sideA.Some? && d.sideB.Some? {
        var verified := Clean(d.sideA.value.evidence) && Clean(d.sideB.value.evidence);
        attempt := Some(a.(d := Some(d)));
        Terminalize(TwoSideTerminal, if verified then Verified else CleanupFailed,
                    if verified then None else Some("D_SIDE_CLEANUP_FAILED"), now);
        SameTerminal(old(View()), a, d, verified, now);
      } else {
        attempt := Some(a.(d := Some(d), updatedAt := now));
      }
      return Apply(DSideQuiescent, NoOne);
    }

    // ---- the relay's own changes ------------------------------------------------------------

    method Force(id: Id, code: string, now: Time) returns (v: Verdict)
      modifies this
      ensures Follows(v, old(View()), View(), ForceEdit(old(View()), id, code, now))
    {
      hide TerminalizeD;
      if state == Closed || state == Expired || attempt.None? || attempt.value.id != id
         || attempt.value.phase != Closing || attempt.value.d.None? {
        return Keep;
      }
      Terminalize(ForcedFailure, CleanupFailed, Some(code), now);
      return Apply(DBarrierForced, NoOne);
    }

    method TimeOut(now: Time) returns (v: Verdict)
      modifies this
      ensures Follows(v, old(View()), View(), TimeoutEdit(old(View()), now))
    {
      hide TerminalizeD;
      if attempt.Some? && attempt.value.phase == Closing && attempt.value.d.Some?
         && attempt.value.d.value.deadline <= now {
        Terminalize(ForcedTimeout, CleanupFailed, Some("D_BARRIER_TIMEOUT"), now);
        return Apply(DBarrierTimeout, NoOne);
      }
      return Keep;
    }

    method Fail(code: string, leftToo: bool, now: Time)
      requires attempt.Some?
      modifies this
      ensures View() == FailAttempt(old(View()), code, leftToo, now)
    {
      hide Reset;
      attempt := Some(attempt.value.(phase := Failed, error := Some(code), updatedAt := now));
      state := ReadyCheck;
      ResetReadiness(leftToo);
    }

    method LoseTransport(id: Id, code: string, now: Time) returns (v: Verdict)
      modifies this
      ensures Follows(v, old(View()), View(), TransportFailEdit(old(View()), id, code, now))
    {
      hide FailAttempt;
      if state == Closed || state == Expired || attempt.None? || attempt.value.id != id
         || attempt.value.phase.Terminal() || attempt.value.phase == Closing {
        return Keep;
      }
      Fail(code, false, now);
      return Apply(TransportFailed, NoOne);
    }

    method WatchPresence(i: nat, now: Time) returns (v: Verdict)
      requires i < |members|
      modifies this
      ensures Follows(v, old(View()), View(), PresenceEdit(old(View()), i, now))
    {
      hide FailAttempt;
      var m := members[i];
      if m.presence == Online && now - m.lastSeen > OFFLINE_DETECTION {
        members := members[i := m.(presence := Reconnecting, deadline := Some(now + RECONNECT_WINDOW))];
        return Apply(MemberReconnecting, NoOne);
      }
      if m.presence == Reconnecting && m.deadline.Some? && m.deadline.value <= now {
        members := members[i := Unready(m).(presence := Offline)];
        if attempt.Some? && !attempt.value.phase.Terminal() && attempt.value.phase != Closing {
          Fail("member.reconnect_expired", true, now);
        }
        return Apply(MemberOffline, Only(m.id));
      }
      return Keep;
    }
  }

  // Terminalizing takes nothing from a room but its attempt, which it is given.
  lemma SameTerminal(r: Room, a: Attempt, d: DRecord, verified: bool, now: Time)
    ensures var cleanup := if verified then Verified else CleanupFailed;
            var secondary := if verified then None else Some("D_SIDE_CLEANUP_FAILED");
            TerminalizeD(r.(attempt := Some(a.(d := Some(d)))), a.(d := Some(d)), d, TwoSideTerminal, cleanup,
                         secondary, now)
            == TerminalizeD(r, a, d, TwoSideTerminal, cleanup, secondary, now)
  {
  }
}
