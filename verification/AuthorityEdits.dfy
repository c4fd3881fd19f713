/**
 Every change of a room is a good edit: besides what module RoomInvariants shows, it leaves the
 version to the commit, draws ids in order, and takes nobody's place without taking the credential.
 */
module AuthorityEdits {
  import opened Common
  import opened Rooms
  import opened RoomInvariants
  import opened AuthorityModel
  import opened AuthorityInvariants

  // Nobody but the revoked goes out of reach.
  predicate MembersKept(r: Room, s: Room, revoke: Revocation) {
    && SameMembers(r, s)
    && (revoke.Everyone? || forall i :: 0 <= i < |r.members| ==>
          (Reachable(r.members[i].presence) && revoke != Only(r.members[i].id) ==> Reachable(s.members[i].presence)))
  }

  // What is left to say of an edit once its invariants are known.
  predicate Tidy(n: Id, r: Room, s: Room, revoke: Revocation) {
    && s.key == r.key && s.version == r.version && MembersKept(r, s, revoke)
    && (s.attempt.Some? ==> s.attempt.value.id < n || (r.attempt.Some? && r.attempt.value.id == s.attempt.value.id))
    && (!IsOpen(s) ==> revoke.Everyone? || !IsOpen(r))
  }

  lemma TidyIsOk(n: Id, k: Id, r: Room, s: Room, revoke: Revocation)
    requires RoomOk(s) && IdsBelow(r, n) && n <= k && Tidy(k, r, s, revoke)
    ensures EditOk(k, r, s, revoke)
  {
    if !revoke.Everyone? {
      forall m | Present(r, m) && revoke != Only(m) ensures Present(s, m) {
        var i :| 0 <= i < |r.members| && r.members[i].id == m && Reachable(r.members[i].presence);
        assert s.members[i].id == m && Reachable(s.members[i].presence);
      }
    }
  }

  lemma ResetTidy(n: Id, r: Room, s: Room, leftToo: bool, revoke: Revocation)
    requires Tidy(n, r, s, revoke)
    ensures Tidy(n, r, ResetMembers(s, leftToo), revoke)
  {
  }

  lemma VacateTidy(n: Id, r: Room, i: nat, now: Time)
    requires RoomOk(r) && i < |r.members|
    ensures Tidy(n, r, Vacate(r, i, now), Only(r.members[i].id))
  {
  }

  lemma ReadyTidy(n: Id, r: Room, i: nat, ready: bool, role: Option<Role>, now: Time)
    requires RoomOk(r) && i < |r.members| && IsOpen(r) && ReadyEdit(r, i, ready, role, n, now).Changed?
    ensures var e := ReadyEdit(r, i, ready, role, n, now); Tidy(n + 1, r, e.room, e.revoke)
  {
  }

  lemma PhaseTidy(n: Id, r: Room, phase: Option<Phase>, code: Option<string>, now: Time)
    requires RoomOk(r) && IsOpen(r) && PhaseEdit(r, phase, code, now).Changed?
    ensures var e := PhaseEdit(r, phase, code, now); Tidy(n, r, e.room, e.revoke)
  {
    var p := phase.value;
    if r.attempt.value.phase != p {
      var given := if code.Some? && code.value != "" then code.value else "session.failed";
      var failure := if p == Failed then Some(given) else None;
      var a := r.attempt.value;
      var b := a.(phase := p, error := if failure.Some? then failure else a.error, updatedAt := now);
      ResetTidy(n, r, r.(attempt := Some(b)), false, NoOne);
    }
  }

  lemma ActionTidy(n: Id, r: Room, i: nat, action: Action, now: Time)
    requires RoomOk(r) && i < |r.members| && IsOpen(r) && ActionEdit(r, i, action, n, now).Changed?
    ensures var e := ActionEdit(r, i, action, n, now); Tidy(n + 1, r, e.room, e.revoke)
  {
    match action
    case Ready(ready, role) => ReadyTidy(n, r, i, ready, role, now);
    case SetPhase(_, phase, code) => PhaseTidy(n + 1, r, phase, code, now);
    case Leave => VacateTidy(n + 1, r, i, now);
    case RemoveOffline(target) => VacateTidy(n + 1, r, IndexOf(r.members, target).value, now);
    case _ =>
  }

  // A command of a reachable member.
  lemma ActionGood(n: Id, r: Room, i: nat, action: Action, now: Time)
    requires RoomOk(r) && IdsBelow(r, n) && IsOpen(r) && i < |r.members| && r.members[i].presence != Left
    requires ActionEdit(r, i, action, n, now).Changed?
    ensures var e := ActionEdit(r, i, action, n, now); Good(n, n + 1, r, e.room, e.revoke, !action.LockRole?)
  {
    var e := ActionEdit(r, i, action, n, now);
    ActionTidy(n, r, i, action, now);
    ActionKeeps(n, r, i, action, n, now);
    TidyIsOk(n, n + 1, r, e.room, e.revoke);
  }

  lemma BeginDGood(n: Id, r: Room, me: Id, attempt: Id, p: ClosingPayload, expected: nat, now: Time)
    requires RoomOk(r) && IdsBelow(r, n) && BeginDEdit(r, me, attempt, p, expected, now).Changed?
    ensures var e := BeginDEdit(r, me, attempt, p, expected, now); Good(n, n + 1, r, e.room, e.revoke, true)
  {
    var e := BeginDEdit(r, me, attempt, p, expected, now);
    BeginDKeeps(n, r, me, attempt, p, expected, now);
    TidyIsOk(n, n + 1, r, e.room, e.revoke);
  }

  lemma TerminalTidy(n: Id, r: Room, a: Attempt, d: DRecord, barrier: Barrier, cleanup: Cleanup,
                     secondary: Option<string>, now: Time)
    requires RoomOk(r) && r.attempt.Some? && a.id == r.attempt.value.id
    ensures Tidy(n, r, TerminalizeD(r, a, d, barrier, cleanup, secondary, now), NoOne)
  {
  }

  lemma AckGood(n: Id, r: Room, me: Id, attempt: Id, p: QuiescentPayload, expected: nat, now: Time)
    requires RoomOk(r) && IdsBelow(r, n) && AckDEdit(r, me, attempt, p, expected, now).Changed?
    ensures var e := AckDEdit(r, me, attempt, p, expected, now); Good(n, n + 1, r, e.room, e.revoke, true)
  {
    var e := AckDEdit(r, me, attempt, p, expected, now);
    AckKeeps(n, r, me, attempt, p, expected, now);
    TidyIsOk(n, n + 1, r, e.room, e.revoke);
  }

  lemma ForceGood(n: Id, r: Room, barrier: Barrier, secondary: Option<string>, now: Time)
    requires RoomOk(r) && IdsBelow(r, n)
    requires r.attempt.Some? && r.attempt.value.phase == Closing && r.attempt.value.d.Some?
    requires barrier == ForcedFailure || barrier == ForcedTimeout
    requires secondary.Some? && (barrier == ForcedTimeout ==> secondary.value == "D_BARRIER_TIMEOUT")
    ensures var s := TerminalizeD(r, r.attempt.value, r.attempt.value.d.value, barrier, CleanupFailed, secondary, now);
            Good(n, n, r, s, NoOne, true)
  {
    var s := TerminalizeD(r, r.attempt.value, r.attempt.value.d.value, barrier, CleanupFailed, secondary, now);
    TerminalTidy(n, r, r.attempt.value, r.attempt.value.d.value, barrier, CleanupFailed, secondary, now);
    ForceKeeps(n, r, barrier, secondary, now);
    TidyIsOk(n, n, r, s, NoOne);
  }

  lemma TransportFailGood(n: Id, r: Room, attempt: Id, code: string, now: Time)
    requires RoomOk(r) && IdsBelow(r, n) && TransportFailEdit(r, attempt, code, now).Changed?
    ensures var e := TransportFailEdit(r, attempt, code, now); Good(n, n, r, e.room, e.revoke, true)
  {
    var e := TransportFailEdit(r, attempt, code, now);
    FailKeeps(n, r, code, false, now);
    TidyIsOk(n, n, r, e.room, e.revoke);
  }

  lemma PresenceGood(n: Id, r: Room, i: nat, now: Time)
    requires RoomOk(r) && IdsBelow(r, n) && IsOpen(r) && i < |r.members| && PresenceEdit(r, i, now).Changed?
    ensures var e := PresenceEdit(r, i, now); Good(n, n, r, e.room, e.revoke, true)
    ensures IsOpen(PresenceEdit(r, i, now).room)
  {
    var e := PresenceEdit(r, i, now);
    PresenceKeeps(n, r, i, now);
    TidyIsOk(n, n, r, e.room, e.revoke);
  }

  lemma ExpireGood(n: Id, r: Room)
    requires RoomOk(r) && IdsBelow(r, n)
    ensures Good(n, n, r, ExpireEdit(r).room, Everyone, true)
  {
  }

  lemma ReconnectGood(n: Id, k: Id, r: Room, i: nat, now: Time)
    requires RoomOk(r) && IdsBelow(r, n) && n <= k && i < |r.members| && MayReconnect(r, i, now)
    ensures Good(n, k, r, ReconnectEdit(r, i, now).room, NoOne, true)
  {
    var s := ReconnectEdit(r, i, now).room;
    MemberKeeps(n, r, i, r.members[i].(presence := Online, deadline := None, lastSeen := now));
    TidyIsOk(n, k, r, s, NoOne);
  }

  // Joining drops members that have left, and nobody else.
  lemma JoinGood(n: Id, k: Id, r: Room, now: Time)
    requires RoomOk(r) && IdsBelow(r, n) && IsOpen(r) && n < k && JoinEdit(r, n, now).Changed?
    ensures var e := JoinEdit(r, n, now);
            && Good(n, k, r, e.room, e.revoke, true) && e.revoke == NoOne
            && IsOpen(e.room) && Present(e.room, n)
  {
    var s := JoinEdit(r, n, now).room;
    JoinKeeps(n, r, n, now);
    ActiveOf(r.members);
    assert s.members == [r.members[0], s.members[1]];
    assert s.members[1].id == n && Reachable(s.members[1].presence);
    forall m | Present(r, m) ensures Present(s, m) {
      assert m == r.members[0].id && s.members[0] == r.members[0];
    }
  }
}
