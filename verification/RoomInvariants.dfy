/**
 What every change keeps of one room, and how an attempt may evolve under the changes of one
 room: the facts that hold of all runs are induction over these lemmas.
 */
module RoomInvariants {
  import opened Common
  import E = Envelopes
  import opened Rooms

  // The owner keeps the first seat and never leaves; a second member has the other seat.
  predicate MembersOk(owner: Id, ms: seq<Member>) {
    && 1 <= |ms| <= 2
    && ms[0].id == owner && ms[0].seat == E.MemberA && ms[0].presence != Left
    && (|ms| == 2 ==> ms[1].seat == E.MemberB && ms[1].id != owner)
  }

  predicate Paired(ms: seq<Member>) {
    |ms| == 2 && ms[0].presence != Left && ms[1].presence != Left
  }

  // An attempt needs both members, one of them its creator; its role is locked, and its number
  // is the latest the room has given out.
  predicate AttemptOk(r: Room, a: Attempt) {
    && Paired(r.members)
    && (a.creator == Some(r.members[0].id) || a.creator == Some(r.members[1].id))
    && a.roleLocked
    && a.number == a.activation == r.lastAttemptNumber
    && (a.d.Some? ==> a.d.value.intent.activation == a.activation && a.d.value.intent.outcome.Terminal())
  }

  predicate RoomOk(r: Room) {
    && MembersOk(r.key.owner, r.members)
    && (r.attempt.Some? ==> AttemptOk(r, r.attempt.value))
    && (r.state == WaitingForPartner ==> r.waitingExpiresAt.Some?)
  }

  // What the barrier reports besides its outcome.
  predicate SecondaryOk(d: DRecord) {
    && (d.barrier == WaitingForSides ==> d.secondary == None)
    && (d.barrier == ForcedTimeout ==> d.secondary == Some("D_BARRIER_TIMEOUT"))
    && (d.barrier == ForcedFailure ==> d.secondary.Some?)
    && (d.barrier == TwoSideTerminal ==>
          d.secondary == if d.cleanup == Verified then None else Some("D_SIDE_CLEANUP_FAILED"))
  }

  // The barrier of a frozen outcome.
  predicate BarrierOk(phase: Phase, d: DRecord) {
    && (d.barrier == TwoSideTerminal <==> d.sideA.Some? && d.sideB.Some?)
    && (d.barrier == WaitingForSides <==> d.cleanup == Pending)
    && (d.cleanup == Verified ==> d.barrier == TwoSideTerminal)
    && (d.barrier == TwoSideTerminal ==>
          (d.cleanup == Verified <==> Clean(d.sideA.value.evidence) && Clean(d.sideB.value.evidence)))
    && d.terminalizedAt.Some? == (d.barrier != WaitingForSides)
    && SecondaryOk(d)
    && (d.barrier != WaitingForSides ==> phase == d.intent.outcome)
    && (phase == Closing || phase.Terminal())
  }

  // What holds as long as no role is locked again.
  predicate PhaseOk(r: Room) {
    && (IsOpen(r) ==> ((r.state == ConnectionAttempt || r.state == Trading) <==> Running(r)))
    && (r.attempt.Some? && r.attempt.value.d.Some? ==> BarrierOk(r.attempt.value.phase, r.attempt.value.d.value))
  }

  // A recorded intent, its deadline and every recorded report stay as they are.
  predicate DEvolves(d: DRecord, e: DRecord) {
    && e.intent == d.intent && e.deadline == d.deadline && e.initiatedBy == d.initiatedBy
    && (d.sideA.Some? ==> e.sideA == d.sideA) && (d.sideB.Some? ==> e.sideB == d.sideB)
    && (d.barrier != WaitingForSides ==> e.barrier != WaitingForSides)
    && (d.barrier == TwoSideTerminal ==> e.barrier == TwoSideTerminal)
  }

  // Phases only advance, and a terminal phase changes only to the frozen outcome, once both
  // sides have reported.
  predicate AttemptEvolves(a: Attempt, b: Attempt) {
    && b.id == a.id && b.number == a.number && b.activation == a.activation && b.creator == a.creator
    && a.phase.Rank() <= b.phase.Rank()
    && (a.phase.Terminal() && b.phase != a.phase ==>
          a.d.Some? && b.phase == a.d.value.intent.outcome && b.d.Some? && b.d.value.barrier == TwoSideTerminal)
    && (a.phase.Terminal() && b.d.Some? ==> a.d.Some?)
    && (a.d.Some? ==> b.d.Some? && DEvolves(a.d.value, b.d.value))
  }

  predicate SameMembers(r: Room, s: Room) {
    && |s.members| == |r.members|
    && forall i :: 0 <= i < |r.members| ==> s.members[i].id == r.members[i].id
  }

  // How a room evolves while identifiers from `n` on are drawn: its attempt is the one it had,
  // evolved among the same members, or a new one under a higher number and a new id.
  predicate Evolves(n: Id, r: Room, s: Room) {
    && s.key == r.key && r.lastAttemptNumber <= s.lastAttemptNumber
    && (s.attempt.Some? ==>
          if s.attempt.value.number > r.lastAttemptNumber then s.attempt.value.id >= n
          else r.attempt.Some? && AttemptEvolves(r.attempt.value, s.attempt.value) && SameMembers(r, s))
  }

  lemma EvolvesTransitive(n: Id, n': Id, r: Room, s: Room, t: Room)
    requires RoomOk(r) && RoomOk(s) && RoomOk(t) && PhaseOk(s) && n <= n'
    requires Evolves(n, r, s) && Evolves(n', s, t)
    ensures Evolves(n, r, t)
  {
  }

  // ---- lists of at most two members ---------------------------------------------------------

  lemma ActiveOf(ms: seq<Member>)
    requires 1 <= |ms| <= 2
    ensures Active(ms) == (if ms[0].presence != Left then [ms[0]] else [])
                          + (if |ms| == 2 && ms[1].presence != Left then [ms[1]] else [])
  {
    assert ms[1..] == if |ms| == 1 then [] else [ms[1]];
    if |ms| == 2 {
      assert ms[1..][1..] == [];
    }
  }

  // Changing one member without moving it in or out of the room.
  lemma ReplaceMember(owner: Id, ms: seq<Member>, i: nat, m: Member)
    requires MembersOk(owner, ms) && i < |ms| && m.id == ms[i].id && m.seat == ms[i].seat
    requires (m.presence == Left) == (ms[i].presence == Left) || (m.presence != Left)
    ensures MembersOk(owner, ms[i := m])
    ensures Paired(ms) ==> Paired(ms[i := m])
  {
  }

  // ---- the lemmas, one for each kind of change ----------------------------------------------

  lemma BeginKeeps(n: Id, r: Room, newId: Id, now: Time)
    requires MembersOk(r.key.owner, r.members) && Paired(r.members) && Complementary(Active(r.members)) && n <= newId
    ensures var s := BeginAttempt(r, newId, now);
            RoomOk(s) && PhaseOk(s) && Evolves(n, r, s)
  {
    ActiveOf(r.members);
    assert CreatorOf(Active(r.members)).Some?;
  }

  lemma ReadyKeeps(n: Id, r: Room, i: nat, ready: bool, role: Option<Role>, newId: Id, now: Time)
    requires RoomOk(r) && i < |r.members| && n <= newId
    requires ReadyEdit(r, i, ready, role, newId, now).Changed?
    ensures var s := ReadyEdit(r, i, ready, role, newId, now).room;
            RoomOk(s) && (PhaseOk(r) ==> PhaseOk(s) && Evolves(n, r, s))
  {
    var m := r.members[i].(ready := ready, role := if ready then role else None);
    var r1 := r.(members := r.members[i := m],
                 attempt := if !ready && r.attempt.Some? && !Running(r) then None else r.attempt);
    ReplaceMember(r.key.owner, r.members, i, m);
    ActiveOf(r1.members);
    if !Running(r1) && |Active(r1.members)| == 2 && AllReady(Active(r1.members)) && Complementary(Active(r1.members)) {
      BeginKeeps(n, r1, newId, now);
    }
  }

  lemma MemberKeeps(n: Id, r: Room, i: nat, m: Member)
    requires RoomOk(r) && i < |r.members|
    requires m.id == r.members[i].id && m.seat == r.members[i].seat && m.presence != Left
    ensures var s := r.(members := r.members[i := m]);
            RoomOk(s) && (PhaseOk(r) ==> PhaseOk(s) && Evolves(n, r, s))
  {
    ReplaceMember(r.key.owner, r.members, i, m);
  }

  lemma StartKeeps(n: Id, r: Room, newId: Id, now: Time)
    requires RoomOk(r) && n <= newId && StartEdit(r, newId, now).Changed?
    ensures var s := StartEdit(r, newId, now).room;
            RoomOk(s) && (PhaseOk(r) ==> PhaseOk(s) && Evolves(n, r, s))
  {
    ActiveOf(r.members);
    BeginKeeps(n, r, newId, now);
  }

  // Attempts start with their role locked, so it can be neither claimed nor handed over.
  lemma NeverClaimed(r: Room, me: Id, target: Id, now: Time)
    requires RoomOk(r)
    ensures ClaimEdit(r, me, now) == Refused(409)
    ensures TransferEdit(r, me, target, now) == Refused(409)
  {
  }

  lemma ResetKeeps(r: Room, leftToo: bool)
    requires MembersOk(r.key.owner, r.members)
    ensures var s := ResetMembers(r, leftToo);
            && MembersOk(r.key.owner, s.members) && (Paired(r.members) ==> Paired(s.members)) && SameMembers(r, s)
  {
  }

  lemma PhaseKeeps(n: Id, r: Room, phase: Option<Phase>, code: Option<string>, now: Time)
    requires RoomOk(r) && PhaseEdit(r, phase, code, now).Changed?
    ensures var s := PhaseEdit(r, phase, code, now).room;
            RoomOk(s) && (PhaseOk(r) ==> PhaseOk(s) && Evolves(n, r, s))
  {
    hide Reset, FailureCode, MembersOk, Paired;
    ResetKeeps(r, false);
  }

  lemma VacateKeeps(n: Id, r: Room, i: nat, now: Time)
    requires RoomOk(r) && i < |r.members| && r.members[i].id != r.key.owner
    ensures var s := Vacate(r, i, now);
            RoomOk(s) && PhaseOk(s) && Evolves(n, r, s)
  {
  }

  lemma CloseKeeps(n: Id, r: Room, me: Id, now: Time)
    requires RoomOk(r) && CloseEdit(r, me, now).Changed?
    ensures var s := CloseEdit(r, me, now).room;
            RoomOk(s) && (PhaseOk(r) ==> PhaseOk(s) && Evolves(n, r, s))
  {
  }

  // Every command of a member but lock_role; lock_role keeps the membership facts only.
  lemma ActionKeeps(n: Id, r: Room, i: nat, action: Action, newId: Id, now: Time)
    requires RoomOk(r) && i < |r.members| && n <= newId
    requires ActionEdit(r, i, action, newId, now).Changed?
    requires action.Heartbeat? ==> r.members[i].presence != Left
    ensures var s := ActionEdit(r, i, action, newId, now).room;
            RoomOk(s) && (PhaseOk(r) && !action.LockRole? ==> PhaseOk(s) && Evolves(n, r, s))
  {
    var me := r.members[i].id;
    match action
    case Ready(ready, role) => ReadyKeeps(n, r, i, ready, role, newId, now);
    case Heartbeat => MemberKeeps(n, r, i, r.members[i].(presence := Online, deadline := None, lastSeen := now));
    case StartAttempt => StartKeeps(n, r, newId, now);
    case ClaimCreator(_) => NeverClaimed(r, me, me, now);
    case TransferCreator(_, target) => NeverClaimed(r, me, target, now);
    case LockRole(_) =>
    case SetPhase(_, phase, code) => PhaseKeeps(n, r, phase, code, now);
    case Leave => VacateKeeps(n, r, i, now);
    case RemoveOffline(target) => VacateKeeps(n, r, IndexOf(r.members, target).value, now);
    case Close => CloseKeeps(n, r, me, now);
    case Unknown =>
  }

  // The command lock_role keeps the rest exactly when the attempt is still running and its
  // phase has not advanced past connecting_switches.
  lemma LockRoleExactly(n: Id, r: Room, now: Time)
    requires RoomOk(r) && PhaseOk(r) && IsOpen(r) && r.attempt.Some?
    requires r.attempt.value.d.None?
    ensures LockRoleEdit(r, now).Changed?
    ensures var s := LockRoleEdit(r, now).room;
            && RoomOk(s)
            && (PhaseOk(s) <==> Running(r))
            && (Evolves(n, r, s) <==> r.attempt.value.phase.Rank() <= 1)
  {
  }

  // With a frozen outcome on record it never does.
  lemma LockRoleBreaksBarrier(r: Room, now: Time)
    requires RoomOk(r) && r.attempt.Some? && r.attempt.value.d.Some?
    ensures LockRoleEdit(r, now).Changed? && !PhaseOk(LockRoleEdit(r, now).room)
  {
  }

  lemma JoinKeeps(n: Id, r: Room, newId: Id, now: Time)
    requires RoomOk(r) && r.key.owner < newId && JoinEdit(r, newId, now).Changed?
    ensures var s := JoinEdit(r, newId, now).room;
            RoomOk(s) && PhaseOk(s) && Evolves(n, r, s)
    ensures r.attempt.None?
  {
    ActiveOf(r.members);
  }

  lemma BeginDKeeps(n: Id, r: Room, me: Id, attempt: Id, p: ClosingPayload, expected: nat, now: Time)
    requires RoomOk(r) && BeginDEdit(r, me, attempt, p, expected, now).Changed?
    ensures var s := BeginDEdit(r, me, attempt, p, expected, now).room;
            RoomOk(s) && (PhaseOk(r) ==> PhaseOk(s) && Evolves(n, r, s))
  {
  }

  lemma TerminalizeKeeps(n: Id, r: Room, a: Attempt, d: DRecord, barrier: Barrier, cleanup: Cleanup,
                         secondary: Option<string>, now: Time)
    requires RoomOk(r) && r.attempt == Some(a) && a.d.Some?
    requires d.intent == a.d.value.intent && barrier != WaitingForSides
    requires DEvolves(a.d.value, d.(barrier := barrier))
    requires a.phase.Terminal() && a.phase != d.intent.outcome ==> barrier == TwoSideTerminal
    requires barrier == TwoSideTerminal <==> d.sideA.Some? && d.sideB.Some?
    requires cleanup != Pending
    requires cleanup == Verified <==>
      barrier == TwoSideTerminal && Clean(d.sideA.value.evidence) && Clean(d.sideB.value.evidence)
    requires SecondaryOk(d.(barrier := barrier, cleanup := cleanup, secondary := secondary))
    ensures var s := TerminalizeD(r, a, d, barrier, cleanup, secondary, now);
            RoomOk(s) && PhaseOk(s) && Evolves(n, r, s)
  {
    ResetKeeps(r, false);
  }

  lemma AckKeeps(n: Id, r: Room, me: Id, attempt: Id, p: QuiescentPayload, expected: nat, now: Time)
    requires RoomOk(r) && AckDEdit(r, me, attempt, p, expected, now).Changed?
    ensures var s := AckDEdit(r, me, attempt, p, expected, now).room;
            RoomOk(s) && (PhaseOk(r) ==> PhaseOk(s) && Evolves(n, r, s))
  {
    var i := ActingMember(r, me, attempt).value;
    var a, seat := r.attempt.value, r.members[i].seat;
    var d := a.d.value.WithSide(seat, Reported(a.d.value, seat, attempt, p).value);
    if d.sideA.Some? && d.sideB.Some? {
      var verified := Clean(d.sideA.value.evidence) && Clean(d.sideB.value.evidence);
      TerminalizeKeeps(n, r, a, d, TwoSideTerminal, if verified then Verified else CleanupFailed,
                       if verified then None else Some("D_SIDE_CLEANUP_FAILED"), now);
    }
  }

  // A barrier that is forced while it waits; the late report of the other side comes later.
  lemma ForceKeeps(n: Id, r: Room, barrier: Barrier, secondary: Option<string>, now: Time)
    requires RoomOk(r) && r.attempt.Some? && r.attempt.value.phase == Closing && r.attempt.value.d.Some?
    requires barrier == ForcedFailure || barrier == ForcedTimeout
    requires secondary.Some? && (barrier == ForcedTimeout ==> secondary.value == "D_BARRIER_TIMEOUT")
    ensures var s := TerminalizeD(r, r.attempt.value, r.attempt.value.d.value, barrier, CleanupFailed, secondary, now);
            RoomOk(s) && (PhaseOk(r) ==> PhaseOk(s) && Evolves(n, r, s))
  {
    ResetKeeps(r, false);
    if PhaseOk(r) {
      TerminalizeKeeps(n, r, r.attempt.value, r.attempt.value.d.value, barrier, CleanupFailed, secondary, now);
    }
  }

  lemma FailKeeps(n: Id, r: Room, code: string, leftToo: bool, now: Time)
    requires RoomOk(r) && r.attempt.Some? && !r.attempt.value.phase.Terminal() && r.attempt.value.phase != Closing
    ensures var s := FailAttempt(r, code, leftToo, now);
            RoomOk(s) && (PhaseOk(r) ==> PhaseOk(s) && Evolves(n, r, s))
  {
    ResetKeeps(r, leftToo);
  }

  lemma PresenceKeeps(n: Id, r: Room, i: nat, now: Time)
    requires RoomOk(r) && i < |r.members| && PresenceEdit(r, i, now).Changed?
    ensures var s := PresenceEdit(r, i, now).room;
            RoomOk(s) && (PhaseOk(r) ==> PhaseOk(s) && Evolves(n, r, s))
  {
    var m := r.members[i];
    if m.presence == Online {
      MemberKeeps(n, r, i, m.(presence := Reconnecting, deadline := Some(now + RECONNECT_WINDOW)));
    } else {
      var gone := Unready(m).(presence := Offline);
      MemberKeeps(n, r, i, gone);
      var r1 := r.(members := r.members[i := gone]);
      if Running(r) && r.attempt.value.phase != Closing {
        FailKeeps(n, r1, "member.reconnect_expired", true, now);
      }
    }
  }
}
