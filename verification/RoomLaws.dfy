/**
 What each change asks of a sound room and what it leaves behind, member by member: who may do it,
 which members are ready and in which role afterwards, what becomes of the attempt, and that nothing
 else is touched.
 */
module RoomLaws {
  import opened Common
  import E = Envelopes
  import opened Rooms
  import opened RoomInvariants

  // ---- what may change ----------------------------------------------------------------------

  // Only the members, the attempt and the state of the room differ.
  predicate Frame(r: Room, s: Room) {
    s == r.(members := s.members, attempt := s.attempt, state := s.state)
  }

  // Everyone but member i is as before; so is member i, but for its readiness and role.
  predicate OnlyReadiness(ms: seq<Member>, ns: seq<Member>, i: nat) {
    && i < |ms| == |ns|
    && (forall j :: 0 <= j < |ms| && j != i ==> ns[j] == ms[j])
    && ns[i] == ms[i].(ready := ns[i].ready, role := ns[i].role)
  }

  // Everyone who is still there is made not ready; those who have left, too, if `all` says so.
  predicate Cleared(ms: seq<Member>, ns: seq<Member>, all: bool) {
    && |ns| == |ms|
    && forall j :: 0 <= j < |ms| ==>
         && ns[j] == ms[j].(ready := ns[j].ready, role := ns[j].role)
         && (if all || ms[j].presence != Left then !ns[j].ready && ns[j].role == None else ns[j] == ms[j])
  }

  // Both members are there and ready, one in each role.
  predicate Matched(ms: seq<Member>) {
    && |ms| == 2 && ms[0].presence != Left && ms[1].presence != Left && ms[0].ready && ms[1].ready
    && ((ms[0].role == Some(Creator) && ms[1].role == Some(Finder))
        || (ms[0].role == Some(Finder) && ms[1].role == Some(Creator)))
  }

  function CreatorIn(ms: seq<Member>): Id
    requires |ms| == 2
  {
    if ms[0].role == Some(Creator) then ms[0].id else ms[1].id
  }

  // A new attempt of the room, under its next number.
  predicate Began(r: Room, s: Room, newId: Id, now: Time)
    requires |s.members| == 2
  {
    && s.state == ConnectionAttempt && s.lastAttemptNumber == r.lastAttemptNumber + 1
    && s.attempt.Some?
    && var a := s.attempt.value;
    && a.id == newId && a.number == a.activation == r.lastAttemptNumber + 1
    && a.phase == ConnectingSwitches && a.creator == Some(CreatorIn(s.members)) && a.roleLocked
    && a.roleLockVersion == r.version + 1 && a.error == None && a.d == None && a.updatedAt == now
  }

  lemma MatchedExactly(ms: seq<Member>)
    requires 1 <= |ms| <= 2
    ensures Matched(ms) <==> |Active(ms)| == 2 && AllReady(Active(ms)) && Complementary(Active(ms))
    ensures Matched(ms) ==> CreatorOf(Active(ms)) == Some(CreatorIn(ms))
  {
    ActiveOf(ms);
    if |ms| == 2 && ms[0].presence != Left && ms[1].presence != Left {
      var active := Active(ms);
      assert active == ms;
      assert ms[0] in active && ms[1] in active;
      assert active[1..] == [ms[1]];
    }
  }

  // ---- getting ready ------------------------------------------------------------------------

  // While an attempt runs a member may only confirm the role the attempt gives it.
  lemma ReadyWhileRunning(r: Room, i: nat, ready: bool, role: Option<Role>, newId: Id, now: Time)
    requires RoomOk(r) && i < |r.members| && Running(r)
    ensures var mine := if r.attempt.value.creator == Some(r.members[i].id) then Creator else Finder;
            var e := ReadyEdit(r, i, ready, role, newId, now);
            if ready && role == None then e == Refused(400)
            else if !ready || role != Some(mine) then e == Refused(409)
            else
              && e.Changed? && e.event == MemberReady && e.revoke == NoOne
              && OnlyReadiness(r.members, e.room.members, i)
              && e.room.members[i].ready && e.room.members[i].role == Some(mine)
              && e.room == r.(members := e.room.members)
  {
  }

  // Otherwise the choice is recorded, and an attempt begins exactly when it makes the members match.
  lemma ReadyOtherwise(r: Room, i: nat, ready: bool, role: Option<Role>, newId: Id, now: Time)
    requires RoomOk(r) && i < |r.members| && !Running(r)
    ensures var e := ReadyEdit(r, i, ready, role, newId, now);
            if ready && role == None then e == Refused(400)
            else
              && e.Changed? && e.revoke == NoOne
              && OnlyReadiness(r.members, e.room.members, i)
              && e.room.members[i].ready == ready
              && e.room.members[i].role == (if ready then role else None)
              && (if Matched(e.room.members) then
                    && e.event == AttemptStarted && Began(r, e.room, newId, now)
                    && Frame(r.(lastAttemptNumber := r.lastAttemptNumber + 1), e.room)
                  else
                    && e.event == (if ready then MemberReady else MemberNotReady) && Frame(r, e.room)
                    && e.room.state == (if ready then WaitingForComplementaryRole else ReadyCheck)
                    && e.room.attempt == (if ready then r.attempt else None))
  {
    hide Active, AllReady, Complementary, CreatorOf;
    if !ready || role.Some? {
      var m := r.members[i].(ready := ready, role := if ready then role else None);
      MatchedExactly(r.members[i := m]);
    }
  }

  // An explicit start: nothing while an attempt runs, else exactly for members that match.
  lemma StartExactly(r: Room, newId: Id, now: Time)
    requires RoomOk(r)
    ensures var e := StartEdit(r, newId, now);
            if Running(r) then e == Same
            else if !Matched(r.members) then e == Refused(409)
            else
              && e.Changed? && e.event == AttemptStarted && e.revoke == NoOne
              && e.room.members == r.members && Began(r, e.room, newId, now)
              && Frame(r.(lastAttemptNumber := r.lastAttemptNumber + 1), e.room)
  {
    hide Active, AllReady, Complementary, CreatorOf;
    MatchedExactly(r.members);
  }

  // ---- phases -------------------------------------------------------------------------------

  // The code a failure is reported under.
  predicate GoodFailure(code: Option<string>) {
    code.None? || code.value == "" || FailureCode(code.value)
  }

  function FailureOf(code: Option<string>): string {
    if code.None? || code.value == "" then "session.failed" else code.value
  }

  // The phase command advances a running attempt to a phase of no lower rank; it may also replace
  // the report of a lost peer on a failed one, and does nothing when the phase is reached already.
  lemma PhaseExactly(r: Room, phase: Phase, code: Option<string>, now: Time)
    requires RoomOk(r) && r.attempt.Some?
    ensures var a, e := r.attempt.value, PhaseEdit(r, Some(phase), code, now);
            if phase == Failed && !GoodFailure(code) then e == Refused(400)
            else if a.phase == phase then
              if phase == Failed && a.error == Some("relay.peer_lost") && FailureOf(code) != "relay.peer_lost" then
                e == Changed(r.(attempt := Some(a.(error := Some(FailureOf(code)), updatedAt := now))),
                             FailureRefined, NoOne)
              else e == Same
            else if a.phase in {Completed, Canceled, Failed} || phase.Rank() < a.phase.Rank() then e == Refused(409)
            else
              && e.Changed? && e.event == AttemptPhase(phase) && e.revoke == NoOne && Frame(r, e.room)
              && e.room.attempt == Some(a.(phase := phase, updatedAt := now,
                                           error := if phase == Failed then Some(FailureOf(code)) else a.error))
              && e.room.state == (if phase == TradingRoom then Trading
                                  else if phase in {Completed, Canceled, Failed} then ReadyCheck else r.state)
              && (if phase in {Completed, Canceled, Failed} then Cleared(r.members, e.room.members, false)
                  else e.room.members == r.members)
  {
    assert FailureCode("session.failed");
  }

  lemma PhaseNeedsAttempt(r: Room, phase: Option<Phase>, code: Option<string>, now: Time)
    requires phase.None? || r.attempt.None?
    ensures PhaseEdit(r, phase, code, now) == Refused(400)
  {
  }

  // The ranks: two ways of finding the partner's room are alike, the three outcomes are the last.
  lemma RanksInOrder()
    ensures CreatorGuidance.Rank() < ConnectingSwitches.Rank() < DiscoveringRealRoom.Rank()
            == AdvertisingMirrorRoom.Rank() < TradingRoom.Rank() < PhaseReconnecting.Rank() < Recovering.Rank()
            < Phase.Closing.Rank() < Completed.Rank() == Canceled.Rank() == Failed.Rank()
    ensures forall p: Phase :: p.Terminal() <==> p.Rank() == Completed.Rank()
  {
  }

  // Letters and digits by their ASCII codes, and the signs that may go with them.
  predicate Small(c: char) { 97 <= c as int <= 122 }
  predicate Capital(c: char) { 65 <= c as int <= 90 }
  predicate Numeral(c: char) { 48 <= c as int <= 57 }
  predicate Sign(c: char) { c as int in {45, 46, 95} }

  // The four patterns: failure codes, codes and gates of the shutdown barrier, launch hashes.
  lemma PatternsExactly(s: string)
    ensures FailureCode(s) <==>
              1 <= |s| <= 64 && Small(s[0])
              && forall i :: 1 <= i < |s| ==> Small(s[i]) || Numeral(s[i]) || Sign(s[i])
    ensures DCode(s) <==>
              1 <= |s| <= 96 && (Small(s[0]) || Capital(s[0]))
              && forall i :: 1 <= i < |s| ==> Small(s[i]) || Capital(s[i]) || Numeral(s[i]) || Sign(s[i])
    ensures DGate(s) <==>
              1 <= |s| <= 96 && (Small(s[0]) || Capital(s[0]) || Numeral(s[0]))
              && forall i :: 1 <= i < |s| ==>
                   Small(s[i]) || Capital(s[i]) || Numeral(s[i]) || Sign(s[i]) || s[i] as int == 58
    ensures Sha256(s) <==>
              |s| == 64 && forall i :: 0 <= i < 64 ==> Numeral(s[i]) || 97 <= s[i] as int <= 102
  {
  }

  // ---- leaving ------------------------------------------------------------------------------

  // The room is back to waiting for a partner, for half an hour but not beyond its own time.
  predicate Vacated(r: Room, s: Room, i: nat, now: Time) {
    && i < |r.members|
    && s.members == Reset(r.members[i := r.members[i].(presence := Left)], true)
    && s.attempt == None && s.state == WaitingForPartner
    && s.waitingExpiresAt.Some?
    && (s.waitingExpiresAt.value == now + WAITING_TTL || s.waitingExpiresAt.value == r.key.expiresAt)
    && s.waitingExpiresAt.value <= now + WAITING_TTL && s.waitingExpiresAt.value <= r.key.expiresAt
    && s == r.(members := s.members, attempt := None, state := s.state, waitingExpiresAt := s.waitingExpiresAt)
  }

  // After that nobody is ready, exactly that member has left, and the rest is there as before.
  lemma VacatedMembers(r: Room, s: Room, i: nat, now: Time)
    requires Vacated(r, s, i, now)
    ensures |s.members| == |r.members|
    ensures forall j :: 0 <= j < |r.members| ==>
              && s.members[j].id == r.members[j].id && s.members[j].seat == r.members[j].seat
              && !s.members[j].ready && s.members[j].role == None
              && s.members[j].presence == (if j == i then Left else r.members[j].presence)
              && s.members[j].deadline == r.members[j].deadline && s.members[j].lastSeen == r.members[j].lastSeen
  {
  }

  // The guest leaves unless an attempt runs; the owner never does.
  lemma LeaveExactly(r: Room, i: nat, now: Time)
    requires RoomOk(r) && i < |r.members|
    ensures var e := LeaveEdit(r, i, now);
            if i == 0 || Running(r) then e == Refused(409)
            else e.Changed? && e.event == MemberLeft && e.revoke == Only(r.members[i].id) && Vacated(r, e.room, i, now)
  {
  }

  // The owner removes the guest when it is offline and no attempt runs.
  lemma RemoveExactly(r: Room, me: Id, target: Id, now: Time)
    requires RoomOk(r)
    ensures var e := RemoveEdit(r, me, target, now);
            if me != r.key.owner then e == Refused(403)
            else if Running(r) then e == Refused(409)
            else if |r.members| < 2 || target != r.members[1].id then e == Refused(400)
            else if r.members[1].presence != Offline then e == Refused(409)
            else e.Changed? && e.event == MemberRemoved && e.revoke == Only(target) && Vacated(r, e.room, 1, now)
  {
    if |r.members| == 2 {
      assert r.members[1..][0] == r.members[1] && r.members[1..][1..] == [];
    } else {
      assert r.members[1..] == [];
    }
  }

  // The owner closes the room for good; an attempt that runs is canceled.
  lemma CloseExactly(r: Room, me: Id, now: Time)
    requires RoomOk(r)
    ensures var e := CloseEdit(r, me, now);
            if me != r.key.owner then e == Refused(403)
            else
              && e.Changed? && e.event == RoomClosed && e.revoke == Everyone
              && e.room.state == Closed && Frame(r, e.room) && e.room.members == r.members
              && (if Running(r) then e.room.attempt.Some?
                    && e.room.attempt.value == r.attempt.value.(phase := Canceled, updatedAt := now)
                  else e.room.attempt == r.attempt)
  {
  }

  // ---- joining and presence -----------------------------------------------------------------

  // The second seat is taken by a new member, in place of one that has left.
  lemma JoinExactly(r: Room, newId: Id, now: Time)
    requires RoomOk(r)
    ensures var e := JoinEdit(r, newId, now);
            if |r.members| == 2 && r.members[1].presence != Left then e == Refused(409)
            else
              && e.Changed? && e.event == MemberJoined && e.revoke == NoOne
              && |e.room.members| == 2 && e.room.members[0] == r.members[0]
              && var m := e.room.members[1];
              && m.id == newId && m.seat == E.MemberB && m.presence == Online && !m.ready && m.role == None
              && m.deadline == None && m.lastSeen == now
              && e.room.state == ReadyCheck && e.room.waitingExpiresAt == None
              && e.room == r.(members := e.room.members, state := ReadyCheck, waitingExpiresAt := None)
  {
    ActiveOf(r.members);
  }

  // Only the presence of member i differs, with what goes with it.
  predicate OnlyPresence(ms: seq<Member>, ns: seq<Member>, i: nat, presence: Presence, deadline: Option<Time>,
                         lastSeen: Time) {
    && i < |ms| == |ns|
    && (forall j :: 0 <= j < |ms| && j != i ==> ns[j] == ms[j])
    && ns[i] == Member(ms[i].id, ms[i].seat, presence, ms[i].ready, ms[i].role, deadline, lastSeen)
  }

  // A heartbeat and a return make a member online now, with nothing to wait for.
  lemma SignsOfLife(r: Room, i: nat, now: Time)
    requires i < |r.members|
    ensures var e := HeartbeatEdit(r, i, now);
            && e.Changed? && e.event == MemberHeartbeat && e.revoke == NoOne
            && e.room == r.(members := e.room.members)
            && OnlyPresence(r.members, e.room.members, i, Online, None, now)
    ensures var e := ReconnectEdit(r, i, now);
            && e.Changed? && e.event == MemberReconnected && e.revoke == NoOne
            && e.room == r.(members := e.room.members)
            && OnlyPresence(r.members, e.room.members, i, Online, None, now)
  {
  }

  // A member is missed after more than 45 seconds without a sign, has 90 seconds to come back, and
  // is offline then; an attempt that runs, unless it is closing, fails with it.
  lemma MissedExactly(r: Room, i: nat, now: Time)
    requires i < |r.members|
    ensures var m, e := r.members[i], PresenceEdit(r, i, now);
            if m.presence == Online && m.lastSeen + 45 * SECOND < now then
              && e.Changed? && e.event == MemberReconnecting && e.revoke == NoOne
              && e.room == r.(members := e.room.members)
              && OnlyPresence(r.members, e.room.members, i, Reconnecting, Some(now + 90 * SECOND), m.lastSeen)
            else if m.presence == Reconnecting && m.deadline.Some? && m.deadline.value <= now then
              && e.Changed? && e.event == MemberOffline && e.revoke == Only(m.id) && Frame(r, e.room)
              && e.room.members[i].presence == Offline && !e.room.members[i].ready && e.room.members[i].role == None
              && (if r.attempt.Some? && r.attempt.value.phase !in {Phase.Closing, Completed, Canceled, Failed} then
                    && e.room.state == ReadyCheck
                    && e.room.attempt == Some(r.attempt.value.(phase := Failed, updatedAt := now,
                                                               error := Some("member.reconnect_expired")))
                    && Cleared(r.members[i := m.(presence := Offline)], e.room.members, true)
                  else
                    && e.room.state == r.state && e.room.attempt == r.attempt
                    && forall j :: 0 <= j < |r.members| && j != i ==> e.room.members[j] == r.members[j])
            else e == Same
  {
  }

  // The reconnect window is open while the room is and the member may be waited for.
  lemma MayReturnExactly(r: Room, i: nat, now: Time)
    requires i < |r.members|
    ensures MayReconnect(r, i, now) <==>
              && r.state !in {Closed, Expired}
              && r.members[i].presence in {Online, Reconnecting}
              && !(r.members[i].deadline.Some? && r.members[i].deadline.value <= now)
  {
  }

  // A room is over when its time is, or when nobody has joined it in time.
  lemma OverdueExactly(r: Room, now: Time)
    requires RoomOk(r)
    ensures Overdue(r, now) <==>
              && r.state !in {Closed, Expired}
              && (now >= r.key.expiresAt || (r.state == WaitingForPartner && now >= r.waitingExpiresAt.value))
    ensures ExpireEdit(r) == Changed(r.(state := Expired), RoomExpired, Everyone)
  {
  }

  // ---- commands on an outdated version ------------------------------------------------------

  // With an outdated version only the commands that do not depend on it go through; starting what
  // runs already is answered idly, and so is claiming what is claimed.
  lemma OutdatedExactly(r: Room, me: Id, action: Action, expected: Option<nat>)
    ensures var outdated := expected.Some? && expected.value != r.version;
            && (Stale(r, me, action, expected) == Proceed <==>
                  || !outdated || action.Heartbeat? || action.Leave? || action.Close?
                  || action.Ready?)
            && (Stale(r, me, action, expected) == Idle <==>
                  && outdated
                  && ((action.StartAttempt? && Running(r))
                      || (action.ClaimCreator? && r.attempt.Some? && r.attempt.value.id == action.attempt
                          && r.attempt.value.creator.Some?)))
  {
  }

  // Claiming, transferring, locking and moving on name the attempt they mean.
  lemma NamedExactly(r: Room, i: nat, action: Action, newId: Id, now: Time)
    requires i < |r.members|
    ensures var named := if action.ClaimCreator? || action.TransferCreator? || action.LockRole? || action.SetPhase?
                         then Some(action.attempt) else None;
            named.Some? && (r.attempt.None? || r.attempt.value.id != named.value) ==>
              ActionEdit(r, i, action, newId, now) == Refused(409)
    ensures action.Unknown? ==> ActionEdit(r, i, action, newId, now) == Refused(404)
  {
  }

  // ---- the two-sided barrier ----------------------------------------------------------------

  // The member with this identifier, when it is in the room and has not left.
  function Acting(r: Room, me: Id): (i: Option<nat>)
    ensures i.Some? ==> i.value < |r.members| && r.members[i.value].id == me && r.members[i.value].presence != Left
  {
    if |r.members| > 0 && r.members[0].id == me then if r.members[0].presence != Left then Some(0) else None
    else if |r.members| > 1 && r.members[1].id == me && r.members[1].presence != Left then Some(1)
    else None
  }

  lemma ActingExactly(r: Room, me: Id, attempt: Id)
    requires RoomOk(r)
    ensures ActingMember(r, me, attempt).Ok? <==>
              r.attempt.Some? && r.attempt.value.id == attempt && Acting(r, me).Some?
    ensures ActingMember(r, me, attempt).Ok? ==> Some(ActingMember(r, me, attempt).value) == Acting(r, me)
    ensures ActingMember(r, me, attempt).Err? ==> ActingMember(r, me, attempt) == Err(409)
  {
    if |r.members| == 2 {
      assert r.members[1..][0] == r.members[1] && r.members[1..][1..] == [];
    } else {
      assert r.members[1..] == [];
    }
  }

  // A well-formed request to end this attempt, of its present generation.
  predicate Fits(a: Attempt, p: ClosingPayload) {
    && p.contractOk && p.attempt == a.id && p.activation == Some(a.activation)
    && p.gate.Some? && DGate(p.gate.value) && p.outcome in {Some(Completed), Some(Canceled), Some(Failed)}
    && (p.outcome == Some(Failed) ==> p.code.Some? && DCode(p.code.value))
    && (p.outcome != Some(Failed) ==> p.code == None)
    && (p.outcome == Some(Completed) ==> p.gate.value == "C_TRADE_COMPLETE")
  }

  predicate Elsewhere(a: Attempt, p: ClosingPayload) {
    p.attempt != a.id || p.activation != Some(a.activation)
  }

  predicate Gated(p: ClosingPayload) {
    p.gate.Some? && DGate(p.gate.value)
  }

  // A request for another attempt or generation, or for a success at the wrong gate, conflicts with
  // the room; every other one is malformed.
  lemma FitsExactly(a: Attempt, p: ClosingPayload)
    ensures Requested(a, a.id, p).Ok? <==> Fits(a, p)
    ensures Fits(a, p) ==>
              Requested(a, a.id, p).value == Intent(p.outcome.value, p.code, p.gate.value, a.activation)
    ensures Requested(a, a.id, p).Err? ==>
              Requested(a, a.id, p).error ==
              if p.contractOk && (Elsewhere(a, p) || (Gated(p) && Fits(a, p.(gate := Some(TRADE_COMPLETE))))) then 409
              else 400
  {
  }

  // Ending an attempt is frozen for a member that acts on it with a fitting request: for the first
  // one, of the present version, while the attempt runs.  The same request again changes nothing.
  lemma BeginDExactly(r: Room, me: Id, attempt: Id, p: ClosingPayload, expected: nat, now: Time)
    requires RoomOk(r)
    ensures var e := BeginDEdit(r, me, attempt, p, expected, now);
            if r.attempt.None? || r.attempt.value.id != attempt || Acting(r, me).None? then e == Refused(409)
            else
              var a := r.attempt.value;
              if !Fits(a, p) then e == Refused(Requested(a, attempt, p).error)
              else
                var intent := Intent(p.outcome.value, p.code, p.gate.value, a.activation);
                if a.d.Some? then e == (if a.d.value.intent == intent then Same else Refused(409))
                else if a.phase in {Completed, Canceled, Failed} || expected != r.version then e == Refused(409)
                else
                  && e.Changed? && e.event == AttemptClosing && e.revoke == NoOne
                  && e.room == r.(attempt := e.room.attempt) && e.room.attempt.Some?
                  && e.room.attempt.value == a.(phase := Phase.Closing, updatedAt := now, d := e.room.attempt.value.d)
                  && e.room.attempt.value.d.Some?
                  && var d := e.room.attempt.value.d.value;
                  && d.intent == intent && d.initiatedBy == r.members[Acting(r, me).value].seat
                  && d.deadline == now + 30 * SECOND && d.sideA == None && d.sideB == None
                  && d.barrier == WaitingForSides && d.cleanup == Pending && d.secondary == None
                  && d.terminalizedAt == None
  {
    hide DGate, DCode, Fits, Requested, ActingMember;
    ActingExactly(r, me, attempt);
    if r.attempt.Some? {
      FitsExactly(r.attempt.value, p);
    }
  }

  // The attempt ends with the frozen outcome, and everybody still there is made not ready.
  predicate Ended(r: Room, s: Room, d: DRecord, barrier: Barrier, cleanup: Cleanup, secondary: Option<string>,
                  now: Time)
    requires r.attempt.Some?
  {
    && Frame(r, s) && s.state == ReadyCheck && Cleared(r.members, s.members, false)
    && s.attempt.Some?
    && s.attempt.value == r.attempt.value.(phase := d.intent.outcome, updatedAt := now, d := s.attempt.value.d,
                                           error := if d.intent.outcome == Failed then d.intent.code else None)
    && s.attempt.value.d == Some(d.(barrier := barrier, cleanup := cleanup, secondary := secondary,
                                    terminalizedAt := Some(now)))
  }

  // A well-formed report of the seat on this generation of the attempt.
  predicate Reports(a: Attempt, d: DRecord, seat: Seat, p: QuiescentPayload) {
    && p.contractOk && p.attempt == a.id && p.seat == Some(seat) && p.activation == Some(d.intent.activation)
    && p.evidence.Some? && p.runId.Some? && p.stageGeneration.Some? && p.stageGeneration.value > 0
    && p.launchHash.Some? && Sha256(p.launchHash.value)
  }

  lemma ReportsExactly(a: Attempt, d: DRecord, seat: Seat, p: QuiescentPayload)
    ensures Reported(d, seat, a.id, p).Ok? <==> Reports(a, d, seat, p)
    ensures Reports(a, d, seat, p) ==>
              Reported(d, seat, a.id, p).value
              == Report(p.runId.value, p.stageGeneration.value, p.launchHash.value, p.evidence.value)
    ensures Reported(d, seat, a.id, p).Err? ==>
              Reported(d, seat, a.id, p).error ==
              if p.contractOk
                 && !(p.attempt == a.id && p.seat == Some(seat) && p.activation == Some(d.intent.activation))
              then 409 else 400
  {
  }

  // Everything is gone and nothing was forced.
  predicate Spotless(e: Evidence) {
    e == Evidence(true, true, true, true, true, false)
  }

  // A side reports once, what the payload says, under its own seat; the same report again changes
  // nothing.  The second report ends the attempt: verified when both sides are spotless.
  lemma AckExactly(r: Room, me: Id, attempt: Id, p: QuiescentPayload, expected: nat, now: Time)
    requires RoomOk(r)
    ensures var e := AckDEdit(r, me, attempt, p, expected, now);
            if r.attempt.None? || r.attempt.value.id != attempt || Acting(r, me).None? then e == Refused(409)
            else
              var a, seat := r.attempt.value, r.members[Acting(r, me).value].seat;
              if a.d.None? || a.phase !in {Phase.Closing, Completed, Canceled, Failed} then e == Refused(409)
              else if !Reports(a, a.d.value, seat, p) then e == Refused(Reported(a.d.value, seat, attempt, p).error)
              else
                var d := a.d.value;
                var report := Report(p.runId.value, p.stageGeneration.value, p.launchHash.value, p.evidence.value);
                var mine := if seat == E.MemberA then d.sideA else d.sideB;
                var other := if seat == E.MemberA then d.sideB else d.sideA;
                if mine.Some? then e == (if mine.value == report then Same else Refused(409))
                else if expected != r.version then e == Refused(409)
                else
                  && e.Changed? && e.event == DSideQuiescent && e.revoke == NoOne
                  && var told := if seat == E.MemberA then d.(sideA := Some(report)) else d.(sideB := Some(report));
                  if other.None? then e.room == r.(attempt := Some(a.(d := Some(told), updatedAt := now)))
                  else if Spotless(report.evidence) && Spotless(other.value.evidence) then
                    Ended(r, e.room, told, TwoSideTerminal, Verified, None, now)
                  else Ended(r, e.room, told, TwoSideTerminal, CleanupFailed, Some("D_SIDE_CLEANUP_FAILED"), now)
  {
    hide Sha256, Reports, Reported, ActingMember, Ended, TerminalizeD;
    ActingExactly(r, me, attempt);
    if r.attempt.Some? && r.attempt.value.id == attempt && Acting(r, me).Some? && r.attempt.value.d.Some? {
      var a, seat := r.attempt.value, r.members[Acting(r, me).value].seat;
      ReportsExactly(a, a.d.value, seat, p);
      if Reported(a.d.value, seat, attempt, p).Ok? {
        var told := a.d.value.WithSide(seat, Reported(a.d.value, seat, attempt, p).value);
        EndsSo(r, told, TwoSideTerminal, Verified, None, now);
        EndsSo(r, told, TwoSideTerminal, CleanupFailed, Some("D_SIDE_CLEANUP_FAILED"), now);
      }
    }
  }

  lemma EndsSo(r: Room, d: DRecord, barrier: Barrier, cleanup: Cleanup, secondary: Option<string>, now: Time)
    requires r.attempt.Some?
    ensures var s := TerminalizeD(r, r.attempt.value, d, barrier, cleanup, secondary, now);
            Ended(r, s, d, barrier, cleanup, secondary, now)
  {
  }

  // A barrier that waits in an open room can be forced, and is at its deadline.
  lemma ForcedExactly(r: Room, attempt: Id, code: string, now: Time)
    requires RoomOk(r)
    ensures var waits := r.attempt.Some? && r.attempt.value.phase == Phase.Closing && r.attempt.value.d.Some?;
            var e, f := ForceEdit(r, attempt, code, now), TimeoutEdit(r, now);
            && (if waits && r.state !in {Closed, Expired} && r.attempt.value.id == attempt then
                  e.Changed? && e.event == DBarrierForced && e.revoke == NoOne
                  && Ended(r, e.room, r.attempt.value.d.value, ForcedFailure, CleanupFailed, Some(code), now)
                else e == Same)
            && (if waits && r.attempt.value.d.value.deadline <= now then
                  f.Changed? && f.event == DBarrierTimeout && f.revoke == NoOne
                  && Ended(r, f.room, r.attempt.value.d.value,
                           ForcedTimeout, CleanupFailed, Some("D_BARRIER_TIMEOUT"), now)
                else f == Same)
  {
    hide Ended, TerminalizeD;
    if r.attempt.Some? && r.attempt.value.d.Some? {
      EndsSo(r, r.attempt.value.d.value, ForcedFailure, CleanupFailed, Some(code), now);
      EndsSo(r, r.attempt.value.d.value, ForcedTimeout, CleanupFailed, Some("D_BARRIER_TIMEOUT"), now);
    }
  }

  // The loss of the transport fails an attempt that runs in an open room and is not closing.
  lemma TransportExactly(r: Room, attempt: Id, code: string, now: Time)
    ensures var e := TransportFailEdit(r, attempt, code, now);
            if r.state !in {Closed, Expired} && r.attempt.Some? && r.attempt.value.id == attempt
               && r.attempt.value.phase !in {Phase.Closing, Completed, Canceled, Failed} then
              && e.Changed? && e.event == TransportFailed && e.revoke == NoOne && Frame(r, e.room)
              && e.room.state == ReadyCheck && Cleared(r.members, e.room.members, false)
              && e.room.attempt == Some(r.attempt.value.(phase := Failed, error := Some(code), updatedAt := now))
            else e == Same
  {
  }
}
