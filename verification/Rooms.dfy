/**
 Trade rooms as values, and the changes that the commands of relay/authority.py make to one
 room.  A change never touches the version or the events of a room; committing it does
 (module AuthorityModel).
 */
module Rooms {
  import opened Common
  import E = Envelopes

  // Identifiers, codes and tokens are drawn anew and never repeat.
  type Id = nat

  // Microseconds, the resolution of the ISO timestamps the rooms hold.
  type Time = int

  const SECOND := 1_000_000
  const ROOM_TTL := 6 * 60 * 60 * SECOND
  const WAITING_TTL := 30 * 60 * SECOND
  const OFFLINE_DETECTION := 45 * SECOND
  const RECONNECT_WINDOW := 90 * SECOND
  const D_BARRIER := 30 * SECOND

  type Seat = E.Seat

  datatype Presence = Online | Reconnecting | Offline | Left

  datatype Role = Creator | Finder

  datatype Member = Member(
    id: Id, seat: Seat, presence: Presence, ready: bool, role: Option<Role>,
    deadline: Option<Time>, lastSeen: Time)

  datatype Phase =
    | CreatorGuidance | ConnectingSwitches | DiscoveringRealRoom | AdvertisingMirrorRoom
    | TradingRoom | PhaseReconnecting | Recovering | Closing | Completed | Canceled | Failed
  {
    function Rank(): nat {
      match this
      case CreatorGuidance => 0
      case ConnectingSwitches => 1
      case DiscoveringRealRoom => 2
      case AdvertisingMirrorRoom => 2
      case TradingRoom => 3
      case PhaseReconnecting => 4
      case Recovering => 5
      case Closing => 6
      case _ => 7
    }

    predicate Terminal() {
      Completed? || Canceled? || Failed?
    }
  }

  datatype RoomState =
    | WaitingForPartner | ReadyCheck | WaitingForComplementaryRole
    | ConnectionAttempt | Trading | Closed | Expired

  datatype Evidence = Evidence(
    endpointExited: bool, transportExited: bool, threadsExited: bool,
    ldnReleased: bool, interfacesAbsent: bool, forced: bool)

  // What one seat reports once its local resources are gone.
  datatype Report = Report(runId: string, stageGeneration: int, launchHash: string, evidence: Evidence)

  datatype Barrier = WaitingForSides | TwoSideTerminal | ForcedFailure | ForcedTimeout

  datatype Cleanup = Pending | Verified | CleanupFailed

  // The frozen outcome of an attempt.
  datatype Intent = Intent(outcome: Phase, code: Option<string>, gate: string, activation: int)

  datatype DRecord = DRecord(
    intent: Intent, initiatedBy: Seat, deadline: Time, sideA: Option<Report>, sideB: Option<Report>,
    barrier: Barrier, cleanup: Cleanup, secondary: Option<string>, terminalizedAt: Option<Time>)
  {
    function Side(seat: Seat): Option<Report> {
      if seat.MemberA? then sideA else sideB
    }

    function WithSide(seat: Seat, report: Report): DRecord {
      if seat.MemberA? then this.(sideA := Some(report)) else this.(sideB := Some(report))
    }
  }

  datatype Attempt = Attempt(
    id: Id, number: nat, activation: nat, phase: Phase, creator: Option<Id>,
    roleLocked: bool, roleLockVersion: nat, error: Option<string>, updatedAt: Time, d: Option<DRecord>)

  datatype RoomKey = RoomKey(id: Id, code: Id, listing: Option<Id>, owner: Id, expiresAt: Time)

  datatype Room = Room(
    key: RoomKey, version: nat, lastEvent: nat, state: RoomState, waitingExpiresAt: Option<Time>,
    members: seq<Member>, attempt: Option<Attempt>, lastAttemptNumber: nat)

  datatype EventType =
    | RoomCreated | RoomExpired | RoomClosed | MemberJoined | MemberReady | MemberNotReady
    | MemberHeartbeat | MemberLeft | MemberRemoved | MemberReconnected | MemberReconnecting | MemberOffline
    | AttemptStarted | CreatorClaimed | CreatorTransferred | RoleLocked | FailureRefined
    | AttemptPhase(phase: Phase) | AttemptClosing | DSideQuiescent | DBarrierForced | DBarrierTimeout
    | TransportFailed

  datatype Revocation = NoOne | Only(member: Id) | Everyone

  // What a command makes of a room: a change with its event and the credentials it revokes, no
  // change at all, or a refusal with an HTTP status.
  datatype Edit =
    | Changed(room: Room, event: EventType, revoke: Revocation)
    | Same
    | Refused(status: int)

  predicate IsOpen(r: Room) {
    r.state != Closed && r.state != Expired
  }

  predicate Running(r: Room) {
    r.attempt.Some? && !r.attempt.value.phase.Terminal()
  }

  predicate HasAttempt(r: Room, attempt: Id) {
    r.attempt.Some? && r.attempt.value.id == attempt
  }

  function IndexOf(members: seq<Member>, id: Id): (i: Option<nat>)
    ensures i.Some? ==> i.value < |members| && members[i.value].id == id
    ensures i.None? ==> forall k :: 0 <= k < |members| ==> members[k].id != id
  {
    if members == [] then None
    else if members[0].id == id then Some(0)
    else
      match IndexOf(members[1..], id)
      case None => None
      case Some(k) => Some(k + 1)
  }

  function Active(members: seq<Member>): (active: seq<Member>)
    ensures forall m :: m in active <==> m in members && m.presence != Left
    ensures |active| <= |members|
  {
    if members == [] then []
    else (if members[0].presence != Left then [members[0]] else []) + Active(members[1..])
  }

  function Unready(m: Member): Member {
    m.(ready := false, role := None)
  }

  // Every member, or every member that has not left, is made not ready.
  function Reset(members: seq<Member>, leftToo: bool): (reset: seq<Member>)
    ensures |reset| == |members|
    ensures forall i :: 0 <= i < |members| ==>
      reset[i] == if leftToo || members[i].presence != Left then Unready(members[i]) else members[i]
  {
    if members == [] then []
    else
      [if leftToo || members[0].presence != Left then Unready(members[0]) else members[0]]
      + Reset(members[1..], leftToo)
  }

  predicate AllReady(active: seq<Member>) {
    forall m :: m in active ==> m.ready
  }

  // The roles of the active members are exactly creator and finder.
  predicate Complementary(active: seq<Member>) {
    && (exists m :: m in active && m.role == Some(Creator))
    && (exists m :: m in active && m.role == Some(Finder))
    && forall m :: m in active ==> m.role.Some?
  }

  function CreatorOf(active: seq<Member>): (id: Option<Id>)
    ensures id.Some? ==> exists m :: m in active && m.id == id.value && m.role == Some(Creator)
    ensures id.None? ==> forall m :: m in active ==> m.role != Some(Creator)
  {
    if active == [] then None
    else if active[0].role == Some(Creator) then Some(active[0].id)
    else CreatorOf(active[1..])
  }

  // The next attempt of a room, under a number the room has not used.
  function BeginAttempt(r: Room, newId: Id, now: Time): (s: Room)
  {
    var number := r.lastAttemptNumber + 1;
    r.(lastAttemptNumber := number,
       attempt := Some(Attempt(newId, number, number, ConnectingSwitches, CreatorOf(Active(r.members)),
                               true, r.version + 1, None, now, None)),
       state := ConnectionAttempt)
  }

  function ResetMembers(r: Room, leftToo: bool): Room {
    r.(members := Reset(r.members, leftToo))
  }

  // The role an active attempt gives a member.
  function LocalRole(a: Attempt, me: Id): Option<Role> {
    if a.creator == Some(me) then Some(Creator)
    else if a.creator.Some? then Some(Finder)
    else None
  }

  // ---- the commands of one member -----------------------------------------------------------

  datatype Action =
    | Ready(ready: bool, role: Option<Role>)
    | Heartbeat
    | StartAttempt
    | ClaimCreator(attempt: Id)
    | TransferCreator(attempt: Id, target: Id)
    | LockRole(attempt: Id)
    | SetPhase(attempt: Id, phase: Option<Phase>, code: Option<string>)
    | Leave
    | RemoveOffline(target: Id)
    | Close
    | Unknown

  function ReadyEdit(r: Room, i: nat, ready: bool, role: Option<Role>, newId: Id, now: Time): (e: Edit)
    requires i < |r.members|
  {
    if ready && role.None? then Refused(400)
    else
      var m := r.members[i].(ready := ready, role := if ready then role else None);
      var r1 := r.(members := r.members[i := m],
                   attempt := if !ready && r.attempt.Some? && !Running(r) then None else r.attempt);
      var event := if ready then MemberReady else MemberNotReady;
      var active := Active(r1.members);
      if Running(r1) then
        if !m.ready || m.role != LocalRole(r1.attempt.value, m.id) then Refused(409)
        else Changed(r1, event, NoOne)
      else if |active| == 2 && AllReady(active) && Complementary(active) then
        Changed(BeginAttempt(r1, newId, now), AttemptStarted, NoOne)
      else
        Changed(r1.(state := if ready then WaitingForComplementaryRole else ReadyCheck), event, NoOne)
  }

  function HeartbeatEdit(r: Room, i: nat, now: Time): (e: Edit)
    requires i < |r.members|
  {
    var m := r.members[i].(presence := Online, deadline := None, lastSeen := now);
    Changed(r.(members := r.members[i := m]), MemberHeartbeat, NoOne)
  }

  function StartEdit(r: Room, newId: Id, now: Time): (e: Edit)
  {
    var active := Active(r.members);
    if Running(r) then Same
    else if |active| != 2 || !AllReady(active) || !Complementary(active) then Refused(409)
    else Changed(BeginAttempt(r, newId, now), AttemptStarted, NoOne)
  }

  function ClaimEdit(r: Room, me: Id, now: Time): (e: Edit)
  {
    if r.attempt.None? || r.attempt.value.roleLocked then Refused(409)
    else
      var a := r.attempt.value;
      Changed(r.(attempt := Some(if a.creator.None? then
                                   a.(creator := Some(me), phase := CreatorGuidance, updatedAt := now)
                                 else a)),
              CreatorClaimed, NoOne)
  }

  function TransferEdit(r: Room, me: Id, target: Id, now: Time): (e: Edit)
  {
    if r.attempt.None? || r.attempt.value.roleLocked || r.attempt.value.creator != Some(me) then Refused(409)
    else if !exists m :: m in r.members && m.id == target && m.presence != Left then Refused(400)
    else
      Changed(r.(attempt := Some(r.attempt.value.(creator := Some(target), updatedAt := now))),
              CreatorTransferred, NoOne)
  }

  // Locking the role resets the phase, whatever it is.
  function LockRoleEdit(r: Room, now: Time): (e: Edit)
  {
    if r.attempt.None? || r.attempt.value.creator.None? then Refused(409)
    else
      Changed(r.(attempt := Some(r.attempt.value.(roleLocked := true, roleLockVersion := r.version + 1,
                                                  phase := ConnectingSwitches, updatedAt := now))),
              RoleLocked, NoOne)
  }

  predicate Lower(c: char) { 'a' <= c <= 'z' }
  predicate Letter(c: char) { Lower(c) || 'A' <= c <= 'Z' }
  predicate Digit(c: char) { '0' <= c <= '9' }
  predicate Punctuation(c: char) { c == '_' || c == '.' || c == '-' }

  // [a-z][a-z0-9_.-]{0,63}
  predicate FailureCode(s: string) {
    1 <= |s| <= 64 && Lower(s[0])
    && forall i :: 1 <= i < |s| ==> Lower(s[i]) || Digit(s[i]) || Punctuation(s[i])
  }

  // [A-Za-z][A-Za-z0-9_.-]{0,95}
  predicate DCode(s: string) {
    1 <= |s| <= 96 && Letter(s[0])
    && forall i :: 1 <= i < |s| ==> Letter(s[i]) || Digit(s[i]) || Punctuation(s[i])
  }

  // [A-Za-z0-9][A-Za-z0-9_.:-]{0,95}
  predicate DGate(s: string) {
    1 <= |s| <= 96 && (Letter(s[0]) || Digit(s[0]))
    && forall i :: 1 <= i < |s| ==> Letter(s[i]) || Digit(s[i]) || Punctuation(s[i]) || s[i] == ':'
  }

  // [0-9a-f]{64}
  predicate Sha256(s: string) {
    |s| == 64 && forall i :: 0 <= i < |s| ==> Digit(s[i]) || 'a' <= s[i] <= 'f'
  }

  function PhaseEdit(r: Room, phase: Option<Phase>, code: Option<string>, now: Time): (e: Edit)
  {
    if phase.None? || r.attempt.None? then Refused(400)
    else
      var p, a := phase.value, r.attempt.value;
      var given := if code.Some? && code.value != "" then code.value else "session.failed";
      var failure := if p == Failed then Some(given) else None;
      if p == Failed && !FailureCode(given) then Refused(400)
      else if a.phase == p then
        if p == Failed && a.error == Some("relay.peer_lost") && given != "relay.peer_lost" then
          Changed(r.(attempt := Some(a.(error := failure, updatedAt := now))), FailureRefined, NoOne)
        else Same
      else if a.phase.Terminal() || a.phase.Rank() > p.Rank() then Refused(409)
      else
        var b := a.(phase := p, error := if failure.Some? then failure else a.error, updatedAt := now);
        var r1 := r.(attempt := Some(b));
        Changed(if p == TradingRoom then r1.(state := Trading)
                else if p.Terminal() then ResetMembers(r1, false).(state := ReadyCheck)
                else r1,
                AttemptPhase(p), NoOne)
  }

  predicate LockedAndRunning(r: Room) {
    Running(r) && r.attempt.value.roleLocked
  }

  function Vacate(r: Room, i: nat, now: Time): Room
    requires i < |r.members|
  {
    var deadline := if now + WAITING_TTL <= r.key.expiresAt then now + WAITING_TTL else r.key.expiresAt;
    r.(members := Reset(r.members[i := r.members[i].(presence := Left)], true),
       attempt := None, state := WaitingForPartner, waitingExpiresAt := Some(deadline))
  }

  function LeaveEdit(r: Room, i: nat, now: Time): (e: Edit)
    requires i < |r.members|
  {
    if r.key.owner == r.members[i].id then Refused(409)
    else if LockedAndRunning(r) then Refused(409)
    else Changed(Vacate(r, i, now), MemberLeft, Only(r.members[i].id))
  }

  function RemoveEdit(r: Room, me: Id, target: Id, now: Time): (e: Edit)
  {
    if r.key.owner != me then Refused(403)
    else if LockedAndRunning(r) then Refused(409)
    else
      match IndexOf(r.members, target)
      case None => Refused(400)
      case Some(i) =>
        if target == me then Refused(400)
        else if r.members[i].presence != Offline then Refused(409)
        else Changed(Vacate(r, i, now), MemberRemoved, Only(target))
  }

  function CloseEdit(r: Room, me: Id, now: Time): (e: Edit)
  {
    if r.key.owner != me then Refused(403)
    else
      var attempt := if Running(r) then Some(r.attempt.value.(phase := Canceled, updatedAt := now)) else r.attempt;
      Changed(r.(attempt := attempt, state := Closed), RoomClosed, Everyone)
  }

  // The attempt a command must name to be applied.
  function Named(action: Action): Option<Id> {
    match action
    case ClaimCreator(attempt) => Some(attempt)
    case TransferCreator(attempt, _) => Some(attempt)
    case LockRole(attempt) => Some(attempt)
    case SetPhase(attempt, _, _) => Some(attempt)
    case _ => None
  }

  function ActionEdit(r: Room, i: nat, action: Action, newId: Id, now: Time): (e: Edit)
    requires i < |r.members|
  {
    var me := r.members[i].id;
    if Named(action).Some? && !HasAttempt(r, Named(action).value) then Refused(409)
    else
      match action
      case Ready(ready, role) => ReadyEdit(r, i, ready, role, newId, now)
      case Heartbeat => HeartbeatEdit(r, i, now)
      case StartAttempt => StartEdit(r, newId, now)
      case ClaimCreator(_) => ClaimEdit(r, me, now)
      case TransferCreator(_, target) => TransferEdit(r, me, target, now)
      case LockRole(_) => LockRoleEdit(r, now)
      case SetPhase(_, phase, code) => PhaseEdit(r, phase, code, now)
      case Leave => LeaveEdit(r, i, now)
      case RemoveOffline(target) => RemoveEdit(r, me, target, now)
      case Close => CloseEdit(r, me, now)
      case Unknown => Refused(404)
  }

  // A command on an outdated version still applies, is answered idly, or is refused.
  datatype Staleness = Proceed | Idle | Conflict

  function Stale(r: Room, me: Id, action: Action, expected: Option<nat>): (s: Staleness)
  {
    if expected.None? || expected.value == r.version then Proceed
    else if action.StartAttempt? && Running(r) then Idle
    else if action.ClaimCreator? && HasAttempt(r, action.attempt) && r.attempt.value.creator.Some? then Idle
    else if action.Ready? || action.Heartbeat? || action.Leave? || action.Close? then Proceed
    else Conflict
  }

  // ---- joining and coming back --------------------------------------------------------------

  function JoinEdit(r: Room, newId: Id, now: Time): (e: Edit)
  {
    if |Active(r.members)| >= 2 then Refused(409)
    else
      var m := Member(newId, E.MemberB, Online, false, None, None, now);
      Changed(r.(members := Active(r.members) + [m], state := ReadyCheck, waitingExpiresAt := None),
              MemberJoined, NoOne)
  }

  // Whether a member may come back with its reconnect token.
  predicate MayReconnect(r: Room, i: nat, now: Time)
    requires i < |r.members|
  {
    && IsOpen(r) && r.members[i].presence != Left && r.members[i].presence != Offline
    && (r.members[i].deadline.Some? ==> now < r.members[i].deadline.value)
  }

  function ReconnectEdit(r: Room, i: nat, now: Time): (e: Edit)
    requires i < |r.members|
  {
    var m := r.members[i].(presence := Online, deadline := None, lastSeen := now);
    Changed(r.(members := r.members[i := m]), MemberReconnected, NoOne)
  }

  // ---- the two-sided shutdown barrier -------------------------------------------------------

  datatype ClosingPayload = ClosingPayload(
    contractOk: bool, attempt: Id, activation: Option<int>, outcome: Option<Phase>,
    code: Option<string>, gate: Option<string>)

  datatype QuiescentPayload = QuiescentPayload(
    contractOk: bool, attempt: Id, seat: Option<Seat>, activation: Option<int>,
    evidence: Option<Evidence>, runId: Option<string>, stageGeneration: Option<int>, launchHash: Option<string>)

  const TRADE_COMPLETE := "C_TRADE_COMPLETE"

  // The intent a closing payload asks for, or the status that rejects it.
  function Requested(a: Attempt, attempt: Id, p: ClosingPayload): (r: Result<Intent, int>)
    ensures r.Ok? ==> r.value.outcome.Terminal() && r.value.activation == a.activation
  {
    if !p.contractOk then Err(400)
    else if p.attempt != attempt then Err(409)
    else if p.activation != Some(a.activation) then Err(409)
    else if p.outcome.None? || !p.outcome.value.Terminal() || p.gate.None? || !DGate(p.gate.value) then Err(400)
    else if p.outcome.value == Failed && (p.code.None? || !DCode(p.code.value)) then Err(400)
    else if p.outcome.value != Failed && p.code.Some? then Err(400)
    else if p.outcome.value == Completed && p.gate.value != TRADE_COMPLETE then Err(409)
    else Ok(Intent(p.outcome.value, p.code, p.gate.value, p.activation.value))
  }

  // The member that acts on an attempt, or the status that refuses it.
  function ActingMember(r: Room, me: Id, attempt: Id): (i: Result<nat, int>)
    ensures i.Ok? ==> HasAttempt(r, attempt) && i.value < |r.members| && r.members[i.value].id == me
  {
    if !HasAttempt(r, attempt) then Err(409)
    else
      match IndexOf(r.members, me)
      case None => Err(409)
      case Some(i) => if r.members[i].presence == Left then Err(409) else Ok(i)
  }

  function BeginDEdit(r: Room, me: Id, attempt: Id, p: ClosingPayload, expected: nat, now: Time): (e: Edit)
  {
    match ActingMember(r, me, attempt)
    case Err(status) => Refused(status)
    case Ok(i) =>
      var a := r.attempt.value;
      match Requested(a, attempt, p)
      case Err(status) => Refused(status)
      case Ok(intent) =>
        if a.d.Some? then
          if a.d.value.intent != intent then Refused(409) else Same
        else if a.phase.Terminal() then Refused(409)
        else if expected != r.version then Refused(409)
        else
          var d := DRecord(intent, r.members[i].seat, now + D_BARRIER, None, None,
                           WaitingForSides, Pending, None, None);
          Changed(r.(attempt := Some(a.(phase := Closing, updatedAt := now, d := Some(d)))),
                  AttemptClosing, NoOne)
  }

  // The single terminal transition of the barrier.
  function TerminalizeD(r: Room, a: Attempt, d: DRecord, barrier: Barrier, cleanup: Cleanup,
                        secondary: Option<string>, now: Time): (s: Room)
  {
    var done := d.(barrier := barrier, cleanup := cleanup, secondary := secondary, terminalizedAt := Some(now));
    ResetMembers(r, false).(
      attempt := Some(a.(d := Some(done), phase := d.intent.outcome,
                         error := if d.intent.outcome == Failed then d.intent.code else None,
                         updatedAt := now)),
      state := ReadyCheck)
  }

  predicate Clean(e: Evidence) {
    e.endpointExited && e.transportExited && e.threadsExited && e.ldnReleased && e.interfacesAbsent && !e.forced
  }

  // The report a quiescent payload carries, or the status that rejects it.
  function Reported(d: DRecord, seat: Seat, attempt: Id, p: QuiescentPayload): (r: Result<Report, int>)
  {
    if !p.contractOk then Err(400)
    else if p.attempt != attempt || p.seat != Some(seat) || p.activation != Some(d.intent.activation) then Err(409)
    else if p.evidence.None? then Err(400)
    else if p.runId.None? || p.stageGeneration.None? || p.stageGeneration.value < 1
            || p.launchHash.None? || !Sha256(p.launchHash.value) then Err(400)
    else Ok(Report(p.runId.value, p.stageGeneration.value, p.launchHash.value, p.evidence.value))
  }

  function AckDEdit(r: Room, me: Id, attempt: Id, p: QuiescentPayload, expected: nat, now: Time): (e: Edit)
  {
    match ActingMember(r, me, attempt)
    case Err(status) => Refused(status)
    case Ok(i) =>
      var a, seat := r.attempt.value, r.members[i].seat;
      if a.d.None? || (a.phase != Closing && !a.phase.Terminal()) then Refused(409)
      else
        var d := a.d.value;
        match Reported(d, seat, attempt, p)
        case Err(status) => Refused(status)
        case Ok(report) =>
          if d.Side(seat).Some? then
            if d.Side(seat).value != report then Refused(409) else Same
          else if expected != r.version then Refused(409)
          else Changed(Acknowledge(r, a, d.WithSide(seat, report), now), DSideQuiescent, NoOne)
  }

  // A recorded report; the second one ends the attempt.
  function Acknowledge(r: Room, a: Attempt, d: DRecord, now: Time): (s: Room)
  {
    if d.sideA.Some? && d.sideB.Some? then
      var verified := Clean(d.sideA.value.evidence) && Clean(d.sideB.value.evidence);
      TerminalizeD(r, a, d, TwoSideTerminal, if verified then Verified else CleanupFailed,
                   if verified then None else Some("D_SIDE_CLEANUP_FAILED"), now)
    else r.(attempt := Some(a.(d := Some(d), updatedAt := now)))
  }

  function ForceEdit(r: Room, attempt: Id, code: string, now: Time): (e: Edit)
  {
    if !IsOpen(r) || !HasAttempt(r, attempt) || r.attempt.value.phase != Closing || r.attempt.value.d.None? then Same
    else
      Changed(TerminalizeD(r, r.attempt.value, r.attempt.value.d.value, ForcedFailure, CleanupFailed, Some(code), now),
              DBarrierForced, NoOne)
  }

  function TransportFailEdit(r: Room, attempt: Id, code: string, now: Time): (e: Edit)
  {
    if !IsOpen(r) || !HasAttempt(r, attempt) || !Running(r) || r.attempt.value.phase == Closing then Same
    else
      Changed(FailAttempt(r, code, false, now), TransportFailed, NoOne)
  }

  function FailAttempt(r: Room, code: string, leftToo: bool, now: Time): Room
    requires r.attempt.Some?
  {
    ResetMembers(r, leftToo).(
      attempt := Some(r.attempt.value.(phase := Failed, error := Some(code), updatedAt := now)),
      state := ReadyCheck)
  }

  // ---- the passing of time ------------------------------------------------------------------

  predicate Overdue(r: Room, now: Time) {
    IsOpen(r) &&
    (r.key.expiresAt <= now
     || (r.state == WaitingForPartner
         && (if r.waitingExpiresAt.Some? then r.waitingExpiresAt.value else r.key.expiresAt) <= now))
  }

  function ExpireEdit(r: Room): (e: Edit)
  {
    Changed(r.(state := Expired), RoomExpired, Everyone)
  }

  // A barrier past its deadline.
  function TimeoutEdit(r: Room, now: Time): (e: Edit)
  {
    if r.attempt.Some? && r.attempt.value.phase == Closing && r.attempt.value.d.Some?
       && r.attempt.value.d.value.deadline <= now then
      Changed(TerminalizeD(r, r.attempt.value, r.attempt.value.d.value, ForcedTimeout, CleanupFailed,
                           Some("D_BARRIER_TIMEOUT"), now),
              DBarrierTimeout, NoOne)
    else Same
  }

  // A member that has not been seen for too long, or whose time to reconnect is over.
  function PresenceEdit(r: Room, i: nat, now: Time): (e: Edit)
    requires i < |r.members|
    ensures e.Changed? ==> |e.room.members| == |r.members|
  {
    var m := r.members[i];
    if m.presence == Online && now - m.lastSeen > OFFLINE_DETECTION then
      Changed(r.(members := r.members[i := m.(presence := Reconnecting, deadline := Some(now + RECONNECT_WINDOW))]),
              MemberReconnecting, NoOne)
    else if m.presence == Reconnecting && m.deadline.Some? && m.deadline.value <= now then
      var r1 := r.(members := r.members[i := Unready(m).(presence := Offline)]);
      Changed(if Running(r) && r.attempt.value.phase != Closing then
                FailAttempt(r1, "member.reconnect_expired", true, now)
              else r1,
              MemberOffline, Only(m.id))
    else Same
  }
}
