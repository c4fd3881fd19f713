/** The attempt-scoped relay session (relay/server.py, V2Session and ws_attempt_v2). */
module RelaySessions {
  import opened Common
  import opened Bytes
  import opened Envelopes
  import opened SequenceGates

  const RETAINED_FRAMES := 32
  const RETAINED_BYTES := 128 * 1024

  // One accepted WebSocket.
  type Conn = nat

  // A SHA-256 digest, as produced by the hash function of the admission.
  type Digest = nat

  datatype SwitchRole = RoomJoiner | ApHost

  // What a SIDE_READY record says about the launch that sends it.
  datatype Launch = Launch(
    switchRole: Option<SwitchRole>, runId: Text, stageGeneration: int, launchHash: Text, activation: int)

  datatype SideReadyRecord = SideReadyRecord(attempt: Text, seat: Seat, launch: Launch, advertisement: Digest)

  // The admitted launches of one attempt, with the hash and the SIDE_READY decoder left abstract.
  datatype Admission = Admission(
    attempt: Text, launchA: Launch, launchB: Launch,
    hash: seq<Byte> -> Digest, decode: seq<Byte> -> Result<SideReadyRecord, TunnelError>)
  {
    function Expected(seat: Seat): Launch {
      if seat.MemberA? then launchA else launchB
    }
  }

  datatype Side = Side(
    peer: Option<Conn>, generation: nat, gate: Gate,
    retained: seq<Envelope>, retainedBytes: nat, sideReady: Option<int>)

  datatype Session = Session(a: Side, b: Side, advertisement: Option<Digest>, live: bool) {
    function At(seat: Seat): Side {
      if seat.MemberA? then a else b
    }

    function With(seat: Seat, side: Side): (s: Session)
      ensures s.At(seat) == side && s.At(seat.Peer()) == At(seat.Peer())
      ensures s.advertisement == advertisement && s.live == live
    {
      if seat.MemberA? then this.(a := side) else this.(b := side)
    }
  }

  function NewSide(attempt: Text, seat: Seat): Side {
    Side(None, 0, NewGate(attempt, seat), [], 0, None)
  }

  function NewSession(attempt: Text): Session {
    Session(NewSide(attempt, MemberA), NewSide(attempt, MemberB), None, true)
  }

  // The bytes a valid envelope takes on the wire.
  function WireBytes(e: Envelope): nat
  {
    match AttemptBytes(e.attempt)
    case Ok(attempt) => HEADER_BYTES + |attempt| + |e.payload|
    case Err(_) => 0
  }

  lemma WireBytesIsLength(e: Envelope)
    requires Valid(e)
    ensures WireBytes(e) == |Encode(e).value|
  {
  }

  // A socket takes a free seat and is sent what the relay retains of the other seat; it gives
  // the seat up again when that replay takes too long or fails.
  function Connect(s: Session, seat: Seat, conn: Conn, replayed: bool): (r: Option<Session>)
  {
    var side := s.At(seat);
    if side.peer.Some? then None
    else
      var peer := if replayed then Some(conn) else None;
      Some(s.With(seat, side.(generation := side.generation + 1, peer := peer)))
  }

  // The checks that depend on the kind of an in-sequence frame.
  function Admit(s: Session, adm: Admission, seat: Seat, e: Envelope): (r: (Session, Option<TunnelError>))
  {
    match e.kind
    case Advertisement =>
      var digest := adm.hash(e.payload);
      if s.advertisement.Some? && s.advertisement != Some(digest) then (s, Some(AdvertisementChanged))
      else (s.(advertisement := Some(digest)), None)
    case SideReady =>
      (match adm.decode(e.payload)
       case Err(code) => (s, Some(code))
       case Ok(ready) =>
         if ready.attempt != adm.attempt || ready.seat != seat || ready.launch != adm.Expected(seat) then
           (s, Some(SideReadyIdentity))
         else if s.advertisement != Some(ready.advertisement) then (s, Some(SideReadyAdvertisement))
         else if s.At(seat).sideReady == Some(e.epoch) then (s, Some(SideReadyDuplicate))
         else (s.With(seat, s.At(seat).(sideReady := Some(e.epoch))), None))
    case Rfu =>
      if s.a.sideReady != s.a.gate.epoch || s.b.sideReady != s.b.gate.epoch then (s, Some(BridgeNotReady))
      else (s, None)
    case _ => (s, None)
  }

  function Retain(s: Session, seat: Seat, e: Envelope): (r: (Session, Option<TunnelError>))
  {
    var side := s.At(seat);
    if e.kind != PeerReady && e.kind != Advertisement then (s, None)
    else if |side.retained| >= RETAINED_FRAMES || side.retainedBytes + WireBytes(e) > RETAINED_BYTES then
      (s, Some(RetentionOverflow))
    else
      (s.With(seat, side.(retained := side.retained + [e], retainedBytes := side.retainedBytes + WireBytes(e))), None)
  }

  // The gate of the seat takes the frame; a new epoch forgets what the relay held of the old one.
  function Pass(s: Session, seat: Seat, e: Envelope): (r: (Session, Option<TunnelError>))
  {
    var side := s.At(seat);
    match AcceptFrame(side.gate, e)
    case Err(code) => (s, Some(code))
    case Ok(g) =>
      if side.gate.epoch != g.epoch then (s.With(seat, Cleared(side).(gate := g)), None)
      else (s.With(seat, side.(gate := g)), None)
  }

  // One frame from the socket of a seat.  An error is fatal to the session; what was written
  // before the failing check stays written.
  function Process(s: Session, adm: Admission, seat: Seat, e: Envelope): (r: (Session, Option<TunnelError>))
  {
    if e.attempt != adm.attempt || e.seat != seat then (s, Some(IdentityMismatch))
    else
      var (s1, rejected) := Pass(s, seat, e);
      if rejected.Some? then (s1, rejected)
      else
        var (s2, error) := Admit(s1, adm, seat, e);
        if error.Some? then (s2, error) else Retain(s2, seat, e)
  }

  // The frame a peer is sent when the other seat drops: next in sequence of the gate's epoch.
  function CloseFrame(g: Gate): Envelope
    requires g.epoch.Some?
  {
    Envelope(g.attempt, g.seat, g.epoch.value, g.next, PeerClose, PEER_RESET)
  }

  // b"peer transport reset"
  const PEER_RESET: seq<Byte> := [
    0x70, 0x65, 0x65, 0x72, 0x20, 0x74, 0x72, 0x61, 0x6E, 0x73,
    0x70, 0x6F, 0x72, 0x74, 0x20, 0x72, 0x65, 0x73, 0x65, 0x74]

  function Cleared(side: Side): Side {
    side.(retained := [], retainedBytes := 0, sideReady := None)
  }

  predicate Holds(s: Session, seat: Seat, conn: Conn) {
    s.At(seat).peer == Some(conn)
  }

  // Losing a socket resets both seats.
  function Drop(s: Session, seat: Seat, conn: Conn, fatal: bool): (r: Session)
  {
    if !Holds(s, seat, conn) then s
    else if fatal || !s.live then s.With(seat, s.At(seat).(peer := None))
    else
      var side, other := s.At(seat), s.At(seat.Peer());
      var closing := other.peer.Some? && side.gate.epoch.Some?;
      var gate := if closing then side.gate.(next := side.gate.next + 1) else side.gate;
      s.With(seat, Cleared(side).(peer := None, gate := gate))
       .With(seat.Peer(), Cleared(other).(peer := None))
  }

  // The PEER_CLOSE of a drop and the socket it is sent to.
  function Closing(s: Session, seat: Seat, conn: Conn, fatal: bool): (r: Option<(Conn, Envelope)>)
  {
    var other := s.At(seat.Peer()).peer;
    if Holds(s, seat, conn) && !fatal && s.live && other.Some? && s.At(seat).gate.epoch.Some? then
      Some((other.value, CloseFrame(s.At(seat).gate)))
    else None
  }

  // The session is taken out of the registry and both seats are revoked.
  function Teardown(s: Session): (r: Session)
  {
    s.(a := s.a.(peer := None, retained := [], retainedBytes := 0),
       b := s.b.(peer := None, retained := [], retainedBytes := 0), live := false)
  }

  // The reconnect deadline of a dropped seat.
  function Expire(s: Session, seat: Seat, generation: nat): (r: Session)
  {
    if s.At(seat).peer.None? && s.At(seat).generation == generation && s.live then Teardown(s) else s
  }

  // What taking an in-sequence frame of a seat does to the two sides.
  predicate Took(s: Session, t: Session, seat: Seat, e: Envelope, admitted: bool) {
    && AcceptFrame(s.At(seat).gate, e).Ok?
    && var g := AcceptFrame(s.At(seat).gate, e).value;
    && t.At(seat).gate == g && t.At(seat).peer == s.At(seat).peer
    && t.At(seat.Peer()) == s.At(seat.Peer()) && t.live == s.live
    && (admitted ==>
          t.At(seat).retained
          == (if s.At(seat).gate.epoch != g.epoch then [] else s.At(seat).retained)
             + (if e.kind == PeerReady || e.kind == Advertisement then [e] else []))
  }

  lemma ProcessTakes(s: Session, adm: Admission, seat: Seat, e: Envelope)
    requires e.attempt == adm.attempt && e.seat == seat && AcceptFrame(s.At(seat).gate, e).Ok?
    ensures Took(s, Process(s, adm, seat, e).0, seat, e, Process(s, adm, seat, e).1 == None)
  {
  }

  // ---- runs over arbitrary clients -------------------------------------------------------

  datatype RelayOp =
    | OpConnect(seat: Seat, conn: Conn, replayed: bool)
    | OpFrame(seat: Seat, e: Envelope)
    | OpDrop(seat: Seat, conn: Conn, fatal: bool)
    | OpTeardown
    | OpExpire(seat: Seat, generation: nat)

  function RelayStep(s: Session, adm: Admission, op: RelayOp): Session
  {
    match op
    case OpConnect(seat, conn, replayed) =>
      (match Connect(s, seat, conn, replayed)
       case Some(t) => t
       case None => s)
    case OpFrame(seat, e) => Process(s, adm, seat, e).0
    case OpDrop(seat, conn, fatal) => Drop(s, seat, conn, fatal)
    case OpTeardown => Teardown(s)
    case OpExpire(seat, generation) => Expire(s, seat, generation)
  }

  function RelayRun(adm: Admission, ops: seq<RelayOp>): Session
  {
    if ops == [] then NewSession(adm.attempt)
    else RelayStep(RelayRun(adm, ops[..|ops| - 1]), adm, ops[|ops| - 1])
  }

  // The steps that take a socket off its seat: it is lost, the session goes on and the other
  // socket is lost, or the session ends.
  predicate Frees(s: Session, op: RelayOp, seat: Seat) {
    match op
    case OpDrop(other, conn, fatal) => Holds(s, other, conn) && (other == seat || (!fatal && s.live))
    case OpTeardown => true
    case OpExpire(other, generation) => s.At(other).peer.None? && s.At(other).generation == generation && s.live
    case _ => false
  }

  lemma FreesExactly(s: Session, adm: Admission, op: RelayOp, seat: Seat)
    requires s.At(seat).peer.Some?
    ensures var t := RelayStep(s, adm, op);
            t.At(seat).peer == if Frees(s, op, seat) then None else s.At(seat).peer
  {
    if op.OpFrame? {
      PassSides(s, op.seat, op.e);
      var s1 := Pass(s, op.seat, op.e).0;
      AdmitSides(s1, adm, op.seat, op.e);
    }
  }

  // A socket keeps its seat, and every other is refused, until one of these steps.  One that goes
  // away while frames are replayed to it is not known to be lost, so it holds the seat like this.
  lemma {:induction false} SeatStaysTaken(adm: Admission, ops: seq<RelayOp>, i: nat, seat: Seat, conn: Conn)
    requires i <= |ops| && RelayRun(adm, ops[..i]).At(seat).peer == Some(conn)
    requires forall k :: i <= k < |ops| ==> !Frees(RelayRun(adm, ops[..k]), ops[k], seat)
    ensures RelayRun(adm, ops).At(seat).peer == Some(conn)
    ensures forall other, replayed :: Connect(RelayRun(adm, ops), seat, other, replayed) == None
    decreases |ops|
  {
    if i < |ops| {
      var n := |ops| - 1;
      var init := ops[..n];
      assert forall k :: 0 <= k <= n ==> init[..k] == ops[..k];
      SeatStaysTaken(adm, init, i, seat, conn);
      FreesExactly(RelayRun(adm, init), adm, ops[n], seat);
    } else {
      assert ops[..i] == ops;
    }
  }

  // Step i of a run is a frame of this kind from this seat, and the relay accepts it.
  predicate Accepted(adm: Admission, ops: seq<RelayOp>, i: int, seat: Seat, kind: Kind) {
    && 0 <= i < |ops|
    && ops[i].OpFrame? && ops[i].seat == seat && ops[i].e.kind == kind
    && Process(RelayRun(adm, ops[..i]), adm, seat, ops[i].e).1 == None
  }

  // Step i takes a socket off its seat and resets both sides.
  predicate Resets(adm: Admission, ops: seq<RelayOp>, i: int) {
    && 0 <= i < |ops|
    && ops[i].OpDrop? && !ops[i].fatal
    && var s := RelayRun(adm, ops[..i]);
    s.live && Holds(s, ops[i].seat, ops[i].conn)
  }

  // SIDE_READY of a seat was accepted at step j in the epoch the seat is in before step i,
  // names the digest held there, and no peer was reset in between.
  ghost predicate ReadyAt(adm: Admission, ops: seq<RelayOp>, i: int, seat: Seat, j: int) {
    && 0 <= j < i <= |ops|
    && Accepted(adm, ops, j, seat, SideReady)
    && var s := RelayRun(adm, ops[..i]);
    && s.At(seat).gate.epoch == Some(ops[j].e.epoch)
    && adm.decode(ops[j].e.payload).Ok?
    && s.advertisement == Some(adm.decode(ops[j].e.payload).value.advertisement)
    && forall k :: j < k < i ==> !Resets(adm, ops, k)
  }

  ghost predicate Ready(adm: Admission, ops: seq<RelayOp>, i: int, seat: Seat) {
    exists j :: ReadyAt(adm, ops, i, seat, j)
  }

  lemma PassSides(s: Session, seat: Seat, e: Envelope)
    ensures var t := Pass(s, seat, e).0;
            && t.advertisement == s.advertisement && t.At(seat.Peer()) == s.At(seat.Peer())
            && (t.At(seat) == s.At(seat).(gate := t.At(seat).gate)
                || t.At(seat).sideReady == None)
            && (t.At(seat).gate.epoch != s.At(seat).gate.epoch ==> t.At(seat).sideReady == None)
  {
  }

  lemma AdmitSides(s: Session, adm: Admission, seat: Seat, e: Envelope)
    ensures var (t, error) := Admit(s, adm, seat, e);
            && (s.advertisement.Some? ==> t.advertisement == s.advertisement)
            && t.At(seat.Peer()) == s.At(seat.Peer()) && t.At(seat).gate == s.At(seat).gate
            && (e.kind != SideReady || error.Some? ==> t.At(seat) == s.At(seat))
  {
  }

  lemma RetainSides(s: Session, seat: Seat, e: Envelope)
    ensures var (t, error) := Retain(s, seat, e);
            && t.advertisement == s.advertisement && t.At(seat.Peer()) == s.At(seat.Peer())
            && t.At(seat).gate == s.At(seat).gate && t.At(seat).sideReady == s.At(seat).sideReady
            && (e.kind == SideReady ==> error == None)
  {
  }

  lemma ProcessKeepsAdvertisement(s: Session, adm: Admission, seat: Seat, e: Envelope)
    requires s.advertisement.Some?
    ensures Process(s, adm, seat, e).0.advertisement == s.advertisement
  {
    PassSides(s, seat, e);
    AdmitSides(Pass(s, seat, e).0, adm, seat, e);
    RetainSides(Admit(Pass(s, seat, e).0, adm, seat, e).0, seat, e);
  }

  lemma StepKeepsAdvertisement(s: Session, adm: Admission, op: RelayOp)
    requires s.advertisement.Some?
    ensures RelayStep(s, adm, op).advertisement == s.advertisement
  {
    match op
    case OpFrame(seat, e) => ProcessKeepsAdvertisement(s, adm, seat, e);
    case _ =>
  }

  // Once set, the advertisement digest is the only one the session ever holds.
  lemma {:induction false} AdvertisementFrozen(adm: Admission, ops: seq<RelayOp>, i: nat)
    requires i <= |ops| && RelayRun(adm, ops[..i]).advertisement.Some?
    ensures RelayRun(adm, ops).advertisement == RelayRun(adm, ops[..i]).advertisement
    decreases |ops|
  {
    if i < |ops| {
      var init := ops[..|ops| - 1];
      assert init[..i] == ops[..i];
      AdvertisementFrozen(adm, init, i);
      StepKeepsAdvertisement(RelayRun(adm, init), adm, ops[|ops| - 1]);
    } else {
      assert ops[..i] == ops;
    }
  }

  // The step is an accepted SIDE_READY of this seat.
  predicate Reports(s: Session, adm: Admission, op: RelayOp, seat: Seat) {
    op.OpFrame? && op.seat == seat && op.e.kind == SideReady && Process(s, adm, seat, op.e).1 == None
  }

  lemma ReportEffect(s: Session, adm: Admission, op: RelayOp, seat: Seat)
    requires Reports(s, adm, op, seat)
    ensures var t := RelayStep(s, adm, op);
            && t.At(seat).sideReady == t.At(seat).gate.epoch == Some(op.e.epoch)
            && adm.decode(op.e.payload).Ok?
            && t.advertisement == Some(adm.decode(op.e.payload).value.advertisement)
  {
  }

  // A frame of the other seat, or of another kind, keeps a record unless it opens an epoch.
  lemma FrameKeepsSideReady(s: Session, adm: Admission, sender: Seat, e: Envelope, seat: Seat)
    requires s.At(seat).sideReady.Some? ==> s.At(seat).sideReady == s.At(seat).gate.epoch
    requires !(sender == seat && e.kind == SideReady && Process(s, adm, sender, e).1 == None)
    ensures var t := Process(s, adm, sender, e).0;
            t.At(seat).sideReady.Some? ==>
              && t.At(seat).sideReady == s.At(seat).sideReady
              && t.At(seat).gate.epoch == s.At(seat).gate.epoch
              && (s.advertisement.Some? ==> t.advertisement == s.advertisement)
  {
    PassSides(s, sender, e);
    var s1 := Pass(s, sender, e).0;
    AdmitSides(s1, adm, sender, e);
    RetainSides(Admit(s1, adm, sender, e).0, sender, e);
    assert sender == seat || sender.Peer() == seat;
  }

  // Any other step either clears the record of a seat or keeps it, the epoch and the digest.
  lemma StepKeepsSideReady(s: Session, adm: Admission, op: RelayOp, seat: Seat)
    requires s.At(seat).sideReady.Some? ==> s.At(seat).sideReady == s.At(seat).gate.epoch
    requires !Reports(s, adm, op, seat)
    ensures var t := RelayStep(s, adm, op);
            t.At(seat).sideReady.Some? ==>
              && t.At(seat).sideReady == s.At(seat).sideReady
              && t.At(seat).gate.epoch == s.At(seat).gate.epoch
              && (s.advertisement.Some? ==> t.advertisement == s.advertisement)
  {
    match op
    case OpFrame(sender, e) => FrameKeepsSideReady(s, adm, sender, e, seat);
    case _ =>
  }

  lemma ReadyStays(adm: Admission, ops: seq<RelayOp>, seat: Seat, j: int)
    requires ops != []
    requires var n := |ops| - 1;
             var s, t := RelayRun(adm, ops[..n]), RelayRun(adm, ops);
             && ReadyAt(adm, ops[..n], n, seat, j)
             && !Resets(adm, ops, n)
             && t.At(seat).gate.epoch == s.At(seat).gate.epoch
             && t.advertisement == s.advertisement
    ensures ReadyAt(adm, ops, |ops|, seat, j)
  {
    hide RelayRun;
    var n := |ops| - 1;
    var init := ops[..n];
    assert init[..n] == init && ops[..n + 1] == ops;
    assert init[..j] == ops[..j];
    forall k | j < k < n
      ensures !Resets(adm, ops, k)
    {
      assert init[..k] == ops[..k];
      assert !Resets(adm, init, k);
    }
  }

  // A recorded side always has its witness in the run.
  lemma {:induction false} SideReadyWitness(adm: Admission, ops: seq<RelayOp>, seat: Seat)
    ensures var side := RelayRun(adm, ops).At(seat);
            side.sideReady.Some? ==> side.sideReady == side.gate.epoch && Ready(adm, ops, |ops|, seat)
  {
    assert ops[..|ops|] == ops;
    if ops != [] {
      var n := |ops| - 1;
      var init := ops[..n];
      var s, t := RelayRun(adm, init), RelayRun(adm, ops);
      assert init[..n] == init;
      SideReadyWitness(adm, init, seat);
      if Reports(s, adm, ops[n], seat) {
        ReportEffect(s, adm, ops[n], seat);
        assert ReadyAt(adm, ops, n + 1, seat, n);
      } else {
        StepKeepsSideReady(s, adm, ops[n], seat);
        if t.At(seat).sideReady.Some? {
          var j :| ReadyAt(adm, init, n, seat, j);
          if Resets(adm, ops, n) {
            ResetClears(adm, ops, seat);
          }
          ReadyStays(adm, ops, seat, j);
        }
      }
    }
  }

  lemma ResetClears(adm: Admission, ops: seq<RelayOp>, seat: Seat)
    requires ops != [] && Resets(adm, ops, |ops| - 1)
    ensures RelayRun(adm, ops).At(seat).sideReady == None
  {
  }

  // Safety of the data path: whenever the relay accepts an RFU frame, both seats have passed the
  // SIDE_READY barrier in their current epochs exactly when both seats have an epoch at all.
  lemma RfuSafety(adm: Admission, ops: seq<RelayOp>, i: nat, sender: Seat)
    requires Accepted(adm, ops, i, sender, Rfu)
    ensures var s := RelayRun(adm, ops[..i]);
            (forall seat :: Ready(adm, ops, i, seat))
            <==> (s.a.gate.epoch.Some? && s.b.gate.epoch.Some?)
  {
    var s := RelayRun(adm, ops[..i]);
    if s.a.gate.epoch.Some? && s.b.gate.epoch.Some? {
      RfuNeedsBothReady(s, adm, sender, ops[i].e);
      forall seat ensures Ready(adm, ops, i, seat) {
        SideReadyWitness(adm, ops[..i], seat);
        var j :| ReadyAt(adm, ops[..i], i, seat, j);
        assert ops[..i][..i] == ops[..i] && ops[..i][..j] == ops[..j];
        assert forall k :: j < k < i ==> ops[..i][..k] == ops[..k];
        assert forall k :: j < k < i && Resets(adm, ops, k) ==> Resets(adm, ops[..i], k);
        assert ReadyAt(adm, ops, i, seat, j);
      }
    }
    if forall seat :: Ready(adm, ops, i, seat) {
      assert Ready(adm, ops, i, MemberA) && Ready(adm, ops, i, MemberB);
    }
  }

  lemma RfuNeedsBothReady(s: Session, adm: Admission, sender: Seat, e: Envelope)
    requires e.kind == Rfu && Process(s, adm, sender, e).1 == None
    ensures s.At(sender.Peer()).sideReady == s.At(sender.Peer()).gate.epoch
    ensures s.At(sender).sideReady.Some? && s.At(sender).sideReady == s.At(sender).gate.epoch
  {
  }

  // The steps of a seat that nobody answers.
  function LoneSeat(adm: Admission, advert: seq<Byte>, ready: seq<Byte>, data: seq<Byte>): seq<RelayOp> {
    [ OpConnect(MemberA, 0, true),
      OpFrame(MemberA, Envelope(adm.attempt, MemberA, 7, 0, PeerReady)),
      OpFrame(MemberA, Envelope(adm.attempt, MemberA, 7, 1, Advertisement, advert)),
      OpFrame(MemberA, Envelope(adm.attempt, MemberA, 7, 2, SideReady, ready)),
      OpFrame(MemberA, Envelope(adm.attempt, MemberA, 7, 3, Rfu, data)) ]
  }

  lemma PrefixStep(adm: Admission, ops: seq<RelayOp>, n: nat)
    requires n < |ops|
    ensures RelayRun(adm, ops[..n + 1]) == RelayStep(RelayRun(adm, ops[..n]), adm, ops[n])
  {
    assert ops[..n + 1][..n] == ops[..n];
  }

  lemma LoneSeatAdvertises(adm: Admission, advert: seq<Byte>, ready: seq<Byte>, data: seq<Byte>)
    requires AttemptBytes(adm.attempt).Ok? && 0 < |advert| <= 1024
    ensures var s := RelayRun(adm, LoneSeat(adm, advert, ready, data)[..3]);
            && s.a.gate == Gate(adm.attempt, MemberA, Some(7), 2, {})
            && s.b == NewSide(adm.attempt, MemberB)
            && s.advertisement == Some(adm.hash(advert)) && s.a.sideReady == None
  {
    hide RelayRun;
    var ops := LoneSeat(adm, advert, ready, data);
    var s2 := LoneSeatStarts(adm, advert, ready, data);
    PrefixStep(adm, ops, 2);
    assert WireBytes(ops[2].e) <= 1182;
  }

  lemma LoneSeatStarts(adm: Admission, advert: seq<Byte>, ready: seq<Byte>, data: seq<Byte>) returns (s2: Session)
    requires AttemptBytes(adm.attempt).Ok?
    ensures var ops := LoneSeat(adm, advert, ready, data);
            var s0 := NewSession(adm.attempt);
            && s2 == s0.(a := s0.a.(peer := Some(0), generation := 1,
                                    gate := Gate(adm.attempt, MemberA, Some(7), 1, {}),
                                    retained := [ops[1].e], retainedBytes := WireBytes(ops[1].e)))
            && RelayRun(adm, ops[..2]) == s2 && WireBytes(ops[1].e) <= 158
  {
    var ops := LoneSeat(adm, advert, ready, data);
    PrefixStep(adm, ops, 0);
    PrefixStep(adm, ops, 1);
    assert ops[..0] == [];
    var e := ops[1].e;
    assert WireBytes(e) <= 158;
    var s0 := NewSession(adm.attempt);
    var s1 := s0.(a := s0.a.(peer := Some(0), generation := 1));
    assert RelayRun(adm, ops[..1]) == s1;
    s2 := s1.(a := s1.a.(gate := Gate(adm.attempt, MemberA, Some(7), 1, {}),
                         retained := [e], retainedBytes := WireBytes(e)));
  }

  // The guard compares absent epochs too: a lone seat that announces itself, advertises and
  // reports ready may send RFU frames although the other seat has never spoken.
  lemma RfuWithoutPeer(adm: Admission, advert: seq<Byte>, ready: seq<Byte>, data: seq<Byte>)
    requires AttemptBytes(adm.attempt).Ok? && 0 < |advert| <= 1024
    requires adm.decode(ready) == Ok(SideReadyRecord(adm.attempt, MemberA, adm.launchA, adm.hash(advert)))
    ensures var ops := LoneSeat(adm, advert, ready, data);
            && Accepted(adm, ops, 4, MemberA, Rfu)
            && !Ready(adm, ops, 4, MemberB)
            && RelayRun(adm, ops[..4]).b == NewSide(adm.attempt, MemberB)
  {
    var ops := LoneSeat(adm, advert, ready, data);
    LoneSeatAdvertises(adm, advert, ready, data);
    PrefixStep(adm, ops, 3);
  }
}
