/**
 When the relay accepts an in-sequence frame, kind by kind, what accepting it changes, and what the
 retained frames and the generations of a seat add up to over a run.
 */
module RelayAdmissions {
  import opened Common
  import opened Bytes
  import opened Envelopes
  import opened SequenceGates
  import opened RelaySessions

  // The frame is from the seat it claims and next in its sequence.
  predicate InSequence(s: Session, adm: Admission, seat: Seat, e: Envelope) {
    e.attempt == adm.attempt && e.seat == seat && AcceptFrame(s.At(seat).gate, e).Ok?
  }

  // The frame announces another epoch than the present one.
  predicate Opens(s: Session, seat: Seat, e: Envelope) {
    s.At(seat).gate.epoch != Some(e.epoch)
  }

  // A SIDE_READY is accepted exactly when it decodes, names the attempt, the seat of its sender and
  // the launch admitted for that seat, agrees with the advertisement held, and is the first of
  // its epoch; the first of these that fails names the error.
  lemma SideReadyExactly(s: Session, adm: Admission, seat: Seat, e: Envelope)
    requires InSequence(s, adm, seat, e) && e.kind == SideReady
    ensures var launch := if seat == MemberA then adm.launchA else adm.launchB;
            var record, error := adm.decode(e.payload), Process(s, adm, seat, e).1;
            if record.Err? then error == Some(record.error)
            else if record.value != SideReadyRecord(adm.attempt, seat, launch, record.value.advertisement) then
              error == Some(SideReadyIdentity)
            else if s.advertisement != Some(record.value.advertisement) then error == Some(SideReadyAdvertisement)
            else if s.At(seat).sideReady == Some(e.epoch) then error == Some(SideReadyDuplicate)
            else error == None
  {
  }

  // An advertisement: the first, or the same again, as long as there is room to keep it.
  lemma AdvertisementExactly(s: Session, adm: Admission, seat: Seat, e: Envelope)
    requires InSequence(s, adm, seat, e) && e.kind == Advertisement && Valid(e)
    ensures var side, error := s.At(seat), Process(s, adm, seat, e).1;
            if s.advertisement.Some? && s.advertisement.value != adm.hash(e.payload) then
              error == Some(AdvertisementChanged)
            else if |side.retained| >= 32 || side.retainedBytes + |Encode(e).value| > 131072 then
              error == Some(RetentionOverflow)
            else error == None
  {
    WireBytesIsLength(e);
  }

  // RFU data: both seats have reported in the epochs their gates are in, or have no epoch at all.
  lemma RfuExactly(s: Session, adm: Admission, seat: Seat, e: Envelope)
    requires InSequence(s, adm, seat, e) && e.kind == Rfu
    ensures Process(s, adm, seat, e).1 ==
            if s.At(MemberA).sideReady == s.At(MemberA).gate.epoch
              && s.At(MemberB).sideReady == s.At(MemberB).gate.epoch
            then None else Some(BridgeNotReady)
  {
  }

  // A new epoch and the probes always pass.
  lemma OthersPass(s: Session, adm: Admission, seat: Seat, e: Envelope)
    requires InSequence(s, adm, seat, e) && Valid(e)
    requires (e.kind == PeerReady && Opens(s, seat, e)) || e.kind in {ProbeChallenge, ProbeResponse, PeerClose}
    ensures Process(s, adm, seat, e).1 == None
  {
  }

  // A frame that is not in sequence, or not from its seat, changes nothing.
  lemma RefusedChangesNothing(s: Session, adm: Admission, seat: Seat, e: Envelope)
    requires !InSequence(s, adm, seat, e)
    ensures Process(s, adm, seat, e).0 == s && Process(s, adm, seat, e).1.Some?
    ensures e.attempt == adm.attempt && e.seat == seat ==>
              Process(s, adm, seat, e).1 == Some(AcceptFrame(s.At(seat).gate, e).error)
  {
  }

  // What an accepted frame changes: the gate, the digest, the report and what is kept of its seat.
  lemma AcceptedChanges(s: Session, adm: Admission, seat: Seat, e: Envelope)
    requires InSequence(s, adm, seat, e) && Process(s, adm, seat, e).1 == None
    ensures var t := Process(s, adm, seat, e).0;
            var was, now, anew := s.At(seat), t.At(seat), Opens(s, seat, e);
            var kept := e.kind == PeerReady || e.kind == Advertisement;
            && t.At(seat.Peer()) == s.At(seat.Peer()) && t.live == s.live
            && now.peer == was.peer && now.generation == was.generation
            && now.gate == AcceptFrame(was.gate, e).value
            && t.advertisement == (if e.kind == Advertisement then Some(adm.hash(e.payload)) else s.advertisement)
            && now.sideReady == (if e.kind == SideReady then Some(e.epoch) else if anew then None else was.sideReady)
            && now.retained == (if anew then [] else was.retained) + (if kept then [e] else [])
            && now.retainedBytes == (if anew then 0 else was.retainedBytes) + (if kept then WireBytes(e) else 0)
  {
  }

  // ---- retention ----------------------------------------------------------------------------

  function TotalBytes(frames: seq<Envelope>): nat {
    if frames == [] then 0 else TotalBytes(frames[..|frames| - 1]) + WireBytes(frames[|frames| - 1])
  }

  predicate KeepsCount(side: Side) {
    side.retainedBytes == TotalBytes(side.retained) && |side.retained| <= 32 && side.retainedBytes <= 131072
  }

  lemma ProcessKeepsCount(s: Session, adm: Admission, seat: Seat, e: Envelope, other: Seat)
    requires KeepsCount(s.At(MemberA)) && KeepsCount(s.At(MemberB))
    ensures KeepsCount(Process(s, adm, seat, e).0.At(other))
  {
    hide Pass, Admit, Retain, KeepsCount;
    var s1 := Pass(s, seat, e).0;
    var s2 := Admit(s1, adm, seat, e).0;
    assert KeepsCount(s.At(other)) && KeepsCount(s.At(seat));
    PassSides(s, seat, e);
    AdmitSides(s1, adm, seat, e);
    RetainSides(s2, seat, e);
    assert other == seat || other == seat.Peer();
    PassCounts(s, seat, e);
    AdmitCounts(s1, adm, seat, e);
    RetainCounts(s2, seat, e);
  }

  lemma PassCounts(s: Session, seat: Seat, e: Envelope)
    requires KeepsCount(s.At(seat))
    ensures KeepsCount(Pass(s, seat, e).0.At(seat))
  {
    assert TotalBytes([]) == 0;
  }

  lemma AdmitCounts(s: Session, adm: Admission, seat: Seat, e: Envelope)
    requires KeepsCount(s.At(seat))
    ensures KeepsCount(Admit(s, adm, seat, e).0.At(seat))
  {
    AdmitRetains(s, adm, seat, e);
  }

  lemma AdmitRetains(s: Session, adm: Admission, seat: Seat, e: Envelope)
    ensures var t := Admit(s, adm, seat, e).0;
            t.At(seat).retained == s.At(seat).retained && t.At(seat).retainedBytes == s.At(seat).retainedBytes
  {
  }

  lemma RetainCounts(s: Session, seat: Seat, e: Envelope)
    requires KeepsCount(s.At(seat))
    ensures KeepsCount(Retain(s, seat, e).0.At(seat))
  {
    var side := s.At(seat);
    assert (side.retained + [e])[..|side.retained|] == side.retained;
  }

  // In every run the bytes counted for a seat are those of the frames kept for it, within both bounds.
  lemma {:induction false} RetentionCounts(adm: Admission, ops: seq<RelayOp>, seat: Seat)
    ensures KeepsCount(RelayRun(adm, ops).At(seat))
    decreases |ops|
  {
    hide Process, KeepsCount;
    if ops == [] {
      NothingKept(adm, seat);
    } else {
      var s, op := RelayRun(adm, ops[..|ops| - 1]), ops[|ops| - 1];
      RetentionCounts(adm, ops[..|ops| - 1], MemberA);
      RetentionCounts(adm, ops[..|ops| - 1], MemberB);
      match op
      case OpFrame(sender, e) => ProcessKeepsCount(s, adm, sender, e, seat);
      case _ => OthersKeepCount(s, adm, op, seat);
    }
  }

  lemma NothingKept(adm: Admission, seat: Seat)
    ensures KeepsCount(NewSession(adm.attempt).At(seat))
  {
  }

  lemma OthersKeepCount(s: Session, adm: Admission, op: RelayOp, seat: Seat)
    requires !op.OpFrame? && KeepsCount(s.At(MemberA)) && KeepsCount(s.At(MemberB))
    ensures KeepsCount(RelayStep(s, adm, op).At(seat))
  {
    assert TotalBytes([]) == 0;
  }

  // ---- generations --------------------------------------------------------------------------

  // The step gives the seat to a socket, be it only until its replay fails.
  predicate Takes(s: Session, op: RelayOp, seat: Seat) {
    op.OpConnect? && op.seat == seat && s.At(seat).peer == None
  }

  function Taken(adm: Admission, ops: seq<RelayOp>, seat: Seat): nat {
    if ops == [] then 0
    else
      var p := ops[..|ops| - 1];
      Taken(adm, p, seat) + if Takes(RelayRun(adm, p), ops[|ops| - 1], seat) then 1 else 0
  }

  lemma {:induction false} GenerationCounts(adm: Admission, ops: seq<RelayOp>, seat: Seat)
    ensures RelayRun(adm, ops).At(seat).generation == Taken(adm, ops, seat)
    decreases |ops|
  {
    hide Process, Pass, Admit, Retain;
    if ops != [] {
      var s, op := RelayRun(adm, ops[..|ops| - 1]), ops[|ops| - 1];
      GenerationCounts(adm, ops[..|ops| - 1], seat);
      if op.OpFrame? {
        FrameKeepsGeneration(s, adm, op.seat, op.e, seat);
      }
    }
  }

  lemma FrameKeepsGeneration(s: Session, adm: Admission, sender: Seat, e: Envelope, seat: Seat)
    ensures Process(s, adm, sender, e).0.At(seat).generation == s.At(seat).generation
  {
    assert seat == sender || seat == sender.Peer();
    PassSides(s, sender, e);
    AdmitSides(Pass(s, sender, e).0, adm, sender, e);
  }

  // The deadline of a seat that was free at an earlier point takes the session down exactly when
  // nobody has taken the seat since; then nobody holds a seat and nothing is kept.
  lemma DeadlineExactly(adm: Admission, ops: seq<RelayOp>, i: nat, seat: Seat)
    requires i <= |ops| && RelayRun(adm, ops).live && RelayRun(adm, ops).At(seat).peer == None
    ensures var s := RelayRun(adm, ops);
            var t := Expire(s, seat, RelayRun(adm, ops[..i]).At(seat).generation);
            if Taken(adm, ops, seat) == Taken(adm, ops[..i], seat) then
              && !t.live
              && (forall other: Seat ::
                    t.At(other).peer == None && t.At(other).retained == [] && t.At(other).retainedBytes == 0)
            else t == s
  {
    GenerationCounts(adm, ops, seat);
    GenerationCounts(adm, ops[..i], seat);
  }

  // ---- both seats get through ---------------------------------------------------------------

  // Both seats announce themselves, advertise, report ready and send data.
  function BothSeats(adm: Admission, advert: seq<Byte>, readyA: seq<Byte>, readyB: seq<Byte>, data: seq<Byte>)
    : (ops: seq<RelayOp>)
  {
    [ OpConnect(MemberA, 0, true), OpConnect(MemberB, 1, true),
      Frame(adm, MemberA, 0, PeerReady, []), Frame(adm, MemberB, 0, PeerReady, []),
      Frame(adm, MemberA, 1, Advertisement, advert), Frame(adm, MemberB, 1, Advertisement, advert),
      Frame(adm, MemberA, 2, SideReady, readyA), Frame(adm, MemberB, 2, SideReady, readyB),
      Frame(adm, MemberA, 3, Rfu, data), Frame(adm, MemberB, 3, Rfu, data) ]
  }

  function Frame(adm: Admission, seat: Seat, sequence: int, kind: Kind, payload: seq<Byte>): RelayOp {
    OpFrame(seat, Envelope(adm.attempt, seat, if seat.MemberA? then 7 else 9, sequence, kind, payload))
  }

  // The gates of both seats, with little kept and these reports.
  predicate Stands(s: Session, adm: Admission, nextA: nat, nextB: nat, digest: Option<Digest>,
                   readyA: Option<int>, readyB: Option<int>) {
    && s.a.gate == Gate(adm.attempt, MemberA, if nextA == 0 then None else Some(7), nextA, {})
    && s.b.gate == Gate(adm.attempt, MemberB, if nextB == 0 then None else Some(9), nextB, {})
    && |s.a.retained| <= 2 && |s.b.retained| <= 2 && s.a.retainedBytes <= 4000 && s.b.retainedBytes <= 4000
    && s.advertisement == digest && s.a.sideReady == readyA && s.b.sideReady == readyB
    && (nextA <= 1 ==> s.a.retainedBytes <= 200) && (nextB <= 1 ==> s.b.retainedBytes <= 200)
    && (nextA <= 1 ==> |s.a.retained| <= 1) && (nextB <= 1 ==> |s.b.retained| <= 1)
  }

  lemma StartUp(adm: Admission, advert: seq<Byte>, readyA: seq<Byte>, readyB: seq<Byte>, data: seq<Byte>)
    requires AttemptBytes(adm.attempt).Ok?
    ensures var ops := BothSeats(adm, advert, readyA, readyB, data);
            && Accepted(adm, ops, 2, MemberA, PeerReady) && Accepted(adm, ops, 3, MemberB, PeerReady)
            && Stands(RelayRun(adm, ops[..4]), adm, 1, 1, None, None, None)
  {
    hide RelayRun, Process;
    var ops := BothSeats(adm, advert, readyA, readyB, data);
    PrefixStep(adm, ops, 0);
    PrefixStep(adm, ops, 1);
    FirstState(adm, ops);
    PrefixStep(adm, ops, 2);
    OneFrame(adm, ops, 2, 0, 0, None, None, None);
    PrefixStep(adm, ops, 3);
    OneFrame(adm, ops, 3, 1, 0, None, None, None);
  }

  lemma FirstState(adm: Admission, ops: seq<RelayOp>)
    requires |ops| >= 2 && ops[0] == OpConnect(MemberA, 0, true) && ops[1] == OpConnect(MemberB, 1, true)
    ensures Stands(RelayRun(adm, ops[..2]), adm, 0, 0, None, None, None)
  {
    assert ops[..2][..1] == ops[..1] && ops[..1][..0] == [];
    assert RelayRun(adm, ops[..1]) == RelayStep(RelayRun(adm, []), adm, ops[0]);
    assert RelayRun(adm, ops[..2]) == RelayStep(RelayRun(adm, ops[..1]), adm, ops[1]);
  }

  // One frame of the run: it is accepted and moves the gate of its seat.
  lemma OneFrame(adm: Admission, ops: seq<RelayOp>, i: nat, nextA: nat, nextB: nat, digest: Option<Digest>,
                 readyA: Option<int>, readyB: Option<int>)
    requires i < |ops| && ops[i].OpFrame? && AttemptBytes(adm.attempt).Ok?
    requires Stands(RelayRun(adm, ops[..i]), adm, nextA, nextB, digest, readyA, readyB)
    requires var e, seat := ops[i].e, ops[i].seat;
             var next := if seat.MemberA? then nextA else nextB;
             && ops[i] == Frame(adm, seat, next, e.kind, e.payload) && next <= 3
             && e.kind in {PeerReady, Advertisement, SideReady, Rfu}
             && (e.kind == PeerReady <==> next == 0) && (e.kind == PeerReady ==> e.payload == [])
             && (e.kind == Advertisement ==> next == 1 && 0 < |e.payload| <= 1024)
             && (e.kind == Advertisement ==> digest in {None, Some(adm.hash(e.payload))})
             && (e.kind in {PeerReady, SideReady} ==> (if seat.MemberA? then readyA else readyB) == None)
             && (e.kind == SideReady ==>
                   && digest.Some?
                   && var launch := if seat.MemberA? then adm.launchA else adm.launchB;
                   adm.decode(e.payload) == Ok(SideReadyRecord(adm.attempt, seat, launch, digest.value)))
             && (e.kind == Rfu ==> readyA == Some(7) && readyB == Some(9) && nextA > 0 && nextB > 0)
             && (next > 1 ==> e.kind != Advertisement)
    ensures Process(RelayRun(adm, ops[..i]), adm, ops[i].seat, ops[i].e).1 == None
    ensures Accepted(adm, ops, i, ops[i].seat, ops[i].e.kind)
    ensures var e, seat := ops[i].e, ops[i].seat;
            Stands(RelayStep(RelayRun(adm, ops[..i]), adm, ops[i]), adm,
                   if seat.MemberA? then nextA + 1 else nextA, if seat.MemberB? then nextB + 1 else nextB,
                   if e.kind == Advertisement then Some(adm.hash(e.payload)) else digest,
                   if e.kind == SideReady && seat.MemberA? then Some(7) else readyA,
                   if e.kind == SideReady && seat.MemberB? then Some(9) else readyB)
  {
    hide RelayRun, Process, WireBytes, Encode;
    var s, e, seat := RelayRun(adm, ops[..i]), ops[i].e, ops[i].seat;
    Sizes(adm, e);
    if e.kind == SideReady {
      SideReadyExactly(s, adm, seat, e);
    } else if e.kind == Advertisement {
      AdvertisementExactly(s, adm, seat, e);
      WireBytesIsLength(e);
    } else if e.kind == Rfu {
      RfuExactly(s, adm, seat, e);
    } else {
      OthersPass(s, adm, seat, e);
    }
    AcceptedChanges(s, adm, seat, e);
  }

  lemma Sizes(adm: Admission, e: Envelope)
    requires AttemptBytes(adm.attempt).Ok? && e.attempt == adm.attempt
    requires 0 <= e.epoch <= 9 && 0 <= e.sequence <= 9 && e.flags == 0
    ensures WireBytes(e) <= 160 + |e.payload|
    ensures e.kind == Advertisement && 0 < |e.payload| <= 1024 ==> Valid(e)
    ensures e.kind == PeerReady && e.payload == [] ==> Valid(e)
  {
  }

  // With the records their launches call for, every frame of that run is accepted: both seats pass
  // the barrier, and data of either flows.
  lemma BothSeatsPass(adm: Admission, advert: seq<Byte>, readyA: seq<Byte>, readyB: seq<Byte>, data: seq<Byte>)
    requires AttemptBytes(adm.attempt).Ok? && 0 < |advert| <= 1024
    requires adm.decode(readyA) == Ok(SideReadyRecord(adm.attempt, MemberA, adm.launchA, adm.hash(advert)))
    requires adm.decode(readyB) == Ok(SideReadyRecord(adm.attempt, MemberB, adm.launchB, adm.hash(advert)))
    ensures var ops := BothSeats(adm, advert, readyA, readyB, data);
            && (forall i :: 2 <= i < |ops| ==> Accepted(adm, ops, i, ops[i].seat, ops[i].e.kind))
            && ops[8].e.kind == Rfu && ops[8].seat == MemberA && ops[9].e.kind == Rfu && ops[9].seat == MemberB
  {
    hide RelayRun, Process, Stands, Accepted;
    var ops, d := BothSeats(adm, advert, readyA, readyB, data), Some(adm.hash(advert));
    StartUp(adm, advert, readyA, readyB, data);
    OneFrame(adm, ops, 4, 1, 1, None, None, None);
    PrefixStep(adm, ops, 4);
    OneFrame(adm, ops, 5, 2, 1, d, None, None);
    PrefixStep(adm, ops, 5);
    OneFrame(adm, ops, 6, 2, 2, d, None, None);
    PrefixStep(adm, ops, 6);
    OneFrame(adm, ops, 7, 3, 2, d, Some(7), None);
    PrefixStep(adm, ops, 7);
    OneFrame(adm, ops, 8, 3, 3, d, Some(7), Some(9));
    PrefixStep(adm, ops, 8);
    OneFrame(adm, ops, 9, 4, 3, d, Some(7), Some(9));
  }
}
