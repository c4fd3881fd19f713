/**
 What the loss of a socket does to the client on the other seat: it connects again, or it stops
 for good when the relay had not yet taken the PEER_READY of the lost socket.  The second case
 is reached by a run of six steps.
 */
module TunnelLoss {
  import opened Common
  import opened Bytes
  import opened Envelopes
  import opened SequenceGates
  import opened RelaySessions
  import opened TunnelClients
  import opened TunnelSystem
  import opened TunnelProperties

  // Both seats are held, the relay has seen an epoch of this one, and the other client has read
  // all it was sent on the connection that holds its seat.
  ghost predicate Facing(adm: Admission, w: World, seat: Seat) {
    && Reachable(adm, w) && Held(w, seat) && Held(w, seat.Peer())
    && w.relay.At(seat).gate.epoch.Some?
    && w.ConnOf(seat.Peer()) == w.relay.At(seat.Peer()).peer
    && var z := w.wires[w.relay.At(seat.Peer()).peer.value];
    !z.broken && z.read == |z.received|
  }

  // The other client reads the PEER_CLOSE and leaves the connection.  It stops for good if and
  // only if the relay had taken nothing from the lost socket.
  lemma LossStopsPeer(adm: Admission, w: World, seat: Seat, nonce: seq<Byte>, spare: int)
    requires Facing(adm, w, seat)
    ensures var peer := seat.Peer();
            var taken := w.wires[w.relay.At(seat).peer.value].taken;
            var after := ReadStep(LoseStep(w, seat, true), adm, peer, nonce, spare);
            && after.ConnOf(peer) == None
            && (after.ClientOf(peer).stopped <==> w.ClientOf(peer).stopped || taken == 0)
  {
    hide Lost, Inv, AcceptAll, SideOk, Follows;
    ReachableInv(adm, w);
    FacingGate(adm, w, seat);
    LostFrame(w, seat);
    var peer := seat.Peer();
    var lost, e := LoseStep(w, seat, true), CloseFrame(w.relay.At(seat).gate);
    var conn := w.ConnOf(peer).value;
    var x := lost.wires[conn];
    assert x.received[x.read] == e;
    ReadsClose(w.ClientOf(peer), adm, e, nonce, spare);
  }

  lemma ReadsClose(c: Client, adm: Admission, e: Envelope, nonce: seq<Byte>, spare: int)
    requires e.kind == PeerClose
    requires AcceptFrame(c.hs.gate, e).Ok? || AcceptFrame(c.hs.gate, e) == Err(EpochStartInvalid)
    ensures var r := Receive(c, adm.hash, e, nonce, spare);
            && r.end != Running && r.sent == [] && r.client.stopped == c.stopped
            && (r.end.Fatal? <==> AcceptFrame(c.hs.gate, e).Err?)
  {
  }

  lemma LostFrame(w: World, seat: Seat)
    requires Held(w, seat) && Held(w, seat.Peer()) && w.relay.live && w.relay.At(seat).gate.epoch.Some?
    requires w.relay.At(seat.Peer()).peer.value < |w.wires|
    requires !w.wires[w.relay.At(seat.Peer()).peer.value].broken
    ensures var end := w.relay.At(seat.Peer()).peer.value;
            var z, lost := w.wires[end], LoseStep(w, seat, true);
            && |lost.wires| == |w.wires|
            && lost.wires[end].received == z.received + [CloseFrame(w.relay.At(seat).gate)]
            && lost.wires[end].read == z.read
            && lost.ConnOf(seat.Peer()) == w.ConnOf(seat.Peer())
            && lost.ClientOf(seat.Peer()) == w.ClientOf(seat.Peer())
  {
  }

  // What the gate of the other client will say to the PEER_CLOSE.
  lemma FacingGate(adm: Admission, w: World, seat: Seat)
    requires Inv(adm, w) && Facing(adm, w, seat)
    ensures w.relay.live
    ensures var taken := w.wires[w.relay.At(seat).peer.value].taken;
            var answer := AcceptFrame(w.ClientOf(seat.Peer()).hs.gate, CloseFrame(w.relay.At(seat).gate));
            if taken == 0 then answer == Err(EpochStartInvalid) else answer.Ok?
  {
    var attempt, peer := adm.attempt, seat.Peer();
    RelaySides(attempt, w.wires, w.relay, seat);
    var x, z := w.wires[w.relay.At(seat).peer.value], w.wires[w.relay.At(peer).peer.value];
    var c := w.ClientOf(peer);
    assert ClientOk(attempt, w.wires, peer, c, w.ConnOf(peer));
    assert Agrees(attempt, peer, c, z) && SelfOk(attempt, x) && SelfOk(attempt, z);
    assert Follows(z, w.relay.At(seat).peer.value, x, x.taken);
    assert z.received == x.sent[..x.taken];
  }

  // ---- a run that ends in the failing case ------------------------------------------------

  // A connects, announces itself and is lost; before the relay reads the PEER_READY of its
  // next connection, B connects.
  const EarlyLoss: seq<Op> := [
    OpOpen(MemberA, 1, true), OpTake(MemberA, true), OpLose(MemberA, true),
    OpAbandon(MemberA), OpOpen(MemberA, 2, true), OpOpen(MemberB, 5, true)]

  lemma RunSnoc(adm: Admission, start: World, ops: seq<Op>, op: Op)
    requires AllAllowed(adm, start, ops) && Allowed(Run(adm, start, ops), op)
    ensures AllAllowed(adm, start, ops + [op])
    ensures Run(adm, start, ops + [op]) == Step(Run(adm, start, ops), adm, op)
  {
    var more := ops + [op];
    assert more[..|more| - 1] == ops;
    forall i | 0 <= i < |more|
      ensures Allowed(Run(adm, start, more[..i]), more[i])
    {
      if i < |ops| {
        assert more[..i] == ops[..i];
      } else {
        assert more[..i] == ops;
      }
    }
  }

  function Hello(attempt: Text, seat: Seat, epoch: int): Envelope {
    Envelope(attempt, seat, epoch, 0, PeerReady)
  }

  // A connection that was opened and has received nothing.
  function Opened(attempt: Text, seat: Seat, epoch: int, taken: nat): Wire {
    Wire(seat, epoch, [Hello(attempt, seat, epoch)], taken, [], 0, false, None, None)
  }

  // The clients are those of the attempt, and neither has stopped.
  predicate Willing(adm: Admission, w: World) {
    && AttemptBytes(adm.attempt).Ok? && w.relay.live
    && w.clientA.cfg.attempt == adm.attempt && w.clientB.cfg.attempt == adm.attempt
    && w.clientA.cfg.seat == MemberA && w.clientB.cfg.seat == MemberB
    && !w.clientA.stopped && !w.clientB.stopped
  }

  lemma Opens(adm: Admission, w: World, seat: Seat, epoch: int)
    requires Willing(adm, w) && w.ConnOf(seat) == None && w.relay.At(seat).peer == None
    requires w.relay.At(seat.Peer()).retained == [] && 0 <= epoch <= MAX_UINT64
    ensures var r := Step(w, adm, OpOpen(seat, epoch, true));
            && Willing(adm, r) && r.wires == w.wires + [Opened(adm.attempt, seat, epoch, 0)]
            && r.relay.At(seat) == w.relay.At(seat).(peer := Some(|w.wires|), generation := r.relay.At(seat).generation)
            && r.relay.At(seat.Peer()) == w.relay.At(seat.Peer())
            && r.ConnOf(seat) == Some(|w.wires|) && r.ConnOf(seat.Peer()) == w.ConnOf(seat.Peer())
  {
    OpenSends(w.ClientOf(seat), epoch);
  }

  // A has connected and the relay takes its PEER_READY.
  lemma Greets(adm: Admission, w: World)
    requires Willing(adm, w) && w.wires == [Opened(adm.attempt, MemberA, 1, 0)]
    requires w.relay.a.peer == Some(0) && w.relay.a.gate == NewGate(adm.attempt, MemberA)
    requires w.relay.a.retained == [] && w.relay.a.retainedBytes == 0 && w.relay.b.peer == None
    ensures var r := Step(w, adm, OpTake(MemberA, true));
            && r == w.(relay := r.relay, wires := [Opened(adm.attempt, MemberA, 1, 1)])
            && r.relay.a.peer == Some(0) && r.relay.a.gate.epoch == Some(1)
            && r.relay.b == w.relay.b && r.relay.live
  {
  }

  // The socket of A is lost, and A gives the connection up.
  lemma Leaves(adm: Admission, w: World)
    requires Willing(adm, w) && w.relay.a.peer.Some? && w.relay.b.peer == None
    ensures var v := Step(w, adm, OpLose(MemberA, true));
            var r := Step(v, adm, OpAbandon(MemberA));
            && Willing(adm, r) && r.wires == w.wires && r.connA == None && r.connB == w.connB
            && r.relay.a.peer == None && r.relay.b.peer == None
            && r.relay.a.retained == [] && r.relay.b.retained == []
            && r.relay.a.gate == w.relay.a.gate
  {
  }

  lemma FirstEpoch(adm: Admission, start: World)
    requires Willing(adm, start) && start.wires == [] && start.connA == None && start.connB == None
    requires start.relay == NewSession(adm.attempt)
    ensures var w := Run(adm, start, EarlyLoss[..4]);
            && AllAllowed(adm, start, EarlyLoss[..4])
            && Willing(adm, w) && w.wires == [Opened(adm.attempt, MemberA, 1, 1)]
            && w.connA == None && w.connB == None
            && w.relay.a.peer == None && w.relay.b.peer == None
            && w.relay.a.retained == [] && w.relay.b.retained == []
            && w.relay.a.gate.epoch == Some(1)
  {
    hide Step;
    var op0, op1, op2, op3 := EarlyLoss[0], EarlyLoss[1], EarlyLoss[2], EarlyLoss[3];
    Opens(adm, start, MemberA, 1);
    RunSnoc(adm, start, [], op0);
    var w1 := Run(adm, start, [] + [op0]);
    assert w1.wires == [Opened(adm.attempt, MemberA, 1, 0)];
    Greets(adm, w1);
    RunSnoc(adm, start, [] + [op0], op1);
    var w2 := Run(adm, start, [] + [op0] + [op1]);
    Leaves(adm, w2);
    RunSnoc(adm, start, [] + [op0] + [op1], op2);
    RunSnoc(adm, start, [] + [op0] + [op1] + [op2], op3);
    assert [] + [op0] + [op1] + [op2] + [op3] == EarlyLoss[..4];
  }

  lemma SecondEpoch(adm: Admission, start: World)
    requires Willing(adm, start) && start.wires == [] && start.connA == None && start.connB == None
    requires start.relay == NewSession(adm.attempt)
    ensures var w := Run(adm, start, EarlyLoss);
            && AllAllowed(adm, start, EarlyLoss) && Willing(adm, w)
            && w.wires == [Opened(adm.attempt, MemberA, 1, 1), Opened(adm.attempt, MemberA, 2, 0),
                           Opened(adm.attempt, MemberB, 5, 0)]
            && w.relay.a.peer == Some(1) && w.relay.b.peer == Some(2) && w.connB == Some(2)
            && w.relay.a.gate.epoch == Some(1)
  {
    hide Step;
    FirstEpoch(adm, start);
    var ops, w := EarlyLoss[..4], Run(adm, start, EarlyLoss[..4]);
    Opens(adm, w, MemberA, 2);
    RunSnoc(adm, start, ops, EarlyLoss[4]);
    var w5 := Run(adm, start, ops + [EarlyLoss[4]]);
    assert w5.wires == [Opened(adm.attempt, MemberA, 1, 1), Opened(adm.attempt, MemberA, 2, 0)];
    Opens(adm, w5, MemberB, 5);
    RunSnoc(adm, start, ops + [EarlyLoss[4]], EarlyLoss[5]);
    assert ops + [EarlyLoss[4]] + [EarlyLoss[5]] == EarlyLoss;
  }

  // The hypotheses hold along the run, and it leaves both seats held, an epoch of A that is no
  // longer there, and nothing taken of the new one.
  lemma EarlyLossHappens(adm: Admission, expectedA: Option<Digest>, expectedB: Option<Digest>, capacity: nat)
    requires AttemptBytes(adm.attempt).Ok?
    ensures var start := NewWorld(adm, expectedA, expectedB, capacity);
            var w := Run(adm, start, EarlyLoss);
            && AllAllowed(adm, start, EarlyLoss)
            && Facing(adm, w, MemberA)
            && w.wires[w.relay.a.peer.value].taken == 0
            && !w.clientB.stopped
  {
    var start := NewWorld(adm, expectedA, expectedB, capacity);
    FirstEpoch(adm, start);
    SecondEpoch(adm, start);
    var w := Run(adm, start, EarlyLoss);
    assert ReachedBy(adm, expectedA, expectedB, capacity, EarlyLoss, w);
  }

  // One more loss then stops B, although A has done nothing but connect twice.
  lemma EarlyLossStopsPeer(adm: Admission, expectedA: Option<Digest>, expectedB: Option<Digest>, capacity: nat,
                           nonce: seq<Byte>, spare: int)
    requires AttemptBytes(adm.attempt).Ok?
    ensures var w := Run(adm, NewWorld(adm, expectedA, expectedB, capacity), EarlyLoss);
            && !w.clientB.stopped
            && ReadStep(LoseStep(w, MemberA, true), adm, MemberB, nonce, spare).clientB.stopped
  {
    hide ReadStep, LoseStep, Facing;
    EarlyLossHappens(adm, expectedA, expectedB, capacity);
    var w := Run(adm, NewWorld(adm, expectedA, expectedB, capacity), EarlyLoss);
    LossStopsPeer(adm, w, MemberA, nonce, spare);
  }
}
