/** What holds in every run of the relay with its two clients. */
module TunnelProperties {
  import opened Common
  import opened Bytes
  import opened Envelopes
  import opened SequenceGates
  import opened RelaySessions
  import opened TunnelClients
  import opened TunnelSystem

  // The states that runs of allowed steps reach.
  ghost predicate Reachable(adm: Admission, w: World) {
    exists expectedA, expectedB, capacity, ops :: ReachedBy(adm, expectedA, expectedB, capacity, ops, w)
  }

  ghost predicate ReachedBy(adm: Admission, expectedA: Option<Digest>, expectedB: Option<Digest>, capacity: nat,
                            ops: seq<Op>, w: World) {
    && AttemptBytes(adm.attempt).Ok?
    && AllAllowed(adm, NewWorld(adm, expectedA, expectedB, capacity), ops)
    && w == Run(adm, NewWorld(adm, expectedA, expectedB, capacity), ops)
  }

  lemma ReachableInv(adm: Admission, w: World)
    requires Reachable(adm, w)
    ensures Inv(adm, w)
  {
    var expectedA, expectedB, capacity, ops :| ReachedBy(adm, expectedA, expectedB, capacity, ops, w);
    NewWorldOk(adm, expectedA, expectedB, capacity);
    RunKeepsInv(adm, NewWorld(adm, expectedA, expectedB, capacity), ops);
  }

  // End to end: what a connection receives, from replay over live frames to the PEER_CLOSE, is
  // one run of one epoch of the peer, a copy of what one connection of the peer sent, and the
  // gate of the client accepts all of it.
  lemma EndToEndStream(adm: Admission, w: World, conn: Conn)
    requires Reachable(adm, w) && conn < |w.wires| && w.wires[conn].received != []
    ensures var x := w.wires[conn];
            && IsRun(adm.attempt, x.seat.Peer(), x.received)
            && AcceptAll(NewGate(adm.attempt, x.seat.Peer()), x.received).Ok?
            && x.source.Some? && x.source.value < |w.wires|
            && var y := w.wires[x.source.value];
            && y.seat == x.seat.Peer() && y.epoch == x.received[0].epoch
            && forall i :: 0 <= i < |x.received| && x.received[i].kind != PeerClose ==>
                 i < |y.sent| && x.received[i] == y.sent[i]
  {
    ReachableInv(adm, w);
    var x := w.wires[conn];
    assert SelfOk(adm.attempt, x) && Sourced(w.wires, x);
    RunIsAccepted(adm.attempt, x.seat.Peer(), x.received);
  }

  // The next frame a client reads passes its gate, and never announces a second epoch: the
  // branch that restarts a client inside a connection is dead.
  lemma ClientNeverRejects(adm: Admission, w: World, seat: Seat)
    requires Reachable(adm, w) && Connected(w, seat)
    requires w.wires[w.ConnOf(seat).value].read < |w.wires[w.ConnOf(seat).value].received|
    ensures var x, c := w.wires[w.ConnOf(seat).value], w.ClientOf(seat);
            && AcceptFrame(c.hs.gate, x.received[x.read]).Ok?
            && (x.received[x.read].kind == PeerReady ==> c.hs.gate.epoch == None)
  {
    ReachableInv(adm, w);
    var conn := w.ConnOf(seat).value;
    assert SelfOk(adm.attempt, w.wires[conn]);
    GateReadsNext(adm.attempt, seat, w.ClientOf(seat), w.wires[conn]);
  }

  // The relay's gate never rejects a frame of a real client either.
  lemma RelayNeverRejects(adm: Admission, w: World, seat: Seat)
    requires Reachable(adm, w) && Waiting(w.wires, w.relay, seat)
    ensures var x := w.wires[w.relay.At(seat).peer.value];
            AcceptFrame(w.relay.At(seat).gate, x.sent[x.taken]).Ok?
  {
    ReachableInv(adm, w);
    WaitingIsTaken(adm, w.wires, w.relay, seat);
  }

  // The hypothesis on lost sockets is exactly what the stream needs: the PEER_CLOSE that the
  // relay composes continues what the other connection has received if and only if the relay
  // had taken the PEER_READY of the lost socket.  Otherwise it names an older epoch; what the
  // client then does is in TunnelLoss.
  lemma EarlyLossBreaksStream(adm: Admission, w: World, seat: Seat)
    requires Reachable(adm, w) && Held(w, seat) && Held(w, seat.Peer())
    requires w.relay.At(seat).gate.epoch.Some?
    requires !w.wires[w.relay.At(seat.Peer()).peer.value].broken
    ensures var to := w.relay.At(seat.Peer()).peer.value;
            var taken := w.wires[w.relay.At(seat).peer.value].taken;
            var z := LoseStep(w, seat, true).wires[to];
            && z.received == w.wires[to].received + [CloseFrame(w.relay.At(seat).gate)]
            && (AcceptAll(NewGate(adm.attempt, seat), z.received).Ok? <==> taken >= 1)
            && (taken == 0 ==> AcceptAll(NewGate(adm.attempt, seat), z.received) == Err(EpochStartInvalid))
  {
    ReachableInv(adm, w);
    RelaySides(adm.attempt, w.wires, w.relay, seat);
    var mine, other := w.relay.At(seat), w.relay.At(seat.Peer());
    LostWrites(w.wires, w.relay, seat);
    AfterClose(adm.attempt, w.wires, seat, mine, other);
  }

  lemma LostWrites(wires: seq<Wire>, s: Session, seat: Seat)
    requires s.At(seat).peer.Some? && s.At(seat.Peer()).peer.Some? && s.At(seat.Peer()).peer.value < |wires|
    requires s.live && s.At(seat).gate.epoch.Some? && !wires[s.At(seat.Peer()).peer.value].broken
    ensures var to := s.At(seat.Peer()).peer.value;
            Lost(wires, s, seat, true).1[to].received == wires[to].received + [CloseFrame(s.At(seat).gate)]
  {
  }

  lemma AfterClose(attempt: Text, wires: seq<Wire>, seat: Seat, mine: Side, other: Side)
    requires WiresOk(attempt, wires) && SidesOk(attempt, wires, seat, mine, other)
    requires mine.peer.Some? && other.peer.Some? && mine.gate.epoch.Some?
    requires !wires[other.peer.value].broken
    ensures var frames := wires[other.peer.value].received + [CloseFrame(mine.gate)];
            var taken := wires[mine.peer.value].taken;
            && (taken >= 1 ==> AcceptAll(NewGate(attempt, seat), frames).Ok?)
            && (taken == 0 ==> AcceptAll(NewGate(attempt, seat), frames) == Err(EpochStartInvalid))
  {
    CloseFrameContinues(attempt, wires, seat, mine, other);
    var before, e := wires[other.peer.value].received, CloseFrame(mine.gate);
    if wires[mine.peer.value].taken >= 1 {
      RunIsAccepted(attempt, seat, before + [e]);
    } else {
      assert before == [] && before + [e] == [e] && [e][..0] == [];
      assert AcceptAll(NewGate(attempt, seat), []) == Ok(NewGate(attempt, seat));
    }
  }

  // The peer has consumed the challenge this client drew on its present connection, in the
  // epoch of that connection.
  ghost predicate PeerHasChallenge(x: Wire, y: Wire) {
    exists k :: 0 <= k < y.read && k < |y.received| && y.received[k].kind == ProbeChallenge
                && y.received[k].epoch == x.epoch && x.nonce == Some(y.received[k].payload)
  }

  // This client has consumed and answered a challenge of the peer, in the epoch its gate tracks.
  ghost predicate PeerWasAnswered(x: Wire, y: Wire) {
    exists k, i :: 0 <= k < x.read && k < |x.received| && 0 <= i < |x.sent|
                   && x.received[k].kind == ProbeChallenge && x.received[k].epoch == y.epoch
                   && y.nonce == Some(x.received[k].payload)
                   && x.sent[i].kind == ProbeResponse && x.sent[i].payload == x.received[k].payload
  }

  // Both directions are live once a client has set data_plane_proven.
  lemma ProbeSoundness(adm: Admission, w: World, seat: Seat)
    requires Reachable(adm, w) && w.ClientOf(seat).hs.proven
    ensures Connected(w, seat)
    ensures var x := w.wires[w.ConnOf(seat).value];
            && w.ClientOf(seat).epoch == x.epoch && w.ClientOf(seat).hs.challenge == x.nonce
            && x.source.Some? && x.source.value < |w.wires|
            && var y := w.wires[x.source.value];
            && y.seat == seat.Peer() && w.ClientOf(seat).hs.gate.epoch == Some(y.epoch)
            && PeerHasChallenge(x, y) && PeerWasAnswered(x, y)
  {
    hide PeerHasChallenge, PeerWasAnswered;
    ReachableInv(adm, w);
    var c, conn := w.ClientOf(seat), w.ConnOf(seat).value;
    assert ClientOk(adm.attempt, w.wires, seat, c, w.ConnOf(seat));
    var x := w.wires[conn];
    assert SelfOk(adm.attempt, x) && Sourced(w.wires, x);
    var k :| 0 <= k < x.read && k < |x.received| && x.received[k].kind == ProbeResponse
             && x.nonce == Some(x.received[k].payload);
    var peer := x.source.value;
    var y := w.wires[peer];
    assert x.received[k] == y.sent[k];
    ChallengeReached(adm.attempt, w.wires, conn, peer, k);
    AnswerMatches(adm.attempt, w.wires, conn, peer);
  }

  // A response that carries the client's nonce proves that its challenge was consumed.
  lemma ChallengeReached(attempt: Text, wires: seq<Wire>, conn: Conn, peer: Conn, k: nat)
    requires WiresOk(attempt, wires) && conn < |wires| && peer < |wires|
    requires wires[peer].seat == wires[conn].seat.Peer()
    requires k < |wires[peer].sent| && wires[peer].sent[k].kind == ProbeResponse
    requires wires[conn].nonce == Some(wires[peer].sent[k].payload)
    ensures PeerHasChallenge(wires[conn], wires[peer])
  {
    var x, y := wires[conn], wires[peer];
    assert SelfOk(attempt, y) && Sourced(wires, y);
    assert Challenged(y, y.sent[k].payload);
    var j :| 0 <= j < y.read && j < |y.received|
             && y.received[j].kind == ProbeChallenge && y.received[j].payload == y.sent[k].payload;
    var origin := y.source.value;
    var z := wires[origin];
    assert SelfOk(attempt, z);
    assert y.received[j] == z.sent[j];
    assert z.nonce == x.nonce;
    assert origin == conn;
    assert y.received[j].epoch == x.epoch;
  }

  lemma AnswerMatches(attempt: Text, wires: seq<Wire>, conn: Conn, peer: Conn)
    requires WiresOk(attempt, wires) && conn < |wires| && peer < |wires|
    requires wires[conn].source == Some(peer) && Answered(wires[conn])
    ensures PeerWasAnswered(wires[conn], wires[peer])
  {
    var x, y := wires[conn], wires[peer];
    assert SelfOk(attempt, x) && Sourced(wires, x) && SelfOk(attempt, y);
    var k, i :| 0 <= k < x.read && k < |x.received| && 0 <= i < |x.sent|
                && x.received[k].kind == ProbeChallenge && x.sent[i].kind == ProbeResponse
                && x.sent[i].payload == x.received[k].payload;
    assert x.received[k] == y.sent[k];
  }

  // Before that point nothing but the handshake is queued or has been sent on the connection.
  lemma NoDataBeforeProof(adm: Admission, w: World, seat: Seat)
    requires Reachable(adm, w) && Connected(w, seat) && !w.ClientOf(seat).hs.proven
    ensures w.ClientOf(seat).outbox == []
    ensures var x := w.wires[w.ConnOf(seat).value];
            forall i :: 0 <= i < |x.sent| ==>
              x.sent[i].kind == PeerReady || x.sent[i].kind == ProbeChallenge || x.sent[i].kind == ProbeResponse
  {
    ReachableInv(adm, w);
    var x := w.wires[w.ConnOf(seat).value];
    assert SelfOk(adm.attempt, x) && Agrees(adm.attempt, seat, w.ClientOf(seat), x);
    forall i | 0 <= i < |x.sent|
      ensures x.sent[i].kind == PeerReady || x.sent[i].kind == ProbeChallenge || x.sent[i].kind == ProbeResponse
    {
      assert !DataKind(x.sent[i].kind) && x.sent[i].kind != PeerClose;
    }
  }
}
