/** TunnelClientV2 (switchtrade/tunnel_client_v2.py), updated in place. */
module TunnelClientObjects {
  import opened Common
  import opened Bytes
  import opened Envelopes
  import opened SequenceGates
  import opened RelaySessions
  import opened TunnelClients

  // What a pump with this budget still does, if it has not ended.
  function Remaining(c: Client, budget: nat, end: End): Reaction {
    if end == Running then Pump(c, budget) else Reaction(c, [], end)
  }

  // What remains of a pump after some frames have been sent.
  ghost predicate Resumes(whole: Reaction, sent: seq<Envelope>, rest: Reaction) {
    whole == rest.(sent := sent + rest.sent)
  }

  lemma PumpResumes(whole: Reaction, sent: seq<Envelope>, c: Client, budget: nat)
    requires budget > 0 && c.outbox != [] && Resumes(whole, sent, Pump(c, budget))
    ensures var first := SendFirst(c);
            Resumes(whole, sent + first.sent, Remaining(first.client, budget - 1, first.end))
  {
    var first := SendFirst(c);
    var rest := Remaining(first.client, budget - 1, first.end);
    assert first.sent + [] == first.sent;
    assert sent + (first.sent + rest.sent) == (sent + first.sent) + rest.sent;
  }

  class TunnelClientV2 {
    const attempt: Text
    const seat: Seat
    const expected: Option<Digest>
    const capacity: nat
    const hash: seq<Byte> -> Digest
    var epoch: int
    var sequence: nat
    var gate: SequenceGate
    var challenge: Option<seq<Byte>>
    var challengeReturned: bool
    var answeredPeerChallenge: bool
    var authenticated: bool
    var peerReady: bool
    var dataPlaneProven: bool
    var connectionGeneration: nat
    var proofGeneration: nat
    var receivedAdvertisement: Option<Digest>
    var advertisementSentGeneration: nat
    var sideReadySentGeneration: nat
    var outbox: seq<Pending>
    var inbox: seq<Envelope>
    var stopped: bool

    ghost function HandshakeView(): Handshake
      reads this, gate
    {
      Handshake(gate.View(), challenge, challengeReturned, answeredPeerChallenge,
                peerReady, dataPlaneProven, proofGeneration)
    }

    ghost function View(): Client
      reads this, gate
    {
      Client(Config(attempt, seat, expected, capacity), epoch, sequence, HandshakeView(),
             Exchange(receivedAdvertisement, inbox, advertisementSentGeneration, sideReadySentGeneration),
             outbox, authenticated, connectionGeneration, stopped)
    }

    constructor (attempt: Text, seat: Seat, expected: Option<Digest>, capacity: nat, hash: seq<Byte> -> Digest)
      requires AttemptBytes(attempt).Ok?
      ensures View() == NewClient(attempt, seat, expected, capacity) && this.hash == hash
      ensures fresh(gate)
    {
      this.attempt := attempt;
      this.seat := seat;
      this.expected := expected;
      this.capacity := capacity;
      this.hash := hash;
      epoch := 0;
      sequence := 0;
      gate := new SequenceGate(attempt, seat.Peer());
      challenge := None;
      challengeReturned, answeredPeerChallenge := false, false;
      authenticated, peerReady, dataPlaneProven := false, false, false;
      connectionGeneration, proofGeneration := 0, 0;
      receivedAdvertisement := None;
      advertisementSentGeneration, sideReadySentGeneration := 0, 0;
      outbox := [];
      inbox := [];
      stopped := false;
    }

    method SendFrame(kind: Kind, payload: seq<Byte>, flags: int) returns (sent: seq<Envelope>, end: End)
      modifies this`sequence
      ensures Reaction(View(), sent, end) == Send(old(View()), kind, payload, flags)
    {
      var e := Envelope(attempt, seat, epoch, sequence, kind, payload, flags);
      var raw := Encode(e);
      if raw.Err? {
        return [], Fatal(raw.error);
      }
      sequence := sequence + 1;
      return [e], Running;
    }

    // A connection has been accepted: a fresh epoch, empty queues, no readiness, PEER_READY.
    method OnConnected(epoch: int) returns (sent: seq<Envelope>, end: End)
      requires AttemptBytes(attempt).Ok?
      modifies this
      ensures Reaction(View(), sent, end) == Open(old(View()), epoch)
      ensures fresh(gate)
    {
      ResetForConnection(epoch);
      sent, end := SendFrame(PeerReady, [], 0);
    }

    method ResetForConnection(epoch: int)
      requires AttemptBytes(attempt).Ok?
      modifies this
      ensures View() == Opening(old(View()), epoch)
      ensures fresh(gate)
    {
      ResetProof();
      gate := new SequenceGate(attempt, seat.Peer());
      RestartStream(epoch);
      ClearQueues();
      CountConnection();
    }

    method ResetProof()
      modifies this`challenge, this`challengeReturned, this`answeredPeerChallenge, this`peerReady, this`dataPlaneProven
      ensures View() == old(View()).(hs := Unproven(old(View()).hs))
    {
      peerReady := false;
      dataPlaneProven := false;
      challenge := None;
      challengeReturned, answeredPeerChallenge := false, false;
    }

    method RestartStream(epoch: int)
      modifies this`epoch, this`sequence
      ensures View() == old(View()).(epoch := epoch, sequence := 0)
    {
      this.epoch := epoch;
      sequence := 0;
    }

    method CountConnection()
      modifies this`connectionGeneration, this`authenticated
      ensures View()
              == old(View()).(authenticated := true, connectionGeneration := old(View()).connectionGeneration + 1)
    {
      connectionGeneration := connectionGeneration + 1;
      authenticated := true;
    }

    method ClearQueues()
      modifies this`outbox, this`inbox
      ensures View() == old(View()).(outbox := [], app := old(View()).app.(inbox := []))
    {
      while outbox != []
        decreases |outbox|
      {
        outbox := outbox[1..];
      }
      while inbox != []
        invariant outbox == []
        decreases |inbox|
      {
        inbox := inbox[1..];
      }
    }

    method ClearReadiness()
      modifies this`authenticated, this`peerReady, this`dataPlaneProven
      ensures !authenticated && !peerReady && !dataPlaneProven
    {
      authenticated := false;
      peerReady := false;
      dataPlaneProven := false;
    }

    // One frame has arrived; `nonce` and `spare` are the random values it may call for.
    method OnFrame(e: Envelope, nonce: seq<Byte>, spare: int) returns (sent: seq<Envelope>, end: End)
      modifies this, gate
      ensures gate == old(gate)
      ensures Reaction(View(), sent, end) == Receive(old(View()), hash, e, nonce, spare)
    {
      var prior := gate.epoch;
      var rejected := gate.Accept(e);
      if rejected.Some? {
        return [], Fatal(rejected.value);
      }
      assert View() == Gated(old(View()), gate.View());
      sent, end := Dispatch(prior, e, nonce, spare);
      if end == Running && challengeReturned && answeredPeerChallenge && !dataPlaneProven {
        proofGeneration := proofGeneration + 1;
        dataPlaneProven := true;
      }
    }

    method Dispatch(prior: Option<int>, e: Envelope, nonce: seq<Byte>, spare: int)
        returns (sent: seq<Envelope>, end: End)
      modifies this
      ensures gate == old(gate)
      ensures Reaction(View(), sent, end) == OnKind(old(View()), hash, prior, e, nonce, spare)
    {
      sent := [];
      match e.kind {
        case PeerReady => sent, end := OnPeerReadyFrame(prior, e, nonce, spare);
        case ProbeChallenge =>
          sent, end := SendFrame(ProbeResponse, e.payload, 0);
          if end == Running {
            answeredPeerChallenge := true;
          }
        case ProbeResponse => end := OnResponse(e);
        case Advertisement => end := OnAdvertisementFrame(e);
        case PeerClose => end := Reconnecting;
        case SideReady => end := PutInbox(e);
        case Rfu => end := PutInbox(e);
      }
    }

    method OnResponse(e: Envelope) returns (end: End)
      requires e.kind == ProbeResponse
      modifies this`challengeReturned
      ensures forall prior, nonce, spare ::
        Reaction(View(), [], end) == OnKind(old(View()), hash, prior, e, nonce, spare)
    {
      if challenge != Some(e.payload) {
        return Fatal(ProbeMismatch);
      }
      challengeReturned := true;
      return Running;
    }

    method OnPeerReadyFrame(prior: Option<int>, e: Envelope, nonce: seq<Byte>, spare: int)
        returns (sent: seq<Envelope>, end: End)
      modifies this
      ensures gate == old(gate)
      ensures Reaction(View(), sent, end) == OnPeerReady(old(View()), prior, e, nonce, spare)
    {
      sent := [];
      if prior.Some? && prior != Some(e.epoch) {
        sent, end := RestartSession(spare);
        if end != Running {
          return;
        }
      }
      peerReady := true;
      challenge := Some(nonce);
      var more;
      more, end := SendFrame(ProbeChallenge, nonce, 0);
      sent := sent + more;
    }

    method RestartSession(spare: int) returns (sent: seq<Envelope>, end: End)
      modifies this
      ensures gate == old(gate)
      ensures Reaction(View(), sent, end) == Restart(old(View()), spare)
    {
      ResetProof();
      RestartStream(spare);
      sent, end := SendFrame(PeerReady, [], 0);
    }

    method OnAdvertisementFrame(e: Envelope) returns (end: End)
      modifies this`receivedAdvertisement, this`inbox
      ensures Reaction(View(), [], end) == OnAdvertisement(old(View()), hash, e)
    {
      var digest := hash(e.payload);
      if !dataPlaneProven {
        return Fatal(AdvertisementEarly);
      }
      if expected.Some? && expected != Some(digest) {
        return Fatal(AdvertisementHashMismatch);
      }
      if receivedAdvertisement.Some? {
        if receivedAdvertisement != Some(digest) {
          return Fatal(AdvertisementChanged);
        }
        return Running;
      }
      receivedAdvertisement := Some(digest);
      end := PutInbox(e);
    }

    method PutInbox(e: Envelope) returns (end: End)
      modifies this`inbox
      ensures Reaction(View(), [], end) == Deliver(old(View()), e)
    {
      if Full(|inbox|, capacity) {
        return Reconnecting;
      }
      inbox := inbox + [e];
      return Running;
    }

    // The end of a connection.
    method OnClosed(end: End)
      modifies this
      ensures gate == old(gate)
      ensures View() == Close(old(View()), end)
    {
      if end.Fatal? {
        stopped := true;
      }
      ClearReadiness();
    }

    method PumpFirst() returns (sent: seq<Envelope>, end: End)
      requires outbox != []
      modifies this`sequence, this`outbox
      ensures Reaction(View(), sent, end) == SendFirst(old(View()))
    {
      var p := outbox[0];
      outbox := outbox[1..];
      sent, end := SendFrame(p.kind, p.payload, p.flags);
    }

    method PumpOutbox(budget: nat) returns (sent: seq<Envelope>, end: End)
      modifies this`sequence, this`outbox
      ensures Reaction(View(), sent, end) == Pump(old(View()), budget)
    {
      sent, end := [], Running;
      var i := 0;
      while i < budget && end == Running && outbox != []
        invariant 0 <= i <= budget
        invariant Resumes(Pump(old(View()), budget), sent, Remaining(View(), budget - i, end))
      {
        PumpResumes(Pump(old(View()), budget), sent, View(), budget - i);
        var more;
        more, end := PumpFirst();
        sent := sent + more;
        i := i + 1;
      }
      assert sent + [] == sent;
    }

    method PutOutbox(kind: Kind, payload: seq<Byte>, flags: int) returns (error: Option<QueueError>)
      modifies this`outbox
      ensures match Put(old(View()), kind, payload, flags)
              case Ok(c) => error == None && View() == c
              case Err(code) => error == Some(code) && View() == old(View())
    {
      if |payload| > MAX_PAYLOAD_BYTES {
        return Some(BadPayload);
      }
      if Full(|outbox|, capacity) {
        return Some(OutboxFull);
      }
      outbox := outbox + [Pending(kind, payload, flags)];
      return None;
    }

    method AdvertiseRoom(payload: seq<Byte>) returns (error: Option<QueueError>)
      modifies this`outbox, this`advertisementSentGeneration
      ensures match Advertise(old(View()), payload)
              case Ok(c) => error == None && View() == c
              case Err(code) => error == Some(code) && View() == old(View())
    {
      if !dataPlaneProven {
        return Some(NotProven);
      }
      if advertisementSentGeneration == proofGeneration {
        return Some(AlreadySent);
      }
      error := PutOutbox(Advertisement, payload, 0);
      if error == None {
        advertisementSentGeneration := proofGeneration;
      }
    }

    method ReportSideReady(payload: seq<Byte>) returns (error: Option<QueueError>)
      modifies this`outbox, this`sideReadySentGeneration
      ensures match SendSideReady(old(View()), payload)
              case Ok(c) => error == None && View() == c
              case Err(code) => error == Some(code) && View() == old(View())
    {
      if !dataPlaneProven {
        return Some(NotProven);
      }
      if sideReadySentGeneration == proofGeneration {
        return Some(AlreadySent);
      }
      error := PutOutbox(SideReady, payload, 0);
      if error == None {
        sideReadySentGeneration := proofGeneration;
      }
    }

    method QueueRfu(payload: seq<Byte>, flags: int) returns (error: Option<QueueError>)
      modifies this`outbox
      ensures match SendRfu(old(View()), payload, flags)
              case Ok(c) => error == None && View() == c
              case Err(code) => error == Some(code) && View() == old(View())
    {
      if !dataPlaneProven {
        return Some(NotProven);
      }
      if payload == [] || |payload| > MAX_RFU_PAYLOAD_BYTES || !(0 <= flags <= 0xFF) {
        return Some(BadPayload);
      }
      error := PutOutbox(Rfu, payload, flags);
    }

    // Up to `limit` frames for the application, oldest first.
    method Poll(limit: nat) returns (frames: seq<Envelope>)
      modifies this`inbox
      ensures frames + inbox == old(inbox)
      ensures |frames| == if limit < |old(inbox)| then limit else |old(inbox)|
    {
      frames := [];
      while |frames| < limit && inbox != []
        invariant frames + inbox == old(inbox) && |frames| <= limit
        decreases |inbox|
      {
        frames := frames + [inbox[0]];
        inbox := inbox[1..];
      }
    }
  }
}
