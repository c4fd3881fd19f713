/** The client end of rfu-tunnel.v2 (switchtrade/tunnel_client_v2.py). */
module TunnelClients {
  import opened Common
  import opened Bytes
  import opened Envelopes
  import opened SequenceGates
  import opened RelaySessions

  const PUMP_LIMIT := 8

  datatype Pending = Pending(kind: Kind, payload: seq<Byte>, flags: int)

  datatype Config = Config(attempt: Text, seat: Seat, expected: Option<Digest>, capacity: nat)

  // The proof of both directions: the locals of the current session and the readiness events.
  datatype Handshake = Handshake(
    gate: Gate, challenge: Option<seq<Byte>>, returned: bool, answered: bool,
    peerReady: bool, proven: bool, proofGeneration: nat)

  // What has reached the application, and in which proof generation it last sent what.
  datatype Exchange = Exchange(received: Option<Digest>, inbox: seq<Envelope>, advertisedIn: nat, sideReadyIn: nat)

  // The state of a client as a value.
  datatype Client = Client(
    cfg: Config, epoch: int, sequence: nat, hs: Handshake, app: Exchange, outbox: seq<Pending>,
    authenticated: bool, connectionGeneration: nat, stopped: bool)

  function NewClient(attempt: Text, seat: Seat, expected: Option<Digest>, capacity: nat): Client {
    Client(Config(attempt, seat, expected, capacity), 0, 0,
           Handshake(NewGate(attempt, seat.Peer()), None, false, false, false, false, 0),
           Exchange(None, [], 0, 0), [], false, 0, false)
  }

  // Why a connection ends: a contract failure stops the client for good, anything else makes it
  // connect afresh.
  datatype End = Running | Reconnecting | Fatal(code: TunnelError)

  // queue.Queue(maxsize=capacity): no bound when the capacity is zero.
  predicate Full(length: nat, capacity: nat) {
    0 < capacity <= length
  }

  datatype Reaction = Reaction(client: Client, sent: seq<Envelope>, end: End)

  function NextFrame(c: Client, kind: Kind, payload: seq<Byte>, flags: int): Envelope {
    Envelope(c.cfg.attempt, c.cfg.seat, c.epoch, c.sequence, kind, payload, flags)
  }

  // One frame; encoding it may fail, and then the sequence number is not used up.
  function Send(c: Client, kind: Kind, payload: seq<Byte>, flags: int): (r: Reaction)
  {
    var e := NextFrame(c, kind, payload, flags);
    match EncodeError(e)
    case Some(code) => Reaction(c, [], Fatal(code))
    case None => Reaction(c.(sequence := c.sequence + 1), [e], Running)
  }

  // A new connection under a fresh epoch: empty queues, no readiness, then PEER_READY.
  function Open(c: Client, epoch: int): (r: Reaction)
  {
    Send(Opening(c, epoch), PeerReady, [], 0)
  }

  function Opening(c: Client, epoch: int): Client {
    c.(epoch := epoch, sequence := 0, outbox := [], authenticated := true,
       connectionGeneration := c.connectionGeneration + 1, app := c.app.(inbox := []),
       hs := Unproven(c.hs).(gate := NewGate(c.cfg.attempt, c.cfg.seat.Peer())))
  }

  function Unproven(h: Handshake): Handshake {
    h.(challenge := None, returned := false, answered := false, peerReady := false, proven := false)
  }

  function Close(c: Client, end: End): (d: Client)
  {
    c.(authenticated := false, hs := c.hs.(peerReady := false, proven := false), stopped := c.stopped || end.Fatal?)
  }

  // Delivery to the application; a full inbox ends the connection.
  function Deliver(c: Client, e: Envelope): (r: Reaction)
  {
    if Full(|c.app.inbox|, c.cfg.capacity) then Reaction(c, [], Reconnecting)
    else Reaction(c.(app := c.app.(inbox := c.app.inbox + [e])), [], Running)
  }

  function Prove(h: Handshake): (p: Handshake)
  {
    if h.returned && h.answered && !h.proven then h.(proven := true, proofGeneration := h.proofGeneration + 1)
    else h
  }

  // The peer has announced an epoch.  Seeing a second epoch on one connection restarts this
  // side under the epoch `spare`; either way a fresh challenge goes out.
  function OnPeerReady(c: Client, prior: Option<int>, e: Envelope, nonce: seq<Byte>, spare: int): (r: Reaction)
  {
    var first := if prior.Some? && prior != Some(e.epoch) then Restart(c, spare) else Reaction(c, [], Running);
    if first.end != Running then first
    else
      var d := first.client;
      var probe := Send(d.(hs := d.hs.(peerReady := true, challenge := Some(nonce))), ProbeChallenge, nonce, 0);
      Reaction(probe.client, first.sent + probe.sent, probe.end)
  }

  function Restart(c: Client, spare: int): (r: Reaction)
  {
    Send(c.(epoch := spare, sequence := 0, hs := Unproven(c.hs)), PeerReady, [], 0)
  }

  function OnAdvertisement(c: Client, hash: seq<Byte> -> Digest, e: Envelope): (r: Reaction)
  {
    var digest := hash(e.payload);
    if !c.hs.proven then Reaction(c, [], Fatal(AdvertisementEarly))
    else if c.cfg.expected.Some? && c.cfg.expected != Some(digest) then
      Reaction(c, [], Fatal(AdvertisementHashMismatch))
    else if c.app.received.Some? then
      if c.app.received != Some(digest) then Reaction(c, [], Fatal(AdvertisementChanged))
      else Reaction(c, [], Running)
    else Deliver(c.(app := c.app.(received := Some(digest))), e)
  }

  function OnKind(c: Client, hash: seq<Byte> -> Digest, prior: Option<int>, e: Envelope,
                  nonce: seq<Byte>, spare: int): (r: Reaction)
  {
    match e.kind
    case PeerReady => OnPeerReady(c, prior, e, nonce, spare)
    case ProbeChallenge =>
      var answer := Send(c, ProbeResponse, e.payload, 0);
      if answer.end != Running then answer else answer.(client := Answer(answer.client))
    case ProbeResponse =>
      if c.hs.challenge != Some(e.payload) then Reaction(c, [], Fatal(ProbeMismatch))
      else Reaction(c.(hs := c.hs.(returned := true)), [], Running)
    case Advertisement => OnAdvertisement(c, hash, e)
    case PeerClose => Reaction(c, [], Reconnecting)
    case SideReady => Deliver(c, e)
    case Rfu => Deliver(c, e)
  }

  function Answer(c: Client): Client {
    c.(hs := c.hs.(answered := true))
  }

  // One frame from the relay.
  function Receive(c: Client, hash: seq<Byte> -> Digest, e: Envelope, nonce: seq<Byte>, spare: int): (r: Reaction)
  {
    match AcceptFrame(c.hs.gate, e)
    case Err(code) => Reaction(c, [], Fatal(code))
    case Ok(g) =>
      var r := OnKind(Gated(c, g), hash, c.hs.gate.epoch, e, nonce, spare);
      if r.end == Running then r.(client := r.client.(hs := Prove(r.client.hs))) else r
  }

  function Gated(c: Client, g: Gate): Client {
    c.(hs := c.hs.(gate := g))
  }

  function SendFirst(c: Client): (r: Reaction)
    requires c.outbox != []
  {
    Send(c.(outbox := c.outbox[1..]), c.outbox[0].kind, c.outbox[0].payload, c.outbox[0].flags)
  }

  // Sends up to `budget` queued frames in order.
  function Pump(c: Client, budget: nat): (r: Reaction)
    decreases budget
  {
    if budget == 0 || c.outbox == [] then Reaction(c, [], Running)
    else
      var first := SendFirst(c);
      if first.end != Running then first
      else
        var rest := Pump(first.client, budget - 1);
        Reaction(rest.client, first.sent + rest.sent, rest.end)
  }

  datatype QueueError = NotProven | AlreadySent | BadPayload | OutboxFull

  function Put(c: Client, kind: Kind, payload: seq<Byte>, flags: int): (r: Result<Client, QueueError>)
  {
    if |payload| > MAX_PAYLOAD_BYTES then Err(BadPayload)
    else if Full(|c.outbox|, c.cfg.capacity) then Err(OutboxFull)
    else Ok(c.(outbox := c.outbox + [Pending(kind, payload, flags)]))
  }

  function Advertise(c: Client, payload: seq<Byte>): (r: Result<Client, QueueError>)
  {
    if !c.hs.proven then Err(NotProven)
    else if c.app.advertisedIn == c.hs.proofGeneration then Err(AlreadySent)
    else match Put(c, Advertisement, payload, 0)
      case Err(error) => Err(error)
      case Ok(d) => Ok(d.(app := d.app.(advertisedIn := d.hs.proofGeneration)))
  }

  function SendSideReady(c: Client, payload: seq<Byte>): (r: Result<Client, QueueError>)
  {
    if !c.hs.proven then Err(NotProven)
    else if c.app.sideReadyIn == c.hs.proofGeneration then Err(AlreadySent)
    else match Put(c, SideReady, payload, 0)
      case Err(error) => Err(error)
      case Ok(d) => Ok(d.(app := d.app.(sideReadyIn := d.hs.proofGeneration)))
  }

  function SendRfu(c: Client, payload: seq<Byte>, flags: int): (r: Result<Client, QueueError>)
  {
    if !c.hs.proven then Err(NotProven)
    else if payload == [] || |payload| > MAX_RFU_PAYLOAD_BYTES || !(0 <= flags <= 0xFF) then Err(BadPayload)
    else Put(c, Rfu, payload, flags)
  }

  // What reading a frame does to a client whose gate accepts it as the first of a connection.
  lemma ReceivesFirst(c: Client, hash: seq<Byte> -> Digest, e: Envelope, nonce: seq<Byte>, spare: int)
    requires AcceptFrame(c.hs.gate, e).Ok? && c.hs.gate.epoch == None && e.kind == PeerReady
    requires !c.hs.returned && !c.hs.answered
    ensures Receive(c, hash, e, nonce, spare) ==
            Send(Challenging(c, AcceptFrame(c.hs.gate, e).value, nonce), ProbeChallenge, nonce, 0)
  {
    var probe := Send(Challenging(c, AcceptFrame(c.hs.gate, e).value, nonce), ProbeChallenge, nonce, 0);
    assert [] + probe.sent == probe.sent;
  }

  function Challenging(c: Client, g: Gate, nonce: seq<Byte>): Client {
    c.(hs := c.hs.(gate := g, peerReady := true, challenge := Some(nonce)))
  }

  lemma ReceivesChallenge(c: Client, hash: seq<Byte> -> Digest, e: Envelope, nonce: seq<Byte>, spare: int)
    requires AcceptFrame(c.hs.gate, e).Ok? && e.kind == ProbeChallenge
    ensures var answer := Send(Gated(c, AcceptFrame(c.hs.gate, e).value), ProbeResponse, e.payload, 0);
            var r := Receive(c, hash, e, nonce, spare);
            && r.sent == answer.sent && r.end == answer.end
            && r.client.cfg == c.cfg && r.client.outbox == c.outbox
            && (r.end == Running ==>
                  r.client == answer.client.(hs := Prove(answer.client.hs.(answered := true))))
  {
  }

  // The parts of a client that the stream it sends depends on.
  predicate SameStream(c: Client, d: Client) {
    && d.cfg == c.cfg && d.hs.gate == c.hs.gate && d.epoch == c.epoch
    && d.sequence == c.sequence && d.hs.challenge == c.hs.challenge && d.outbox == c.outbox
  }

  lemma AdvertisementIsQuiet(c: Client, hash: seq<Byte> -> Digest, e: Envelope)
    ensures var r := OnAdvertisement(c, hash, e);
            && r.sent == [] && SameStream(c, r.client) && r.client.hs == c.hs
  {
  }

  lemma OtherKinds(c: Client, hash: seq<Byte> -> Digest, prior: Option<int>, e: Envelope, nonce: seq<Byte>, spare: int)
    requires e.kind != ProbeChallenge && e.kind != PeerReady
    ensures var r := OnKind(c, hash, prior, e, nonce, spare);
            && r.sent == [] && SameStream(c, r.client)
            && r.client.hs.answered == c.hs.answered && r.client.hs.proven == c.hs.proven
            && (r.end == Running ==> r.client.hs.returned == (c.hs.returned || e.kind == ProbeResponse))
            && (r.end == Running && e.kind == ProbeResponse ==> c.hs.challenge == Some(e.payload))
  {
    match e.kind
    case Advertisement => AdvertisementIsQuiet(c, hash, e);
    case _ =>
  }

  // Any other frame sends nothing and touches neither the stream nor the challenge of a client.
  lemma ReceivesOther(c: Client, hash: seq<Byte> -> Digest, e: Envelope, nonce: seq<Byte>, spare: int)
    requires AcceptFrame(c.hs.gate, e).Ok? && e.kind != ProbeChallenge && e.kind != PeerReady
    ensures var r := Receive(c, hash, e, nonce, spare);
            && r.sent == [] && SameStream(Gated(c, AcceptFrame(c.hs.gate, e).value), r.client)
            && (r.end == Running ==>
                  && r.client.hs.answered == c.hs.answered
                  && r.client.hs.returned == (c.hs.returned || e.kind == ProbeResponse)
                  && r.client.hs.proven == (c.hs.proven || (r.client.hs.returned && r.client.hs.answered))
                  && (e.kind == ProbeResponse ==> c.hs.challenge == Some(e.payload)))
  {
    OtherKinds(Gated(c, AcceptFrame(c.hs.gate, e).value), hash, c.hs.gate.epoch, e, nonce, spare);
  }
}
