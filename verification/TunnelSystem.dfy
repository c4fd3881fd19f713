/**
 The relay session together with its two clients.  A connection is a pair of ordered channels,
 one towards the relay and one towards the client; either end may stop reading its channel at
 any point.
 */
module TunnelSystem {
  import opened Common
  import opened Bytes
  import opened Envelopes
  import opened SequenceGates
  import opened RelaySessions
  import opened TunnelClients

  // One connection.  `sent` and `received` are what the client has sent and what the relay has
  // delivered, `taken` and `read` how much of each the other end has consumed.  `broken` records
  // a failed send to the socket, `nonce` the challenge the client drew on it, and `source` the
  // connection of the peer whose frames arrive on it.
  datatype Wire = Wire(
    seat: Seat, epoch: int, sent: seq<Envelope>, taken: nat, received: seq<Envelope>, read: nat,
    broken: bool, nonce: Option<seq<Byte>>, source: Option<Conn>)

  datatype World = World(
    relay: Session, clientA: Client, clientB: Client,
    connA: Option<Conn>, connB: Option<Conn>, wires: seq<Wire>)
  {
    function ClientOf(seat: Seat): Client {
      if seat.MemberA? then clientA else clientB
    }

    function ConnOf(seat: Seat): Option<Conn> {
      if seat.MemberA? then connA else connB
    }

    function WithClient(seat: Seat, c: Client, conn: Option<Conn>): (w: World)
      ensures w.ClientOf(seat) == c && w.ConnOf(seat) == conn
      ensures w.ClientOf(seat.Peer()) == ClientOf(seat.Peer()) && w.ConnOf(seat.Peer()) == ConnOf(seat.Peer())
      ensures w.relay == relay && w.wires == wires
    {
      if seat.MemberA? then this.(clientA := c, connA := conn) else this.(clientB := c, connB := conn)
    }
  }

  datatype Op =
    | OpOpen(seat: Seat, epoch: int, replayed: bool)
    | OpTake(seat: Seat, arrives: bool)
    | OpLose(seat: Seat, arrives: bool)
    | OpRead(seat: Seat, nonce: seq<Byte>, spare: int)
    | OpPump(seat: Seat, budget: nat)
    | OpPut(seat: Seat, kind: Kind, payload: seq<Byte>, flags: int)
    | OpPoll(seat: Seat, limit: nat)
    | OpAbandon(seat: Seat)
    | OpShut

  function NewWorld(adm: Admission, expectedA: Option<Digest>, expectedB: Option<Digest>, capacity: nat): World {
    World(NewSession(adm.attempt),
          NewClient(adm.attempt, MemberA, expectedA, capacity), NewClient(adm.attempt, MemberB, expectedB, capacity),
          None, None, [])
  }

  predicate FreshEpoch(w: World, seat: Seat, epoch: int) {
    0 <= epoch <= MAX_UINT64
    && forall c :: 0 <= c < |w.wires| && w.wires[c].seat == seat ==> w.wires[c].epoch != epoch
  }

  predicate FreshNonce(w: World, nonce: seq<Byte>) {
    |nonce| == PROBE_BYTES
    && forall c :: 0 <= c < |w.wires| ==> w.wires[c].nonce != Some(nonce)
  }

  // The socket that holds a seat at the relay, when it is one of the connections.
  predicate Held(w: World, seat: Seat) {
    w.relay.At(seat).peer.Some? && w.relay.At(seat).peer.value < |w.wires|
  }

  predicate Connected(w: World, seat: Seat) {
    w.ConnOf(seat).Some? && w.ConnOf(seat).value < |w.wires|
  }

  // The hypotheses on a step: random epochs and nonces do not repeat, and a socket is not lost
  // before the relay has processed its PEER_READY.
  predicate Allowed(w: World, op: Op) {
    match op
    case OpOpen(seat, epoch, _) => FreshEpoch(w, seat, epoch)
    case OpRead(_, nonce, _) => FreshNonce(w, nonce)
    case OpLose(seat, _) => Held(w, seat) ==> w.wires[w.relay.At(seat).peer.value].taken >= 1
    case _ => true
  }

  // A frame is written to a socket unless an earlier write to it has failed.
  function Written(z: Wire, e: Envelope, from: Conn, arrives: bool): Wire {
    if z.broken || !arrives then z.(broken := true)
    else z.(received := z.received + [e], source := Some(from))
  }

  function DeliverTo(wires: seq<Wire>, to: Conn, e: Envelope, from: Conn, arrives: bool): (r: seq<Wire>)
    requires to < |wires|
    ensures |r| == |wires|
    ensures forall c :: 0 <= c < |wires| && c != to ==> r[c] == wires[c]
  {
    wires[to := Written(wires[to], e, from, arrives)]
  }

  // A client connects to a free seat.
  function OpenStep(w: World, seat: Seat, epoch: int, replayed: bool): (r: World)
  {
    var conn := |w.wires|;
    var seated := Connect(w.relay, seat, conn, replayed);
    if w.ConnOf(seat).Some? || w.ClientOf(seat).stopped || !w.relay.live || seated.None? then w
    else
      var start := Open(w.ClientOf(seat), epoch);
      var peer := w.relay.At(seat.Peer());
      var replay := if replayed then peer.retained else [];
      var wire := Wire(seat, epoch, start.sent, 0, replay, 0, false, None, if replay == [] then None else peer.peer);
      w.(relay := seated.value, wires := w.wires + [wire])
       .WithClient(seat, start.client, Some(conn))
  }

  // The relay has a frame to take from the socket that holds the seat.
  predicate Waiting(wires: seq<Wire>, s: Session, seat: Seat) {
    && s.At(seat).peer.Some? && s.At(seat).peer.value < |wires|
    && wires[s.At(seat).peer.value].taken < |wires[s.At(seat).peer.value].sent|
  }

  // The relay takes that frame and forwards it if the other seat is held; a refused frame takes
  // the session down.
  function Taken(wires: seq<Wire>, s: Session, adm: Admission, seat: Seat, arrives: bool): (r: (Session, seq<Wire>))
    requires Waiting(wires, s, seat)
  {
    var conn := s.At(seat).peer.value;
    var x := wires[conn];
    var e := x.sent[x.taken];
    var (relay, error) := Process(s, adm, seat, e);
    var moved := wires[conn := x.(taken := x.taken + 1)];
    if error.Some? then (Teardown(Drop(relay, seat, conn, true)), moved)
    else
      var to := relay.At(seat.Peer()).peer;
      (relay, if to.Some? && to.value < |moved| then DeliverTo(moved, to.value, e, conn, arrives) else moved)
  }

  // The socket that holds a seat is lost; the other one is told, unless writing to it fails.
  function Lost(wires: seq<Wire>, s: Session, seat: Seat, arrives: bool): (r: (Session, seq<Wire>))
    requires s.At(seat).peer.Some?
  {
    var conn := s.At(seat).peer.value;
    var told := Closing(s, seat, conn, false);
    (Drop(s, seat, conn, false),
     if told.Some? && told.value.0 < |wires| then DeliverTo(wires, told.value.0, told.value.1, conn, arrives)
       else wires)
  }

  function TakeStep(w: World, adm: Admission, seat: Seat, arrives: bool): (r: World)
  {
    if !Waiting(w.wires, w.relay, seat) then w
    else
      var (relay, wires) := Taken(w.wires, w.relay, adm, seat, arrives);
      w.(relay := relay, wires := wires)
  }

  function LoseStep(w: World, seat: Seat, arrives: bool): (r: World)
  {
    if w.relay.At(seat).peer.None? then w
    else
      var (relay, wires) := Lost(w.wires, w.relay, seat, arrives);
      w.(relay := relay, wires := wires)
  }

  // The client of a seat consumes the next frame delivered on its connection.
  function ReadStep(w: World, adm: Admission, seat: Seat, nonce: seq<Byte>, spare: int): (r: World)
  {
    if !Connected(w, seat) || w.wires[w.ConnOf(seat).value].read >= |w.wires[w.ConnOf(seat).value].received| then w
    else
      var conn := w.ConnOf(seat).value;
      var x := w.wires[conn];
      var e := x.received[x.read];
      var r := Receive(w.ClientOf(seat), adm.hash, e, nonce, spare);
      var drawn := if e.kind == PeerReady && r.end == Running then Some(nonce) else x.nonce;
      var y := x.(read := x.read + 1, sent := x.sent + r.sent, nonce := drawn);
      Settle(w.(wires := w.wires[conn := y]), seat, conn, r)
  }

  // The session goes on, or its end clears the readiness of the client.
  function Settle(w: World, seat: Seat, conn: Conn, r: Reaction): (s: World)
  {
    if r.end == Running then w.WithClient(seat, r.client, Some(conn))
    else w.WithClient(seat, Close(r.client, r.end), None)
  }

  function PumpStep(w: World, seat: Seat, budget: nat): (r: World)
  {
    if !Connected(w, seat) then w
    else
      var conn := w.ConnOf(seat).value;
      var x := w.wires[conn];
      var r := Pump(w.ClientOf(seat), if budget < PUMP_LIMIT then budget else PUMP_LIMIT);
      Settle(w.(wires := w.wires[conn := x.(sent := x.sent + r.sent)]), seat, conn, r)
  }

  function Queued(c: Client, kind: Kind, payload: seq<Byte>, flags: int): (r: Result<Client, QueueError>)
  {
    match kind
    case Advertisement => Advertise(c, payload)
    case SideReady => SendSideReady(c, payload)
    case _ => SendRfu(c, payload, flags)
  }

  // The application queues a frame; a refusal changes nothing.
  function PutStep(w: World, seat: Seat, kind: Kind, payload: seq<Byte>, flags: int): (r: World)
  {
    match Queued(w.ClientOf(seat), kind, payload, flags)
    case Ok(d) => w.WithClient(seat, d, w.ConnOf(seat))
    case Err(_) => w
  }

  function PollStep(w: World, seat: Seat, limit: nat): (r: World)
  {
    var c := w.ClientOf(seat);
    var n := if limit < |c.app.inbox| then limit else |c.app.inbox|;
    w.WithClient(seat, c.(app := c.app.(inbox := c.app.inbox[n..])), w.ConnOf(seat))
  }

  function Step(w: World, adm: Admission, op: Op): (r: World)
  {
    match op
    case OpOpen(seat, epoch, replayed) => OpenStep(w, seat, epoch, replayed)
    case OpTake(seat, arrives) => TakeStep(w, adm, seat, arrives)
    case OpLose(seat, arrives) => LoseStep(w, seat, arrives)
    case OpRead(seat, nonce, spare) => ReadStep(w, adm, seat, nonce, spare)
    case OpPump(seat, budget) => PumpStep(w, seat, budget)
    case OpPut(seat, kind, payload, flags) => PutStep(w, seat, kind, payload, flags)
    case OpPoll(seat, limit) => PollStep(w, seat, limit)
    case OpAbandon(seat) => w.WithClient(seat, Close(w.ClientOf(seat), Reconnecting), None)
    case OpShut => w.(relay := Teardown(w.relay))
  }

  // ---- the invariant ----------------------------------------------------------------------

  // Facts about one connection that do not look at the others.
  ghost predicate SelfOk(attempt: Text, x: Wire) {
    && IsRun(attempt, x.seat, x.sent) && x.sent[0].epoch == x.epoch
    && (forall i :: 0 <= i < |x.sent| ==> x.sent[i].kind != PeerClose)
    && x.taken <= |x.sent| && x.read <= |x.received|
    && (x.received != [] ==> IsRun(attempt, x.seat.Peer(), x.received))
    && (x.read == 0 ==> |x.sent| == 1 && x.nonce == None)
    && (forall i :: 0 <= i < |x.sent| && x.sent[i].kind == ProbeChallenge ==> x.nonce == Some(x.sent[i].payload))
    && (forall i :: 0 <= i < |x.sent| && x.sent[i].kind == ProbeResponse ==> Challenged(x, x.sent[i].payload))
  }

  // The client has consumed a challenge with this payload.
  ghost predicate Challenged(x: Wire, payload: seq<Byte>) {
    exists k :: 0 <= k < x.read && k < |x.received|
                && x.received[k].kind == ProbeChallenge && x.received[k].payload == payload
  }

  // Everything delivered on a connection but the final PEER_CLOSE is a prefix of what the relay
  // took from one connection of the peer.
  ghost predicate Sourced(wires: seq<Wire>, x: Wire) {
    x.received != [] ==>
      && x.source.Some? && x.source.value < |wires|
      && var y := wires[x.source.value];
      && y.seat == x.seat.Peer() && y.epoch == x.received[0].epoch
      && forall i :: 0 <= i < |x.received| && x.received[i].kind != PeerClose ==>
           i < y.taken && i < |y.sent| && x.received[i] == y.sent[i]
  }

  ghost predicate WiresOk(attempt: Text, wires: seq<Wire>) {
    && (forall c :: 0 <= c < |wires| ==> SelfOk(attempt, wires[c]) && Sourced(wires, wires[c]))
    && EpochsDistinct(wires)
    && NoncesDistinct(wires)
  }

  ghost predicate EpochsDistinct(wires: seq<Wire>) {
    forall c, d :: 0 <= c < d < |wires| && wires[c].seat == wires[d].seat ==> wires[c].epoch != wires[d].epoch
  }

  ghost predicate NoncesDistinct(wires: seq<Wire>) {
    forall c, d :: 0 <= c < d < |wires| && wires[c].nonce.Some? ==> wires[c].nonce != wires[d].nonce
  }

  // The epochs a gate has seen are epochs of connections the relay has taken a frame from.
  ghost predicate Seen(wires: seq<Wire>, seat: Seat, epoch: int) {
    exists c :: 0 <= c < |wires| && wires[c].seat == seat && wires[c].epoch == epoch && wires[c].taken >= 1
  }

  ghost predicate GateOk(attempt: Text, wires: seq<Wire>, seat: Seat, g: Gate) {
    && g.attempt == attempt && g.seat == seat && Sound(g)
    && (g.epoch.Some? ==> Seen(wires, seat, g.epoch.value))
    && (forall e :: e in g.retired ==> Seen(wires, seat, e))
  }

  // The gate of a held seat stands where the relay has read its connection to.
  ghost predicate SideOk(attempt: Text, wires: seq<Wire>, seat: Seat, side: Side) {
    && GateOk(attempt, wires, seat, side.gate)
    && (side.peer.None? ==> side.retained == [])
    && (side.peer.Some? ==>
          && side.peer.value < |wires|
          && var x := wires[side.peer.value];
          && x.seat == seat
          && (x.taken == 0 ==> side.retained == [])
          && (x.taken >= 1 ==> side.gate.epoch == Some(x.epoch) && side.gate.next == x.taken))
  }

  // What a held connection has received of the other one, of which the relay took `n` frames.
  ghost predicate Follows(z: Wire, conn: Conn, x: Wire, n: nat) {
    && z.seat == x.seat.Peer()
    && (z.received != [] ==> z.source == Some(conn))
    && |z.received| <= n <= |x.sent|
    && (!z.broken ==> z.received == x.sent[..n])
  }

  // The connection of a held seat has received exactly what the relay took from the other one.
  ghost predicate PairOk(wires: seq<Wire>, mine: Side, other: Side)
    requires mine.peer.Some? ==> mine.peer.value < |wires|
    requires other.peer.Some? ==> other.peer.value < |wires|
  {
    mine.peer.Some? ==>
      var x := wires[mine.peer.value];
      if other.peer.Some? then
        Follows(x, other.peer.value, wires[other.peer.value], wires[other.peer.value].taken)
      else
        && x.received == []
        && x.taken <= |x.sent| && mine.retained == x.sent[..x.taken]
  }

  ghost predicate SidesOk(attempt: Text, wires: seq<Wire>, seat: Seat, mine: Side, other: Side) {
    && SideOk(attempt, wires, seat, mine)
    && SideOk(attempt, wires, seat.Peer(), other)
    && PairOk(wires, mine, other)
    && PairOk(wires, other, mine)
  }

  ghost predicate RelayOk(attempt: Text, wires: seq<Wire>, relay: Session) {
    && SidesOk(attempt, wires, MemberA, relay.a, relay.b)
    && (relay.live || (relay.a.peer == None && relay.b.peer == None))
  }

  predicate DataKind(kind: Kind) {
    kind == Advertisement || kind == SideReady || kind == Rfu
  }

  // A client agrees with the connection it is on.
  ghost predicate Agrees(attempt: Text, seat: Seat, c: Client, x: Wire) {
    && x.seat == seat && c.epoch == x.epoch && c.sequence == |x.sent|
    && c.hs.challenge == x.nonce && (x.read > 0 ==> x.nonce.Some?)
    && (x.read == 0 ==> c.hs.gate == NewGate(attempt, seat.Peer()))
    && (0 < x.read <= |x.received| ==>
          c.hs.gate == Gate(attempt, seat.Peer(), Some(x.received[0].epoch), x.read, {}))
    && (c.hs.returned ==> Returned(x))
    && (c.hs.answered ==> Answered(x))
    && (c.hs.proven ==> c.hs.returned && c.hs.answered)
    && (!c.hs.proven ==> c.outbox == [] && forall i :: 0 <= i < |x.sent| ==> !DataKind(x.sent[i].kind))
  }

  ghost predicate ClientOk(attempt: Text, wires: seq<Wire>, seat: Seat, c: Client, conn: Option<Conn>) {
    && c.cfg.attempt == attempt && c.cfg.seat == seat
    && (conn.None? ==> !c.hs.proven)
    && (forall i :: 0 <= i < |c.outbox| ==> DataKind(c.outbox[i].kind))
    && (conn.Some? ==> conn.value < |wires| && Agrees(attempt, seat, c, wires[conn.value]))
  }

  // The client has consumed a response to its own challenge.
  ghost predicate Returned(x: Wire) {
    exists k :: 0 <= k < x.read && k < |x.received| && x.received[k].kind == ProbeResponse
                && x.nonce == Some(x.received[k].payload)
  }

  // The client has consumed a challenge and sent the response to it.
  ghost predicate Answered(x: Wire) {
    exists k, i :: 0 <= k < x.read && k < |x.received| && 0 <= i < |x.sent|
                   && x.received[k].kind == ProbeChallenge && x.sent[i].kind == ProbeResponse
                   && x.sent[i].payload == x.received[k].payload
  }

  ghost predicate Inv(adm: Admission, w: World) {
    && AttemptBytes(adm.attempt).Ok?
    && WiresOk(adm.attempt, w.wires)
    && RelayOk(adm.attempt, w.wires, w.relay)
    && ClientOk(adm.attempt, w.wires, MemberA, w.clientA, w.connA)
    && ClientOk(adm.attempt, w.wires, MemberB, w.clientB, w.connB)
  }

  // ---- wires ------------------------------------------------------------------------------

  // The connection x has moved on to y.
  ghost predicate Grows(x: Wire, y: Wire) {
    && x.seat == y.seat && x.epoch == y.epoch && x.sent <= y.sent && x.taken <= y.taken
    && (x.nonce.Some? ==> x.nonce == y.nonce)
  }

  lemma SourcedMonotone(wires: seq<Wire>, wires': seq<Wire>, x: Wire)
    requires Sourced(wires, x) && |wires| <= |wires'|
    requires forall c :: 0 <= c < |wires| ==> Grows(wires[c], wires'[c])
    ensures Sourced(wires', x)
  {
    if x.received != [] {
      assert Grows(wires[x.source.value], wires'[x.source.value]);
    }
  }

  lemma SeenMonotone(wires: seq<Wire>, wires': seq<Wire>, seat: Seat, epoch: int)
    requires Seen(wires, seat, epoch) && |wires| <= |wires'|
    requires forall c :: 0 <= c < |wires| ==> Grows(wires[c], wires'[c])
    ensures Seen(wires', seat, epoch)
  {
    var c :| 0 <= c < |wires| && wires[c].seat == seat && wires[c].epoch == epoch && wires[c].taken >= 1;
    assert Grows(wires[c], wires'[c]);
  }

  lemma GateOkMonotone(attempt: Text, wires: seq<Wire>, wires': seq<Wire>, seat: Seat, g: Gate)
    requires GateOk(attempt, wires, seat, g) && |wires| <= |wires'|
    requires forall c :: 0 <= c < |wires| ==> Grows(wires[c], wires'[c])
    ensures GateOk(attempt, wires', seat, g)
  {
    if g.epoch.Some? {
      SeenMonotone(wires, wires', seat, g.epoch.value);
    }
    forall e | e in g.retired
      ensures Seen(wires', seat, e)
    {
      SeenMonotone(wires, wires', seat, e);
    }
  }

  lemma UpdateDistinct(wires: seq<Wire>, c: nat, y: Wire)
    requires EpochsDistinct(wires) && NoncesDistinct(wires) && c < |wires|
    requires wires[c].seat == y.seat && wires[c].epoch == y.epoch
    requires y.nonce == wires[c].nonce || forall d :: 0 <= d < |wires| ==> wires[d].nonce != y.nonce
    ensures EpochsDistinct(wires[c := y]) && NoncesDistinct(wires[c := y])
  {
  }

  lemma AllSourced(wires: seq<Wire>, wires': seq<Wire>)
    requires |wires| <= |wires'|
    requires forall c :: 0 <= c < |wires| ==> Grows(wires[c], wires'[c])
    requires forall c :: 0 <= c < |wires'| ==> Sourced(wires, wires'[c])
    ensures forall c :: 0 <= c < |wires'| ==> Sourced(wires', wires'[c])
  {
    forall c | 0 <= c < |wires'|
      ensures Sourced(wires', wires'[c])
    {
      SourcedMonotone(wires, wires', wires'[c]);
    }
  }

  // Replacing one connection by a later state of it.
  lemma UpdateWire(attempt: Text, wires: seq<Wire>, c: nat, y: Wire)
    requires WiresOk(attempt, wires) && c < |wires|
    requires Grows(wires[c], y) && SelfOk(attempt, y) && Sourced(wires, y)
    requires y.nonce == wires[c].nonce || forall d :: 0 <= d < |wires| ==> wires[d].nonce != y.nonce
    ensures WiresOk(attempt, wires[c := y])
    ensures forall d :: 0 <= d < |wires| ==> Grows(wires[d], wires[c := y][d])
  {
    hide SelfOk;
    UpdateDistinct(wires, c, y);
    AllSourced(wires, wires[c := y]);
  }

  lemma AppendWire(attempt: Text, wires: seq<Wire>, y: Wire)
    requires WiresOk(attempt, wires)
    requires SelfOk(attempt, y) && Sourced(wires, y) && y.nonce == None
    requires forall c :: 0 <= c < |wires| && wires[c].seat == y.seat ==> wires[c].epoch != y.epoch
    ensures WiresOk(attempt, wires + [y])
    ensures forall d :: 0 <= d < |wires| ==> Grows(wires[d], (wires + [y])[d])
  {
    AppendDistinct(wires, y);
    AllSourced(wires, wires + [y]);
  }

  lemma AppendDistinct(wires: seq<Wire>, y: Wire)
    requires EpochsDistinct(wires) && NoncesDistinct(wires) && y.nonce == None
    requires forall c :: 0 <= c < |wires| && wires[c].seat == y.seat ==> wires[c].epoch != y.epoch
    ensures EpochsDistinct(wires + [y]) && NoncesDistinct(wires + [y])
  {
  }

  // ---- runs -------------------------------------------------------------------------------

  lemma RunPrefix(attempt: Text, seat: Seat, run: seq<Envelope>, n: nat)
    requires IsRun(attempt, seat, run) && 0 < n <= |run|
    ensures IsRun(attempt, seat, run[..n])
  {
  }

  lemma RunExtends(attempt: Text, seat: Seat, run: seq<Envelope>, e: Envelope)
    requires IsRun(attempt, seat, run)
    ensures IsRun(attempt, seat, run + [e]) <==>
      e.attempt == attempt && e.seat == seat && e.epoch == run[0].epoch && e.sequence == |run| && e.kind != PeerReady
  {
    var more := run + [e];
    assert more[0] == run[0] && more[|run|] == e;
    assert forall i :: 0 <= i < |run| ==> more[i] == run[i];
  }

  // ---- the relay takes a frame ------------------------------------------------------------

  // A connection the relay has read nothing from has an epoch its gate has not seen.
  lemma UntakenUnseen(wires: seq<Wire>, conn: Conn)
    requires EpochsDistinct(wires) && conn < |wires| && wires[conn].taken == 0
    ensures !Seen(wires, wires[conn].seat, wires[conn].epoch)
  {
  }

  // The relay's gate accepts the next frame of the socket that holds the seat.
  lemma GateTakesNext(attempt: Text, wires: seq<Wire>, seat: Seat, side: Side)
    requires EpochsDistinct(wires) && SideOk(attempt, wires, seat, side) && side.peer.Some?
    requires SelfOk(attempt, wires[side.peer.value])
    requires wires[side.peer.value].taken < |wires[side.peer.value].sent|
    ensures var x := wires[side.peer.value];
            var r := AcceptFrame(side.gate, x.sent[x.taken]);
            && r.Ok?
            && r.value.attempt == attempt && r.value.seat == seat && Sound(r.value)
            && r.value.epoch == Some(x.epoch) && r.value.next == x.taken + 1
            && (r.value.epoch != side.gate.epoch <==> x.taken == 0)
            && (forall e :: e in r.value.retired ==> e in side.gate.retired || Some(e) == side.gate.epoch)
  {
    var x := wires[side.peer.value];
    var e := x.sent[x.taken];
    assert e.attempt == attempt && e.seat == seat && e.epoch == x.epoch && e.sequence == x.taken;
    if x.taken == 0 {
      UntakenUnseen(wires, side.peer.value);
      assert e.epoch !in side.gate.retired;
    }
  }

  lemma GateAfterTake(attempt: Text, wires: seq<Wire>, wires': seq<Wire>, seat: Seat, g: Gate, h: Gate, conn: Conn)
    requires GateOk(attempt, wires, seat, g) && |wires| <= |wires'|
    requires forall c :: 0 <= c < |wires| ==> Grows(wires[c], wires'[c])
    requires h.attempt == attempt && h.seat == seat && Sound(h)
    requires conn < |wires'| && wires'[conn].seat == seat && wires'[conn].taken >= 1
    requires h.epoch == Some(wires'[conn].epoch)
    requires forall e :: e in h.retired ==> e in g.retired || Some(e) == g.epoch
    ensures GateOk(attempt, wires', seat, h)
  {
    GateOkMonotone(attempt, wires, wires', seat, g);
    assert Seen(wires', seat, h.epoch.value);
  }

  lemma TakenSelf(attempt: Text, x: Wire)
    requires SelfOk(attempt, x) && x.taken < |x.sent|
    ensures SelfOk(attempt, x.(taken := x.taken + 1))
  {
    var y := x.(taken := x.taken + 1);
    forall i | 0 <= i < |y.sent| && y.sent[i].kind == ProbeResponse
      ensures Challenged(y, y.sent[i].payload)
    {
      assert Challenged(x, x.sent[i].payload);
    }
  }

  lemma TakenSourced(wires: seq<Wire>, x: Wire)
    requires Sourced(wires, x) && x.taken < |x.sent|
    ensures Sourced(wires, x.(taken := x.taken + 1)) && Grows(x, x.(taken := x.taken + 1))
  {
  }

  lemma TakeWire(attempt: Text, wires: seq<Wire>, conn: Conn)
    requires WiresOk(attempt, wires) && conn < |wires| && wires[conn].taken < |wires[conn].sent|
    ensures var moved := wires[conn := wires[conn].(taken := wires[conn].taken + 1)];
            WiresOk(attempt, moved) && forall d :: 0 <= d < |wires| ==> Grows(wires[d], moved[d])
  {
    hide SelfOk, Sourced, Grows;
    var x := wires[conn];
    var y := x.(taken := x.taken + 1);
    TakenSelf(attempt, x);
    TakenSourced(wires, x);
    UpdateWire(attempt, wires, conn, y);
  }

  // The relay forwards the frame it has just taken.
  lemma ForwardedWire(attempt: Text, wires: seq<Wire>, conn: Conn, z: Wire, arrives: bool)
    requires conn < |wires| && wires[conn].taken >= 1
    requires SelfOk(attempt, wires[conn]) && SelfOk(attempt, z) && Sourced(wires, z)
    requires Follows(z, conn, wires[conn], wires[conn].taken - 1)
    ensures var x := wires[conn];
            var z' := Written(z, x.sent[x.taken - 1], conn, arrives);
            SelfOk(attempt, z') && Sourced(wires, z') && Follows(z', conn, x, x.taken) && Grows(z, z')
  {
    var x := wires[conn];
    var z' := Written(z, x.sent[x.taken - 1], conn, arrives);
    if !z.broken && arrives {
      assert z'.received == x.sent[..x.taken];
      RunPrefix(attempt, x.seat, x.sent, x.taken);
    }
    DeliverySelfOk(attempt, z, z');
  }

  lemma Forwarded(attempt: Text, wires: seq<Wire>, conn: Conn, to: Conn, arrives: bool)
    requires WiresOk(attempt, wires) && conn < |wires| && to < |wires| && wires[conn].taken >= 1
    requires Follows(wires[to], conn, wires[conn], wires[conn].taken - 1)
    ensures var x := wires[conn];
            var wires' := DeliverTo(wires, to, x.sent[x.taken - 1], conn, arrives);
            && WiresOk(attempt, wires')
            && (forall d :: 0 <= d < |wires| ==> Grows(wires[d], wires'[d]))
            && Follows(wires'[to], conn, x, x.taken)
  {
    var x := wires[conn];
    ForwardedWire(attempt, wires, conn, wires[to], arrives);
    UpdateWire(attempt, wires, to, Written(wires[to], x.sent[x.taken - 1], conn, arrives));
  }

  // Delivering more frames does not disturb the other facts about a connection.
  lemma DeliverySelfOk(attempt: Text, z: Wire, z': Wire)
    requires SelfOk(attempt, z)
    requires z' == z.(received := z'.received, broken := z'.broken, source := z'.source)
    requires z.received <= z'.received && (z'.received != [] ==> IsRun(attempt, z.seat.Peer(), z'.received))
    ensures SelfOk(attempt, z')
  {
    forall i | 0 <= i < |z'.sent| && z'.sent[i].kind == ProbeResponse
      ensures Challenged(z', z'.sent[i].payload)
    {
      assert Challenged(z, z.sent[i].payload);
    }
  }

  // A client does not notice what the relay does with its connection, except for deliveries.
  ghost predicate SameForClient(x: Wire, y: Wire) {
    && x.seat == y.seat && x.epoch == y.epoch && x.sent == y.sent && x.read == y.read
    && x.nonce == y.nonce && x.received <= y.received
  }

  lemma ClientOkStable(attempt: Text, wires: seq<Wire>, wires': seq<Wire>, seat: Seat, c: Client, conn: Option<Conn>)
    requires WiresOk(attempt, wires) && ClientOk(attempt, wires, seat, c, conn) && |wires| <= |wires'|
    requires forall d :: 0 <= d < |wires| ==> SameForClient(wires[d], wires'[d])
    ensures ClientOk(attempt, wires', seat, c, conn)
  {
    if conn.Some? {
      var x, y := wires[conn.value], wires'[conn.value];
      assert SelfOk(attempt, x) && SameForClient(x, y);
      if c.hs.returned {
        assert Returned(x);
        assert Returned(y);
      }
      if c.hs.answered {
        assert Answered(x);
        assert Answered(y);
      }
    }
  }

  // The sides after a frame of `mine` has been taken and, if the other seat is held, forwarded.
  lemma TakeSides(attempt: Text, wires: seq<Wire>, wires': seq<Wire>, seat: Seat, mine: Side, mine': Side, other: Side)
    requires WiresOk(attempt, wires) && SidesOk(attempt, wires, seat, mine, other)
    requires mine.peer.Some? && wires[mine.peer.value].taken < |wires[mine.peer.value].sent|
    requires |wires'| == |wires| && forall d :: 0 <= d < |wires| ==> Grows(wires[d], wires'[d])
    requires var x := wires[mine.peer.value];
             var e := x.sent[x.taken];
             && wires'[mine.peer.value] == x.(taken := x.taken + 1)
             && AcceptFrame(mine.gate, e).Ok? && mine'.gate == AcceptFrame(mine.gate, e).value
             && mine'.peer == mine.peer
             && mine'.retained == (if mine.gate.epoch != mine'.gate.epoch then [] else mine.retained)
                                  + (if e.kind == PeerReady || e.kind == Advertisement then [e] else [])
             && (other.peer.Some? ==>
                   && Follows(wires'[other.peer.value], mine.peer.value, x, x.taken + 1)
                   && wires'[other.peer.value].sent == wires[other.peer.value].sent
                   && wires'[other.peer.value].taken == wires[other.peer.value].taken)
    ensures SidesOk(attempt, wires', seat, mine', other)
  {
    var conn := mine.peer.value;
    var x := wires[conn];
    assert SelfOk(attempt, x);
    GateTakesNext(attempt, wires, seat, mine);
    GateAfterTake(attempt, wires, wires', seat, mine.gate, mine'.gate, conn);
    GateOkMonotone(attempt, wires, wires', seat.Peer(), other.gate);
    if other.peer.None? {
      assert x.read == 0 && x.taken == 0 && x.sent[0].kind == PeerReady;
      assert mine'.retained == [x.sent[0]] == x.sent[..1];
    }
  }

  lemma RelaySides(attempt: Text, wires: seq<Wire>, relay: Session, seat: Seat)
    ensures RelayOk(attempt, wires, relay) <==>
      && SidesOk(attempt, wires, seat, relay.At(seat), relay.At(seat.Peer()))
      && (relay.live || (relay.At(seat).peer == None && relay.At(seat.Peer()).peer == None))
  {
  }

  lemma BothClientsStable(adm: Admission, w: World, w': World)
    requires Inv(adm, w) && |w.wires| <= |w'.wires|
    requires forall d :: 0 <= d < |w.wires| ==> SameForClient(w.wires[d], w'.wires[d])
    requires w'.clientA == w.clientA && w'.clientB == w.clientB && w'.connA == w.connA && w'.connB == w.connB
    ensures ClientOk(adm.attempt, w'.wires, MemberA, w'.clientA, w'.connA)
    ensures ClientOk(adm.attempt, w'.wires, MemberB, w'.clientB, w'.connB)
  {
    ClientOkStable(adm.attempt, w.wires, w'.wires, MemberA, w.clientA, w.connA);
    ClientOkStable(adm.attempt, w.wires, w'.wires, MemberB, w.clientB, w.connB);
  }

  // An empty relay has nothing to agree with but its gates.
  lemma VacantSides(attempt: Text, wires: seq<Wire>, relay: Session)
    requires GateOk(attempt, wires, MemberA, relay.a.gate) && GateOk(attempt, wires, MemberB, relay.b.gate)
    requires relay.a.peer == None && relay.b.peer == None && relay.a.retained == [] && relay.b.retained == []
    ensures RelayOk(attempt, wires, relay)
  {
  }

  // A frame that is refused takes the session down.
  lemma TakeFails(attempt: Text, wires: seq<Wire>, moved: seq<Wire>, s: Session, t: Session, seat: Seat)
    requires WiresOk(attempt, wires) && RelayOk(attempt, wires, s) && Waiting(wires, s, seat)
    requires var x := wires[s.At(seat).peer.value];
             && moved == wires[s.At(seat).peer.value := x.(taken := x.taken + 1)]
             && Took(s, t, seat, x.sent[x.taken], false)
    requires forall d :: 0 <= d < |wires| ==> Grows(wires[d], moved[d])
    ensures RelayOk(attempt, moved, Teardown(Drop(t, seat, s.At(seat).peer.value, true)))
  {
    var mine, other := s.At(seat), s.At(seat.Peer());
    var conn := mine.peer.value;
    RelaySides(attempt, wires, s, seat);
    assert SelfOk(attempt, wires[conn]);
    GateTakesNext(attempt, wires, seat, mine);
    GateAfterTake(attempt, wires, moved, seat, mine.gate, t.At(seat).gate, conn);
    GateOkMonotone(attempt, wires, moved, seat.Peer(), other.gate);
    var down := Teardown(Drop(t, seat, conn, true));
    assert down.At(seat).gate == t.At(seat).gate && down.At(seat.Peer()).gate == other.gate;
    VacantSides(attempt, moved, down);
  }

  // A frame that is accepted is forwarded to the other seat if that is held.
  lemma TakeSucceeds(attempt: Text, wires: seq<Wire>, moved: seq<Wire>, after: seq<Wire>,
                     s: Session, t: Session, seat: Seat, arrives: bool)
    requires WiresOk(attempt, wires) && RelayOk(attempt, wires, s) && Waiting(wires, s, seat)
    requires var x := wires[s.At(seat).peer.value];
             var to := s.At(seat.Peer()).peer;
             && moved == wires[s.At(seat).peer.value := x.(taken := x.taken + 1)]
             && Took(s, t, seat, x.sent[x.taken], true)
             && after == (if to.Some? && to.value < |moved|
                          then DeliverTo(moved, to.value, x.sent[x.taken], s.At(seat).peer.value, arrives) else moved)
    requires WiresOk(attempt, moved) && forall d :: 0 <= d < |wires| ==> Grows(wires[d], moved[d])
    ensures WiresOk(attempt, after) && RelayOk(attempt, after, t)
  {
    var mine, other := s.At(seat), s.At(seat.Peer());
    RelaySides(attempt, wires, s, seat);
    if other.peer.Some? {
      ForwardedPair(attempt, wires, moved, mine.peer.value, other.peer.value, arrives);
    }
    TakeSides(attempt, wires, after, seat, mine, t.At(seat), other);
    RelaySides(attempt, after, t, seat);
  }

  lemma ForwardedPair(attempt: Text, wires: seq<Wire>, moved: seq<Wire>, conn: Conn, to: Conn, arrives: bool)
    requires conn < |wires| && to < |wires| && wires[conn].seat != wires[to].seat
    requires wires[conn].taken < |wires[conn].sent|
    requires moved == wires[conn := wires[conn].(taken := wires[conn].taken + 1)]
    requires WiresOk(attempt, moved) && forall d :: 0 <= d < |wires| ==> Grows(wires[d], moved[d])
    requires Follows(wires[to], conn, wires[conn], wires[conn].taken)
    ensures var x := wires[conn];
            var after := DeliverTo(moved, to, x.sent[x.taken], conn, arrives);
            && WiresOk(attempt, after) && (forall d :: 0 <= d < |wires| ==> Grows(wires[d], after[d]))
            && after[conn] == moved[conn]
            && Follows(after[to], conn, x, x.taken + 1)
            && after[to].sent == wires[to].sent && after[to].taken == wires[to].taken
  {
    assert moved[to] == wires[to];
    Forwarded(attempt, moved, conn, to, arrives);
    GrowsTransitive(wires, moved, DeliverTo(moved, to, wires[conn].sent[wires[conn].taken], conn, arrives));
  }

  lemma GrowsTransitive(first: seq<Wire>, second: seq<Wire>, third: seq<Wire>)
    requires |first| <= |second| <= |third|
    requires forall d :: 0 <= d < |first| ==> Grows(first[d], second[d])
    requires forall d :: 0 <= d < |second| ==> Grows(second[d], third[d])
    ensures forall d :: 0 <= d < |first| ==> Grows(first[d], third[d])
  {
    forall d | 0 <= d < |first|
      ensures Grows(first[d], third[d])
    {
      assert Grows(first[d], second[d]) && Grows(second[d], third[d]);
    }
  }

  lemma TakenForClients(wires: seq<Wire>, s: Session, adm: Admission, seat: Seat, arrives: bool)
    requires Waiting(wires, s, seat)
    ensures var wires' := Taken(wires, s, adm, seat, arrives).1;
            |wires'| == |wires| && forall d :: 0 <= d < |wires| ==> SameForClient(wires[d], wires'[d])
  {
  }

  // The relay takes whatever is waiting: its gate never refuses a frame of a real client.
  lemma WaitingIsTaken(adm: Admission, wires: seq<Wire>, s: Session, seat: Seat)
    requires WiresOk(adm.attempt, wires) && RelayOk(adm.attempt, wires, s) && Waiting(wires, s, seat)
    ensures var x := wires[s.At(seat).peer.value];
            var e := x.sent[x.taken];
            && e.attempt == adm.attempt && e.seat == seat && AcceptFrame(s.At(seat).gate, e).Ok?
  {
    RelaySides(adm.attempt, wires, s, seat);
    assert SelfOk(adm.attempt, wires[s.At(seat).peer.value]);
    GateTakesNext(adm.attempt, wires, seat, s.At(seat));
  }

  lemma TakenOk(adm: Admission, wires: seq<Wire>, s: Session, seat: Seat, arrives: bool)
    requires WiresOk(adm.attempt, wires) && RelayOk(adm.attempt, wires, s) && Waiting(wires, s, seat)
    ensures var (s', wires') := Taken(wires, s, adm, seat, arrives);
            WiresOk(adm.attempt, wires') && RelayOk(adm.attempt, wires', s')
  {
    var conn := s.At(seat).peer.value;
    var x := wires[conn];
    var e := x.sent[x.taken];
    var (t, error) := Process(s, adm, seat, e);
    var moved := wires[conn := x.(taken := x.taken + 1)];
    WaitingIsTaken(adm, wires, s, seat);
    ProcessTakes(s, adm, seat, e);
    TakeWire(adm.attempt, wires, conn);
    if error.Some? {
      TakeFails(adm.attempt, wires, moved, s, t, seat);
    } else {
      TakeSucceeds(adm.attempt, wires, moved, Taken(wires, s, adm, seat, arrives).1, s, t, seat, arrives);
    }
  }

  lemma TakePreserves(adm: Admission, w: World, seat: Seat, arrives: bool)
    requires Inv(adm, w)
    ensures Inv(adm, TakeStep(w, adm, seat, arrives))
  {
    if Waiting(w.wires, w.relay, seat) {
      TakenOk(adm, w.wires, w.relay, seat, arrives);
      TakenForClients(w.wires, w.relay, adm, seat, arrives);
      BothClientsStable(adm, w, TakeStep(w, adm, seat, arrives));
    }
  }

  // ---- a socket is lost -------------------------------------------------------------------

  // PEER_CLOSE continues what the other connection has received exactly when the relay had
  // taken a frame of the lost one.
  lemma CloseFrameContinues(attempt: Text, wires: seq<Wire>, seat: Seat, mine: Side, other: Side)
    requires WiresOk(attempt, wires) && SidesOk(attempt, wires, seat, mine, other)
    requires mine.peer.Some? && other.peer.Some? && mine.gate.epoch.Some?
    requires !wires[other.peer.value].broken
    ensures IsRun(attempt, seat, wires[other.peer.value].received + [CloseFrame(mine.gate)])
            <==> wires[mine.peer.value].taken >= 1
  {
    var x, z := wires[mine.peer.value], wires[other.peer.value];
    assert SelfOk(attempt, x) && SelfOk(attempt, z);
    assert z.received == x.sent[..x.taken];
    if x.taken >= 1 {
      RunExtends(attempt, seat, z.received, CloseFrame(mine.gate));
    } else {
      assert (z.received + [CloseFrame(mine.gate)])[0].kind == PeerClose;
    }
  }

  lemma LostForClients(wires: seq<Wire>, s: Session, seat: Seat, arrives: bool)
    requires s.At(seat).peer.Some?
    ensures var wires' := Lost(wires, s, seat, arrives).1;
            |wires'| == |wires| && forall d :: 0 <= d < |wires| ==> SameForClient(wires[d], wires'[d])
  {
  }

  lemma LostWires(adm: Admission, wires: seq<Wire>, s: Session, seat: Seat, arrives: bool)
    requires WiresOk(adm.attempt, wires) && RelayOk(adm.attempt, wires, s)
    requires s.At(seat).peer.Some? && s.At(seat.Peer()).peer.Some?
    requires s.At(seat).peer.value < |wires| ==> wires[s.At(seat).peer.value].taken >= 1
    ensures var wires' := Lost(wires, s, seat, arrives).1;
            WiresOk(adm.attempt, wires') && forall d :: 0 <= d < |wires| ==> Grows(wires[d], wires'[d])
  {
    RelaySides(adm.attempt, wires, s, seat);
    var mine := s.At(seat);
    var conn, to := mine.peer.value, s.At(seat.Peer()).peer.value;
    var e := CloseFrame(mine.gate);
    CloseWire(adm.attempt, wires, conn, wires[to], e, arrives, mine);
    UpdateWire(adm.attempt, wires, to, Written(wires[to], e, conn, arrives));
  }

  lemma LostOk(adm: Admission, wires: seq<Wire>, s: Session, seat: Seat, arrives: bool)
    requires WiresOk(adm.attempt, wires) && RelayOk(adm.attempt, wires, s) && s.At(seat).peer.Some?
    requires s.At(seat).peer.value < |wires| ==> wires[s.At(seat).peer.value].taken >= 1
    ensures var (s', wires') := Lost(wires, s, seat, arrives);
            WiresOk(adm.attempt, wires') && RelayOk(adm.attempt, wires', s')
  {
    if s.At(seat.Peer()).peer.Some? {
      LostWires(adm, wires, s, seat, arrives);
    }
    LoseSides(adm.attempt, wires, Lost(wires, s, seat, arrives).1, s, seat);
  }

  lemma LosePreserves(adm: Admission, w: World, seat: Seat, arrives: bool)
    requires Inv(adm, w) && Allowed(w, OpLose(seat, arrives))
    ensures Inv(adm, LoseStep(w, seat, arrives))
  {
    if w.relay.At(seat).peer.Some? {
      LostOk(adm, w.wires, w.relay, seat, arrives);
      LostForClients(w.wires, w.relay, seat, arrives);
      BothClientsStable(adm, w, LoseStep(w, seat, arrives));
    }
  }

  lemma CloseWire(attempt: Text, wires: seq<Wire>, conn: Conn, z: Wire, e: Envelope, arrives: bool, mine: Side)
    requires conn < |wires| && wires[conn].taken >= 1 && mine.peer == Some(conn)
    requires SelfOk(attempt, wires[conn]) && SelfOk(attempt, z) && Sourced(wires, z)
    requires Follows(z, conn, wires[conn], wires[conn].taken)
    requires SideOk(attempt, wires, wires[conn].seat, mine) && mine.gate.epoch.Some? && e == CloseFrame(mine.gate)
    ensures var z' := Written(z, e, conn, arrives);
            SelfOk(attempt, z') && Sourced(wires, z') && Grows(z, z')
  {
    var x := wires[conn];
    var z' := Written(z, e, conn, arrives);
    if !z.broken && arrives {
      RunExtends(attempt, x.seat, z.received, e);
    }
    DeliverySelfOk(attempt, z, z');
  }

  lemma LoseSides(attempt: Text, wires: seq<Wire>, wires': seq<Wire>, relay: Session, seat: Seat)
    requires RelayOk(attempt, wires, relay) && relay.At(seat).peer.Some?
    requires |wires'| == |wires| && forall d :: 0 <= d < |wires| ==> Grows(wires[d], wires'[d])
    ensures RelayOk(attempt, wires', Drop(relay, seat, relay.At(seat).peer.value, false))
  {
    GateOkMonotone(attempt, wires, wires', MemberA, relay.a.gate);
    GateOkMonotone(attempt, wires, wires', MemberB, relay.b.gate);
    var lost := Drop(relay, seat, relay.At(seat).peer.value, false);
    assert GateOk(attempt, wires', seat, lost.At(seat).gate);
    VacantSides(attempt, wires', lost);
  }

  // ---- a client opens a connection --------------------------------------------------------

  lemma OpenSends(c: Client, epoch: int)
    requires AttemptBytes(c.cfg.attempt).Ok? && 0 <= epoch <= MAX_UINT64
    ensures var r := Open(c, epoch);
            && r.sent == [Envelope(c.cfg.attempt, c.cfg.seat, epoch, 0, PeerReady)]
            && r.client.cfg.attempt == c.cfg.attempt && r.client.cfg.seat == c.cfg.seat
            && r.client.epoch == epoch && r.client.sequence == 1
            && r.client.hs.gate == NewGate(c.cfg.attempt, c.cfg.seat.Peer()) && r.client.hs.challenge == None
            && !r.client.hs.returned && !r.client.hs.answered && !r.client.hs.proven && r.client.outbox == []
  {
  }

  // The new connection starts with what the relay retains of the other seat.
  lemma OpenWire(attempt: Text, wires: seq<Wire>, seat: Seat, mine: Side, other: Side, wire: Wire, hello: Envelope)
    requires WiresOk(attempt, wires) && SidesOk(attempt, wires, seat, mine, other) && mine.peer.None?
    requires hello == Envelope(attempt, seat, wire.epoch, 0, PeerReady)
    requires wire.seat == seat && wire.sent == [hello] && wire.taken == 0 && wire.read == 0 && wire.nonce == None
    requires wire.received == [] ||
             (other.peer.Some? && wire.received == other.retained && wire.source == other.peer)
    requires forall c :: 0 <= c < |wires| && wires[c].seat == seat ==> wires[c].epoch != wire.epoch
    ensures WiresOk(attempt, wires + [wire])
    ensures forall d :: 0 <= d < |wires| ==> Grows(wires[d], (wires + [wire])[d])
  {
    if wire.received != [] {
      var y := wires[other.peer.value];
      assert SelfOk(attempt, y);
      RunPrefix(attempt, seat.Peer(), y.sent, y.taken);
    }
    AppendWire(attempt, wires, wire);
  }

  lemma OpenSides(attempt: Text, wires: seq<Wire>, seat: Seat, mine: Side, other: Side, wire: Wire, mine': Side)
    requires SidesOk(attempt, wires, seat, mine, other) && mine.peer.None?
    requires forall d :: 0 <= d < |wires| ==> Grows(wires[d], (wires + [wire])[d])
    requires wire.seat == seat && wire.taken == 0 && !wire.broken
    requires mine'.peer.Some? ==>
      wire.received == other.retained && wire.source == (if wire.received == [] then None else other.peer)
    requires mine' == mine.(peer := mine'.peer, generation := mine'.generation)
    requires mine'.peer == None || mine'.peer == Some(|wires|)
    ensures SidesOk(attempt, wires + [wire], seat, mine', other)
  {
    GateOkMonotone(attempt, wires, wires + [wire], seat, mine.gate);
    GateOkMonotone(attempt, wires, wires + [wire], seat.Peer(), other.gate);
  }

  lemma OpenStepFields(w: World, seat: Seat, epoch: int, replayed: bool)
    requires w.ConnOf(seat).None? && !w.ClientOf(seat).stopped && w.relay.live && w.relay.At(seat).peer.None?
    ensures var w' := OpenStep(w, seat, epoch, replayed);
            var start := Open(w.ClientOf(seat), epoch);
            var mine, other := w.relay.At(seat), w.relay.At(seat.Peer());
            var replay := if replayed then other.retained else [];
            var mine' := w'.relay.At(seat);
            && w'.wires == w.wires + [Wire(seat, epoch, start.sent, 0, replay, 0, false, None,
                                           if replay == [] then None else other.peer)]
            && w'.ClientOf(seat) == start.client && w'.ConnOf(seat) == Some(|w.wires|)
            && w'.ClientOf(seat.Peer()) == w.ClientOf(seat.Peer()) && w'.ConnOf(seat.Peer()) == w.ConnOf(seat.Peer())
            && w'.relay.At(seat.Peer()) == other && w'.relay.live
            && mine' == mine.(peer := mine'.peer, generation := mine'.generation)
            && mine'.peer == (if replayed then Some(|w.wires|) else None)
  {
  }

  lemma OpenedAgrees(attempt: Text, wires: seq<Wire>, seat: Seat, c: Client, epoch: int, wire: Wire)
    requires c.cfg.attempt == attempt && c.cfg.seat == seat && AttemptBytes(attempt).Ok? && 0 <= epoch <= MAX_UINT64
    requires wire.seat == seat && wire.epoch == epoch && wire.sent == Open(c, epoch).sent
    requires wire.read == 0 && wire.nonce == None
    ensures ClientOk(attempt, wires + [wire], seat, Open(c, epoch).client, Some(|wires|))
  {
    OpenSends(c, epoch);
  }

  lemma OpenPreserves(adm: Admission, w: World, seat: Seat, epoch: int, replayed: bool)
    requires Inv(adm, w) && Allowed(w, OpOpen(seat, epoch, replayed))
    ensures Inv(adm, OpenStep(w, seat, epoch, replayed))
  {
    if w.ConnOf(seat).None? && !w.ClientOf(seat).stopped && w.relay.live && w.relay.At(seat).peer.None? {
      var attempt, w' := adm.attempt, OpenStep(w, seat, epoch, replayed);
      OpenStepFields(w, seat, epoch, replayed);
      OpenRelay(adm, w, seat, epoch, replayed);
      OpenedAgrees(attempt, w.wires, seat, w.ClientOf(seat), epoch, w'.wires[|w.wires|]);
      ClientOkStable(attempt, w.wires, w'.wires, seat.Peer(), w.ClientOf(seat.Peer()), w.ConnOf(seat.Peer()));
    }
  }

  lemma OpenRelay(adm: Admission, w: World, seat: Seat, epoch: int, replayed: bool)
    requires Inv(adm, w) && Allowed(w, OpOpen(seat, epoch, replayed))
    requires w.ConnOf(seat).None? && !w.ClientOf(seat).stopped && w.relay.live && w.relay.At(seat).peer.None?
    ensures var w' := OpenStep(w, seat, epoch, replayed);
            WiresOk(adm.attempt, w'.wires) && RelayOk(adm.attempt, w'.wires, w'.relay)
  {
    var attempt, w' := adm.attempt, OpenStep(w, seat, epoch, replayed);
    OpenStepFields(w, seat, epoch, replayed);
    OpenSends(w.ClientOf(seat), epoch);
    var mine, other := w.relay.At(seat), w.relay.At(seat.Peer());
    RelaySides(attempt, w.wires, w.relay, seat);
    var wire := w'.wires[|w.wires|];
    OpenWire(attempt, w.wires, seat, mine, other, wire, Envelope(attempt, seat, epoch, 0, PeerReady));
    OpenSides(attempt, w.wires, seat, mine, other, wire, w'.relay.At(seat));
    RelaySides(attempt, w'.wires, w'.relay, seat);
  }

  // ---- a client reads a frame -------------------------------------------------------------

  // Sending one more control frame continues the run of a connection.
  lemma SendContinues(attempt: Text, c: Client, x: Wire, kind: Kind, payload: seq<Byte>, flags: int)
    requires c.cfg.attempt == attempt && c.cfg.seat == x.seat && c.epoch == x.epoch && c.sequence == |x.sent|
    requires IsRun(attempt, x.seat, x.sent) && x.sent[0].epoch == x.epoch
    requires kind != PeerReady
    ensures var r := Send(c, kind, payload, flags);
            && IsRun(attempt, x.seat, x.sent + r.sent) && (x.sent + r.sent)[0].epoch == x.epoch
            && (r.end == Running ==>
                  r.client == c.(sequence := c.sequence + 1) && |r.sent| == 1
                  && r.sent[0].kind == kind && r.sent[0].payload == payload)
            && (r.end != Running ==> r.client == c && r.sent == [] && r.end.Fatal?)
  {
    RunExtends(attempt, x.seat, x.sent, NextFrame(c, kind, payload, flags));
    assert x.sent + [] == x.sent;
  }

  // The gate of a client accepts every frame it reads, and PEER_READY is always the first.
  lemma GateReadsNext(attempt: Text, seat: Seat, c: Client, x: Wire)
    requires SelfOk(attempt, x) && Agrees(attempt, seat, c, x) && x.read < |x.received|
    ensures var e := x.received[x.read];
            && AcceptFrame(c.hs.gate, e) ==
               Ok(Gate(attempt, seat.Peer(), Some(x.received[0].epoch), x.read + 1, {}))
            && (e.kind == PeerReady <==> x.read == 0)
            && (x.read == 0 ==> c.hs.gate.epoch == None)
            && (x.read > 0 ==> c.hs.gate.epoch == Some(e.epoch))
  {
  }

  // The connection after one more frame has been read.
  function ReadOne(x: Wire, sent: seq<Envelope>, nonce: Option<seq<Byte>>): Wire {
    x.(read := x.read + 1, sent := x.sent + sent, nonce := nonce)
  }

  // Sending more frames does not undo what a client has answered.
  lemma AnsweredMonotone(x: Wire, y: Wire)
    requires Answered(x) && x.sent <= y.sent && x.received <= y.received && x.read <= y.read
    ensures Answered(y)
  {
    var k, i :| 0 <= k < x.read && k < |x.received| && 0 <= i < |x.sent|
                && x.received[k].kind == ProbeChallenge && x.sent[i].kind == ProbeResponse
                && x.sent[i].payload == x.received[k].payload;
    assert y.sent[i] == x.sent[i] && y.received[k] == x.received[k];
  }

  lemma ReadMonotone(attempt: Text, x: Wire, sent: seq<Envelope>)
    requires SelfOk(attempt, x)
    ensures var y := ReadOne(x, sent, x.nonce);
            && (forall p :: Challenged(x, p) ==> Challenged(y, p))
            && (Returned(x) ==> Returned(y))
            && (Answered(x) ==> Answered(y))
  {
    var y := ReadOne(x, sent, x.nonce);
    forall p | Challenged(x, p)
      ensures Challenged(y, p)
    {
      var k :| 0 <= k < x.read && k < |x.received|
               && x.received[k].kind == ProbeChallenge && x.received[k].payload == p;
      assert y.received[k].kind == ProbeChallenge;
    }
    if Answered(x) {
      AnsweredMonotone(x, y);
    }
  }

  // Reading PEER_READY sends a challenge that carries the fresh nonce.
  lemma ReadsPeerReady(attempt: Text, seat: Seat, c: Client, x: Wire, hash: seq<Byte> -> Digest, nonce: seq<Byte>,
                       spare: int)
    requires c.cfg.attempt == attempt && c.cfg.seat == seat && SelfOk(attempt, x) && Agrees(attempt, seat, c, x)
    requires x.read == 0 < |x.received|
    ensures var r := Receive(c, hash, x.received[0], nonce, spare);
            var y := ReadOne(x, r.sent, if r.end == Running then Some(nonce) else x.nonce);
            && r.client.cfg.attempt == attempt && r.client.cfg.seat == seat && r.client.outbox == c.outbox
            && SelfOk(attempt, y) && (r.end == Running ==> Agrees(attempt, seat, r.client, y))
  {
    var e := x.received[0];
    GateReadsNext(attempt, seat, c, x);
    assert !c.hs.returned && !c.hs.answered;
    ReceivesFirst(c, hash, e, nonce, spare);
    var d := Challenging(c, AcceptFrame(c.hs.gate, e).value, nonce);
    SendContinues(attempt, d, x, ProbeChallenge, nonce, 0);
    var sent := Send(d, ProbeChallenge, nonce, 0).sent;
    ProbeKinds(x, sent);
  }

  lemma ProbeKinds(x: Wire, sent: seq<Envelope>)
    requires |x.sent| == 1 && x.sent[0].kind == PeerReady
    requires |sent| <= 1 && (sent != [] ==> sent[0].kind == ProbeChallenge)
    ensures forall i :: 1 <= i < |x.sent + sent| ==> (x.sent + sent)[i] == sent[0]
    ensures forall i :: 0 <= i < |x.sent + sent| ==>
      (x.sent + sent)[i].kind == ProbeChallenge || (x.sent + sent)[i].kind == PeerReady
  {
  }

  // Reading a challenge sends the matching response.
  lemma ReadsChallenge(attempt: Text, seat: Seat, c: Client, x: Wire, hash: seq<Byte> -> Digest, nonce: seq<Byte>,
                       spare: int)
    requires c.cfg.attempt == attempt && c.cfg.seat == seat && SelfOk(attempt, x) && Agrees(attempt, seat, c, x)
    requires x.read < |x.received| && x.received[x.read].kind == ProbeChallenge
    ensures var r := Receive(c, hash, x.received[x.read], nonce, spare);
            var y := ReadOne(x, r.sent, x.nonce);
            && r.client.cfg.attempt == attempt && r.client.cfg.seat == seat && r.client.outbox == c.outbox
            && SelfOk(attempt, y) && (r.end == Running ==> Agrees(attempt, seat, r.client, y))
  {
    hide Receive, Send, IsRun, Challenged;
    var e := x.received[x.read];
    GateReadsNext(attempt, seat, c, x);
    ReceivesChallenge(c, hash, e, nonce, spare);
    var d := Gated(c, AcceptFrame(c.hs.gate, e).value);
    var answer := Send(d, ProbeResponse, e.payload, 0);
    SendContinues(attempt, d, x, ProbeResponse, e.payload, 0);
    AnswerWire(attempt, x, answer.sent);
  }

  lemma AnswerWire(attempt: Text, x: Wire, sent: seq<Envelope>)
    requires SelfOk(attempt, x) && 0 < x.read < |x.received| && x.received[x.read].kind == ProbeChallenge
    requires IsRun(attempt, x.seat, x.sent + sent) && (x.sent + sent)[0].epoch == x.epoch
    requires |sent| <= 1
    requires sent != [] ==> sent[0].kind == ProbeResponse && sent[0].payload == x.received[x.read].payload
    ensures var y := ReadOne(x, sent, x.nonce);
            && SelfOk(attempt, y) && (Returned(x) ==> Returned(y)) && (sent != [] ==> Answered(y))
            && (forall i :: 0 <= i < |y.sent| ==>
                  y.sent[i].kind == ProbeResponse || (i < |x.sent| && y.sent[i] == x.sent[i]))
  {
    var y := ReadOne(x, sent, x.nonce);
    ReadMonotone(attempt, x, sent);
    assert y.received[x.read].kind == ProbeChallenge;
    assert Challenged(y, x.received[x.read].payload);
    assert forall i :: 0 <= i < |x.sent| ==> y.sent[i] == x.sent[i];
    assert forall i :: |x.sent| <= i < |y.sent| ==> y.sent[i] == sent[0];
    forall i | 0 <= i < |y.sent| && y.sent[i].kind == ProbeResponse
      ensures Challenged(y, y.sent[i].payload)
    {
      if i < |x.sent| {
        assert Challenged(x, x.sent[i].payload);
      }
    }
    if sent != [] {
      assert y.sent[|x.sent|].kind == ProbeResponse;
    }
  }

  // Reading anything else sends nothing.
  lemma ReadsOther(attempt: Text, seat: Seat, c: Client, x: Wire, hash: seq<Byte> -> Digest, nonce: seq<Byte>,
                   spare: int)
    requires c.cfg.attempt == attempt && c.cfg.seat == seat && SelfOk(attempt, x) && Agrees(attempt, seat, c, x)
    requires 0 < x.read < |x.received| && x.received[x.read].kind != ProbeChallenge
    ensures var r := Receive(c, hash, x.received[x.read], nonce, spare);
            var y := ReadOne(x, r.sent, x.nonce);
            && r.sent == []
            && r.client.cfg.attempt == attempt && r.client.cfg.seat == seat && r.client.outbox == c.outbox
            && SelfOk(attempt, y) && (r.end == Running ==> Agrees(attempt, seat, r.client, y))
  {
    var e := x.received[x.read];
    GateReadsNext(attempt, seat, c, x);
    ReceivesOther(c, hash, e, nonce, spare);
    QuietWire(attempt, x);
    if e.kind == ProbeResponse && x.nonce == Some(e.payload) {
      assert ReadOne(x, [], x.nonce).received[x.read].kind == ProbeResponse;
      assert Returned(ReadOne(x, [], x.nonce));
    }
  }

  lemma QuietWire(attempt: Text, x: Wire)
    requires SelfOk(attempt, x) && 0 < x.read < |x.received|
    ensures var y := ReadOne(x, [], x.nonce);
            && y.sent == x.sent && SelfOk(attempt, y)
            && (Returned(x) ==> Returned(y)) && (Answered(x) ==> Answered(y))
  {
    var y := ReadOne(x, [], x.nonce);
    assert x.sent + [] == x.sent;
    ReadMonotone(attempt, x, []);
    forall i | 0 <= i < |y.sent| && y.sent[i].kind == ProbeResponse
      ensures Challenged(y, y.sent[i].payload)
    {
      assert Challenged(x, x.sent[i].payload);
    }
  }

  // What a client does with its own end of a connection.
  ghost predicate ClientMoved(x: Wire, y: Wire) {
    && y == x.(sent := y.sent, read := y.read, nonce := y.nonce)
    && x.sent <= y.sent && (x.nonce.Some? ==> y.nonce == x.nonce)
  }

  // The relay does not notice what a client has sent but it has not taken.
  lemma RelayStable(attempt: Text, wires: seq<Wire>, conn: Conn, y: Wire, relay: Session)
    requires WiresOk(attempt, wires) && RelayOk(attempt, wires, relay)
    requires conn < |wires| && ClientMoved(wires[conn], y)
    ensures RelayOk(attempt, wires[conn := y], relay)
  {
    var wires' := wires[conn := y];
    assert forall d :: 0 <= d < |wires| ==> SelfOk(attempt, wires[d]) && Grows(wires[d], wires'[d]);
    GateOkMonotone(attempt, wires, wires', MemberA, relay.a.gate);
    GateOkMonotone(attempt, wires, wires', MemberB, relay.b.gate);
    PairStable(attempt, wires, wires', relay.a, relay.b);
    PairStable(attempt, wires, wires', relay.b, relay.a);
  }

  lemma PairStable(attempt: Text, wires: seq<Wire>, wires': seq<Wire>, mine: Side, other: Side)
    requires |wires'| == |wires|
    requires forall d :: 0 <= d < |wires| ==> ClientMoved(wires[d], wires'[d]) && wires[d].taken <= |wires[d].sent|
    requires mine.peer.Some? ==> mine.peer.value < |wires|
    requires other.peer.Some? ==> other.peer.value < |wires|
    requires PairOk(wires, mine, other)
    ensures PairOk(wires', mine, other)
  {
    if mine.peer.Some? {
      assert ClientMoved(wires[mine.peer.value], wires'[mine.peer.value]);
      if other.peer.Some? {
        assert ClientMoved(wires[other.peer.value], wires'[other.peer.value]);
      }
    }
  }

  // The other client is on another connection.
  lemma OtherClientStable(attempt: Text, wires: seq<Wire>, conn: Conn, y: Wire, seat: Seat, c: Client, on: Option<Conn>)
    requires ClientOk(attempt, wires, seat, c, on)
    requires conn < |wires| && wires[conn].seat != seat
    ensures ClientOk(attempt, wires[conn := y], seat, c, on)
  {
  }

  lemma ClosedOk(attempt: Text, wires: seq<Wire>, seat: Seat, c: Client, end: End)
    requires c.cfg.attempt == attempt && c.cfg.seat == seat
    requires forall i :: 0 <= i < |c.outbox| ==> DataKind(c.outbox[i].kind)
    ensures ClientOk(attempt, wires, seat, Close(c, end), None)
  {
  }

  // A step of the client of a seat on its own connection keeps the invariant.
  lemma ClientStepOk(adm: Admission, w: World, seat: Seat, y: Wire, r: Reaction)
    requires Inv(adm, w) && Connected(w, seat)
    requires ClientMoved(w.wires[w.ConnOf(seat).value], y) && SelfOk(adm.attempt, y)
    requires y.nonce == w.wires[w.ConnOf(seat).value].nonce
             || forall d :: 0 <= d < |w.wires| ==> w.wires[d].nonce != y.nonce
    requires r.client.cfg.attempt == adm.attempt && r.client.cfg.seat == seat
    requires forall i :: 0 <= i < |r.client.outbox| ==> DataKind(r.client.outbox[i].kind)
    requires r.end == Running ==> Agrees(adm.attempt, seat, r.client, y)
    ensures Inv(adm, Settle(w.(wires := w.wires[w.ConnOf(seat).value := y]), seat, w.ConnOf(seat).value, r))
  {
    var attempt, conn := adm.attempt, w.ConnOf(seat).value;
    var x := w.wires[conn];
    assert Sourced(w.wires, x) && Sourced(w.wires, y);
    UpdateWire(attempt, w.wires, conn, y);
    RelayStable(attempt, w.wires, conn, y, w.relay);
    OtherClientStable(attempt, w.wires, conn, y, seat.Peer(), w.ClientOf(seat.Peer()), w.ConnOf(seat.Peer()));
    if r.end != Running {
      ClosedOk(attempt, w.wires[conn := y], seat, r.client, r.end);
    }
  }

  // Reading the next frame of a connection, whatever it is.
  lemma ReadsNext(attempt: Text, seat: Seat, c: Client, x: Wire, hash: seq<Byte> -> Digest, nonce: seq<Byte>,
                  spare: int)
    requires c.cfg.attempt == attempt && c.cfg.seat == seat && SelfOk(attempt, x) && Agrees(attempt, seat, c, x)
    requires x.read < |x.received|
    ensures var e := x.received[x.read];
            var r := Receive(c, hash, e, nonce, spare);
            var y := ReadOne(x, r.sent, if e.kind == PeerReady && r.end == Running then Some(nonce) else x.nonce);
            && r.client.cfg.attempt == attempt && r.client.cfg.seat == seat && r.client.outbox == c.outbox
            && SelfOk(attempt, y) && (r.end == Running ==> Agrees(attempt, seat, r.client, y))
            && ClientMoved(x, y) && (y.nonce == x.nonce || y.nonce == Some(nonce))
  {
    GateReadsNext(attempt, seat, c, x);
    if x.read == 0 {
      ReadsPeerReady(attempt, seat, c, x, hash, nonce, spare);
    } else if x.received[x.read].kind == ProbeChallenge {
      ReadsChallenge(attempt, seat, c, x, hash, nonce, spare);
    } else {
      ReadsOther(attempt, seat, c, x, hash, nonce, spare);
    }
  }

  lemma ReadPreserves(adm: Admission, w: World, seat: Seat, nonce: seq<Byte>, spare: int)
    requires Inv(adm, w) && Allowed(w, OpRead(seat, nonce, spare))
    ensures Inv(adm, ReadStep(w, adm, seat, nonce, spare))
  {
    if Connected(w, seat) && w.wires[w.ConnOf(seat).value].read < |w.wires[w.ConnOf(seat).value].received| {
      var c, x := w.ClientOf(seat), w.wires[w.ConnOf(seat).value];
      var e := x.received[x.read];
      assert SelfOk(adm.attempt, x) && Agrees(adm.attempt, seat, c, x);
      ReadsNext(adm.attempt, seat, c, x, adm.hash, nonce, spare);
      var r := Receive(c, adm.hash, e, nonce, spare);
      var y := ReadOne(x, r.sent, if e.kind == PeerReady && r.end == Running then Some(nonce) else x.nonce);
      ClientStepOk(adm, w, seat, y, r);
    }
  }

  // ---- a client sends what the application has queued -------------------------------------

  // What pumping leaves alone.
  lemma {:induction false} PumpClient(c: Client, budget: nat)
    ensures var r := Pump(c, budget);
            && r.client.cfg == c.cfg && r.client.hs == c.hs && r.client.epoch == c.epoch
            && r.client.sequence == c.sequence + |r.sent|
            && |r.client.outbox| <= |c.outbox|
            && r.client.outbox == c.outbox[|c.outbox| - |r.client.outbox|..]
            && (c.outbox == [] ==> r.sent == [] && r.end == Running)
    decreases budget
  {
    if budget > 0 && c.outbox != [] {
      var first := SendFirst(c);
      if first.end == Running {
        PumpClient(first.client, budget - 1);
      }
    }
  }

  lemma {:induction false} PumpContinues(attempt: Text, c: Client, x: Wire, budget: nat)
    requires c.cfg.attempt == attempt && c.cfg.seat == x.seat && c.epoch == x.epoch && c.sequence == |x.sent|
    requires IsRun(attempt, x.seat, x.sent) && x.sent[0].epoch == x.epoch
    requires forall i :: 0 <= i < |c.outbox| ==> DataKind(c.outbox[i].kind)
    ensures var r := Pump(c, budget);
            && IsRun(attempt, x.seat, x.sent + r.sent) && (x.sent + r.sent)[0].epoch == x.epoch
            && (forall i :: 0 <= i < |r.sent| ==> DataKind(r.sent[i].kind))
    decreases budget
  {
    if budget == 0 || c.outbox == [] {
      assert x.sent + [] == x.sent;
    } else {
      var p := c.outbox[0];
      var d := c.(outbox := c.outbox[1..]);
      var first := Send(d, p.kind, p.payload, p.flags);
      SendContinues(attempt, d, x, p.kind, p.payload, p.flags);
      if first.end == Running {
        var x' := x.(sent := x.sent + first.sent);
        PumpContinues(attempt, first.client, x', budget - 1);
        var rest := Pump(first.client, budget - 1);
        assert x'.sent + rest.sent == x.sent + (first.sent + rest.sent);
      }
    }
  }

  // Sending data frames keeps the facts about probes.
  lemma DataWire(attempt: Text, x: Wire, sent: seq<Envelope>)
    requires SelfOk(attempt, x)
    requires IsRun(attempt, x.seat, x.sent + sent) && (x.sent + sent)[0].epoch == x.epoch
    requires forall i :: 0 <= i < |sent| ==> DataKind(sent[i].kind)
    requires x.read == 0 ==> sent == []
    ensures var y := x.(sent := x.sent + sent);
            && SelfOk(attempt, y) && (Returned(x) ==> Returned(y)) && (Answered(x) ==> Answered(y))
  {
    var y := x.(sent := x.sent + sent);
    assert forall i :: 0 <= i < |x.sent| ==> y.sent[i] == x.sent[i];
    assert forall i :: |x.sent| <= i < |y.sent| ==> DataKind(y.sent[i].kind);
    forall i | 0 <= i < |y.sent| && y.sent[i].kind == ProbeResponse
      ensures Challenged(y, y.sent[i].payload)
    {
      assert Challenged(x, x.sent[i].payload);
    }
    if sent == [] {
      assert y.sent == x.sent;
    }
    if Answered(x) {
      AnsweredMonotone(x, y);
    }
  }

  lemma PumpAgrees(attempt: Text, seat: Seat, c: Client, x: Wire, n: nat)
    requires c.cfg.attempt == attempt && c.cfg.seat == seat && SelfOk(attempt, x) && Agrees(attempt, seat, c, x)
    requires forall i :: 0 <= i < |c.outbox| ==> DataKind(c.outbox[i].kind)
    ensures var r := Pump(c, n);
            var y := x.(sent := x.sent + r.sent);
            && SelfOk(attempt, y) && Agrees(attempt, seat, r.client, y)
            && r.client.cfg.attempt == attempt && r.client.cfg.seat == seat
            && forall i :: 0 <= i < |r.client.outbox| ==> DataKind(r.client.outbox[i].kind)
  {
    PumpContinues(attempt, c, x, n);
    PumpClient(c, n);
    DataWire(attempt, x, Pump(c, n).sent);
    if !c.hs.proven {
      assert x.sent + [] == x.sent;
    }
  }

  lemma PumpPreserves(adm: Admission, w: World, seat: Seat, budget: nat)
    requires Inv(adm, w)
    ensures Inv(adm, PumpStep(w, seat, budget))
  {
    if Connected(w, seat) {
      var c, x := w.ClientOf(seat), w.wires[w.ConnOf(seat).value];
      assert SelfOk(adm.attempt, x) && Agrees(adm.attempt, seat, c, x);
      var n := if budget < PUMP_LIMIT then budget else PUMP_LIMIT;
      PumpAgrees(adm.attempt, seat, c, x, n);
      var r := Pump(c, n);
      ClientStepOk(adm, w, seat, x.(sent := x.sent + r.sent), r);
    }
  }

  // The frame is queued behind the others, and only once the data plane is proven.
  ghost predicate Queues(c: Client, d: Client) {
    && c.hs.proven
    && d == c.(outbox := d.outbox, app := d.app)
    && |d.outbox| == |c.outbox| + 1 && d.outbox[..|c.outbox|] == c.outbox
    && DataKind(d.outbox[|c.outbox|].kind)
  }

  lemma QueuesOk(attempt: Text, wires: seq<Wire>, seat: Seat, c: Client, d: Client, conn: Option<Conn>)
    requires ClientOk(attempt, wires, seat, c, conn) && Queues(c, d)
    ensures ClientOk(attempt, wires, seat, d, conn)
  {
    assert forall i :: 0 <= i < |c.outbox| ==> d.outbox[i] == c.outbox[i];
  }

  lemma QueuedQueues(c: Client, kind: Kind, payload: seq<Byte>, flags: int)
    requires Queued(c, kind, payload, flags).Ok?
    ensures Queues(c, Queued(c, kind, payload, flags).value)
  {
  }

  lemma PutPreserves(adm: Admission, w: World, seat: Seat, kind: Kind, payload: seq<Byte>, flags: int)
    requires Inv(adm, w)
    ensures Inv(adm, PutStep(w, seat, kind, payload, flags))
  {
    var c := w.ClientOf(seat);
    match Queued(c, kind, payload, flags)
    case Err(_) =>
    case Ok(d) =>
      QueuedQueues(c, kind, payload, flags);
      QueuesOk(adm.attempt, w.wires, seat, c, d, w.ConnOf(seat));
  }

  lemma PollPreserves(adm: Admission, w: World, seat: Seat, limit: nat)
    requires Inv(adm, w)
    ensures Inv(adm, PollStep(w, seat, limit))
  {
    var c := w.ClientOf(seat);
    assert ClientOk(adm.attempt, w.wires, seat, c, w.ConnOf(seat));
    var n := if limit < |c.app.inbox| then limit else |c.app.inbox|;
    assert ClientOk(adm.attempt, w.wires, seat, c.(app := c.app.(inbox := c.app.inbox[n..])), w.ConnOf(seat));
  }

  lemma AbandonPreserves(adm: Admission, w: World, seat: Seat)
    requires Inv(adm, w)
    ensures Inv(adm, w.WithClient(seat, Close(w.ClientOf(seat), Reconnecting), None))
  {
    var c := w.ClientOf(seat);
    assert ClientOk(adm.attempt, w.wires, seat, c, w.ConnOf(seat));
    ClosedOk(adm.attempt, w.wires, seat, c, Reconnecting);
  }

  lemma ShutPreserves(adm: Admission, w: World)
    requires Inv(adm, w)
    ensures Inv(adm, w.(relay := Teardown(w.relay)))
  {
    VacantSides(adm.attempt, w.wires, Teardown(w.relay));
  }

  // ---- runs of the whole system -----------------------------------------------------------

  function Run(adm: Admission, start: World, ops: seq<Op>): (w: World)
  {
    if ops == [] then start else Step(Run(adm, start, ops[..|ops| - 1]), adm, ops[|ops| - 1])
  }

  // Every step of the run meets the hypotheses in the state it starts from.
  predicate AllAllowed(adm: Admission, start: World, ops: seq<Op>) {
    forall i :: 0 <= i < |ops| ==> Allowed(Run(adm, start, ops[..i]), ops[i])
  }

  lemma StepPreserves(adm: Admission, w: World, op: Op)
    requires Inv(adm, w) && Allowed(w, op)
    ensures Inv(adm, Step(w, adm, op))
  {
    match op
    case OpOpen(seat, epoch, replayed) => OpenPreserves(adm, w, seat, epoch, replayed);
    case OpTake(seat, arrives) => TakePreserves(adm, w, seat, arrives);
    case OpLose(seat, arrives) => LosePreserves(adm, w, seat, arrives);
    case OpRead(seat, nonce, spare) => ReadPreserves(adm, w, seat, nonce, spare);
    case OpPump(seat, budget) => PumpPreserves(adm, w, seat, budget);
    case OpPut(seat, kind, payload, flags) => PutPreserves(adm, w, seat, kind, payload, flags);
    case OpPoll(seat, limit) => PollPreserves(adm, w, seat, limit);
    case OpAbandon(seat) => AbandonPreserves(adm, w, seat);
    case OpShut => ShutPreserves(adm, w);
  }

  lemma {:induction false} RunKeepsInv(adm: Admission, start: World, ops: seq<Op>)
    requires Inv(adm, start) && AllAllowed(adm, start, ops)
    ensures Inv(adm, Run(adm, start, ops))
  {
    if ops != [] {
      var init := ops[..|ops| - 1];
      assert forall i :: 0 <= i < |init| ==> init[..i] == ops[..i] && Allowed(Run(adm, start, ops[..i]), ops[i]);
      RunKeepsInv(adm, start, init);
      assert ops[..|ops| - 1] == init;
      StepPreserves(adm, Run(adm, start, init), ops[|ops| - 1]);
    }
  }

  lemma NewWorldOk(adm: Admission, expectedA: Option<Digest>, expectedB: Option<Digest>, capacity: nat)
    requires AttemptBytes(adm.attempt).Ok?
    ensures Inv(adm, NewWorld(adm, expectedA, expectedB, capacity))
  {
    var w := NewWorld(adm, expectedA, expectedB, capacity);
    VacantSides(adm.attempt, w.wires, w.relay);
  }
}
