/**
 When a client calls itself ready, and what it accepts to send: both are said in terms of the frames
 read and the requests made on its present connection.
 */
module TunnelReadiness {
  import opened Common
  import opened Bytes
  import opened Envelopes
  import opened SequenceGates
  import opened RelaySessions
  import opened TunnelClients
  import opened TunnelSystem
  import opened TunnelProperties
  import opened TunnelDelivery
  import opened TunnelEndToEnd

  predicate HasKind(frames: seq<Envelope>, kind: Kind) {
    exists i :: 0 <= i < |frames| && frames[i].kind == kind
  }

  predicate AsksKind(data: seq<Pending>, kind: Kind) {
    exists i :: 0 <= i < |data| && data[i].kind == kind
  }

  lemma NoKind(kind: Kind)
    ensures !HasKind([], kind)
  {
  }

  lemma KindAppend(frames: seq<Envelope>, e: Envelope, kind: Kind)
    ensures HasKind(frames + [e], kind) <==> HasKind(frames, kind) || e.kind == kind
  {
    var more := frames + [e];
    assert more[|frames|] == e;
    if HasKind(frames, kind) {
      var i :| 0 <= i < |frames| && frames[i].kind == kind;
      assert more[i].kind == kind;
    }
  }

  lemma AskAppend(data: seq<Pending>, p: Pending, kind: Kind)
    ensures AsksKind(data + [p], kind) <==> AsksKind(data, kind) || p.kind == kind
  {
    var more := data + [p];
    assert more[|data|] == p;
    if AsksKind(data, kind) {
      var i :| 0 <= i < |data| && data[i].kind == kind;
      assert more[i].kind == kind;
    }
  }

  // The readiness events of a client that has read these frames on its connection.
  predicate Told(c: Client, frames: seq<Envelope>) {
    && c.authenticated
    && (c.hs.peerReady <==> frames != [])
    && (c.hs.answered <==> HasKind(frames, ProbeChallenge))
    && (c.hs.returned <==> HasKind(frames, ProbeResponse))
    && (c.hs.proven <==> c.hs.answered && c.hs.returned)
  }

  // What was accepted since the proof: at most one advertisement and one SIDE_READY.
  predicate Once(c: Client, accepted: seq<Pending>) {
    && c.app.advertisedIn <= c.hs.proofGeneration && c.app.sideReadyIn <= c.hs.proofGeneration
    && (c.hs.proven ==>
          && (c.app.advertisedIn == c.hs.proofGeneration <==> AsksKind(accepted, Advertisement))
          && (c.app.sideReadyIn == c.hs.proofGeneration <==> AsksKind(accepted, SideReady)))
    && (!c.hs.proven ==> accepted == [])
  }

  predicate Bounded(c: Client) {
    c.app.advertisedIn <= c.hs.proofGeneration && c.app.sideReadyIn <= c.hs.proofGeneration
  }

  predicate NotReady(c: Client) {
    !c.authenticated && !c.hs.peerReady && !c.hs.proven
  }

  // The state of the client of a seat, with what it has accepted on the connection it is on.
  predicate ReadyOk(w: World, seat: Seat, accepted: seq<Pending>) {
    var c := w.ClientOf(seat);
    && Bounded(c)
    && (w.ConnOf(seat).None? ==> NotReady(c))
    && (Connected(w, seat) ==>
          var x := w.wires[w.ConnOf(seat).value];
          x.read <= |x.received| && Told(c, x.received[..x.read]) && Once(c, accepted))
  }

  // ---- steps --------------------------------------------------------------------------------

  // One frame is read.
  lemma ReadTells(attempt: Text, seat: Seat, c: Client, x: Wire, hash: seq<Byte> -> Digest, nonce: seq<Byte>,
                  spare: int, accepted: seq<Pending>)
    requires c.cfg.attempt == attempt && c.cfg.seat == seat && SelfOk(attempt, x) && Agrees(attempt, seat, c, x)
    requires x.read < |x.received| && Told(c, x.received[..x.read]) && Once(c, accepted)
    ensures var r := Receive(c, hash, x.received[x.read], nonce, spare);
            && Bounded(r.client)
            && (r.end == Running ==> Told(r.client, x.received[..x.read + 1]) && Once(r.client, accepted))
  {
    hide SelfOk, Agrees, Receive, HasKind;
    var e, read := x.received[x.read], x.received[..x.read];
    GateReadsNext(attempt, seat, c, x);
    assert x.received[..x.read + 1] == read + [e];
    KindAppend(read, e, ProbeChallenge);
    KindAppend(read, e, ProbeResponse);
    if x.read == 0 {
      NoKind(ProbeChallenge);
      NoKind(ProbeResponse);
      assert read == [];
      FirstTells(c, hash, e, nonce, spare, accepted);
    } else if e.kind == ProbeChallenge {
      ReceivesChallenge(c, hash, e, nonce, spare);
      ChallengeTells(c, hash, e, nonce, spare);
    } else {
      ReceivesOther(c, hash, e, nonce, spare);
      OtherTells(c, hash, e, nonce, spare);
    }
  }

  lemma FirstTells(c: Client, hash: seq<Byte> -> Digest, e: Envelope, nonce: seq<Byte>, spare: int,
                   accepted: seq<Pending>)
    requires AcceptFrame(c.hs.gate, e).Ok? && c.hs.gate.epoch == None && e.kind == PeerReady
    requires Told(c, []) && Once(c, accepted)
    ensures var d := Receive(c, hash, e, nonce, spare).client;
            && d.authenticated && d.hs.peerReady && !d.hs.answered && !d.hs.returned && !d.hs.proven
            && Bounded(d) && Once(d, accepted)
  {
    hide EncodeError;
  }

  // What a frame that is no PEER_READY does to the events and the generations.
  predicate Proves(c: Client, d: Client, end: End) {
    && d.authenticated == c.authenticated && d.hs.peerReady == c.hs.peerReady
    && d.app.advertisedIn == c.app.advertisedIn && d.app.sideReadyIn == c.app.sideReadyIn
    && (end == Running ==>
          d.hs.proofGeneration == c.hs.proofGeneration + if d.hs.proven && !c.hs.proven then 1 else 0)
    && (end == Running ==> (d.hs.proven <==> c.hs.proven || (d.hs.answered && d.hs.returned)))
    && (end != Running ==> d.hs.proofGeneration == c.hs.proofGeneration)
  }

  lemma ChallengeTells(c: Client, hash: seq<Byte> -> Digest, e: Envelope, nonce: seq<Byte>, spare: int)
    requires AcceptFrame(c.hs.gate, e).Ok? && e.kind == ProbeChallenge
    ensures var r := Receive(c, hash, e, nonce, spare);
            Proves(c, r.client, r.end)
              && (r.end == Running ==> r.client.hs.answered && r.client.hs.returned == c.hs.returned)
  {
    hide EncodeError;
  }

  lemma OtherTells(c: Client, hash: seq<Byte> -> Digest, e: Envelope, nonce: seq<Byte>, spare: int)
    requires AcceptFrame(c.hs.gate, e).Ok? && e.kind != ProbeChallenge && e.kind != PeerReady
    ensures var r := Receive(c, hash, e, nonce, spare);
            Proves(c, r.client, r.end)
  {
    hide EncodeError;
  }

  lemma {:induction false} PumpTells(c: Client, budget: nat)
    ensures var d := Pump(c, budget).client;
            d.hs == c.hs && d.app == c.app && d.authenticated == c.authenticated
    decreases budget
  {
    if budget > 0 && c.outbox != [] && SendFirst(c).end == Running {
      PumpTells(SendFirst(c).client, budget - 1);
    }
  }

  // A request is accepted exactly when the data plane is proven, there is room, the payload fits
  // its kind, and an advertisement or SIDE_READY is the first of the connection.
  lemma AcceptsExactly(c: Client, kind: Kind, payload: seq<Byte>, flags: int, accepted: seq<Pending>)
    requires Once(c, accepted)
    ensures Queued(c, kind, payload, flags).Ok? <==>
              && c.hs.proven
              && !(c.cfg.capacity > 0 && |c.outbox| >= c.cfg.capacity)
              && (if kind == Advertisement || kind == SideReady then
                    |payload| <= MAX_PAYLOAD_BYTES && !AsksKind(accepted, kind)
                  else 0 < |payload| <= MAX_RFU_PAYLOAD_BYTES && 0 <= flags <= 0xFF)
  {
    hide AsksKind;
  }

  // Why a request is refused: the first of the proof, the repetition, the payload and the room.
  lemma RefusedExactly(c: Client, kind: Kind, payload: seq<Byte>, flags: int)
    ensures var again := (kind == Advertisement && c.app.advertisedIn == c.hs.proofGeneration)
                         || (kind == SideReady && c.app.sideReadyIn == c.hs.proofGeneration);
            var bad := if kind == Advertisement || kind == SideReady then |payload| > MAX_PAYLOAD_BYTES
                       else !(0 < |payload| <= MAX_RFU_PAYLOAD_BYTES && 0 <= flags <= 0xFF);
            var full, r := c.cfg.capacity > 0 && |c.outbox| >= c.cfg.capacity, Queued(c, kind, payload, flags);
            if !c.hs.proven then r == Err(NotProven)
            else if again then r == Err(AlreadySent)
            else if bad then r == Err(BadPayload)
            else if full then r == Err(OutboxFull)
            else r.Ok?
  {
  }

  lemma AcceptedOnce(c: Client, op: Op, accepted: seq<Pending>)
    requires op.OpPut? && Once(c, accepted) && Queued(c, op.kind, op.payload, op.flags).Ok?
    ensures var d := Queued(c, op.kind, op.payload, op.flags).value;
            d.hs == c.hs && d.authenticated == c.authenticated && Once(d, accepted + [Asked(op)])
  {
    AskAppend(accepted, Asked(op), Advertisement);
    AskAppend(accepted, Asked(op), SideReady);
  }

  // The step leaves the client of the seat and what it has read alone.
  predicate SameClient(w: World, v: World, seat: Seat) {
    && v.ClientOf(seat) == w.ClientOf(seat) && v.ConnOf(seat) == w.ConnOf(seat) && |w.wires| <= |v.wires|
    && (Connected(w, seat) ==>
          var x, y := w.wires[w.ConnOf(seat).value], v.wires[w.ConnOf(seat).value];
          y.read == x.read && x.received <= y.received)
  }

  predicate IsOf(op: Op, seat: Seat) {
    !op.OpTake? && !op.OpLose? && !op.OpShut? && op.seat == seat
  }

  lemma OthersSameClient(adm: Admission, w: World, op: Op, seat: Seat)
    requires Inv(adm, w) && !IsOf(op, seat)
    ensures SameClient(w, Step(w, adm, op), seat)
  {
    hide Inv, SameReads, OpenStep, ReadStep, PumpStep, PutStep, TakeStep, LoseStep;
    StepWires(adm, w, op);
    assert !Concerns(op, seat);
    Unnoticed(adm, w, op, seat);
    if Connected(w, seat) {
      ConnSeat(adm, w, seat);
      SameReadsAt(w.wires, Step(w, adm, op).wires, seat, w.ConnOf(seat).value);
    }
    OthersSame(adm, w, op, seat);
  }

  lemma SameReadsAt(ws: seq<Wire>, vs: seq<Wire>, seat: Seat, c: Conn)
    requires SameReads(ws, vs, seat) && c < |ws| && ws[c].seat == seat
    ensures vs[c].read == ws[c].read && ws[c].received <= vs[c].received
  {
  }

  lemma OthersSame(adm: Admission, w: World, op: Op, seat: Seat)
    requires !IsOf(op, seat)
    ensures Step(w, adm, op).ClientOf(seat) == w.ClientOf(seat) && Step(w, adm, op).ConnOf(seat) == w.ConnOf(seat)
  {
    hide Process, Drop, Connect, Receive, Pump, Queued, Open;
    assert !op.OpTake? && !op.OpLose? && !op.OpShut? ==> seat == op.seat.Peer();
  }

  lemma SameClientKeeps(w: World, v: World, seat: Seat, accepted: seq<Pending>)
    requires ReadyOk(w, seat, accepted) && SameClient(w, v, seat)
    requires w.ConnOf(seat).Some? ==> Connected(w, seat)
    ensures ReadyOk(v, seat, accepted)
  {
    hide Told, Once;
    if Connected(w, seat) {
      var x, y := w.wires[w.ConnOf(seat).value], v.wires[w.ConnOf(seat).value];
      assert y.received[..y.read] == x.received[..x.read];
    }
  }

  lemma OpenReady(w: World, seat: Seat, epoch: int, replayed: bool, accepted: seq<Pending>)
    requires ReadyOk(w, seat, accepted) && Opens(w, seat)
    requires AttemptBytes(w.ClientOf(seat).cfg.attempt).Ok? && 0 <= epoch <= MAX_UINT64
    ensures ReadyOk(OpenStep(w, seat, epoch, replayed), seat, [])
  {
    OpenStepFields(w, seat, epoch, replayed);
    var v := OpenStep(w, seat, epoch, replayed);
    var x := v.wires[|w.wires|];
    assert x.received[..0] == [];
  }

  lemma SettledReady(w: World, seat: Seat, y: Wire, r: Reaction, accepted: seq<Pending>)
    requires Connected(w, seat) && Bounded(r.client)
    requires r.end == Running ==>
      y.read <= |y.received| && Told(r.client, y.received[..y.read]) && Once(r.client, accepted)
    ensures var conn := w.ConnOf(seat).value;
            ReadyOk(Settle(w.(wires := w.wires[conn := y]), seat, conn, r), seat, accepted)
  {
    hide Told, Once;
  }

  lemma ReadReady(adm: Admission, w: World, seat: Seat, nonce: seq<Byte>, spare: int, accepted: seq<Pending>)
    requires Inv(adm, w) && ReadyOk(w, seat, accepted)
    ensures ReadyOk(ReadStep(w, adm, seat, nonce, spare), seat, accepted)
  {
    hide Told, Once, Receive, WiresOk, RelayOk, SelfOk, Agrees;
    if Connected(w, seat) && w.wires[w.ConnOf(seat).value].read < |w.wires[w.ConnOf(seat).value].received| {
      var conn := w.ConnOf(seat).value;
      var c, x := w.ClientOf(seat), w.wires[conn];
      assert ClientOk(adm.attempt, w.wires, seat, c, w.ConnOf(seat));
      WireSelfOk(adm, w, conn);
      ReadTells(adm.attempt, seat, c, x, adm.hash, nonce, spare, accepted);
      var e := x.received[x.read];
      var r := Receive(c, adm.hash, e, nonce, spare);
      var drawn := if e.kind == PeerReady && r.end == Running then Some(nonce) else x.nonce;
      SettledReady(w, seat, x.(read := x.read + 1, sent := x.sent + r.sent, nonce := drawn), r, accepted);
    }
  }

  lemma WireSelfOk(adm: Admission, w: World, conn: Conn)
    requires Inv(adm, w) && conn < |w.wires|
    ensures SelfOk(adm.attempt, w.wires[conn])
  {
    hide SelfOk, Sourced, RelayOk, ClientOk;
  }

  lemma PumpReady(w: World, seat: Seat, budget: nat, accepted: seq<Pending>)
    requires ReadyOk(w, seat, accepted)
    ensures ReadyOk(PumpStep(w, seat, budget), seat, accepted)
  {
    hide Pump, HasKind, AsksKind;
    if Connected(w, seat) {
      var x, n := w.wires[w.ConnOf(seat).value], if budget < PUMP_LIMIT then budget else PUMP_LIMIT;
      PumpTells(w.ClientOf(seat), n);
      var r := Pump(w.ClientOf(seat), n);
      SettledReady(w, seat, x.(sent := x.sent + r.sent), r, accepted);
    }
  }

  lemma PutReady(w: World, op: Op, accepted: seq<Pending>)
    requires op.OpPut? && ReadyOk(w, op.seat, accepted)
    requires w.ConnOf(op.seat).Some? ==> Connected(w, op.seat)
    ensures var more := if w.ConnOf(op.seat).Some? then AcceptedNow(w, op, w.ConnOf(op.seat).value) else [];
            ReadyOk(PutStep(w, op.seat, op.kind, op.payload, op.flags), op.seat, accepted + more)
  {
    hide HasKind, AsksKind, Queued;
    var c := w.ClientOf(op.seat);
    assert accepted + [] == accepted;
    if w.ConnOf(op.seat).None? {
      NothingAccepted(c, op);
    } else if Queued(c, op.kind, op.payload, op.flags).Ok? {
      AcceptedOnce(c, op, accepted);
    }
  }

  lemma NothingAccepted(c: Client, op: Op)
    requires op.OpPut? && !c.hs.proven
    ensures Queued(c, op.kind, op.payload, op.flags).Err?
  {
  }

  lemma IdleReady(adm: Admission, w: World, op: Op, accepted: seq<Pending>)
    requires (op.OpPoll? || op.OpAbandon?) && ReadyOk(w, op.seat, accepted)
    ensures ReadyOk(Step(w, adm, op), op.seat, accepted)
  {
    hide HasKind, AsksKind;
  }

  // ---- runs ---------------------------------------------------------------------------------

  // What a step adds to the requests accepted on the present connection of a seat; a new one starts
  // with none.
  function AcceptedNext(w: World, v: World, op: Op, seat: Seat, accepted: seq<Pending>): seq<Pending> {
    if v.ConnOf(seat).None? || v.ConnOf(seat) != w.ConnOf(seat) then []
    else accepted + AcceptedNow(w, op, v.ConnOf(seat).value)
  }

  lemma OnWires(adm: Admission, w: World, seat: Seat)
    requires Inv(adm, w)
    ensures w.ConnOf(seat).Some? ==> Connected(w, seat) && w.wires[w.ConnOf(seat).value].seat == seat
    ensures AttemptBytes(w.ClientOf(seat).cfg.attempt).Ok?
  {
    hide WiresOk, RelayOk, IsRun;
    assert ClientOk(adm.attempt, w.wires, seat, w.ClientOf(seat), w.ConnOf(seat));
  }

  // Nobody else's request is accepted on a connection.
  lemma NoneAccepted(adm: Admission, w: World, op: Op, seat: Seat)
    requires Inv(adm, w) && !(op.OpPut? && op.seat == seat) && w.ConnOf(seat).Some?
    ensures AcceptedNow(w, op, w.ConnOf(seat).value) == []
  {
    hide Inv, Queued;
    OnWires(adm, w, seat);
    if op.OpPut? {
      OnWires(adm, w, op.seat);
    }
  }

  lemma Unconnected(w: World, seat: Seat, accepted: seq<Pending>, other: seq<Pending>)
    requires ReadyOk(w, seat, accepted) && w.ConnOf(seat).None?
    ensures ReadyOk(w, seat, other)
  {
  }

  lemma StepReady(adm: Admission, w: World, op: Op, seat: Seat, accepted: seq<Pending>)
    requires Inv(adm, w) && Allowed(w, op) && ReadyOk(w, seat, accepted)
    ensures var v := Step(w, adm, op); ReadyOk(v, seat, AcceptedNext(w, v, op, seat, accepted))
  {
    hide Inv, ReadyOk, OpenStep, TakeStep, LoseStep, ReadStep, PumpStep, PutStep, AcceptedNow, SameClient;
    var v := Step(w, adm, op);
    OnWires(adm, w, seat);
    assert accepted + [] == accepted;
    if op.OpPut? && op.seat == seat {
      PutReady(w, op, accepted);
      PutStays(w, op);
      if w.ConnOf(seat).None? {
        Unconnected(v, seat, accepted, []);
      }
    } else {
      if w.ConnOf(seat).Some? {
        NoneAccepted(adm, w, op, seat);
      }
      OtherReady(adm, w, op, seat, accepted);
      if v.ConnOf(seat).None? {
        Unconnected(v, seat, accepted, []);
      }
    }
  }

  lemma PutStays(w: World, op: Op)
    requires op.OpPut?
    ensures PutStep(w, op.seat, op.kind, op.payload, op.flags).ConnOf(op.seat) == w.ConnOf(op.seat)
  {
    hide Queued;
  }

  // Steps that accept nothing: the client keeps its connection, leaves it, or gets a new one.
  lemma OtherReady(adm: Admission, w: World, op: Op, seat: Seat, accepted: seq<Pending>)
    requires Inv(adm, w) && Allowed(w, op) && ReadyOk(w, seat, accepted) && !(op.OpPut? && op.seat == seat)
    ensures var v := Step(w, adm, op);
            if v.ConnOf(seat).Some? && v.ConnOf(seat) != w.ConnOf(seat) then ReadyOk(v, seat, [])
            else ReadyOk(v, seat, accepted)
  {
    hide Inv, ReadyOk, OpenStep, TakeStep, LoseStep, ReadStep, PumpStep, PutStep, SameClient;
    var v := Step(w, adm, op);
    OnWires(adm, w, seat);
    if !IsOf(op, seat) {
      OthersSameClient(adm, w, op, seat);
      SameClientConn(w, v, seat);
      SameClientKeeps(w, v, seat, accepted);
    } else {
      match op
      case OpOpen(_, epoch, replayed) =>
        if Opens(w, seat) {
          OpenStepFields(w, seat, epoch, replayed);
          OpenReady(w, seat, epoch, replayed, accepted);
        } else {
          NothingOpens(w, seat, epoch, replayed);
        }
      case OpRead(_, nonce, spare) =>
        ReadReady(adm, w, seat, nonce, spare, accepted);
        SettlesConn(adm, w, op);
      case OpPump(_, budget) =>
        PumpReady(w, seat, budget, accepted);
        SettlesConn(adm, w, op);
      case _ => IdleReady(adm, w, op, accepted);
    }
  }

  lemma SameClientConn(w: World, v: World, seat: Seat)
    requires SameClient(w, v, seat)
    ensures v.ConnOf(seat) == w.ConnOf(seat)
  {
  }

  lemma SettlesConn(adm: Admission, w: World, op: Op)
    requires op.OpRead? || op.OpPump?
    ensures Step(w, adm, op).ConnOf(op.seat) in {w.ConnOf(op.seat), None}
  {
    hide Receive, Pump;
  }

  // What was accepted on the connection a seat is on.
  function AcceptedHere(adm: Admission, start: World, ops: seq<Op>, seat: Seat): seq<Pending> {
    var w := Run(adm, start, ops);
    if w.ConnOf(seat).None? then [] else AcceptedOn(adm, start, ops, w.ConnOf(seat).value)
  }

  lemma {:induction false} ReadyRun(adm: Admission, start: World, ops: seq<Op>, seat: Seat)
    requires Inv(adm, start) && AllAllowed(adm, start, ops) && start.wires == []
    requires ReadyOk(start, seat, []) && start.ConnOf(seat).None?
    ensures ReadyOk(Run(adm, start, ops), seat, AcceptedHere(adm, start, ops, seat))
    decreases |ops|
  {
    hide Inv, AllAllowed, ReadyOk, Step, AcceptedNow, Allowed;
    if ops != [] {
      var p, op := ops[..|ops| - 1], ops[|ops| - 1];
      var w, v := Run(adm, start, p), Run(adm, start, ops);
      AllowedBefore(adm, start, ops);
      AllowedLast(adm, start, ops);
      ReadyRun(adm, start, p, seat);
      RunKeepsInv(adm, start, p);
      StepReady(adm, w, op, seat, AcceptedHere(adm, start, p, seat));
      if v.ConnOf(seat).Some? && v.ConnOf(seat) != w.ConnOf(seat) {
        NewConn(adm, w, op, seat);
        FlowRun(adm, start, p, v.ConnOf(seat).value);
        NotYet(adm, w, op, v.ConnOf(seat).value);
        assert AcceptedOn(adm, start, ops, v.ConnOf(seat).value) == [];
      }
      assert AcceptedHere(adm, start, ops, seat) == AcceptedNext(w, v, op, seat, AcceptedHere(adm, start, p, seat));
    }
  }

  lemma NewConn(adm: Admission, w: World, op: Op, seat: Seat)
    requires var v := Step(w, adm, op); v.ConnOf(seat).Some? && v.ConnOf(seat) != w.ConnOf(seat)
    ensures Step(w, adm, op).ConnOf(seat) == Some(|w.wires|)
  {
    hide Process, Drop, Connect, Receive, Pump, Queued, Open;
    if !IsOf(op, seat) {
      OthersSame(adm, w, op, seat);
    }
  }

  // After any run a client calls its peer ready exactly when it has read a frame on its connection,
  // and the data plane proven exactly when it has read a challenge and a response there; without
  // a connection it calls nothing ready.
  lemma ReadinessExactly(adm: Admission, expectedA: Option<Digest>, expectedB: Option<Digest>, capacity: nat,
                         ops: seq<Op>, seat: Seat)
    requires var start := NewWorld(adm, expectedA, expectedB, capacity);
             ReachedBy(adm, expectedA, expectedB, capacity, ops, Run(adm, start, ops))
    ensures var w := Run(adm, NewWorld(adm, expectedA, expectedB, capacity), ops);
            var c := w.ClientOf(seat);
            if w.ConnOf(seat).None? then !c.authenticated && !c.hs.peerReady && !c.hs.proven
            else
              && Connected(w, seat)
              && var x := w.wires[w.ConnOf(seat).value];
              && x.read <= |x.received| && c.authenticated
              && (c.hs.peerReady <==> x.read > 0)
              && (c.hs.proven <==> HasKind(x.received[..x.read], ProbeChallenge)
                                   && HasKind(x.received[..x.read], ProbeResponse))
  {
    hide Run, AllAllowed, Inv, HasKind, AcceptedOn, Once;
    ReachedReady(adm, expectedA, expectedB, capacity, ops, seat);
  }

  lemma ReachedReady(adm: Admission, expectedA: Option<Digest>, expectedB: Option<Digest>, capacity: nat,
                     ops: seq<Op>, seat: Seat)
    requires var start := NewWorld(adm, expectedA, expectedB, capacity);
             ReachedBy(adm, expectedA, expectedB, capacity, ops, Run(adm, start, ops))
    ensures var start := NewWorld(adm, expectedA, expectedB, capacity);
            var w := Run(adm, start, ops);
            && ReadyOk(w, seat, AcceptedHere(adm, start, ops, seat))
            && (w.ConnOf(seat).Some? ==> Connected(w, seat))
  {
    hide Run, AllAllowed, Inv, AcceptedOn;
    var start := NewWorld(adm, expectedA, expectedB, capacity);
    NewWorldOk(adm, expectedA, expectedB, capacity);
    ReadyRun(adm, start, ops, seat);
    RunKeepsInv(adm, start, ops);
    OnWires(adm, Run(adm, start, ops), seat);
  }

  // After any run a connected client accepts a request exactly when the data plane is proven, the
  // outbox has room and the payload fits, and an advertisement or a SIDE_READY only if it has
  // accepted none on this connection.
  lemma RequestExactly(adm: Admission, expectedA: Option<Digest>, expectedB: Option<Digest>, capacity: nat,
                       ops: seq<Op>, seat: Seat, kind: Kind, payload: seq<Byte>, flags: int)
    requires var start := NewWorld(adm, expectedA, expectedB, capacity);
             ReachedBy(adm, expectedA, expectedB, capacity, ops, Run(adm, start, ops))
             && Run(adm, start, ops).ConnOf(seat).Some?
    ensures var start := NewWorld(adm, expectedA, expectedB, capacity);
            var w := Run(adm, start, ops);
            var c := w.ClientOf(seat);
            var accepted := AcceptedOn(adm, start, ops, w.ConnOf(seat).value);
            Queued(c, kind, payload, flags).Ok? <==>
              && c.hs.proven
              && !(c.cfg.capacity > 0 && |c.outbox| >= c.cfg.capacity)
              && (if kind == Advertisement || kind == SideReady then
                    |payload| <= MAX_PAYLOAD_BYTES && !AsksKind(accepted, kind)
                  else 0 < |payload| <= MAX_RFU_PAYLOAD_BYTES && 0 <= flags <= 0xFF)
  {
    hide Run, AllAllowed, Inv, AcceptedOn, Queued, Told, Once, AsksKind;
    ReachedReady(adm, expectedA, expectedB, capacity, ops, seat);
    var start := NewWorld(adm, expectedA, expectedB, capacity);
    var w := Run(adm, start, ops);
    AcceptsExactly(w.ClientOf(seat), kind, payload, flags, AcceptedOn(adm, start, ops, w.ConnOf(seat).value));
  }

  // ---- one frame ----------------------------------------------------------------------------

  // How reading an accepted frame ends, by its kind: a wrong response and an advertisement that is
  // early, unexpected or changed stop the client for good; a close and a full inbox make it connect
  // afresh.
  lemma FrameEndsExactly(c: Client, hash: seq<Byte> -> Digest, e: Envelope, nonce: seq<Byte>, spare: int)
    requires AcceptFrame(c.hs.gate, e).Ok? && (e.kind == PeerReady ==> c.hs.gate.epoch == None)
    requires e.kind == PeerReady ==> Valid(NextFrame(c, ProbeChallenge, nonce, 0))
    requires e.kind == ProbeChallenge ==> Valid(NextFrame(c, ProbeResponse, e.payload, 0))
    ensures var digest, full := hash(e.payload), c.cfg.capacity > 0 && |c.app.inbox| >= c.cfg.capacity;
            Receive(c, hash, e, nonce, spare).end ==
            if e.kind == ProbeResponse then
              if c.hs.challenge == Some(e.payload) then Running else Fatal(ProbeMismatch)
            else if e.kind == Advertisement then
              if !c.hs.proven then Fatal(AdvertisementEarly)
              else if c.cfg.expected.Some? && c.cfg.expected.value != digest then Fatal(AdvertisementHashMismatch)
              else if c.app.received.Some? then
                if c.app.received.value == digest then Running else Fatal(AdvertisementChanged)
              else if full then Reconnecting else Running
            else if e.kind == PeerClose then Reconnecting
            else if e.kind == SideReady || e.kind == Rfu then if full then Reconnecting else Running
            else Running
  {
  }

  // What is answered: a challenge to the first announcement, the challenge itself to a challenge,
  // nothing to anything else.
  lemma FrameAnswersExactly(c: Client, hash: seq<Byte> -> Digest, e: Envelope, nonce: seq<Byte>, spare: int)
    requires AcceptFrame(c.hs.gate, e).Ok? && (e.kind == PeerReady ==> c.hs.gate.epoch == None)
    requires Receive(c, hash, e, nonce, spare).end == Running
    ensures var r, attempt, seat := Receive(c, hash, e, nonce, spare), c.cfg.attempt, c.cfg.seat;
            && r.sent == (if e.kind == PeerReady then
                            [Envelope(attempt, seat, c.epoch, c.sequence, ProbeChallenge, nonce)]
                          else if e.kind == ProbeChallenge then
                            [Envelope(attempt, seat, c.epoch, c.sequence, ProbeResponse, e.payload)]
                          else [])
            && r.client.sequence == c.sequence + |r.sent| && r.client.epoch == c.epoch
            && r.client.hs.challenge == (if e.kind == PeerReady then Some(nonce) else c.hs.challenge)
            && r.client.hs.gate == AcceptFrame(c.hs.gate, e).value
  {
    hide EncodeError;
  }

  // A second epoch of the peer on one connection makes the client start over under a new epoch of
  // its own: nothing is proven any more, and it announces itself before it challenges.
  lemma LaterEpochRestarts(c: Client, hash: seq<Byte> -> Digest, e: Envelope, nonce: seq<Byte>, spare: int)
    requires AcceptFrame(c.hs.gate, e).Ok? && e.kind == PeerReady
    requires c.hs.gate.epoch.Some? && c.hs.gate.epoch != Some(e.epoch)
    requires Receive(c, hash, e, nonce, spare).end == Running
    ensures var r := Receive(c, hash, e, nonce, spare);
            && r.sent == [Envelope(c.cfg.attempt, c.cfg.seat, spare, 0, PeerReady),
                          Envelope(c.cfg.attempt, c.cfg.seat, spare, 1, ProbeChallenge, nonce)]
            && r.client.epoch == spare && r.client.sequence == 2
            && r.client.hs.peerReady && !r.client.hs.proven && !r.client.hs.returned && !r.client.hs.answered
            && r.client.hs.challenge == Some(nonce) && r.client.hs.proofGeneration == c.hs.proofGeneration
            && r.client.outbox == c.outbox && r.client.app == c.app
  {
    hide EncodeError;
  }

  // A new connection counts, drops what waited in both queues, forgets the proof, and announces
  // itself under its epoch.
  lemma OpenExactly(c: Client, epoch: int)
    requires AttemptBytes(c.cfg.attempt).Ok? && 0 <= epoch <= MAX_UINT64
    ensures var r := Open(c, epoch);
            && r.end == Running && r.sent == [Envelope(c.cfg.attempt, c.cfg.seat, epoch, 0, PeerReady)]
            && r.client == Client(c.cfg, epoch, 1,
                                  Handshake(Gate(c.cfg.attempt, c.cfg.seat.Peer(), None, 0, {}), None, false, false,
                                            false, false, c.hs.proofGeneration),
                                  c.app.(inbox := []), [], true, c.connectionGeneration + 1, c.stopped)
  {
  }
}
