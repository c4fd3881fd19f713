/**
 From one application to the other: what a client queues goes out unchanged and in order, and the
 RFU data one application is handed is the beginning of what the other one queued.
 */
module TunnelEndToEnd {
  import opened Common
  import opened Bytes
  import opened Envelopes
  import opened SequenceGates
  import opened RelaySessions
  import opened TunnelClients
  import opened TunnelSystem
  import opened TunnelProperties
  import opened TunnelDelivery

  // The data frames among some frames, without their place in the stream.
  function DataOf(frames: seq<Envelope>): (data: seq<Pending>)
  {
    if frames == [] then []
    else
      var e := frames[|frames| - 1];
      DataOf(frames[..|frames| - 1]) + if DataKind(e.kind) then [Pending(e.kind, e.payload, e.flags)] else []
  }

  // What the application asked to send.
  function Asked(op: Op): Pending
    requires op.OpPut?
  {
    if op.kind == Advertisement || op.kind == SideReady then Pending(op.kind, op.payload, 0)
    else Pending(Rfu, op.payload, op.flags)
  }

  // What the client of a seat accepts from its application while it is on this connection.
  function AcceptedNow(w: World, op: Op, conn: Conn): seq<Pending> {
    if op.OpPut? && w.ConnOf(op.seat) == Some(conn)
       && Queued(w.ClientOf(op.seat), op.kind, op.payload, op.flags).Ok? then [Asked(op)] else []
  }

  function AcceptedOn(adm: Admission, start: World, ops: seq<Op>, conn: Conn): (data: seq<Pending>)
  {
    if ops == [] then []
    else
      var p := ops[..|ops| - 1];
      AcceptedOn(adm, start, p, conn) + AcceptedNow(Run(adm, start, p), ops[|ops| - 1], conn)
  }

  // The data sent on a connection is the beginning of what was accepted there, and the outbox is
  // the rest while the client is on it.
  predicate Flows(w: World, conn: Conn, accepted: seq<Pending>) {
    && conn < |w.wires|
    && var x := w.wires[conn];
    && DataOf(x.sent) <= accepted
    && (w.ConnOf(x.seat) == Some(conn) ==> DataOf(x.sent) + w.ClientOf(x.seat).outbox == accepted)
  }

  // ---- data in lists of frames --------------------------------------------------------------

  lemma {:induction false} DataAppend(xs: seq<Envelope>, ys: seq<Envelope>)
    ensures DataOf(xs + ys) == DataOf(xs) + DataOf(ys)
    decreases |ys|
  {
    if ys == [] {
      assert xs + ys == xs;
    } else {
      var init := ys[..|ys| - 1];
      assert (xs + ys)[..|xs + ys| - 1] == xs + init;
      DataAppend(xs, init);
    }
  }

  lemma OneData(e: Envelope)
    ensures DataOf([e]) == if DataKind(e.kind) then [Pending(e.kind, e.payload, e.flags)] else []
  {
    assert [e][..0] == [];
  }

  // ---- what a client sends ------------------------------------------------------------------

  lemma KindSendsNoData(c: Client, hash: seq<Byte> -> Digest, prior: Option<int>, e: Envelope, nonce: seq<Byte>,
                        spare: int)
    ensures var r := OnKind(c, hash, prior, e, nonce, spare);
            r.client.outbox == c.outbox && forall i :: 0 <= i < |r.sent| ==> !DataKind(r.sent[i].kind)
  {
    hide EncodeError;
  }

  // Whatever a client answers to a frame, it is no data, and the outbox stays.
  lemma ReceiveSendsNoData(c: Client, hash: seq<Byte> -> Digest, e: Envelope, nonce: seq<Byte>, spare: int)
    ensures var r := Receive(c, hash, e, nonce, spare);
            r.client.outbox == c.outbox && forall i :: 0 <= i < |r.sent| ==> !DataKind(r.sent[i].kind)
  {
    hide OnKind;
    if AcceptFrame(c.hs.gate, e).Ok? {
      KindSendsNoData(Gated(c, AcceptFrame(c.hs.gate, e).value), hash, c.hs.gate.epoch, e, nonce, spare);
    }
  }

  lemma {:induction false} NoData(frames: seq<Envelope>)
    requires forall i :: 0 <= i < |frames| ==> !DataKind(frames[i].kind)
    ensures DataOf(frames) == []
  {
    if frames != [] {
      NoData(frames[..|frames| - 1]);
    }
  }

  lemma FirstMoves(c: Client)
    requires c.outbox != [] && DataKind(c.outbox[0].kind)
    ensures var r := SendFirst(c);
            && r.client.outbox == c.outbox[1..]
            && (if r.end == Running then DataOf(r.sent) == [c.outbox[0]] else r.sent == [])
  {
    var r := SendFirst(c);
    if r.end == Running {
      OneData(r.sent[0]);
      assert r.sent == [r.sent[0]];
    }
  }

  // Pumping moves frames from the outbox to the connection, in order and as they were queued; the
  // frame that cannot be sent is lost with the connection.
  lemma {:induction false} PumpMoves(c: Client, budget: nat)
    requires forall i :: 0 <= i < |c.outbox| ==> DataKind(c.outbox[i].kind)
    ensures var r := Pump(c, budget);
            && (r.end == Running ==> DataOf(r.sent) + r.client.outbox == c.outbox)
            && DataOf(r.sent) <= c.outbox
    decreases budget
  {
    hide SendFirst, DataKind;
    if budget > 0 && c.outbox != [] {
      var first := SendFirst(c);
      FirstMoves(c);
      assert c.outbox == [c.outbox[0]] + c.outbox[1..];
      if first.end == Running {
        PumpMoves(first.client, budget - 1);
        DataAppend(first.sent, Pump(first.client, budget - 1).sent);
      }
    }
  }

  // ---- one step -----------------------------------------------------------------------------

  // Nothing is sent on the connection and the outbox of its seat stays, or the client has left it.
  predicate SameFlow(w: World, v: World, conn: Conn)
    requires conn < |w.wires|
  {
    && conn < |v.wires| && v.wires[conn].seat == w.wires[conn].seat && v.wires[conn].sent == w.wires[conn].sent
    && (v.ConnOf(w.wires[conn].seat) == Some(conn) ==>
          && w.ConnOf(w.wires[conn].seat) == Some(conn)
          && v.ClientOf(w.wires[conn].seat).outbox == w.ClientOf(w.wires[conn].seat).outbox)
  }

  lemma TakeSameFlow(adm: Admission, w: World, seat: Seat, arrives: bool, conn: Conn)
    requires conn < |w.wires|
    ensures SameFlow(w, TakeStep(w, adm, seat, arrives), conn) && SameFlow(w, LoseStep(w, seat, arrives), conn)
  {
    hide Process, Drop, Closing;
  }

  lemma OpenSameFlow(w: World, seat: Seat, epoch: int, replayed: bool, conn: Conn)
    requires conn < |w.wires|
    ensures SameFlow(w, OpenStep(w, seat, epoch, replayed), conn)
  {
    hide Connect, Open;
    assert w.wires[conn].seat == seat || w.wires[conn].seat == seat.Peer();
  }

  lemma ReadFlows(adm: Admission, w: World, seat: Seat, nonce: seq<Byte>, spare: int, conn: Conn,
                  accepted: seq<Pending>)
    requires Flows(w, conn, accepted) && (Connected(w, seat) ==> w.wires[w.ConnOf(seat).value].seat == seat)
    ensures Flows(ReadStep(w, adm, seat, nonce, spare), conn, accepted)
  {
    hide Receive;
    var v := ReadStep(w, adm, seat, nonce, spare);
    assert w.wires[conn].seat == seat || w.wires[conn].seat == seat.Peer();
    if Connected(w, seat) && w.wires[w.ConnOf(seat).value].read < |w.wires[w.ConnOf(seat).value].received| {
      var on := w.ConnOf(seat).value;
      var x := w.wires[on];
      var r := Receive(w.ClientOf(seat), adm.hash, x.received[x.read], nonce, spare);
      ReceiveSendsNoData(w.ClientOf(seat), adm.hash, x.received[x.read], nonce, spare);
      DataAppend(x.sent, r.sent);
      NoData(r.sent);
      assert DataOf(v.wires[on].sent) == DataOf(x.sent);
    }
  }

  lemma PumpFlows(w: World, seat: Seat, budget: nat, conn: Conn, accepted: seq<Pending>)
    requires Flows(w, conn, accepted) && (Connected(w, seat) ==> w.wires[w.ConnOf(seat).value].seat == seat)
    requires forall i :: 0 <= i < |w.ClientOf(seat).outbox| ==> DataKind(w.ClientOf(seat).outbox[i].kind)
    ensures Flows(PumpStep(w, seat, budget), conn, accepted)
  {
    hide Pump;
    var v := PumpStep(w, seat, budget);
    assert w.wires[conn].seat == seat || w.wires[conn].seat == seat.Peer();
    if Connected(w, seat) {
      var on, n := w.ConnOf(seat).value, if budget < PUMP_LIMIT then budget else PUMP_LIMIT;
      var c, x := w.ClientOf(seat), w.wires[on];
      var r := Pump(c, n);
      PumpMoves(c, n);
      DataAppend(x.sent, r.sent);
      assert DataOf(v.wires[on].sent) == DataOf(x.sent) + DataOf(r.sent);
      if on == conn {
        Together(DataOf(x.sent), DataOf(r.sent), c.outbox, accepted);
      }
    }
  }

  lemma Together(sent: seq<Pending>, more: seq<Pending>, outbox: seq<Pending>, accepted: seq<Pending>)
    requires sent + outbox == accepted && more <= outbox
    ensures sent + more <= accepted
    ensures forall rest :: more + rest == outbox ==> (sent + more) + rest == accepted
  {
  }

  lemma PutFlows(w: World, op: Op, conn: Conn, accepted: seq<Pending>)
    requires Flows(w, conn, accepted) && op.OpPut?
    requires Connected(w, op.seat) ==> w.wires[w.ConnOf(op.seat).value].seat == op.seat
    ensures Flows(PutStep(w, op.seat, op.kind, op.payload, op.flags), conn, accepted + AcceptedNow(w, op, conn))
  {
    var seat := op.seat;
    assert w.wires[conn].seat == seat || w.wires[conn].seat == seat.Peer();
    assert accepted + [] == accepted;
    if Queued(w.ClientOf(seat), op.kind, op.payload, op.flags).Ok? {
      QueuedLast(w.ClientOf(seat), op);
      var sent, outbox := DataOf(w.wires[conn].sent), w.ClientOf(seat).outbox;
      assert sent + (outbox + [Asked(op)]) == (sent + outbox) + [Asked(op)];
    }
  }

  lemma QueuedLast(c: Client, op: Op)
    requires op.OpPut? && Queued(c, op.kind, op.payload, op.flags).Ok?
    ensures Queued(c, op.kind, op.payload, op.flags).value.outbox == c.outbox + [Asked(op)]
  {
  }

  lemma SameFlowKeeps(w: World, v: World, conn: Conn, accepted: seq<Pending>)
    requires Flows(w, conn, accepted) && SameFlow(w, v, conn)
    ensures Flows(v, conn, accepted)
  {
  }

  lemma QuietSameFlow(adm: Admission, w: World, op: Op, conn: Conn)
    requires conn < |w.wires| && (op.OpPoll? || op.OpAbandon? || op.OpShut?)
    ensures SameFlow(w, Step(w, adm, op), conn)
  {
  }

  lemma StepSameFlow(adm: Admission, w: World, op: Op, conn: Conn)
    requires conn < |w.wires| && !op.OpRead? && !op.OpPump? && !op.OpPut?
    ensures SameFlow(w, Step(w, adm, op), conn)
  {
    hide SameFlow, OpenStep, TakeStep, LoseStep;
    match op
    case OpOpen(seat, epoch, replayed) => OpenSameFlow(w, seat, epoch, replayed, conn);
    case OpTake(seat, arrives) => TakeSameFlow(adm, w, seat, arrives, conn);
    case OpLose(seat, arrives) => TakeSameFlow(adm, w, seat, arrives, conn);
    case _ => QuietSameFlow(adm, w, op, conn);
  }

  lemma StepFlows(adm: Admission, w: World, op: Op, conn: Conn, accepted: seq<Pending>)
    requires Inv(adm, w) && Flows(w, conn, accepted)
    ensures Flows(Step(w, adm, op), conn, accepted + AcceptedNow(w, op, conn))
  {
    hide Inv, Flows, SameFlow, OpenStep, TakeStep, LoseStep, ReadStep, PumpStep, PutStep, Queued;
    FlowBounds(w, conn, accepted);
    assert accepted + [] == accepted;
    match op {
      case OpRead(seat, nonce, spare) =>
        OutboxData(adm, w, seat);
        ReadFlows(adm, w, seat, nonce, spare, conn, accepted);
      case OpPump(seat, budget) =>
        OutboxData(adm, w, seat);
        PumpFlows(w, seat, budget, conn, accepted);
      case OpPut(seat, _, _, _) =>
        OutboxData(adm, w, seat);
        PutFlows(w, op, conn, accepted);
      case _ =>
        StepSameFlow(adm, w, op, conn);
        SameFlowKeeps(w, Step(w, adm, op), conn, accepted);
    }
  }

  lemma FlowBounds(w: World, conn: Conn, accepted: seq<Pending>)
    requires Flows(w, conn, accepted)
    ensures conn < |w.wires|
  {
  }

  lemma OutboxData(adm: Admission, w: World, seat: Seat)
    requires Inv(adm, w)
    ensures forall i :: 0 <= i < |w.ClientOf(seat).outbox| ==> DataKind(w.ClientOf(seat).outbox[i].kind)
    ensures Connected(w, seat) ==> w.wires[w.ConnOf(seat).value].seat == seat
    ensures w.ConnOf(seat).Some? ==> w.ConnOf(seat).value < |w.wires|
  {
    hide WiresOk, RelayOk, IsRun;
    assert ClientOk(adm.attempt, w.wires, seat, w.ClientOf(seat), w.ConnOf(seat));
  }

  // ---- runs ---------------------------------------------------------------------------------

  // Nothing is accepted on a connection that is not there yet.
  lemma NotYet(adm: Admission, w: World, op: Op, conn: Conn)
    requires Inv(adm, w) && |w.wires| <= conn
    ensures AcceptedNow(w, op, conn) == []
  {
    hide Inv, Queued;
    if op.OpPut? {
      OutboxData(adm, w, op.seat);
    }
  }

  lemma NewFlows(adm: Admission, w: World, seat: Seat, epoch: int, replayed: bool)
    requires Inv(adm, w) && Opens(w, seat) && 0 <= epoch <= MAX_UINT64
    ensures Flows(OpenStep(w, seat, epoch, replayed), |w.wires|, [])
  {
    hide WiresOk, RelayOk, IsRun;
    OpenStepFields(w, seat, epoch, replayed);
    assert ClientOk(adm.attempt, w.wires, seat, w.ClientOf(seat), w.ConnOf(seat));
    OpenSends(w.ClientOf(seat), epoch);
    var v := OpenStep(w, seat, epoch, replayed);
    OneData(v.wires[|w.wires|].sent[0]);
    assert v.wires[|w.wires|].sent == [v.wires[|w.wires|].sent[0]];
  }

  lemma {:induction false} FlowRun(adm: Admission, start: World, ops: seq<Op>, conn: Conn)
    requires Inv(adm, start) && AllAllowed(adm, start, ops) && start.wires == []
    ensures var w := Run(adm, start, ops);
            if conn < |w.wires| then Flows(w, conn, AcceptedOn(adm, start, ops, conn))
            else AcceptedOn(adm, start, ops, conn) == []
    decreases |ops|
  {
    hide Inv, AllAllowed, Flows, Step, AcceptedNow, Opens;
    if ops != [] {
      var p, op := ops[..|ops| - 1], ops[|ops| - 1];
      var w := Run(adm, start, p);
      AllowedBefore(adm, start, ops);
      FlowRun(adm, start, p, conn);
      RunKeepsInv(adm, start, p);
      StepWires(adm, w, op);
      if conn < |w.wires| {
        StepFlows(adm, w, op, conn, AcceptedOn(adm, start, p, conn));
      } else {
        NotYet(adm, w, op, conn);
        if conn < |Step(w, adm, op).wires| {
          AllowedLast(adm, start, ops);
          NewFlows(adm, w, op.seat, op.epoch, op.replayed);
          assert Step(w, adm, op) == OpenStep(w, op.seat, op.epoch, op.replayed) by {
            OpenIs(adm, w, op);
          }
        }
      }
    }
  }

  lemma OpenIs(adm: Admission, w: World, op: Op)
    requires op.OpOpen?
    ensures Step(w, adm, op) == OpenStep(w, op.seat, op.epoch, op.replayed)
  {
  }

  lemma AllowedLast(adm: Admission, start: World, ops: seq<Op>)
    requires ops != [] && AllAllowed(adm, start, ops)
    ensures Allowed(Run(adm, start, ops[..|ops| - 1]), ops[|ops| - 1])
  {
    hide Allowed, Run;
  }

  // After any run, the data a client has sent on a connection is the beginning of what it accepted
  // from its application there; while it is on the connection its outbox holds the rest.
  lemma SentExactly(adm: Admission, expectedA: Option<Digest>, expectedB: Option<Digest>, capacity: nat,
                    ops: seq<Op>, conn: Conn)
    requires var start := NewWorld(adm, expectedA, expectedB, capacity);
             ReachedBy(adm, expectedA, expectedB, capacity, ops, Run(adm, start, ops))
             && conn < |Run(adm, start, ops).wires|
    ensures var start := NewWorld(adm, expectedA, expectedB, capacity);
            var w, accepted := Run(adm, start, ops), AcceptedOn(adm, start, ops, conn);
            var x := w.wires[conn];
            && DataOf(x.sent) <= accepted
            && (w.ConnOf(x.seat) == Some(conn) ==> DataOf(x.sent) + w.ClientOf(x.seat).outbox == accepted)
  {
    hide Run, AllAllowed, Inv, AcceptedOn, DataOf;
    NewWorldOk(adm, expectedA, expectedB, capacity);
    FlowRun(adm, NewWorld(adm, expectedA, expectedB, capacity), ops, conn);
  }

  // ---- both ends ----------------------------------------------------------------------------

  // The RFU frames in a list of data.
  function RfuOf(data: seq<Pending>): (rfu: seq<Pending>)
  {
    if data == [] then []
    else RfuOf(data[..|data| - 1]) + if data[|data| - 1].kind == Rfu then [data[|data| - 1]] else []
  }

  lemma {:induction false} RfuAppend(xs: seq<Pending>, ys: seq<Pending>)
    ensures RfuOf(xs + ys) == RfuOf(xs) + RfuOf(ys)
    decreases |ys|
  {
    if ys == [] {
      assert xs + ys == xs;
    } else {
      assert (xs + ys)[..|xs + ys| - 1] == xs + ys[..|ys| - 1];
      RfuAppend(xs, ys[..|ys| - 1]);
    }
  }

  lemma RfuPrefix(xs: seq<Pending>, ys: seq<Pending>)
    requires xs <= ys
    ensures RfuOf(xs) <= RfuOf(ys)
  {
    assert ys == xs + ys[|xs|..];
    RfuAppend(xs, ys[|xs|..]);
  }

  lemma DataPrefix(xs: seq<Envelope>, ys: seq<Envelope>)
    requires xs <= ys
    ensures DataOf(xs) <= DataOf(ys)
  {
    assert ys == xs + ys[|xs|..];
    DataAppend(xs, ys[|xs|..]);
  }

  // All RFU frames are handed out.
  lemma {:induction false} RfuDeliverable(frames: seq<Envelope>, known: bool)
    ensures RfuOf(DataOf(Deliverable(frames, known))) == RfuOf(DataOf(frames))
    decreases |frames|
  {
    hide Advertised;
    if frames != [] {
      var before, e := frames[..|frames| - 1], frames[|frames| - 1];
      RfuDeliverable(before, known);
      assert frames == before + [e];
      var more := if e.kind == SideReady || e.kind == Rfu || (e.kind == Advertisement && !known && !Advertised(before))
                  then [e] else [];
      DataAppend(Deliverable(before, known), more);
      DataAppend(before, [e]);
      OneData(e);
      RfuAppend(DataOf(Deliverable(before, known)), DataOf(more));
      RfuAppend(DataOf(before), DataOf([e]));
      OneRfu(e, more);
    }
  }

  lemma OneRfu(e: Envelope, more: seq<Envelope>)
    requires more == [] || more == [e]
    requires e.kind == Rfu ==> more == [e]
    ensures RfuOf(DataOf(more)) == RfuOf(DataOf([e]))
  {
    OneData(e);
    var d := Pending(e.kind, e.payload, e.flags);
    assert [d][..0] == [];
    assert RfuOf([]) == [] && DataOf([]) == [];
  }

  // What was read up to the end of a connection is what the peer's connection sent.
  lemma ReadWasSent(adm: Admission, w: World, conn: Conn, m: nat)
    requires Reachable(adm, w) && conn < |w.wires| && w.wires[conn].received != [] && Upto(w.wires[conn], m)
    ensures var x := w.wires[conn];
            && x.source.Some? && x.source.value < |w.wires|
            && x.received[..m] <= w.wires[x.source.value].sent
  {
    hide Reachable;
    EndToEndStream(adm, w, conn);
    var x := w.wires[conn];
    var y := w.wires[x.source.value];
    forall i | 0 <= i < m ensures i < |y.sent| && x.received[i] == y.sent[i] {
      assert x.received[i].kind != PeerClose;
    }
    if m > 0 {
      assert x.received[m - 1].kind != PeerClose;
      assert m - 1 < |y.sent|;
    }
  }

  // After any run, the RFU data handed to the application of a connection is, in order and byte for
  // byte, the beginning of what the peer's application was allowed to send on the one connection
  // that is the source of its frames.
  lemma RfuEndToEnd(adm: Admission, expectedA: Option<Digest>, expectedB: Option<Digest>, capacity: nat,
                    ops: seq<Op>, conn: Conn)
    requires var start := NewWorld(adm, expectedA, expectedB, capacity);
             ReachedBy(adm, expectedA, expectedB, capacity, ops, Run(adm, start, ops))
             && conn < |Run(adm, start, ops).wires| && Run(adm, start, ops).wires[conn].received != []
    ensures var start := NewWorld(adm, expectedA, expectedB, capacity);
            var w := Run(adm, start, ops);
            var x := w.wires[conn];
            && x.source.Some? && x.source.value < |w.wires| && w.wires[x.source.value].seat == x.seat.Peer()
            && RfuOf(DataOf(Handed(adm, start, ops, conn))) <= RfuOf(AcceptedOn(adm, start, ops, x.source.value))
  {
    hide Run, ReachedBy, Handed, AcceptedOn, DataOf, RfuOf, Complete, Partial, Upto, Deliverable, Latest;
    var start := NewWorld(adm, expectedA, expectedB, capacity);
    var w, handed := Run(adm, start, ops), Handed(adm, start, ops, conn);
    assert Reachable(adm, w) by {
      assert ReachedBy(adm, expectedA, expectedB, capacity, ops, w);
    }
    DeliveryExactly(adm, expectedA, expectedB, capacity, ops, conn);
    var m: nat :| Upto(w.wires[conn], m)
                  && (if Latest(w.wires, conn) then Complete(w, conn, handed, m) else Partial(w, conn, handed, m));
    EndToEndStream(adm, w, conn);
    ReadWasSent(adm, w, conn, m);
    var x := w.wires[conn];
    UptoBounds(x, m);
    var read, y, known := x.received[..m], w.wires[x.source.value], Known(w.wires, conn);
    HandedPrefix(w, conn, handed, m);
    SentExactly(adm, expectedA, expectedB, capacity, ops, x.source.value);
    DataPrefix(handed, Deliverable(read, known));
    RfuPrefix(DataOf(handed), DataOf(Deliverable(read, known)));
    RfuDeliverable(read, known);
    DataPrefix(read, y.sent);
    RfuPrefix(DataOf(read), DataOf(y.sent));
    RfuPrefix(DataOf(y.sent), AcceptedOn(adm, start, ops, x.source.value));
  }

  lemma UptoBounds(x: Wire, m: nat)
    requires Upto(x, m)
    ensures m <= |x.received|
  {
  }

  lemma HandedPrefix(w: World, conn: Conn, handed: seq<Envelope>, m: nat)
    requires conn < |w.wires| && Upto(w.wires[conn], m)
    requires Complete(w, conn, handed, m) || Partial(w, conn, handed, m)
    ensures handed <= Deliverable(w.wires[conn].received[..m], Known(w.wires, conn))
  {
    hide Deliverable, Known;
  }
}
