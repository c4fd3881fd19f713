/**
 What the application of a client is handed over a run: exactly the data frames among those that
 were read, in order.  Which frames those are is said by their kinds alone.
 */
module TunnelDelivery {
  import opened Common
  import opened Bytes
  import opened Envelopes
  import opened SequenceGates
  import opened RelaySessions
  import opened TunnelClients
  import opened TunnelSystem
  import opened TunnelProperties

  predicate Advertised(frames: seq<Envelope>) {
    exists i :: 0 <= i < |frames| && frames[i].kind == Advertisement
  }

  // The frames that the application is to be handed: SIDE_READY and RFU frames, and the first
  // advertisement unless one is known already.
  function Deliverable(frames: seq<Envelope>, known: bool): (d: seq<Envelope>)
  {
    if frames == [] then []
    else
      var before, e := frames[..|frames| - 1], frames[|frames| - 1];
      Deliverable(before, known)
      + if e.kind == SideReady || e.kind == Rfu || (e.kind == Advertisement && !known && !Advertised(before)) then [e]
        else []
  }

  predicate ReadAdvert(x: Wire) {
    x.read <= |x.received| && Advertised(x.received[..x.read])
  }

  // The client has read an advertisement on an earlier connection.
  predicate Known(wires: seq<Wire>, conn: Conn) {
    conn < |wires| && exists c :: 0 <= c < conn && wires[c].seat == wires[conn].seat && ReadAdvert(wires[c])
  }

  // The latest connection of its seat.
  predicate Latest(wires: seq<Wire>, conn: Conn) {
    conn < |wires| && forall c :: conn < c < |wires| ==> wires[c].seat != wires[conn].seat
  }

  // What a poll hands out.
  function Polled(c: Client, limit: nat): seq<Envelope> {
    c.app.inbox[..if limit < |c.app.inbox| then limit else |c.app.inbox|]
  }

  // All that the application has polled while this connection was the latest of its seat.
  function Handed(adm: Admission, start: World, ops: seq<Op>, conn: Conn): (frames: seq<Envelope>)
  {
    if ops == [] then []
    else
      var p, op := ops[..|ops| - 1], ops[|ops| - 1];
      var w := Run(adm, start, p);
      Handed(adm, start, p, conn)
      + if op.OpPoll? && Latest(w.wires, conn) && w.wires[conn].seat == op.seat
        then Polled(w.ClientOf(op.seat), op.limit) else []
  }

  // All frames read but perhaps the last, which then has ended the connection.
  predicate Upto(x: Wire, m: nat) {
    m <= x.read <= m + 1 && m <= |x.received| && forall k :: 0 <= k < m ==> x.received[k].kind != PeerClose
  }

  ghost predicate Complete(w: World, conn: Conn, handed: seq<Envelope>, m: nat)
    requires conn < |w.wires|
  {
    var x := w.wires[conn];
    && Upto(x, m) && (w.ConnOf(x.seat).Some? ==> m == x.read)
    && handed + w.ClientOf(x.seat).app.inbox == Deliverable(x.received[..m], Known(w.wires, conn))
  }

  ghost predicate Partial(w: World, conn: Conn, handed: seq<Envelope>, m: nat)
    requires conn < |w.wires|
  {
    Upto(w.wires[conn], m) && handed <= Deliverable(w.wires[conn].received[..m], Known(w.wires, conn))
  }

  // The digest a client holds is that of an advertisement it has read.
  predicate Remembers(w: World, conn: Conn)
    requires conn < |w.wires|
  {
    var x := w.wires[conn];
    var c := w.ClientOf(x.seat);
    && (w.ConnOf(x.seat) == None || (w.ConnOf(x.seat) == Some(conn) && !c.stopped))
    && (!c.stopped ==> (c.app.received.Some? <==> Known(w.wires, conn) || ReadAdvert(x)))
  }

  ghost predicate Delivered(w: World, conn: Conn, handed: seq<Envelope>) {
    && conn < |w.wires|
    && if Latest(w.wires, conn) then Remembers(w, conn) && exists m: nat :: Complete(w, conn, handed, m)
       else exists m: nat :: Partial(w, conn, handed, m)
  }

  // A seat that has never had a connection.
  predicate Untouched(w: World, seat: Seat) {
    (forall c :: 0 <= c < |w.wires| ==> w.wires[c].seat != seat) ==>
      w.ClientOf(seat).app.inbox == [] && w.ClientOf(seat).app.received == None && w.ConnOf(seat) == None
  }

  // ---- steps that the application of a seat does not notice ---------------------------------

  predicate SameReads(ws: seq<Wire>, vs: seq<Wire>, seat: Seat) {
    && |ws| <= |vs|
    && (forall c :: |ws| <= c < |vs| ==> vs[c].seat != seat)
    && (forall c :: 0 <= c < |ws| ==>
          && vs[c].seat == ws[c].seat
          && (ws[c].seat == seat ==>
                vs[c].read == ws[c].read <= |ws[c].received| && ws[c].received <= vs[c].received))
  }

  predicate SameExchange(w: World, v: World, seat: Seat) {
    && v.ClientOf(seat).app.inbox == w.ClientOf(seat).app.inbox
    && v.ClientOf(seat).app.received == w.ClientOf(seat).app.received
    && (w.ClientOf(seat).stopped ==> v.ClientOf(seat).stopped)
    && (v.ConnOf(seat) == None
        || (v.ConnOf(seat) == w.ConnOf(seat) && v.ClientOf(seat).stopped == w.ClientOf(seat).stopped))
  }

  predicate Concerns(op: Op, seat: Seat) {
    (op.OpOpen? || op.OpRead? || op.OpPoll?) && op.seat == seat
  }

  predicate InBounds(wires: seq<Wire>) {
    forall c :: 0 <= c < |wires| ==> wires[c].read <= |wires[c].received|
  }

  lemma ReadsInBounds(adm: Admission, w: World)
    requires Inv(adm, w)
    ensures InBounds(w.wires)
  {
    hide IsRun, Sourced, GateOk, RelayOk, ClientOk, EpochsDistinct, NoncesDistinct;
    forall c | 0 <= c < |w.wires| ensures w.wires[c].read <= |w.wires[c].received| {
      assert SelfOk(adm.attempt, w.wires[c]);
    }
  }

  lemma ConnSeat(adm: Admission, w: World, seat: Seat)
    requires Inv(adm, w) && Connected(w, seat)
    ensures w.wires[w.ConnOf(seat).value].seat == seat
  {
    hide IsRun, Sourced, GateOk, RelayOk, WiresOk;
    assert ClientOk(adm.attempt, w.wires, seat, w.ClientOf(seat), w.ConnOf(seat));
  }

  // One connection moves on without being read.
  lemma OneSameReads(wires: seq<Wire>, c: Conn, y: Wire, seat: Seat)
    requires c < |wires| && InBounds(wires) && y.seat == wires[c].seat
    requires wires[c].seat == seat ==> y.read == wires[c].read && wires[c].received <= y.received
    ensures SameReads(wires, wires[c := y], seat)
  {
  }

  lemma DeliverSameReads(wires: seq<Wire>, end: Conn, e: Envelope, from: Conn, arrives: bool, seat: Seat)
    requires end < |wires| && InBounds(wires)
    ensures SameReads(wires, DeliverTo(wires, end, e, from, arrives), seat)
  {
    OneSameReads(wires, end, Written(wires[end], e, from, arrives), seat);
  }

  lemma NoReads(wires: seq<Wire>, seat: Seat)
    requires InBounds(wires)
    ensures SameReads(wires, wires, seat)
  {
  }

  lemma ReadsTransitive(ws: seq<Wire>, us: seq<Wire>, vs: seq<Wire>, seat: Seat)
    requires SameReads(ws, us, seat) && SameReads(us, vs, seat)
    ensures SameReads(ws, vs, seat)
  {
  }

  lemma StaysInBounds(wires: seq<Wire>, c: Conn, y: Wire)
    requires InBounds(wires) && c < |wires| && y == wires[c].(taken := y.taken)
    ensures InBounds(wires[c := y])
  {
  }

  lemma TakeUnnoticed(adm: Admission, w: World, sender: Seat, arrives: bool, seat: Seat)
    requires InBounds(w.wires)
    ensures SameReads(w.wires, TakeStep(w, adm, sender, arrives).wires, seat)
  {
    hide Process, DeliverTo, SameReads;
    if !Waiting(w.wires, w.relay, sender) {
      NoReads(w.wires, seat);
    } else {
      var conn := w.relay.At(sender).peer.value;
      var x := w.wires[conn];
      var (relay, error) := Process(w.relay, adm, sender, x.sent[x.taken]);
      var moved := w.wires[conn := x.(taken := x.taken + 1)];
      OneSameReads(w.wires, conn, x.(taken := x.taken + 1), seat);
      var end := relay.At(sender.Peer()).peer;
      if end.Some? && end.value < |moved| {
        StaysInBounds(w.wires, conn, moved[conn]);
        DeliverSameReads(moved, end.value, x.sent[x.taken], conn, arrives, seat);
        ReadsTransitive(w.wires, moved, DeliverTo(moved, end.value, x.sent[x.taken], conn, arrives), seat);
      }
    }
  }

  lemma LoseUnnoticed(adm: Admission, w: World, sender: Seat, arrives: bool, seat: Seat)
    requires InBounds(w.wires)
    ensures SameReads(w.wires, LoseStep(w, sender, arrives).wires, seat)
  {
    hide Drop, DeliverTo, Closing;
    if w.relay.At(sender).peer.Some? {
      var conn := w.relay.At(sender).peer.value;
      var told := Closing(w.relay, sender, conn, false);
      if told.Some? && told.value.0 < |w.wires| {
        DeliverSameReads(w.wires, told.value.0, told.value.1, conn, arrives, seat);
      }
    }
  }

  lemma {:induction false} PumpUnnoticed(c: Client, budget: nat)
    ensures Pump(c, budget).client.app == c.app && Pump(c, budget).client.stopped == c.stopped
    decreases budget
  {
    if budget > 0 && c.outbox != [] && SendFirst(c).end == Running {
      PumpUnnoticed(SendFirst(c).client, budget - 1);
    }
  }

  lemma PutUnnoticed(c: Client, kind: Kind, payload: seq<Byte>, flags: int)
    ensures Queued(c, kind, payload, flags).Ok? ==>
              var d := Queued(c, kind, payload, flags).value;
              d.app.inbox == c.app.inbox && d.app.received == c.app.received && d.stopped == c.stopped
  {
  }

  lemma OpenUnnoticed(w: World, other: Seat, epoch: int, replayed: bool, seat: Seat)
    requires InBounds(w.wires) && other != seat
    ensures SameReads(w.wires, OpenStep(w, other, epoch, replayed).wires, seat)
    ensures SameExchange(w, OpenStep(w, other, epoch, replayed), seat)
  {
    hide Connect, Open;
    assert seat == other.Peer();
  }

  lemma ReadUnnoticed(adm: Admission, w: World, other: Seat, nonce: seq<Byte>, spare: int, seat: Seat)
    requires InBounds(w.wires) && other != seat
    requires Connected(w, other) ==> w.wires[w.ConnOf(other).value].seat == other
    ensures SameReads(w.wires, ReadStep(w, adm, other, nonce, spare).wires, seat)
    ensures SameExchange(w, ReadStep(w, adm, other, nonce, spare), seat)
  {
    hide Receive;
    assert seat == other.Peer();
  }

  lemma PumpStepUnnoticed(w: World, other: Seat, budget: nat, seat: Seat)
    requires InBounds(w.wires)
    ensures SameReads(w.wires, PumpStep(w, other, budget).wires, seat)
    ensures SameExchange(w, PumpStep(w, other, budget), seat)
  {
    hide Pump;
    assert seat == other || seat == other.Peer();
    PumpUnnoticed(w.ClientOf(other), if budget < PUMP_LIMIT then budget else PUMP_LIMIT);
  }

  lemma PutStepUnnoticed(w: World, other: Seat, kind: Kind, payload: seq<Byte>, flags: int, seat: Seat)
    requires InBounds(w.wires)
    ensures SameReads(w.wires, PutStep(w, other, kind, payload, flags).wires, seat)
    ensures SameExchange(w, PutStep(w, other, kind, payload, flags), seat)
  {
    hide Queued;
    assert seat == other || seat == other.Peer();
    PutUnnoticed(w.ClientOf(other), kind, payload, flags);
  }

  lemma Unnoticed(adm: Admission, w: World, op: Op, seat: Seat)
    requires Inv(adm, w) && !Concerns(op, seat)
    ensures SameReads(w.wires, Step(w, adm, op).wires, seat) && SameExchange(w, Step(w, adm, op), seat)
  {
    hide OpenStep, TakeStep, LoseStep, ReadStep, PumpStep, PutStep, Inv, SameReads, InBounds;
    ReadsInBounds(adm, w);
    match op {
      case OpOpen(other, epoch, replayed) => OpenUnnoticed(w, other, epoch, replayed, seat);
      case OpTake(sender, arrives) => TakeUnnoticed(adm, w, sender, arrives, seat); TakeExchange(adm, w, op, seat);
      case OpLose(sender, arrives) => LoseUnnoticed(adm, w, sender, arrives, seat); TakeExchange(adm, w, op, seat);
      case OpRead(other, nonce, spare) =>
        if Connected(w, other) {
          ConnSeat(adm, w, other);
        }
        ReadUnnoticed(adm, w, other, nonce, spare, seat);
      case OpPump(other, budget) => PumpStepUnnoticed(w, other, budget, seat);
      case OpPut(other, kind, payload, flags) => PutStepUnnoticed(w, other, kind, payload, flags, seat);
      case _ => QuietUnnoticed(adm, w, op, seat);
    }
  }

  lemma TakeExchange(adm: Admission, w: World, op: Op, seat: Seat)
    requires op.OpTake? || op.OpLose?
    ensures SameExchange(w, Step(w, adm, op), seat)
  {
  }

  lemma QuietUnnoticed(adm: Admission, w: World, op: Op, seat: Seat)
    requires InBounds(w.wires) && !Concerns(op, seat) && (op.OpPoll? || op.OpAbandon? || op.OpShut?)
    ensures SameReads(w.wires, Step(w, adm, op).wires, seat) && SameExchange(w, Step(w, adm, op), seat)
  {
  }

  lemma KnownAlike(ws: seq<Wire>, vs: seq<Wire>, conn: Conn)
    requires conn < |ws| && SameReads(ws, vs, ws[conn].seat)
    ensures Known(vs, conn) <==> Known(ws, conn)
    ensures Latest(vs, conn) <==> Latest(ws, conn)
    ensures ReadAdvert(vs[conn]) <==> ReadAdvert(ws[conn])
  {
    assert forall c :: 0 <= c <= conn && ws[c].seat == ws[conn].seat ==>
        vs[c].received[..vs[c].read] == ws[c].received[..ws[c].read];
    forall c | 0 <= c <= conn && ws[c].seat == ws[conn].seat
      ensures ReadAdvert(vs[c]) <==> ReadAdvert(ws[c])
    {
    }
  }

  lemma UnnoticedKeeps(w: World, v: World, conn: Conn, handed: seq<Envelope>)
    requires Delivered(w, conn, handed)
    requires SameReads(w.wires, v.wires, w.wires[conn].seat) && SameExchange(w, v, w.wires[conn].seat)
    ensures Delivered(v, conn, handed)
  {
    hide Known, Latest, ReadAdvert, Deliverable;
    KnownAlike(w.wires, v.wires, conn);
    var x, y := w.wires[conn], v.wires[conn];
    if Latest(w.wires, conn) {
      var m: nat :| Complete(w, conn, handed, m);
      assert y.received[..m] == x.received[..m];
      assert Complete(v, conn, handed, m);
    } else {
      var m: nat :| Partial(w, conn, handed, m);
      assert y.received[..m] == x.received[..m];
      assert Partial(v, conn, handed, m);
    }
  }

  // ---- a poll -------------------------------------------------------------------------------

  lemma PollKeeps(w: World, seat: Seat, limit: nat, conn: Conn, handed: seq<Envelope>)
    requires Delivered(w, conn, handed) && w.wires[conn].seat == seat
    ensures Delivered(PollStep(w, seat, limit), conn,
                      handed + if Latest(w.wires, conn) then Polled(w.ClientOf(seat), limit) else [])
  {
    hide Known, Latest, ReadAdvert, Deliverable;
    var v := PollStep(w, seat, limit);
    assert handed + [] == handed;
    if Latest(w.wires, conn) {
      var out := Polled(w.ClientOf(seat), limit);
      var m: nat :| Complete(w, conn, handed, m);
      assert handed + out + v.ClientOf(seat).app.inbox == handed + w.ClientOf(seat).app.inbox;
      assert Complete(v, conn, handed + out, m);
    } else {
      var m: nat :| Partial(w, conn, handed, m);
      assert Partial(v, conn, handed, m);
    }
  }

  // ---- a connection is opened ---------------------------------------------------------------

  predicate Opens(w: World, seat: Seat) {
    w.ConnOf(seat).None? && !w.ClientOf(seat).stopped && w.relay.live && w.relay.At(seat).peer.None?
  }

  lemma OpenedExchange(c: Client, epoch: int)
    ensures var d := Open(c, epoch).client;
            d.app.inbox == [] && d.app.received == c.app.received && d.stopped == c.stopped
  {
  }

  // Earlier connections decide what is known.
  lemma KnownBelow(ws: seq<Wire>, vs: seq<Wire>, conn: Conn)
    requires conn < |ws| && conn < |vs| && ws[conn].seat == vs[conn].seat
    requires forall c :: 0 <= c < conn ==> ws[c] == vs[c]
    ensures Known(vs, conn) <==> Known(ws, conn)
  {
    hide ReadAdvert;
  }

  // The earlier connections of the seat keep a part of what there was to hand out.
  lemma OpenKeeps(w: World, seat: Seat, epoch: int, replayed: bool, conn: Conn, handed: seq<Envelope>)
    requires Opens(w, seat) && Delivered(w, conn, handed) && w.wires[conn].seat == seat
    ensures Delivered(OpenStep(w, seat, epoch, replayed), conn, handed)
  {
    hide Deliverable, ReadAdvert;
    OpenStepFields(w, seat, epoch, replayed);
    var v := OpenStep(w, seat, epoch, replayed);
    assert v.wires[|w.wires|].seat == seat;
    assert !Latest(v.wires, conn);
    KnownBelow(w.wires, v.wires, conn);
    if Latest(w.wires, conn) {
      var m: nat :| Complete(w, conn, handed, m);
      assert Partial(v, conn, handed, m);
    } else {
      var m: nat :| Partial(w, conn, handed, m);
      assert Partial(v, conn, handed, m);
    }
  }

  // The new connection starts with nothing, and with what its client remembers.
  lemma OpenStarts(adm: Admission, w: World, seat: Seat, epoch: int, replayed: bool)
    requires Inv(adm, w) && Opens(w, seat) && Untouched(w, seat)
    requires forall c :: 0 <= c < |w.wires| && w.wires[c].seat == seat && Latest(w.wires, c) ==> Remembers(w, c)
    ensures Delivered(OpenStep(w, seat, epoch, replayed), |w.wires|, [])
  {
    hide Inv, Deliverable;
    OpenStepFields(w, seat, epoch, replayed);
    OpenedExchange(w.ClientOf(seat), epoch);
    var v, conn := OpenStep(w, seat, epoch, replayed), |w.wires|;
    var x := v.wires[conn];
    NothingDelivered(x.received, Known(v.wires, conn));
    assert Complete(v, conn, [], 0);
    assert x.received[..x.read] == [] && !ReadAdvert(x);
    RememberedBefore(w, seat, x);
  }

  lemma NothingDelivered(frames: seq<Envelope>, known: bool)
    ensures frames[..0] == [] && Deliverable([], known) == [] && !Advertised([])
  {
  }

  lemma RememberedBefore(w: World, seat: Seat, x: Wire)
    requires x.seat == seat && !w.ClientOf(seat).stopped && Untouched(w, seat)
    requires forall c :: 0 <= c < |w.wires| && w.wires[c].seat == seat && Latest(w.wires, c) ==> Remembers(w, c)
    ensures Known(w.wires + [x], |w.wires|) <==> w.ClientOf(seat).app.received.Some?
  {
    hide ReadAdvert;
    var conn, all := |w.wires|, w.wires + [x];
    if exists c :: 0 <= c < conn && w.wires[c].seat == seat {
      var last := LastOf(w.wires, seat);
      if Known(all, conn) {
        var c :| 0 <= c < conn && all[c].seat == all[conn].seat && ReadAdvert(all[c]);
        assert w.wires[c] == all[c] && c <= last;
      }
      if ReadAdvert(w.wires[last]) {
        assert all[last] == w.wires[last];
      } else if Known(w.wires, last) {
        var c :| 0 <= c < last && w.wires[c].seat == w.wires[last].seat && ReadAdvert(w.wires[c]);
        assert all[c] == w.wires[c];
      }
    }
  }

  lemma {:induction false} LastOf(wires: seq<Wire>, seat: Seat) returns (last: nat)
    requires exists c :: 0 <= c < |wires| && wires[c].seat == seat
    ensures last < |wires| && wires[last].seat == seat && Latest(wires, last)
    decreases |wires|
  {
    if wires[|wires| - 1].seat == seat {
      last := |wires| - 1;
    } else {
      var init := wires[..|wires| - 1];
      var c :| 0 <= c < |wires| && wires[c].seat == seat;
      assert init[c].seat == seat;
      last := LastOf(init, seat);
    }
  }

  // ---- a frame is read ----------------------------------------------------------------------

  // What reading one frame does to the exchange with the application, by the kind of the frame.
  lemma ReadExchange(c: Client, hash: seq<Byte> -> Digest, e: Envelope, nonce: seq<Byte>, spare: int)
    ensures var r := Receive(c, hash, e, nonce, spare);
            var d := r.client;
            && (r.end == Running ==>
                  && e.kind != PeerClose
                  && d.app.inbox == c.app.inbox + (if e.kind == SideReady || e.kind == Rfu
                                                      || (e.kind == Advertisement && c.app.received.None?)
                                                   then [e] else []))
            && (r.end != Running ==> d.app.inbox == c.app.inbox)
            && d.stopped == c.stopped
            && (!r.end.Fatal? ==> (d.app.received.Some? <==> c.app.received.Some? || e.kind == Advertisement))
  {
    assert c.app.inbox + [] == c.app.inbox;
  }

  lemma OneMore(frames: seq<Envelope>, e: Envelope, known: bool)
    ensures Advertised(frames + [e]) <==> Advertised(frames) || e.kind == Advertisement
    ensures Deliverable(frames + [e], known) == Deliverable(frames, known)
            + if e.kind == SideReady || e.kind == Rfu || (e.kind == Advertisement && !known && !Advertised(frames))
              then [e] else []
  {
    var more := frames + [e];
    assert more[..|frames|] == frames && more[|frames|] == e;
    if Advertised(frames) {
      var i :| 0 <= i < |frames| && frames[i].kind == Advertisement;
      assert more[i].kind == Advertisement;
    }
    if e.kind == Advertisement {
      assert more[|frames|].kind == Advertisement;
    }
  }

  // The connection that a client reads from is the latest of its seat.
  lemma ReadsLatest(adm: Admission, w: World, seat: Seat, conn: Conn, handed: seq<Envelope>)
    requires Connected(w, seat) && Inv(adm, w)
    requires Delivered(w, conn, handed) && w.wires[conn].seat == seat && Latest(w.wires, conn)
    ensures w.ConnOf(seat) == Some(conn)
  {
  }

  lemma ReadKeeps(adm: Admission, w: World, seat: Seat, nonce: seq<Byte>, spare: int, conn: Conn, handed: seq<Envelope>)
    requires Inv(adm, w) && Delivered(w, conn, handed) && w.wires[conn].seat == seat && Latest(w.wires, conn)
    requires w.ConnOf(seat) == Some(conn) && w.wires[conn].read < |w.wires[conn].received|
    ensures Delivered(ReadStep(w, adm, seat, nonce, spare), conn, handed)
  {
    hide Inv, Receive, Deliverable, Advertised;
    var v, x, c := ReadStep(w, adm, seat, nonce, spare), w.wires[conn], w.ClientOf(seat);
    var e, read := x.received[x.read], x.received[..x.read];
    var r := Receive(c, adm.hash, e, nonce, spare);
    var y := v.wires[conn];
    ReadExchange(c, adm.hash, e, nonce, spare);
    assert y.received[..x.read + 1] == read + [e];
    OneMore(read, e, Known(w.wires, conn));
    KnownBelow(w.wires, v.wires, conn);
    assert Latest(v.wires, conn);
    assert Remembers(v, conn);
    if r.end == Running {
      assert handed + (c.app.inbox + [e]) == handed + c.app.inbox + [e] && c.app.inbox + [] == c.app.inbox;
      assert Complete(v, conn, handed, x.read + 1);
    } else {
      assert y.received[..x.read] == read;
      assert Complete(v, conn, handed, x.read);
    }
  }

  // Reading on the latest connection leaves the earlier ones alone.
  lemma ReadElsewhere(adm: Admission, w: World, seat: Seat, nonce: seq<Byte>, spare: int, conn: Conn,
                      handed: seq<Envelope>)
    requires Delivered(w, conn, handed) && w.wires[conn].seat == seat && !Latest(w.wires, conn)
    requires Connected(w, seat) && Latest(w.wires, w.ConnOf(seat).value) && w.wires[w.ConnOf(seat).value].seat == seat
    ensures Delivered(ReadStep(w, adm, seat, nonce, spare), conn, handed)
  {
    hide Receive, Deliverable, ReadAdvert;
    var v, last := ReadStep(w, adm, seat, nonce, spare), w.ConnOf(seat).value;
    assert last > conn;
    KnownBelow(w.wires, v.wires, conn);
    assert !Latest(v.wires, conn) by {
      assert v.wires[last].seat == seat == v.wires[conn].seat;
    }
    var m: nat :| Partial(w, conn, handed, m);
    assert Partial(v, conn, handed, m);
  }

  // ---- runs ---------------------------------------------------------------------------------

  ghost predicate AllDelivered(adm: Admission, start: World, ops: seq<Op>) {
    var w := Run(adm, start, ops);
    && (forall conn :: 0 <= conn < |w.wires| ==> Delivered(w, conn, Handed(adm, start, ops, conn)))
    && (forall conn :: |w.wires| <= conn ==> Handed(adm, start, ops, conn) == [])
    && Untouched(w, MemberA) && Untouched(w, MemberB)
  }

  function HandedNow(w: World, op: Op, conn: Conn): seq<Envelope> {
    if op.OpPoll? && Latest(w.wires, conn) && w.wires[conn].seat == op.seat then Polled(w.ClientOf(op.seat), op.limit)
    else []
  }

  // A connected client is on the latest connection of its seat.
  ghost predicate OnLatest(w: World, seat: Seat) {
    w.ConnOf(seat).Some? ==> Latest(w.wires, w.ConnOf(seat).value) && w.wires[w.ConnOf(seat).value].seat == seat
  }

  lemma StepDelivers(adm: Admission, w: World, op: Op, conn: Conn, handed: seq<Envelope>)
    requires Inv(adm, w) && Delivered(w, conn, handed) && OnLatest(w, w.wires[conn].seat)
    ensures Delivered(Step(w, adm, op), conn, handed + HandedNow(w, op, conn))
  {
    hide Inv, Delivered, SameReads, SameExchange, OpenStep, ReadStep, PollStep, Latest, Polled;
    DeliveredBounds(w, conn, handed);
    var seat := w.wires[conn].seat;
    assert handed + [] == handed;
    if !Concerns(op, seat) {
      Unnoticed(adm, w, op, seat);
      UnnoticedKeeps(w, Step(w, adm, op), conn, handed);
    } else {
      match op
      case OpOpen(_, epoch, replayed) =>
        if Opens(w, seat) {
          OpenKeeps(w, seat, epoch, replayed, conn, handed);
        } else {
          NothingOpens(w, seat, epoch, replayed);
        }
      case OpPoll(_, limit) => PollKeeps(w, seat, limit, conn, handed);
      case OpRead(_, nonce, spare) => ReadDelivers(adm, w, seat, nonce, spare, conn, handed);
    }
  }

  lemma DeliveredBounds(w: World, conn: Conn, handed: seq<Envelope>)
    requires Delivered(w, conn, handed)
    ensures conn < |w.wires|
  {
  }

  lemma NothingOpens(w: World, seat: Seat, epoch: int, replayed: bool)
    requires !Opens(w, seat)
    ensures OpenStep(w, seat, epoch, replayed) == w
  {
  }

  lemma ReadDelivers(adm: Admission, w: World, seat: Seat, nonce: seq<Byte>, spare: int, conn: Conn,
                     handed: seq<Envelope>)
    requires Inv(adm, w) && Delivered(w, conn, handed) && OnLatest(w, seat) && w.wires[conn].seat == seat
    ensures Delivered(ReadStep(w, adm, seat, nonce, spare), conn, handed)
  {
    hide Inv, Delivered, ReadStep, Latest;
    DeliveredBounds(w, conn, handed);
    if Connected(w, seat) && w.wires[w.ConnOf(seat).value].read < |w.wires[w.ConnOf(seat).value].received| {
      if Latest(w.wires, conn) {
        ReadsLatest(adm, w, seat, conn, handed);
        ReadKeeps(adm, w, seat, nonce, spare, conn, handed);
      } else {
        ReadElsewhere(adm, w, seat, nonce, spare, conn, handed);
      }
    } else {
      assert ReadStep(w, adm, seat, nonce, spare) == w by {
        NothingRead(adm, w, seat, nonce, spare);
      }
    }
  }

  lemma NothingRead(adm: Admission, w: World, seat: Seat, nonce: seq<Byte>, spare: int)
    requires !Connected(w, seat) || w.wires[w.ConnOf(seat).value].read >= |w.wires[w.ConnOf(seat).value].received|
    ensures ReadStep(w, adm, seat, nonce, spare) == w
  {
  }

  // A step adds a connection only when a seat opens one.
  lemma StepWires(adm: Admission, w: World, op: Op)
    requires Inv(adm, w)
    ensures var v := Step(w, adm, op);
            && |w.wires| <= |v.wires|
            && (forall c :: 0 <= c < |w.wires| ==> v.wires[c].seat == w.wires[c].seat)
            && (|v.wires| > |w.wires| ==> op.OpOpen? && Opens(w, op.seat) && |v.wires| == |w.wires| + 1
                                          && v.wires[|w.wires|].seat == op.seat)
  {
    hide Inv, Process, Drop, Receive, Pump, Queued, Open, SameReads;
    match op {
      case OpOpen(seat, epoch, replayed) =>
      case OpTake(_, _) =>
      case OpLose(_, _) =>
      case _ =>
    }
  }

  lemma UntouchedStays(adm: Admission, w: World, op: Op, seat: Seat)
    requires Inv(adm, w) && Untouched(w, seat)
    ensures Untouched(Step(w, adm, op), seat)
  {
    hide Inv, SameReads, OpenStep, ReadStep, PumpStep, Queued, TakeStep, LoseStep;
    StepWires(adm, w, op);
    var v := Step(w, adm, op);
    if forall c :: 0 <= c < |v.wires| ==> v.wires[c].seat != seat {
      assert forall c :: 0 <= c < |w.wires| ==> w.wires[c].seat != seat;
      if !Concerns(op, seat) {
        Unnoticed(adm, w, op, seat);
      } else {
        match op
        case OpOpen(_, epoch, replayed) =>
          if Opens(w, seat) {
            OpenStepFields(w, seat, epoch, replayed);
          } else {
            NothingOpens(w, seat, epoch, replayed);
          }
        case OpPoll(_, limit) =>
        case OpRead(_, nonce, spare) => NothingRead(adm, w, seat, nonce, spare);
      }
    }
  }

  lemma AllOnLatest(adm: Admission, start: World, ops: seq<Op>, seat: Seat)
    requires AllDelivered(adm, start, ops) && Inv(adm, Run(adm, start, ops))
    ensures OnLatest(Run(adm, start, ops), seat)
  {
    hide Inv, Handed, Run;
    var w := Run(adm, start, ops);
    assert Untouched(w, seat);
    if w.ConnOf(seat).Some? {
      assert exists c :: 0 <= c < |w.wires| && w.wires[c].seat == seat;
      var last := LastOf(w.wires, seat);
      assert Delivered(w, last, Handed(adm, start, ops, last));
    }
  }

  lemma {:induction false} DeliveredRun(adm: Admission, start: World, ops: seq<Op>)
    requires Inv(adm, start) && AllAllowed(adm, start, ops) && start.wires == []
    requires Untouched(start, MemberA) && Untouched(start, MemberB)
    ensures AllDelivered(adm, start, ops)
    decreases |ops|
  {
    hide Inv, AllAllowed, AllDelivered, Untouched, Run;
    if ops == [] {
      DeliveredFirst(adm, start);
    } else {
      var p := ops[..|ops| - 1];
      AllowedBefore(adm, start, ops);
      DeliveredRun(adm, start, p);
      RunKeepsInv(adm, start, p);
      DeliveredNext(adm, start, ops);
    }
  }

  lemma DeliveredFirst(adm: Admission, start: World)
    requires start.wires == [] && Untouched(start, MemberA) && Untouched(start, MemberB)
    ensures AllDelivered(adm, start, [])
  {
    hide Untouched, Delivered;
  }

  lemma AllowedBefore(adm: Admission, start: World, ops: seq<Op>)
    requires ops != [] && AllAllowed(adm, start, ops)
    ensures AllAllowed(adm, start, ops[..|ops| - 1])
  {
    hide Allowed, Run;
    var p := ops[..|ops| - 1];
    forall i | 0 <= i < |p| ensures Allowed(Run(adm, start, p[..i]), p[i]) {
      assert p[..i] == ops[..i];
    }
  }

  lemma DeliveredNext(adm: Admission, start: World, ops: seq<Op>)
    requires ops != [] && AllDelivered(adm, start, ops[..|ops| - 1]) && Inv(adm, Run(adm, start, ops[..|ops| - 1]))
    ensures AllDelivered(adm, start, ops)
  {
    hide Inv, Step, Delivered, Untouched, Run, Latest, OnLatest, Opens;
    var p, op := ops[..|ops| - 1], ops[|ops| - 1];
    var w, v := Run(adm, start, p), Run(adm, start, ops);
    LastStep(adm, start, ops);
    StepWires(adm, w, op);
    UntouchedStays(adm, w, op, MemberA);
    UntouchedStays(adm, w, op, MemberB);
    forall conn | 0 <= conn < |w.wires|
      ensures Delivered(v, conn, Handed(adm, start, ops, conn))
    {
      AllOnLatest(adm, start, p, w.wires[conn].seat);
      StepDelivers(adm, w, op, conn, Handed(adm, start, p, conn));
    }
    forall conn | |w.wires| <= conn
      ensures Handed(adm, start, ops, conn) == []
    {
      BeyondLatest(w.wires, conn);
    }
    if |v.wires| > |w.wires| {
      NewDelivered(adm, start, p, op);
    }
  }

  lemma LastStep(adm: Admission, start: World, ops: seq<Op>)
    requires ops != []
    ensures Run(adm, start, ops) == Step(Run(adm, start, ops[..|ops| - 1]), adm, ops[|ops| - 1])
  {
  }

  lemma BeyondLatest(wires: seq<Wire>, conn: Conn)
    requires |wires| <= conn
    ensures !Latest(wires, conn)
  {
  }

  lemma NewDelivered(adm: Admission, start: World, p: seq<Op>, op: Op)
    requires AllDelivered(adm, start, p) && Inv(adm, Run(adm, start, p))
    requires op.OpOpen? && Opens(Run(adm, start, p), op.seat)
    ensures Delivered(Step(Run(adm, start, p), adm, op), |Run(adm, start, p).wires|, [])
  {
    hide Inv, Run, Handed, OpenStep;
    var w := Run(adm, start, p);
    forall c | 0 <= c < |w.wires| && w.wires[c].seat == op.seat && Latest(w.wires, c)
      ensures Remembers(w, c)
    {
      assert Delivered(w, c, Handed(adm, start, p, c));
    }
    OpenStarts(adm, w, op.seat, op.epoch, op.replayed);
  }

  // After any run, what the application was handed on a connection, followed by what waits for it
  // when the connection is the latest of its seat, is exactly what there is to hand out among the
  // frames read there: all of them while the client is connected, and all but perhaps the one that
  // ended the connection afterwards.
  lemma DeliveryExactly(adm: Admission, expectedA: Option<Digest>, expectedB: Option<Digest>, capacity: nat,
                        ops: seq<Op>, conn: Conn)
    requires var start := NewWorld(adm, expectedA, expectedB, capacity);
             ReachedBy(adm, expectedA, expectedB, capacity, ops, Run(adm, start, ops))
             && conn < |Run(adm, start, ops).wires|
    ensures var start := NewWorld(adm, expectedA, expectedB, capacity);
            var w, handed := Run(adm, start, ops), Handed(adm, start, ops, conn);
            var x := w.wires[conn];
            exists m: nat :: Upto(x, m)
                             && (if Latest(w.wires, conn) then Complete(w, conn, handed, m)
                                 else Partial(w, conn, handed, m))
  {
    hide Run, AllAllowed, Inv, Handed, Complete, Partial, Upto;
    var start := NewWorld(adm, expectedA, expectedB, capacity);
    NewWorldOk(adm, expectedA, expectedB, capacity);
    DeliveredRun(adm, start, ops);
    var w, handed := Run(adm, start, ops), Handed(adm, start, ops, conn);
    assert Delivered(w, conn, handed);
    if Latest(w.wires, conn) {
      var m: nat :| Complete(w, conn, handed, m);
      CompleteUpto(w, conn, handed, m);
    } else {
      var m: nat :| Partial(w, conn, handed, m);
      PartialUpto(w, conn, handed, m);
    }
  }

  lemma CompleteUpto(w: World, conn: Conn, handed: seq<Envelope>, m: nat)
    requires conn < |w.wires| && Complete(w, conn, handed, m)
    ensures Upto(w.wires[conn], m)
  {
  }

  lemma PartialUpto(w: World, conn: Conn, handed: seq<Envelope>, m: nat)
    requires conn < |w.wires| && Partial(w, conn, handed, m)
    ensures Upto(w.wires[conn], m)
  {
  }

  // ---- an advertisement that finds no room --------------------------------------------------

  // It ends the connection, and is noted as received all the same.
  lemma FullInboxLoses(c: Client, hash: seq<Byte> -> Digest, e: Envelope)
    requires c.hs.proven && c.app.received == None && Full(|c.app.inbox|, c.cfg.capacity)
    requires c.cfg.expected in {None, Some(hash(e.payload))}
    ensures var r := OnAdvertisement(c, hash, e);
            r.end == Reconnecting && r.client.app.received == Some(hash(e.payload))
            && r.client.app.inbox == c.app.inbox
  {
  }

  // Once one is known, no advertisement is handed out again.
  lemma {:induction false} KnownIsFinal(frames: seq<Envelope>)
    ensures !Advertised(Deliverable(frames, true))
    decreases |frames|
  {
    if frames != [] {
      var before, e := frames[..|frames| - 1], frames[|frames| - 1];
      KnownIsFinal(before);
      var d := Deliverable(frames, true);
      forall i | 0 <= i < |d| ensures d[i].kind != Advertisement {
        assert i < |Deliverable(before, true)| ==> d[i] == Deliverable(before, true)[i];
      }
    }
  }
}
