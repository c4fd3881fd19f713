/** V2Session and the receive loop of ws_attempt_v2 (relay/server.py), updated in place. */
module V2Sessions {
  import opened Common
  import opened Envelopes
  import opened SequenceGates
  import opened RelaySessions

  const SEATS := [MemberA, MemberB]

  // A dictionary with an entry for either seat.
  predicate Total<V>(m: map<Seat, V>) {
    MemberA in m && MemberB in m
  }

  function Listed(conn: Option<Conn>): seq<Conn> {
    if conn.Some? then [conn.value] else []
  }

  // How sending the retained frames to a new socket ends: they are sent, the relay gives up on
  // it, or the socket disconnects.
  datatype ReplayEnd = Sent | Failed | Disconnected

  class V2Session {
    const adm: Admission
    const gateA: SequenceGate
    const gateB: SequenceGate
    var peers: map<Seat, Option<Conn>>
    var generations: map<Seat, nat>
    var retained: map<Seat, seq<Envelope>>
    var retainedBytes: map<Seat, nat>
    var sideReadyEpochs: map<Seat, Option<int>>
    var advertisement: Option<Digest>
    var live: bool

    ghost predicate Valid()
      reads this, gateA, gateB
    {
      && Total(peers) && Total(generations) && Total(retained)
      && Total(retainedBytes) && Total(sideReadyEpochs)
      && gateA != gateB
      && gateA.attempt == adm.attempt && gateB.attempt == adm.attempt
      && gateA.seat == MemberA && gateB.seat == MemberB
      && Sound(gateA.View()) && Sound(gateB.View())
    }

    function GateOf(seat: Seat): SequenceGate {
      if seat.MemberA? then gateA else gateB
    }

    ghost function SideView(seat: Seat): Side
      requires Valid()
      reads this, gateA, gateB
    {
      assert seat == MemberA || seat == MemberB;
      Side(peers[seat], generations[seat], GateOf(seat).View(),
           retained[seat], retainedBytes[seat], sideReadyEpochs[seat])
    }

    ghost function View(): Session
      requires Valid()
      reads this, gateA, gateB
    {
      Session(SideView(MemberA), SideView(MemberB), advertisement, live)
    }

    constructor (adm: Admission)
      requires AttemptBytes(adm.attempt).Ok?
      ensures Valid() && View() == NewSession(adm.attempt) && this.adm == adm
      ensures fresh(gateA) && fresh(gateB)
    {
      this.adm := adm;
      gateA := new SequenceGate(adm.attempt, MemberA);
      gateB := new SequenceGate(adm.attempt, MemberB);
      peers := map[MemberA := None, MemberB := None];
      generations := map[MemberA := 0, MemberB := 0];
      retained := map[MemberA := [], MemberB := []];
      retainedBytes := map[MemberA := 0, MemberB := 0];
      sideReadyEpochs := map[MemberA := None, MemberB := None];
      advertisement := None;
      live := true;
    }

    // Returns the frames replayed to the socket, or None when the seat is taken.  A replay that
    // takes too long or fails gives the seat up; a socket that disconnects meanwhile keeps it.
    method Attach(seat: Seat, conn: Conn, end: ReplayEnd) returns (replay: Option<seq<Envelope>>)
      requires Valid()
      modifies this
      ensures Valid()
      ensures match Connect(old(View()), seat, conn, end != Failed)
              case Some(s) => View() == s && replay == Some(s.At(seat.Peer()).retained)
              case None => View() == old(View()) && replay == None
    {
      if peers[seat] != None {
        return None;
      }
      generations := generations[seat := generations[seat] + 1];
      peers := peers[seat := Some(conn)];
      replay := Some(retained[seat.Peer()]);
      if end == Failed {
        peers := peers[seat := None];
      }
    }

    // Returns the socket the frame is forwarded to.
    method Receive(seat: Seat, e: Envelope) returns (error: Option<TunnelError>, to: Option<Conn>)
      requires Valid()
      modifies this, gateA, gateB
      ensures Valid()
      ensures (View(), error) == Process(old(View()), adm, seat, e)
      ensures to == if error == None then View().At(seat.Peer()).peer else None
    {
      to := None;
      if e.attempt != adm.attempt || e.seat != seat {
        return Some(IdentityMismatch), None;
      }
      error := PassGate(seat, e);
      if error.Some? {
        return;
      }
      error := AdmitKind(seat, e);
      if error.Some? {
        return;
      }
      error := RetainFrame(seat, e);
      if error == None {
        to := peers[seat.Peer()];
      }
    }

    method RetainFrame(seat: Seat, e: Envelope) returns (error: Option<TunnelError>)
      requires Valid()
      modifies this`retained, this`retainedBytes
      ensures Valid()
      ensures (View(), error) == Retain(old(View()), seat, e)
    {
      if e.kind == PeerReady || e.kind == Advertisement {
        if |retained[seat]| >= RETAINED_FRAMES || retainedBytes[seat] + WireBytes(e) > RETAINED_BYTES {
          return Some(RetentionOverflow);
        }
        retained := retained[seat := retained[seat] + [e]];
        retainedBytes := retainedBytes[seat := retainedBytes[seat] + WireBytes(e)];
      }
      return None;
    }

    // Feeds the gate of the seat; a new epoch forgets what the relay held of the old one.
    method PassGate(seat: Seat, e: Envelope) returns (error: Option<TunnelError>)
      requires Valid()
      modifies this`retained, this`retainedBytes, this`sideReadyEpochs, gateA, gateB
      ensures Valid()
      ensures (View(), error) == Pass(old(View()), seat, e)
    {
      var gate := GateOf(seat);
      var priorEpoch := gate.epoch;
      error := gate.Accept(e);
      if error == None && priorEpoch != gate.epoch {
        retained := retained[seat := []];
        retainedBytes := retainedBytes[seat := 0];
        sideReadyEpochs := sideReadyEpochs[seat := None];
      }
    }

    method AdmitKind(seat: Seat, e: Envelope) returns (error: Option<TunnelError>)
      requires Valid()
      modifies this`advertisement, this`sideReadyEpochs
      ensures Valid()
      ensures (View(), error) == Admit(old(View()), adm, seat, e)
    {
      if e.kind == Advertisement {
        var digest := adm.hash(e.payload);
        if advertisement.Some? && advertisement != Some(digest) {
          return Some(AdvertisementChanged);
        }
        advertisement := Some(digest);
      } else if e.kind == SideReady {
        var decoded := adm.decode(e.payload);
        if decoded.Err? {
          return Some(decoded.error);
        }
        var ready := decoded.value;
        if ready.attempt != adm.attempt || ready.seat != seat || ready.launch != adm.Expected(seat) {
          return Some(SideReadyIdentity);
        }
        if advertisement != Some(ready.advertisement) {
          return Some(SideReadyAdvertisement);
        }
        if sideReadyEpochs[seat] == Some(e.epoch) {
          return Some(SideReadyDuplicate);
        }
        sideReadyEpochs := sideReadyEpochs[seat := Some(e.epoch)];
      } else if e.kind == Rfu {
        assert SEATS[0] == MemberA && SEATS[1] == MemberB;
        for i := 0 to |SEATS|
          invariant forall k :: 0 <= k < i ==> sideReadyEpochs[SEATS[k]] == GateOf(SEATS[k]).epoch
        {
          if sideReadyEpochs[SEATS[i]] != GateOf(SEATS[i]).epoch {
            return Some(BridgeNotReady);
          }
        }
      }
      return None;
    }

    method ClearSides()
      requires Valid()
      modifies this`retained, this`retainedBytes, this`sideReadyEpochs
      ensures Valid()
      ensures View() == old(View()).(a := Cleared(old(View()).a), b := Cleared(old(View()).b))
    {
      for i := 0 to |SEATS|
        invariant Valid()
        invariant i >= 1 ==> SideView(MemberA) == Cleared(old(SideView(MemberA)))
        invariant i >= 2 ==> SideView(MemberB) == Cleared(old(SideView(MemberB)))
      {
        assert SEATS[i] == if i == 0 then MemberA else MemberB;
        retained := retained[SEATS[i] := []];
        retainedBytes := retainedBytes[SEATS[i] := 0];
        sideReadyEpochs := sideReadyEpochs[SEATS[i] := None];
      }
    }

    // The finally block of the receive loop.
    method Detach(seat: Seat, conn: Conn, fatal: bool) returns (closing: Option<(Conn, Envelope)>)
      requires Valid()
      modifies this, gateA, gateB
      ensures Valid()
      ensures View() == Drop(old(View()), seat, conn, fatal)
      ensures closing == Closing(old(View()), seat, conn, fatal)
    {
      closing := None;
      if peers[seat] != Some(conn) {
        return;
      }
      peers := peers[seat := None];
      if fatal || !live {
        return;
      }
      ClearSides();
      var peer := peers[seat.Peer()];
      if peer.Some? {
        var gate := GateOf(seat);
        if gate.epoch.Some? {
          var frame := Envelope(adm.attempt, seat, gate.epoch.value, gate.nextSequence, PeerClose, PEER_RESET);
          var rejected := gate.Accept(frame);
          assert rejected == None;
          closing := Some((peer.value, frame));
        }
        peers := peers[seat.Peer() := None];
      }
    }

    // Takes the session out of service and returns the sockets that are closed.
    method Disconnect() returns (revoked: seq<Conn>)
      requires Valid()
      modifies this`peers, this`retained, this`retainedBytes, this`live
      ensures Valid()
      ensures View() == Teardown(old(View()))
      ensures revoked == Listed(old(View()).a.peer) + Listed(old(View()).b.peer)
    {
      live := false;
      revoked := [];
      for i := 0 to |SEATS|
        invariant Valid() && !live
        invariant i >= 1 ==> peers[MemberA] == None && retained[MemberA] == [] && retainedBytes[MemberA] == 0
        invariant i >= 2 ==> peers[MemberB] == None && retained[MemberB] == [] && retainedBytes[MemberB] == 0
        invariant i < 2 ==> peers[MemberB] == old(peers)[MemberB]
        invariant i < 1 ==> peers[MemberA] == old(peers)[MemberA]
        invariant revoked == (if i >= 1 then Listed(old(peers)[MemberA]) else [])
                             + (if i >= 2 then Listed(old(peers)[MemberB]) else [])
      {
        assert SEATS[i] == if i == 0 then MemberA else MemberB;
        if peers[SEATS[i]].Some? {
          revoked := revoked + [peers[SEATS[i]].value];
        }
        peers := peers[SEATS[i] := None];
        retained := retained[SEATS[i] := []];
        retainedBytes := retainedBytes[SEATS[i] := 0];
      }
      assert SideView(MemberA) == Teardown(old(View())).a;
      assert SideView(MemberB) == Teardown(old(View())).b;
    }

    method ExpirePeer(seat: Seat, generation: nat)
      requires Valid()
      modifies this
      ensures Valid()
      ensures View() == Expire(old(View()), seat, generation)
    {
      var expired := peers[seat] == None && generations[seat] == generation;
      if !expired || !live {
        return;
      }
      var _ := Disconnect();
    }
  }
}
