# Verified models of SwitchTrade

Two players trade over the internet as if their consoles were in one room. This project models the
protocol cores that make that safe, in Dafny, and proves what they are for.

- **Wire format and relay** (`Bytes`, `Utf8`, `Envelope`, `EnvelopeLayout`, `SequenceGate`,
  `RelaySession`, `RelayAdmission`, `V2Session`). The envelope bytes; the gate that admits contiguous
  frames of one epoch; the attempt-scoped session of the relay with replay, the SIDE_READY barrier and
  the reset of both peers.
- **Client and whole tunnel** (`TunnelClient`, `TunnelClientV2`, `TunnelSystem`, `TunnelProperties`,
  `TunnelLoss`, `TunnelDelivery`, `TunnelEndToEnd`, `TunnelReadiness`). The client with its nonce proof,
  and the relay composed with two clients and their connections, as a state machine over all
  interleavings, from one application to the other.
- **Room authority** (`Rooms`, `RoomInvariants`, `RoomLaws`, `RoomDocument`, `AuthorityModel`,
  `AuthorityInvariants`, `AuthorityEdits`, `AuthorityTransactions`, `AuthorityRuns`, `AuthorityCommands`,
  `AuthorityProperties`, `AuthorityLaws`, `AuthoritySweeps`, `AuthorityBearers`, `AuthorityAccess`,
  `AuthorityRevival`, `AuthorityReopening`, `AuthorityStore`). Two-member trade rooms with attempts,
  versions, events, idempotent commands, credentials, presence and the two-sided shutdown barrier.
- **Carriers and blocks** (`RfuFrames`, `RfuLaws`, `RfuBlocks`, `RfuBlockLaws`, `RfuPipeline`,
  `RfuAssembler`). From captured bytes to reassembled blocks.
- **Trade evidence and link barrier** (`TradeObserver`, `TradeEvidence`, `TradeExactness`,
  `TradeReselection`, `Barrier`, `BarrierHistory`).
- **Records** (`Pk3`, `Pk3Layout`). Encryption and shuffling of Gen-3 records.
- **Loop protection** (`TokenBucket`, `BucketExactness`, `FrameBridge`, `RelayBridge`, `BridgeLaws`).

Every stateful core appears twice: as a specification on values, about which the runs are proved,
and as a class with the fields and loops of the original, whose methods are proved to do exactly
what the specification says. A row about a method of a class states that agreement.

## Hypotheses

- Tunnel runs (`TunnelSystem`): a frame is processed only while its socket holds the seat; a socket
  is not lost before the relay has taken its PEER_READY; nothing reaches a socket after a failed send
  to it; epochs and nonces are fresh. `EarlyLossBreaksStream` shows that the second one is exactly
  what the stream needs; without it the other client stops for good (`LossStopsPeer`), and that happens
  in runs that meet the other hypotheses (`EarlyLossStopsPeer`).
- Results marked "without lock_role" leave that command out of the run. `LockRoleExactly`,
  `LockRoleBreaksBarrier` and `LockRoleRevives` say when it does harm.
- Results marked "without a late report" leave out the report of a side that arrives after the time of
  its room. `LateReportReopens` says exactly what it does.
- Clocks of the bridge do not go back. The token bucket is proved for any clock.
- Digests are injective; identifiers and tokens are drawn from a counter, so they never repeat.

## Where the code and its comments part

- `bridge/frlgsim/barrier.py:68-71` calls a close terminal. Starting a standby, from either side,
  leaves it (`CloseEndsWith`, `CloseIsNotTerminal`).
- `tools/pk3-tool.py:137-141` says that a decrypted record does not validate as wire form. It does
  exactly when exclusive-oring with its key keeps its checksum, as with two equal identifiers
  (`MistakenForWire`, `EqualIdentifiersAreMistaken`).
- `relay/server.py:1354-1360` means to hold RFU frames back until both seats are ready. Two absent
  epochs compare equal, so a seat whose peer has never spoken passes (`RfuSafety`, `RfuWithoutPeer`).
- `relay/authority.py:932-940` writes the phase of an attempt whatever it is (`LockRoleRevives`).
- `switchtrade/party_observer.py:253-265` overwrites the selection of a seat at any stage. A trade may
  so commit a record that was selected after START, or after CONFIRM (`CommitsStartedSelections`,
  `CommitsLateSelection`).
- `relay/server.py:1266-1282` gives the seat up when sending retained frames times out or fails. A
  WebSocketDisconnect there is neither, and leaves the seat taken (`Attach`, `SeatStaysTaken`).
- `relay/authority.py:703-776` records a side's report without asking whether its room is still open.
  When reading the room has just expired it, the second report puts it back to its ready check, with
  all credentials revoked (`LateReportReopens`, `LateReportLocksOut`).
- `switchtrade/tunnel_client_v2.py:311-312` notes an advertisement as received before it is put into the
  inbox. When the inbox is full the connection ends, and no later copy is handed out (`FullInboxLoses`,
  `KnownIsFinal`).

## Model

| member | source | states |
|---|---|---|
| `Envelopes.DecodeOfEncode` | switchtrade/rfu_tunnel_v2.py:105-148 | every valid envelope decodes from its encoding, field by field, whatever its attempt id, kind, flags and payload |
| `Envelopes.EncodeOfDecode` | switchtrade/rfu_tunnel_v2.py:105-148 | every byte string that decodes is the encoding of what it decodes to, and is no longer than the largest envelope |
| `Envelopes.AcceptedExactlyEncodings` | switchtrade/rfu_tunnel_v2.py:124-148 | a byte string is accepted as an envelope if and only if it is the encoding of that valid envelope |
| `EnvelopeLayout.ErrorsExactly` | switchtrade/rfu_tunnel_v2.py:64-118 | which envelope has no encoding, and for which reason, in the order of the checks |
| `EnvelopeLayout.DecodeErrorsExactly` | switchtrade/rfu_tunnel_v2.py:124-148 | every byte string is malformed, or read field by field from its offsets, or refused for the reason its envelope could not be sent |
| `Utf8.DecodeOfEncode` | switchtrade/rfu_tunnel_v2.py:64-73 | attempt ids survive UTF-8, for every text of Unicode scalars |
| `Utf8.EncodeOfDecode` | switchtrade/rfu_tunnel_v2.py:64-73 | only canonical UTF-8 is accepted: bytes that decode are the encoding of their text (sections 3 and 4 of RFC 3629) |
| `EnvelopeLayout.ValidExactly` | switchtrade/rfu_tunnel_v2.py:64-92 | an envelope is valid exactly when its attempt takes 1 to 128 bytes, both counters fit 64 bits, only RFU frames carry flags, and the payload has a size its kind allows |
| `EnvelopeLayout.Layout` | switchtrade/rfu_tunnel_v2.py:15-19 | where each field of an encoded envelope lies, byte by byte, and the number it holds |
| `EnvelopeLayout.ScalarBytes` | switchtrade/rfu_tunnel_v2.py:64-73 | the lead and tail bytes of every scalar value (section 3 of RFC 3629) |
| `SequenceGates.SequenceGate.constructor` | switchtrade/rfu_tunnel_v2.py:154-160 | a new gate has seen no epoch and expects nothing yet |
| `SequenceGates.SequenceGate.Accept` | switchtrade/rfu_tunnel_v2.py:162-184 | an accepted frame moves the gate as AcceptFrame says; a rejected one names its error and leaves every field alone |
| `SequenceGates.AnswersExactly` | switchtrade/rfu_tunnel_v2.py:162-184 | a frame is accepted when it opens an epoch that has not been left, or is the next one of the present epoch; otherwise the first fault is named, and what the gate holds afterwards |
| `SequenceGates.GateLanguage` | switchtrade/rfu_tunnel_v2.py:151-184 | a frame list is accepted whole if and only if it splits into runs of pairwise distinct epochs, each a PEER_READY at 0 followed by contiguous other frames of the bound seat and attempt |
| `SequenceGates.RunsOfAccepted` | switchtrade/rfu_tunnel_v2.py:162-184 | an accepted list does split so, and the gate remembers the last run and the retired epochs |
| `SequenceGates.SplitIsAccepted` | switchtrade/rfu_tunnel_v2.py:162-184 | every list that splits so is accepted, and the gate ends where its last run does |
| `SequenceGates.RunIsAccepted` | switchtrade/rfu_tunnel_v2.py:162-184 | one run of one epoch takes a new gate to the end of that run |
| `RelaySessions.WireBytesIsLength` | relay/server.py:1362-1369 | the size that the retention bound counts is the length of the encoded envelope |
| `RelaySessions.AdvertisementFrozen` | relay/server.py:1319-1325 | once a session holds an advertisement digest it holds that one for the rest of the run |
| `RelaySessions.SideReadyWitness` | relay/server.py:1326-1353 | a recorded SIDE_READY is that of an accepted frame in the seat's present epoch, naming the digest held, with no peer reset since |
| `RelaySessions.RfuSafety` | relay/server.py:1312-1360 | when an RFU frame is accepted, both seats have passed the SIDE_READY barrier in their present epochs, for the one digest and with no reset since, if and only if both gates have started an epoch |
| `RelaySessions.RfuWithoutPeer` | relay/server.py:1354-1360 | a seat whose peer has never sent a frame gets an RFU frame accepted, because two absent epochs compare equal |
| `RelayAdmissions.SideReadyExactly` | relay/server.py:1326-1353 | an in-sequence SIDE_READY is accepted exactly when it decodes, names the attempt, the seat of its sender and the launch admitted for that seat, agrees with the digest held and is the first of its epoch; each error is that of the first condition that fails |
| `RelayAdmissions.AdvertisementExactly` | relay/server.py:1319-1369 | an advertisement is accepted exactly when none or the same is held and both retention bounds leave room for its bytes |
| `RelayAdmissions.RfuExactly` | relay/server.py:1354-1360 | RFU data is accepted exactly when the reports of both seats are those of the epochs their gates are in |
| `RelayAdmissions.AcceptedChanges` | relay/server.py:1311-1369 | all that an accepted frame changes: gate, digest, report and retained frames of its own seat |
| `RelayAdmissions.RefusedChangesNothing` | relay/server.py:1305-1315 | a frame out of sequence or from the wrong seat leaves the session as it is |
| `RelayAdmissions.RetentionCounts` | relay/server.py:1362-1369 | in every run the bytes counted for a seat are those of the frames kept for it, within 32 frames and 131072 bytes |
| `RelayAdmissions.GenerationCounts` | relay/server.py:1270 | the generation of a seat counts how often it was taken |
| `RelayAdmissions.DeadlineExactly` | relay/server.py:977-990 | the deadline set when a seat was free takes the session down exactly when nobody has taken the seat since |
| `RelayAdmissions.BothSeatsPass` | relay/server.py:1264-1378 | a run in which both seats advertise and report, every frame is accepted, and RFU data of either flows |
| `V2Sessions.V2Session.constructor` | relay/server.py:871-893 | a new session has no peers, no retained frames and no digest |
| `V2Sessions.V2Session.Attach` | relay/server.py:1264-1282 | a free seat is taken and handed the retained frames of its peer; a taken one is refused; a replay that times out or fails gives it up, a socket that disconnects meanwhile keeps it |
| `RelaySessions.SeatStaysTaken` | relay/server.py:1264-1282 | over any run a socket keeps its seat, and every other is refused, until it is lost, the session goes on and the other is lost, or the session ends; this includes a socket that went away during its replay |
| `V2Sessions.V2Session.Receive` | relay/server.py:1310-1378 | one frame is gated, checked against its kind, retained and forwarded, or the session is as the failing check leaves it |
| `V2Sessions.V2Session.PassGate` | relay/server.py:1311-1318 | a frame passes its gate; a new epoch drops what the old one had retained and reported |
| `V2Sessions.V2Session.AdmitKind` | relay/server.py:1319-1360 | advertisement, SIDE_READY and RFU frames are admitted under their conditions, with the error of the first that fails |
| `V2Sessions.V2Session.RetainFrame` | relay/server.py:1362-1369 | PEER_READY and advertisement frames are kept for a later peer, within both bounds |
| `V2Sessions.V2Session.Detach` | relay/server.py:1401-1432 | losing a socket frees its seat, clears what both sides had retained and reported, tells the peer with one more frame of the gate's epoch, and resets the peer |
| `V2Sessions.V2Session.Disconnect` | relay/server.py:931-944 | the whole session is torn down and every socket revoked |
| `V2Sessions.V2Session.ExpirePeer` | relay/server.py:977-990 | a seat that has not come back in the same generation takes the session down |
| `TunnelClientObjects.TunnelClientV2.constructor` | switchtrade/tunnel_client_v2.py:56-97 | a new client is not connected, not ready and has empty queues |
| `TunnelClientObjects.TunnelClientV2.OnConnected` | switchtrade/tunnel_client_v2.py:220-232 | a connection starts a fresh epoch, a fresh gate and an unproven data plane, and announces itself with PEER_READY |
| `TunnelClientObjects.TunnelClientV2.SendFrame` | switchtrade/tunnel_client_v2.py:190-197 | a frame goes out under the next sequence number of the epoch, or the client ends |
| `TunnelClientObjects.TunnelClientV2.OnFrame` | switchtrade/tunnel_client_v2.py:270-319 | a received frame is gated, dispatched on its kind and answered, exactly as the specification of one receive says |
| `TunnelClientObjects.TunnelClientV2.OnPeerReadyFrame` | switchtrade/tunnel_client_v2.py:274-285 | PEER_READY draws a challenge; a later epoch restarts the session |
| `TunnelClientObjects.TunnelClientV2.OnResponse` | switchtrade/tunnel_client_v2.py:289-292 | only the response that returns the client's own challenge proves the way back |
| `TunnelClientObjects.TunnelClientV2.OnAdvertisementFrame` | switchtrade/tunnel_client_v2.py:293-311 | an advertisement is delivered only when its digest is the expected one |
| `TunnelClientObjects.TunnelClientV2.OnClosed` | switchtrade/tunnel_client_v2.py:233-252 | after a connection nothing is ready, and a contract failure stops the client for good |
| `TunnelClientObjects.TunnelClientV2.ClearReadiness` | switchtrade/tunnel_client_v2.py:167-170 | all readiness is withdrawn |
| `TunnelClientObjects.TunnelClientV2.ClearQueues` | switchtrade/tunnel_client_v2.py:172-179 | both queues are emptied |
| `TunnelClientObjects.TunnelClientV2.PumpOutbox` | switchtrade/tunnel_client_v2.py:258-264 | queued frames are sent in order, until the budget, the queue or the client ends |
| `TunnelClientObjects.TunnelClientV2.AdvertiseRoom` | switchtrade/tunnel_client_v2.py:122-133 | an advertisement is queued only over a proven data plane, and within its size |
| `TunnelClientObjects.TunnelClientV2.ReportSideReady` | switchtrade/tunnel_client_v2.py:135-143 | SIDE_READY is queued only over a proven data plane |
| `TunnelClientObjects.TunnelClientV2.QueueRfu` | switchtrade/tunnel_client_v2.py:145-151 | RFU frames are queued only over a proven data plane |
| `TunnelClientObjects.TunnelClientV2.Poll` | switchtrade/tunnel_client_v2.py:153-160 | received frames are handed out in order, at most as many as asked for |
| `TunnelSystem.StepPreserves` | relay/server.py:1264-1440 | every allowed step of the relay and its two clients keeps the invariant of the whole system |
| `TunnelSystem.RunKeepsInv` | relay/server.py:1264-1440 | every run of allowed steps, of any length and interleaving, keeps the invariant of the whole system |
| `TunnelSystem.CloseFrameContinues` | relay/server.py:1413-1424 | the PEER_CLOSE that the relay composes continues the stream its reader has received when the relay had taken the lost socket's PEER_READY |
| `TunnelProperties.EndToEndStream` | relay/server.py:1266-1282 | what a connection receives, replay then live frames then the composed PEER_CLOSE, is one contiguous run from 0 of a single epoch of the peer, copied from one of its connections, and the client's gate accepts it |
| `TunnelProperties.ClientNeverRejects` | switchtrade/tunnel_client_v2.py:254-284 | the next frame a client reads passes its gate and never opens a second epoch, so the restart inside a connection is dead |
| `TunnelProperties.RelayNeverRejects` | relay/server.py:1310-1314 | the relay's gate accepts every frame a client has sent |
| `TunnelProperties.EarlyLossBreaksStream` | relay/server.py:1413-1424 | the composed PEER_CLOSE continues what the other client was sent if and only if the relay had taken the PEER_READY of the lost socket; otherwise it starts an epoch wrong |
| `TunnelLoss.LossStopsPeer` | switchtrade/tunnel_client_v2.py:234-250 | the client that reads this PEER_CLOSE leaves its connection; it stops for good if and only if the relay had taken nothing from the lost socket (or it had been stopped already) |
| `TunnelLoss.EarlyLossHappens` | relay/server.py:1264-1440 | a run of six steps that meets every hypothesis and ends in the failing case: both seats held, an earlier epoch of one of them at the relay, nothing taken of the present one |
| `TunnelLoss.EarlyLossStopsPeer` | relay/server.py:1401-1424 | after that run one more lost socket stops the other client for good |
| `TunnelProperties.ProbeSoundness` | switchtrade/tunnel_client_v2.py:223-319 | a client that holds its data plane for proven is connected, its peer has consumed its fresh challenge in its present epoch, and it has answered a challenge of the very peer epoch its gate tracks |
| `TunnelProperties.NoDataBeforeProof` | switchtrade/tunnel_client_v2.py:122-151 | until then nothing is queued, and nothing but PEER_READY and probes has been sent on the connection |
| `TunnelDelivery.DeliveryExactly` | switchtrade/tunnel_client_v2.py:293-315 | after any run of relay and clients, what the application has polled on a connection followed by its inbox is exactly, in order, the SIDE_READY and RFU frames and the first advertisement among the frames read there; of an earlier connection it got the beginning of that |
| `TunnelDelivery.FullInboxLoses` | switchtrade/tunnel_client_v2.py:311-312 | an advertisement that finds the inbox full ends the connection and is noted as received, though nobody has got it |
| `TunnelDelivery.KnownIsFinal` | switchtrade/tunnel_client_v2.py:303-310 | once an advertisement is known, no copy of it is handed out |
| `TunnelEndToEnd.SentExactly` | switchtrade/tunnel_client_v2.py:162-197 | after any run, the data a client has sent on a connection, followed by its outbox, is what its application was allowed to send there, unchanged and in order |
| `TunnelEndToEnd.RfuEndToEnd` | switchtrade/tunnel_client_v2.py:145-160 | end to end: the RFU data one application is handed, payloads and flags, is the beginning of what the other application was allowed to send on the one connection that is its source |
| `TunnelReadiness.ReadinessExactly` | switchtrade/tunnel_client_v2.py:274-319 | after any run a client is authenticated exactly while connected, calls its peer ready exactly when it has read a frame, and the data plane proven exactly when it has read a challenge and a response there |
| `TunnelReadiness.RequestExactly` | switchtrade/tunnel_client_v2.py:122-166 | after any run a connected client accepts a request exactly when the data plane is proven, the outbox has room, the payload fits, and it is the first advertisement or SIDE_READY of the connection |
| `TunnelReadiness.RefusedExactly` | switchtrade/tunnel_client_v2.py:122-166 | a request is refused without the proof, when repeated in the same proof generation, for its payload, or for want of room, in that order |
| `TunnelReadiness.FrameEndsExactly` | switchtrade/tunnel_client_v2.py:270-319 | how reading each kind of frame ends: going on, connecting afresh, or stopping for good with which code |
| `TunnelReadiness.FrameAnswersExactly` | switchtrade/tunnel_client_v2.py:274-292 | what is answered to each kind of frame, under which epoch and sequence number |
| `TunnelReadiness.LaterEpochRestarts` | switchtrade/tunnel_client_v2.py:274-287 | a second epoch of the peer makes the client start over under a new epoch, unproven |
| `TunnelReadiness.OpenExactly` | switchtrade/tunnel_client_v2.py:220-232 | what a client is and sends when it has connected |
| `RoomInvariants.NeverClaimed` | relay/authority.py:913-931 | with attempts always role locked, claim_creator and transfer_creator are always refused |
| `RoomInvariants.ActionKeeps` | relay/authority.py:867-1035 | every command of a member keeps the shape of its room; every one but lock_role also keeps the order of phases, the barrier and the match of state and attempt |
| `RoomInvariants.LockRoleExactly` | relay/authority.py:932-940 | in an open room whose attempt has no shutdown record, lock_role keeps the match of state and attempt if and only if the attempt is still running, and the order of phases if and only if its phase is creator_guidance or connecting_switches |
| `RoomInvariants.LockRoleBreaksBarrier` | relay/authority.py:932-940 | with a shutdown record on the attempt, lock_role always breaks the barrier |
| `AuthorityRevivals.LockRoleRevives` | relay/authority.py:932-940 | a run from an empty store that creates, joins, readies and loses the transport leaves a failed attempt in a sound room; lock_role sets that attempt running again, with its error, while the room stays at its ready check |
| `RoomInvariants.JoinKeeps` | relay/authority.py:543-568 | a join finds no attempt, and leaves a room of the right shape |
| `RoomInvariants.BeginDKeeps` | relay/authority.py:627-701 | freezing an outcome keeps all room invariants |
| `RoomInvariants.TerminalizeKeeps` | relay/authority.py:607-625 | the one terminal transition of the barrier keeps all room invariants, from waiting or after a forced end |
| `RoomInvariants.AckKeeps` | relay/authority.py:703-776 | a side's report keeps all room invariants, also a late one after a forced timeout |
| `RoomInvariants.ForceKeeps` | relay/authority.py:1132-1150 | forcing a waiting barrier keeps all room invariants and the order of phases |
| `RoomInvariants.FailKeeps` | relay/authority.py:1108-1130 | failing the transport of a running attempt keeps all room invariants and the order of phases |
| `RoomInvariants.PresenceKeeps` | relay/authority.py:1195-1231 | a member going silent or offline keeps all room invariants and the order of phases |
| `RoomLaws.MatchedExactly` | relay/authority.py:867-897 | both present members are ready in complementary roles exactly when one leads and the other joins; the creator is the one that leads |
| `RoomLaws.ReadyWhileRunning` | relay/authority.py:867-890 | while an attempt runs a member may only confirm the role that the attempt gives it |
| `RoomLaws.ReadyOtherwise` | relay/authority.py:867-897 | otherwise the choice of the member is recorded, and an attempt begins exactly when it makes the two match, under the next number and with its creator |
| `RoomLaws.StartExactly` | relay/authority.py:898-912 | an explicit start does nothing while an attempt runs, and else begins one exactly for members that match |
| `RoomLaws.PhaseExactly` | relay/authority.py:941-978 | the phase command advances a running attempt to no lower rank, may replace the report of a lost peer, and is refused or idle otherwise; an outcome makes everybody there not ready |
| `RoomLaws.PatternsExactly` | relay/authority.py:52-53 | which texts pass as failure code, barrier code, gate and launch hash |
| `RoomLaws.LeaveExactly` | relay/authority.py:979-998 | only the guest leaves, and only while no attempt runs; the room waits for a partner again |
| `RoomLaws.RemoveExactly` | relay/authority.py:999-1025 | only the owner removes, only the guest, only when it is offline and no attempt runs |
| `RoomLaws.CloseExactly` | relay/authority.py:1026-1034 | only the owner closes, for everybody, and a running attempt is canceled |
| `RoomLaws.JoinExactly` | relay/authority.py:543-557 | the second seat goes to the new member when nobody present has it |
| `RoomLaws.SignsOfLife` | relay/authority.py:893-897 | a heartbeat and a return make the member online now and nothing else |
| `RoomLaws.MissedExactly` | relay/authority.py:1195-1231 | a member is missed after more than 45 seconds, has 90 to come back, then is offline and loses its credential; an attempt that is not closing fails with it |
| `RoomLaws.OutdatedExactly` | relay/authority.py:845-860 | which commands go through on an outdated version, and which are answered idly |
| `RoomLaws.NamedExactly` | relay/authority.py:913-978 | the commands on an attempt are refused unless they name the one of the room; an unknown command is refused with 404 |
| `RoomLaws.BeginDExactly` | relay/authority.py:627-701 | who may freeze an outcome, with which request, and all that is frozen |
| `RoomLaws.AckExactly` | relay/authority.py:703-776 | a side reports once, what its payload says, under its own seat; the second report ends the attempt, verified exactly when all five fields of both are true and nothing was forced |
| `RoomLaws.ForcedExactly` | relay/authority.py:1132-1194 | a waiting barrier is ended by force in an open room, and by a sweep at its deadline |
| `RoomLaws.TransportExactly` | relay/authority.py:1108-1130 | the loss of the transport fails exactly a running attempt that is not closing |
| `AuthorityInvariants.CommitGoes` | relay/authority.py:246-281 | a good edit, saved with its event and revocations, keeps the whole database and changes one room only |
| `AuthorityRuns.SweepAdvances` | relay/authority.py:1168-1239 | a sweep keeps the database, moves rooms forward only and leaves closed rooms alone until it deletes them |
| `AuthorityRuns.StepAdvances` | relay/authority.py:219-228 | every step of the store, committed or rolled back, keeps the database, moves rooms forward only and leaves closed rooms alone |
| `AuthorityRuns.RunAdvances` | relay/authority.py:219-228 | every run keeps the database, moves rooms forward only and leaves closed rooms alone; without lock_role it also keeps the order of phases and the barrier |
| `AuthorityProperties.RoomShape` | relay/authority.py:391-468 | in every run the owner keeps member_a and never leaves, a second member sits at member_b, and an attempt means two members present, one of them its creator, a locked role and the room's latest number |
| `AuthorityProperties.StateFollowsAttempt` | relay/authority.py:821-835 | without lock_role, an open room is in connection_attempt or trading exactly while an attempt runs |
| `AuthorityProperties.CodesAreUnique` | relay/authority.py:239-244 | no two rooms share a code or a listing |
| `AuthorityProperties.CredentialsFollowMembers` | relay/authority.py:283-293 | an active credential belongs to a member that is online or may come back, in an open room |
| `AuthorityProperties.EventsAreVersions` | relay/authority.py:246-253 | the events of a room, in order, carry its versions 1, 2, ... up to the current one, and its last event is the latest of them |
| `AuthorityProperties.ChangesRaiseVersion` | relay/authority.py:255-259 | between any two points of a run a room is the same or has a later version |
| `AuthorityProperties.ClosedForever` | relay/authority.py:261-281 | a closed or expired room never changes again, and no credential opens it |
| `AuthorityProperties.AttemptProgress` | relay/authority.py:821-835 | without lock_role, an attempt keeps its number and members and never goes back in phase, a terminal phase changes only to the recorded outcome once both sides have reported, and another attempt has a higher number |
| `AuthorityProperties.BarrierFacts` | relay/authority.py:607-625 | the barrier is two_side_terminal exactly when both reports exist; then cleanup is verified if and only if both have all five fields true and forced false, and failed with D_SIDE_CLEANUP_FAILED otherwise; once it has left waiting_for_sides the phase is the recorded outcome |
| `AuthorityProperties.BarrierIsFrozen` | relay/authority.py:627-776 | outcome, failure code, gate, generation and deadline never change once recorded, and each side's report is written once |
| `AuthorityProperties.NothingWaitsPastDeadline` | relay/authority.py:1178-1194 | after a sweep at or past its deadline no attempt with a record in an open room is still closing |
| `AuthoritySweeps.SweepExactly` | relay/authority.py:1168-1239 | after any run a sweep makes of every room it keeps exactly what is due there: expiry alone, or the barrier and then the members in order |
| `AuthorityBearers.OnlyLatestToken` | relay/authority.py:283-293 | after any run every command and read needs the token of the latest issuing transaction of its member; any other bearer gets 401 and changes nothing |
| `AuthorityBearers.ReplacedForGood` | relay/authority.py:1064-1075 | a token that a later one has replaced is refused for good |
| `AuthorityAccess.PresentExactly` | relay/authority.py:283-293 | without a late report, a member has an active credential for a room exactly while the room is open and the member is online or may come back |
| `AuthorityAccess.PresentIsServed` | relay/authority.py:585-593 | so a present member reads its room with its latest token |
| `AuthorityAccess.ReturnExactly` | relay/authority.py:1045-1075 | a new return succeeds exactly with the latest reconnect token, or the one it replaced within 90 seconds, while the room is open and the member may be waited for |
| `AuthorityAccess.ReturnRefusedExactly` | relay/authority.py:1045-1075 | why a return is refused: for its token, for a member that another one has replaced, for the room or the time of the member, or for its credential, in that order |
| `AuthorityReopenings.LateReportReopens` | relay/authority.py:703-776 | a report for a room whose time is over opens it again exactly when it is the second one, and exactly then present members are left without credentials |
| `AuthorityReopenings.LateReportLocksOut` | relay/authority.py:703-776 | a run from an empty store that ends so: the room is open, both members are online, and no credential is active |
| `AuthorityCommands.Replay` | relay/authority.py:350-383 | while a command is on record, repeating it does no more than expire a room, and an answer is the first answer |
| `AuthorityCommands.EffectRecords` | relay/authority.py:358-389 | a step that does more is the first of its command and records it with its response in the same transaction |
| `AuthorityCommands.AtMostOnce` | relay/authority.py:837-844 | over any run: after a command has had its effect, the same command has none and is answered alike, until a sweep comes more than the retention later |
| `AuthorityCommands.SecretRepeated` | relay/authority.py:364-389 | a repeated secret command changes nothing in the database and gets the cached response while that lives; afterwards 503 when the cache is full of other live secrets, and a conflict otherwise |
| `AuthorityLaws.EntersExactly` | relay/authority.py:283-293 | a bearer is let in exactly with an active credential of that room, and refused with 401, 403 or 404 otherwise |
| `AuthorityLaws.CommandExactly` | relay/authority.py:837-1043 | a new command of a member that is let in is refused with nothing changed, or recorded with its answer and the one change it asks for: the next version, one event by that member, the credentials it revokes |
| `AuthorityLaws.RepeatedExactly` | relay/authority.py:350-363 | a recorded command gets its recorded answer |
| `AuthorityLaws.ScopesApart` | relay/authority.py:837-844 | two commands share a scope exactly when the same member or client gives the same command about the same thing |
| `AuthorityLaws.SecretExactly` | relay/authority.py:364-389 | a new secret command is cached for ten minutes and leaves a marker in the tables |
| `AuthorityLaws.CacheExactly` | relay/authority.py:364-389 | which secrets stay in the cache after any secret command |
| `AuthorityLaws.FirstFreeExactly` | relay/authority.py:239-244 | the code is the first draw that no room has |
| `AuthorityLaws.CreateExactly` | relay/authority.py:391-468 | all that creating a room puts into the tables |
| `AuthorityLaws.JoinsExactly` | relay/authority.py:525-583 | which rooms are joined by code and by listing, and all that joining puts into the tables |
| `AuthorityLaws.RelayExactly` | relay/authority.py:1108-1150 | the steps of the relay itself change what they ask for, by nobody, and tell whether they did |
| `AuthorityLaws.ForgetExactly` | relay/authority.py:1232-1239 | commands are forgotten after a day and closed rooms two weeks after their time, with all that belongs to them |
| `RoomDocuments.RoomDocument.constructor` | relay/authority.py:261-266 | a document holds the room it was loaded from |
| `RoomDocuments.RoomDocument.ResetReadiness` | relay/authority.py:621-625 | the loop makes every member, or every member still there, not ready |
| `RoomDocuments.RoomDocument.StartNextAttempt` | relay/authority.py:821-835 | a new attempt in place |
| `RoomDocuments.RoomDocument.Readiness` | relay/authority.py:867-892 | the ready command in place, with the attempt it may start |
| `RoomDocuments.RoomDocument.Start` | relay/authority.py:898-912 | the attempt command in place |
| `RoomDocuments.RoomDocument.Advance` | relay/authority.py:941-978 | the phase command in place |
| `RoomDocuments.RoomDocument.Depart` | relay/authority.py:979-998 | leaving in place |
| `RoomDocuments.RoomDocument.Remove` | relay/authority.py:999-1025 | removing an offline member in place |
| `RoomDocuments.RoomDocument.Shut` | relay/authority.py:1026-1034 | closing in place |
| `RoomDocuments.RoomDocument.Act` | relay/authority.py:860-1035 | the commands of a member told apart by name, after the attempt they name is checked |
| `RoomDocuments.RoomDocument.Admit` | relay/authority.py:543-557 | joining in place |
| `RoomDocuments.RoomDocument.Terminalize` | relay/authority.py:607-625 | the terminal transition in place |
| `RoomDocuments.RoomDocument.BeginClosing` | relay/authority.py:627-693 | freezing an outcome in place |
| `RoomDocuments.RoomDocument.Acknowledge` | relay/authority.py:703-769 | a side's report in place |
| `RoomDocuments.RoomDocument.Force` | relay/authority.py:1132-1150 | forcing the barrier in place |
| `RoomDocuments.RoomDocument.LoseTransport` | relay/authority.py:1108-1130 | failing the transport in place |
| `RoomDocuments.RoomDocument.TimeOut` | relay/authority.py:1178-1194 | ending an overdue barrier in place |
| `RoomDocuments.RoomDocument.WatchPresence` | relay/authority.py:1195-1231 | a member's silence in place |
| `AuthorityStores.AuthorityStore.constructor` | relay/authority.py:137-216 | a new store is empty |
| `AuthorityStores.AuthorityStore.Record` | relay/authority.py:246-253 | the next version, its event and its revocations |
| `AuthorityStores.AuthorityStore.Load` | relay/authority.py:261-281 | a room is read, and expired when its time is over |
| `AuthorityStores.AuthorityStore.Credentials` | relay/authority.py:283-293 | a bearer is checked before its room is read |
| `AuthorityStores.AuthorityStore.SecretResponse` | relay/authority.py:364-383 | the cache of secrets is pruned, searched and backed by the command table |
| `AuthorityStores.AuthorityStore.DrawCode` | relay/authority.py:239-244 | the first of a hundred draws that no room has |
| `AuthorityStores.AuthorityStore.Create` | relay/authority.py:391-468 | creating a room does exactly its specified step, or leaves the tables as they were |
| `AuthorityStores.AuthorityStore.Join` | relay/authority.py:570-583 | joining by code does exactly its specified step, or leaves the tables as they were |
| `AuthorityStores.AuthorityStore.JoinPublic` | relay/authority.py:525-541 | joining a listing does exactly its specified step, or leaves the tables as they were |
| `AuthorityStores.AuthorityStore.Snapshot` | relay/authority.py:585-588 | reading a room answers its bearer and changes no more than expiring it |
| `AuthorityStores.AuthorityStore.BeginDClosing` | relay/authority.py:627-701 | freezing an outcome does exactly its specified step, or leaves the tables as they were |
| `AuthorityStores.AuthorityStore.AcknowledgeDQuiescent` | relay/authority.py:703-776 | a side's report does exactly its specified step, or leaves the tables as they were |
| `AuthorityStores.AuthorityStore.Mutate` | relay/authority.py:837-1043 | a member's command, whether new, repeated, outdated or refused, does exactly its specified step |
| `AuthorityStores.AuthorityStore.Reconnect` | relay/authority.py:1045-1086 | coming back with a reconnect token rotates both tokens as specified, or leaves the tables as they were |
| `AuthorityStores.AuthorityStore.FailTransportAttempt` | relay/authority.py:1108-1130 | failing an attempt does exactly its specified step |
| `AuthorityStores.AuthorityStore.ForceDBarrier` | relay/authority.py:1132-1150 | forcing a barrier does exactly its specified step |
| `AuthorityStores.AuthorityStore.SweepPresence` | relay/authority.py:1168-1239 | the loops over rooms and members, saving each room once, do exactly the specified sweep |
| `RfuFrames.ParseGbaFrames` | tools/payload_decoder.py:202-243 | the offset loop finds the frames and issues of the recursive parse, and in strict mode raises exactly its first issue |
| `RfuFrames.NothingInvented` | tools/payload_decoder.py:202-243 | on every input each frame found is there, whole, with its marker, type and length, after the frame before it |
| `RfuFrames.ParseOfEncoded` | tools/payload_decoder.py:202-243 | well-formed frames put one after the other parse to exactly themselves, with no issue |
| `RfuFrames.InitParses` | tools/payload_decoder.py:302-323 | an INIT command gives back its count and owner |
| `RfuFrames.PartParses` | tools/payload_decoder.py:302-323 | a fragment command gives back its index and its twelve bytes |
| `RfuFrames.LlsfRoundTrip` | tools/payload_decoder.py:326-343 | the bit fields of a parent's or child's slot header come back |
| `RfuFrames.CarrierRoundTrip` | tools/payload_decoder.py:346-389 | a well-formed carrier hands on exactly its commands, numbered by player for a parent, with no issue |
| `RfuLaws.CommandExactly` | tools/payload_decoder.py:302-323 | the fields of a command in any bytes, filled up with zeros |
| `RfuLaws.ParentHeaderExactly` | tools/payload_decoder.py:326-334 | the bit fields of a parent's slot header, from its three bytes |
| `RfuLaws.ChildHeaderExactly` | tools/payload_decoder.py:335-342 | the bit fields of a child's slot header, from its two bytes |
| `RfuLaws.CarrierExactly` | tools/payload_decoder.py:346-389 | what any frame gives as a carrier: whose length counts, idle slots, slots cut off, and each issue |
| `RfuLaws.ParentCommandsExactly` | tools/payload_decoder.py:380-384 | a parent's payload holds one command in each fourteen bytes, numbered by player |
| `RfuLaws.SlotCommandsExactly` | tools/payload_decoder.py:373-389 | only a slot in state 4 carries commands: a parent as many as fit, a child one from the first fourteen bytes |
| `RfuBlocks.RunOk` | tools/payload_decoder.py:437-502 | over any commands the assembler stays sound: complete blocks are exactly the completed ones, each listed once |
| `RfuBlocks.CompletedForGood` | tools/payload_decoder.py:404-421 | a block completes at most once, and its payload never changes afterwards |
| `RfuBlocks.StreamsAreSeparate` | tools/payload_decoder.py:437-502 | over any commands, what becomes of the blocks of one direction and player depends on the commands of that player alone |
| `RfuBlocks.BlockRoundTrip` | tools/payload_decoder.py:393-502 | a payload of 12 to 384 bytes, announced once or more often and sent in fragments in any order and with repetitions, among any other streams, is assembled whole |
| `RfuBlockLaws.InitExactly` | tools/payload_decoder.py:446-482 | an announcement repeats that of the incomplete block in progress, or begins the next block of its stream; a replaced incomplete one is reported |
| `RfuBlockLaws.StrayExactly` | tools/payload_decoder.py:483-490 | a piece without a block, or with an index beyond it, is reported and changes nothing |
| `RfuBlockLaws.PartExactly` | tools/payload_decoder.py:490-497 | any other piece goes to the block in progress, where the first one with its index stays; when none is missing the block is complete, and entered once |
| `RfuBlockLaws.RestExactly` | tools/payload_decoder.py:437-502 | a request is noted on the block in progress; any other command changes nothing |
| `RfuPipeline.DecodeOfEncoded` | tools/payload_decoder.py:202-389 | the bytes of carriers put one after the other hand on exactly their commands |
| `RfuPipeline.PipelineRoundTrip` | tools/payload_decoder.py:202-502 | from bytes to blocks: a payload that some stream of the carriers announces and carries comes back, whatever the other streams carry |
| `RfuPipeline.PlayerBlockRoundTrip` | tools/payload_decoder.py:202-502 | the same stated on announcements and pieces alone, for any player of the parent's carriers and for a child's, whatever is sent for other players |
| `RfuAssemblers.RfuBlock.AddFragment` | tools/payload_decoder.py:404-411 | the first fragment with an index stays; the loop finds whether all have come |
| `RfuAssemblers.RfuBlock.ReadPayload` | tools/payload_decoder.py:418-421 | the payload is the fragments in order, for a complete block only |
| `RfuAssemblers.RfuBlockAssembler.Init` | tools/payload_decoder.py:446-482 | an INIT repeats the incomplete block it announces or replaces it |
| `RfuAssemblers.RfuBlockAssembler.Part` | tools/payload_decoder.py:483-497 | a fragment fills the block in progress, which is entered as completed once, as the same object |
| `RfuAssemblers.RfuBlockAssembler.Feed` | tools/payload_decoder.py:437-502 | the object does what the specification says, for the block in progress and no other |
| `TradeEvidence.ChosenIsLast` | switchtrade/party_observer.py:253-265 | the cursor in force for a seat is that of its last selection since the window began, and there is none if and only if it has selected nothing |
| `TradeEvidence.CommitIsBacked` | switchtrade/party_observer.py:272-317 | a commit is backed, since the last commit, cancel or invalidation, by the first START that found both selections, the first READY_FINISH after it and the first CONFIRM after that; by the last party of each seat before the confirmation and its last one after it; by save counts 5 to 10 of both after it; and the records that each seat selected last before the commit, which may be after START, have exactly changed places |
| `TradeEvidence.EveryCommitIsBacked` | switchtrade/party_observer.py:183-329 | every commit on record was made by some event and is of that kind |
| `TradeExactness.AlwaysExact` | switchtrade/party_observer.py:183-270 | at any point the latest party, the parties before and after the confirmation and the save counts of each seat are the function of the events that the history defines |
| `TradeExactness.CommitsExactly` | switchtrade/party_observer.py:272-317 | an event commits a trade if and only if the history up to it proves one |
| `TradeExactness.CommandsExactly` | switchtrade/party_observer.py:253-265 | what each link command does, by its number |
| `TradeEvidence.CommitsStartedSelections` | switchtrade/party_observer.py:253-265 | a commit is about the records selected at START if and only if the last selection of each seat before the commit repeats the cursor of its last one before START |
| `TradeReselection.CommitsLateSelection` | switchtrade/party_observer.py:253-265 | a history in which a seat has selected its first record when the trade starts, and the trade commits its second |
| `TradeEvidence.IndicesAreConsecutive` | switchtrade/party_observer.py:292-315 | trades are numbered 1, 2, ... without gap |
| `TradeEvidence.CommitsNeedConfirms` | switchtrade/party_observer.py:253-265 | there are never more commits than CONFIRM commands |
| `TradeObservers.PartyObserver.ConsumePartyBlock` | switchtrade/party_observer.py:183-238 | a party block invalidates its seat, waits, or completes a party |
| `TradeObservers.PartyObserver.ObserveLinkCommand` | switchtrade/party_observer.py:253-265 | a link command cancels, selects or advances a stage |
| `TradeObservers.PartyObserver.ObserveSaveCount` | switchtrade/party_observer.py:267-270 | a save count counts after the confirmation, from 5 to 10 |
| `TradeObservers.PartyObserver.TryCommitTrade` | switchtrade/party_observer.py:272-317 | the checks in turn commit exactly a complete and swapped trade |
| `TradeObservers.PartyObserver.ResetTradeEvidence` | switchtrade/party_observer.py:319-329 | evidence starts over, with the known parties or without |
| `TradeObservers.PartyObserver.InvalidateSeat` | switchtrade/party_observer.py:378-386 | losing a seat forgets its party and all evidence |
| `Pk3.OrdersArePermutations` | tools/pk3-tool.py:31-36 | all 24 listed orders are permutations of the four blocks |
| `Pk3.CodecRoundTrips` | tools/pk3-tool.py:87-122 | encrypting and decrypting are mutual inverses on every record of at least 80 bytes, for every key and order |
| `Pk3Layout.XorBits` | tools/pk3-tool.py:90-94 | exclusive or sets exactly the bits in which its operands differ |
| `Pk3Layout.TableIsSorted` | tools/pk3-tool.py:31-36 | the table lists the orders in lexicographic order with G < A < E < M |
| `Pk3Layout.DecryptedWord` | tools/pk3-tool.py:87-103 | each word of the decrypted form is the word of the block that stands in its place in the order selected by the first identifier modulo 24, exclusive-ored with both identifiers; all else is unchanged |
| `Pk3Layout.EncryptedWord` | tools/pk3-tool.py:106-122 | the same for the encrypted form |
| `Pk3Layout.ChecksumDetects` | tools/pk3-tool.py:125-127 | changing one half-word changes the checksum by as much, so it is always noticed |
| `Pk3Layout.RecomputeTouches` | tools/pk3-tool.py:130-134 | recomputing touches the two checksum bytes only |
| `Pk3Layout.ViewIsOfHundred` | tools/pk3-tool.py:137-147 | what follows the first hundred bytes is not looked at |
| `Pk3.ChecksumShuffled` | tools/pk3-tool.py:125-127 | shuffling and unshuffling leave the checksum as it is |
| `Pk3.RecomputeIsValid` | tools/pk3-tool.py:130-134 | a recomputed checksum is right, and nothing secured has changed |
| `Pk3.WireIsRecognized` | tools/pk3-tool.py:137-147 | a record of 80 to 100 bytes with a recomputed checksum, encrypted, is recognized as wire form and comes back |
| `Pk3.MistakenForWire` | tools/pk3-tool.py:137-147 | a decrypted record with a good checksum is taken for wire form if and only if exclusive-oring its words with the key keeps their checksum |
| `Pk3.EqualIdentifiersAreMistaken` | tools/pk3-tool.py:137-147 | that is so whenever the two identifiers in its header are equal, and the record then comes back with its blocks moved |
| `Pk3.CryptInPlace` | tools/pk3-tool.py:92-94 | the loop over words changes exactly the secured ones |
| `Pk3.MoveOut` | tools/pk3-tool.py:97-100 | the loop over blocks puts them in canonical order |
| `Pk3.MoveIn` | tools/pk3-tool.py:112-115 | the loop over blocks puts them in the record's order |
| `Pk3.Decrypt` | tools/pk3-tool.py:87-103 | decrypting in place |
| `Pk3.Encrypt` | tools/pk3-tool.py:106-122 | encrypting in place |
| `Pk3.StoreChecksum` | tools/pk3-tool.py:130-134 | storing the checksum in place |
| `Barriers.CountFollowsHost` | bridge/frlgsim/barrier.py:155-264 | in every run the local count is nothing or at most one above a count received from the host |
| `Barriers.CountFallsOnlyAtClose` | bridge/frlgsim/barrier.py:207-217 | the count falls exactly when the host closes with a lower one |
| `Barriers.CountClimbsBeforeClose` | bridge/frlgsim/barrier.py:155-205 | before a close it never decreases |
| `Barriers.RoundsThatCount` | bridge/frlgsim/barrier.py:179-189 | a round is completed exactly by the echo of an initiated count; a watchdog release of one leaves the count, the end of a host's round adds one |
| `Barriers.StandbyEnds` | bridge/frlgsim/barrier.py:219-264 | from any point of any run a standby is over exactly when its remaining patience, at most 121 or 91 silent frames, is used up |
| `Barriers.BurstsAreBounded` | bridge/frlgsim/barrier.py:274-285 | with a limit of k no stretch of any run that keeps the count and neither opens a standby nor drops one sends more than k frames, whatever idempotent initiates, closes and resets it has |
| `Barriers.UnboundedAlwaysSends` | bridge/frlgsim/barrier.py:267-285 | without a limit every question is answered while a barrier is open, with the count in 16 bits |
| `Barriers.CloseEndsWith` | bridge/frlgsim/barrier.py:190-204 | a close ends exactly when a standby is initiated or the host asks for one at our count or above |
| `Barriers.CloseIsNotTerminal` | bridge/frlgsim/barrier.py:68-71 | two runs in which a close is left again, against the comment that it is terminal |
| `BarrierHistories.ModeMoves` | bridge/frlgsim/barrier.py:106-264 | which events open and end a standby and a close |
| `BarrierHistories.CountMoves` | bridge/frlgsim/barrier.py:155-264 | the count is the host's while it leads, one more when a round has passed, and else stays |
| `BarrierHistories.HostIsMirrored` | bridge/frlgsim/barrier.py:190-205 | in every run a host that leads is answered with a standby and its own count in 16 bits until it falls silent; then the round is counted |
| `BarrierHistories.OursIsSent` | bridge/frlgsim/barrier.py:118-138 | a standby of ours sends our own count, which an unanswered one leaves alone |
| `BarrierHistories.CloseIsSent` | bridge/frlgsim/barrier.py:207-217 | a close is sent with the count of the host that asked for it, or with ours |
| `BarrierHistories.InitiatedExactly` | bridge/frlgsim/barrier.py:118-217 | in every run a barrier counts as ours exactly when an initiate brought it about |
| `BarrierHistories.SilentFrameEnds` | bridge/frlgsim/barrier.py:219-264 | after any run a silent frame ends an open standby exactly when 120 silent ones have gone before it since the host was heard, or 90 if the host leads |
| `BarrierHistories.HostCountIsHeard` | bridge/frlgsim/barrier.py:155-217 | the host count is the last one heard since we opened a standby |
| `BarrierHistories.RoundsArePassed` | bridge/frlgsim/barrier.py:155-264 | the rounds counted are the echoes, the advances of the host and its silences |
| `BarrierHistories.BurstAnswers` | bridge/frlgsim/barrier.py:267-285 | a burst answers the questions it is asked up to its limit and no more |
| `Barriers.BarrierResponder.constructor` | bridge/frlgsim/barrier.py:82-99 | a new responder is idle |
| `Barriers.BarrierResponder.ResetIdle` | bridge/frlgsim/barrier.py:106-115 | a standby is dropped, a close is not |
| `Barriers.BarrierResponder.Begin` | bridge/frlgsim/barrier.py:118-138 | initiating a barrier |
| `Barriers.BarrierResponder.HostStandbySlot` | bridge/frlgsim/barrier.py:155-205 | the host's standby, completing, ignored or mirrored |
| `Barriers.BarrierResponder.HostCloseSlot` | bridge/frlgsim/barrier.py:207-217 | the host's close, mirrored |
| `Barriers.BarrierResponder.Observe` | bridge/frlgsim/barrier.py:219-264 | the watchdogs, once a frame |
| `Barriers.BarrierResponder.Want` | bridge/frlgsim/barrier.py:267-285 | the words to send, within the burst |
| `FrameBridges.ParseOfBuilt` | bridge/common/mwlb.py:37-61 | every payload that fits a relay frame is read back, also with other frames behind it |
| `FrameBridges.DuplicateExactly` | bridge/framerelay/bridge.py:106-138 | the pruned guard says duplicate exactly when that frame was injected within the window |
| `FrameBridges.SnapshotExactly` | bridge/framerelay/bridge.py:70-99 | the pruned cache shows exactly the unexpired part of the last distinct frames, as many as it may hold, in order of latest addition |
| `FrameBridges.DistinctAreLatest` | bridge/framerelay/bridge.py:85-93 | that list has of every frame its latest addition and no other |
| `RelayBridges.EchoesAreDropped` | bridge/framerelay/bridge.py:210-221 | after any run an accepted capture is dropped as an echo exactly when its frame was injected within the window, by a message or by a replayed beacon |
| `RelayBridges.ReplayExactly` | bridge/framerelay/bridge.py:158-164 | after any run of the bridge a replay injects, in order, the unexpired ones of the last four distinct beacons the bridge has kept, up to where sending fails |
| `RelayBridges.OutboxHolds` | bridge/framerelay/bridge.py:233-250 | the outbox is the end of all frames put there; every other was sent, or dropped and counted while two hundred newer ones waited |
| `RelayBridges.UndrainedOutbox` | bridge/framerelay/bridge.py:233-250 | without draining it is exactly the last two hundred |
| `RelayBridges.CapturesAccounted` | bridge/framerelay/bridge.py:210-250 | filtered, echoed, relayed and oversized captures are all captures but those the rate limit took |
| `RelayBridges.RelayIsTransparent` | bridge/framerelay/bridge.py:210-281 | what one bridge puts in its outbox for a captured frame, another injects as that very frame |
| `BridgeLaws.ParseExactly` | bridge/common/mwlb.py:37-61 | which bytes are a relay frame, and what it holds |
| `BridgeLaws.RelayedExactly` | bridge/framerelay/bridge.py:210-250 | after any run a capture is relayed exactly when it is accepted, no echo, within the rate and not too large |
| `BridgeLaws.MessageExactly` | bridge/framerelay/bridge.py:253-281 | a message is a heartbeat, a frame that is injected unless it is over the rate, or ignored |
| `BridgeLaws.OneBucket` | bridge/framerelay/bridge.py:221-268 | both directions share one bucket, in the order of the events |
| `BridgeLaws.StatsAreCounts` | bridge/framerelay/bridge.py:210-281 | after any run every counter is the number of events that it counts |
| `RelayBridges.EchoGuard.Record` | bridge/framerelay/bridge.py:125-130 | an injection is recorded after pruning |
| `RelayBridges.EchoGuard.IsDuplicate` | bridge/framerelay/bridge.py:132-138 | a capture is compared after pruning |
| `RelayBridges.BeaconCache.Keep` | bridge/framerelay/bridge.py:85-93 | the loop drops the oldest beacons over the capacity |
| `RelayBridges.BeaconCache.Show` | bridge/framerelay/bridge.py:95-99 | expired beacons are dropped, the rest shown |
| `RelayBridges.RelayBridge.constructor` | bridge/framerelay/bridge.py:177-203 | a new bridge has seen and queued nothing |
| `RelayBridges.RelayBridge.OnRadioCapture` | bridge/framerelay/bridge.py:210-250 | a capture in place: filter, guard, limit, cache, outbox |
| `RelayBridges.RelayBridge.OnWsMessage` | bridge/framerelay/bridge.py:253-281 | a message of the relay in place: limit, guard, cache, radio |
| `RelayBridges.RelayBridge.ReplayBeacons` | bridge/framerelay/bridge.py:158-164 | replayed beacons are recorded before they are sent |
| `RelayBridges.RelayBridge.Take` | bridge/framerelay/bridge.py:283-290 | one frame is taken from the front of the outbox |
| `RelayBridges.RelayBridge.InjectGuarded` | bridge/framerelay/bridge.py:392-395 | each frame is recorded before it goes on the air |
| `TokenBuckets.TokensStayWithin` | bridge/framerelay/rate_limit.py:59-67 | whatever the clock does, the tokens stay between nothing and the burst |
| `TokenBuckets.WindowBound` | bridge/framerelay/rate_limit.py:59-76 | in any window of the calls no more are allowed than the burst and what the rate yields while the clock moves forward; on a clock that never goes back that is the length of the window |
| `BucketExactness.AllowedExactly` | bridge/framerelay/rate_limit.py:59-76 | a call is allowed if and only if every window that ends with it then holds no more allowed calls than the burst and what the rate has yielded |
| `BucketExactness.WarnsExactly` | bridge/framerelay/rate_limit.py:77-84 | a refused call is warned of exactly when there is a log and the last warning is long enough ago |
| `TokenBuckets.SteadyTrafficPasses` | bridge/framerelay/rate_limit.py:59-76 | calls that keep the rate are never refused |
| `TokenBuckets.CountersConserved` | bridge/framerelay/rate_limit.py:68-79 | every frame and byte is counted once, as allowed or as dropped |
| `BucketExactness.CountedExactly` | bridge/framerelay/rate_limit.py:45-79 | the counters of a new bucket are, after any calls, the number of calls, of those allowed and refused, and of their bytes |
| `TokenBuckets.WarningsAreSparse` | bridge/framerelay/rate_limit.py:80-84 | warnings keep their distance |
| `TokenBuckets.TokenBucket.Make` | bridge/framerelay/rate_limit.py:40-57 | a bucket is made unless the rate is not positive or the burst admits no frame |
| `TokenBuckets.TokenBucket.AllowFrame` | bridge/framerelay/rate_limit.py:59-84 | one call in place |

## Left out

- Sockets, HTTP, asyncio, threads, pings and backoff: only the steps under the session lock, the queue
  operations and the transactions are modelled, each at one moment.
- The moment between a fatal error on a tunnel socket and the teardown of its session: they are one step.
- A client's proven check and its queueing are one step, so a race with the clearing of the queues is
  not captured; a full queue is an error at once, without the timeout.
- The text of SIDE_READY: the relay sees a decoded record through an abstract function.
- The effect of an expired or failed tunnel session on the authority is not composed with it; the
  authority's step for it is modelled by itself.
- SQLite, its files, locks and backups: a transaction is all or nothing, and a rollback restores the tables.
- Names, trainer names, listing texts and other profile fields of rooms, and their validation: a
  request that fails it carries its status.
- Public listings and their details: reading them can expire a room, which is the effect that failing
  an attempt the room does not have has on it; filtering, sorting and paging are not modelled.
- Failing all active attempts after a restart: it is a sequence of two modelled steps for each room.
- The list of expired attempts that a sweep returns, and the operational counts.
- Scopes of commands are structured values, so two scopes never share a text; the reconnect scope holds
  the token itself and not the beginning of its hash.
- Times within one call of the authority are one time, in whole microseconds; fields that nothing reads
  (retry count, times an attempt or a barrier was started, text of events) are not kept.
- Command names and opcodes as text, source details of issues, and the final report of incomplete blocks.
- The search for plausible records in a payload, species and character tables: a party block arrives as
  two records, empty places or garbage.
- The observer's queue, worker thread, snapshots and files: events arrive in order, and an overflow or a
  decoding error is the loss of a seat.
- The radio, the 802.11 header and the beacon test: each frame comes with the answers to those questions.
- The two queue races in the outbox, which need the sending thread between two queue operations.
- The engine around the link barrier, which calls it once or more often for each frame.
- AuthorityStores.AuthorityStore.constructor: opens a new database only, because schema and files are
  left out; what runs keep is proved from any sound database (`AuthorityRuns.RunAdvances`).
