# Screen rooms: a verified model

The program behind this model lets the members of a Discord server share screens
and cameras in rooms tied to voice channels. A server keeps resumable gateway
sessions, a presence table, a mirror of Discord's state and a ledger of publishing
slots; a desktop client keeps a socket alive and folds events into a snapshot of
its room. The model covers the parts where these can disagree, and proves when they
do not.

## What is here

| file | subject |
|---|---|
| Basics.dfy, Protocol.dfy | shared notions; events, frames, messages and close codes |
| Session.dfy | one session: its numbering, its bounded ring, its outbox; the ring against the whole log |
| DispatchRace.dfy | the same dispatch with number-taking and pushing interleaved, and a replay read in three steps beside it |
| Connection.dfy | the handshake that binds a socket to a session |
| GatewayClient.dfy | the client's fields and handlers |
| Stream.dfy, StreamLaws.dfy | sessions, lossy sockets and the client as one step system; what each of its steps says, asks and registers |
| LateDisconnect.dfy | being cut off without losing the socket, in that system |
| ResumeRace.dfy | a RESUME step by step, with other threads numbering, pushing and sending in between |
| Hub.dfy | the session registry |
| Publication.dfy, RoomStore.dfy, RoomLaws.dfy, SnapshotLaws.dfy | tile ids, the client's reducer and its laws |
| Presence.dfy, RoomView.dfy, ViewRuns.dfy | the table and what writes it; the viewer's snapshot against it, change by change and over runs |
| LiveView.dfy, SweepView.dfy | the stream and the view put together; a revocation sweep seen from the rooms |
| Rotation.dfy | refresh tokens rotated by many callers at once, the scheme of section 4.14.2 of RFC 9700 |
| Permissions.dfy, Replica.dfy, Revocation.dfy | permission resolution, the mirror of Discord, and the sweeps that follow its events |
| SlotLedger.dfy | admission control for publishing |
| Pixels.dfy, Fit.dfy, Base64.dfy | strided pixel conversion, the size a picture is sent at, base64 |

Where the source updates an object in place the model is a class whose methods
compute a specification function of the old state; the theorems are about those
functions, over single steps and over whole runs. The main ones:

- Over every run of publishing, delivery, socket loss and resume, what a client has
  applied is a prefix of its session's log (`Streams.EveryRunDeliversAPrefix`); once
  its socket is the session's outbox and drained, its snapshot shows the server's
  table, but for exactly the people it was not told about
  (`LiveView.ClientConvergesToTable`); and at every other moment it shows what it
  would have shown at an earlier one (`LiveView.ClientIsNeverWrongOnlyLate`).
- With every dispatch and every RESUME taken apart into the steps that no lock covers,
  what a resumed socket is given is the log after the number presented exactly when
  none of three named things happened (`ResumeRace.ResumeIsExactIff`).
- In every interleaving of rotations, logouts and clean-ups a token family has one
  holder and is one chain (`Rotation.OneHolderPerFamily`, `Rotation.FamilyIsOneChain`).
- Every resolved permission bit follows Discord's layered rule
  (`Permissions.ResolveMeans`), and a covered Discord event followed by its sweep
  leaves exactly the people who are still allowed (`Revocation.HandlingRevokesExactly`).

## Where the code promises more than it does

Each of these is stated as an exact condition, or with a concrete run.

- A resume buffer of capacity 0 never evicts, and a connection limit of 0 leaves a
  session registered that no list holds (`Sessions.BufferBoundedIffCapacityPositive`,
  `Hubs.AttachCoherentIff`).
- A replay tests the eviction mark before it locks the buffer, and a dispatch in
  between can drop a frame the replay owes; and two threads that push out of number
  order can make the mark go back. Either way the replay is accepted without the frame
  (`DispatchRace.SilentLossIff`, `DispatchRace.EvictionOvertakesTheReplay`,
  `DispatchRace.SwappedPushesLoseAFrame`).
- A RESUME reads the buffer, attaches the outbox and sends the missed frames in
  separate steps, and a dispatch sends its frame after it has let go of the buffer. A
  frame pushed after the read and sent before the attach is lost to the client; one
  read and sent after the attach comes twice; one sent in the middle of the replay
  overtakes it (`ResumeRace.ResumeIsExactIff`, `ResumeRace.LateSendRepeats`,
  `ResumeRace.OvertakingFrameRepeats`).
- Two threads that swap their sends make the client's position go back, or lose it a
  frame when the socket dies between them (`ResumeRace.ClientEndsAtLastSent`,
  `ResumeRace.FirstSocketContinuableIff`, `ResumeRace.SwappedSendsLoseAFrame`).
- An old socket that ends after the resume silences the new one, and so does whatever
  forgets a session in use (`LateDisconnect.StaysHeededOverRunIff`,
  `LateDisconnect.LateDisconnectHappens`).
- An eviction tells only the evicted, and a join or departure that names another
  room moves a row of this one, whose viewers are not told: they go on seeing
  somebody who is gone, until a join or departure that names the room
  (`RoomView.ViewAgreesIff`, `ViewRuns.OrderlyRunsShowTheGone`,
  `ViewRuns.DepartureRepairsEviction`). A share change that names another room, and a
  room that cannot be listed, leave them with what they were told last
  (`ViewRuns.StaysRightIff`, `ViewRuns.ViewFollowsTable`). A viewer is told nothing before their own row
  exists (`ViewRuns.ArrivalSeesTheRoomIff`), nor a session before it is attached
  (`RoomView.ReadyStaysFreshIff`).
- A handler that cannot list the room tells nobody and ends well, so nothing is sent
  again. One that fails after its write tells nobody either; run again it repairs the view
  except for a lost publisher, whose sources the row no longer names
  (`RoomView.RetryRepairsIff`).
- Losing the race for a refresh token revokes the family, and the winner's insert
  brings it back (`Rotation.RevokeIsFinalIff`).
- Deleting a guild, or announcing it again with fewer channels, takes the index
  entries away before the sweep looks for them (`Revocation.GuildDeleteEvictsNobody`,
  `Revocation.GuildCreateMissesDroppedChannels`).
- The comment on the eviction mark in crates/api/src/gateway/session.rs:29-35 speaks
  of an event that takes a number without being buffered. The code buffers every
  event (lines 94-98), and so does the model.
- The comment on `fit` in desktop/src-tauri/src/capture.rs:117-118 says the shape is
  unchanged; rounding and evenness change it, by less than `Fitting.ShapeIsKept` says.

## Assumptions

- Each SQL statement is one atomic step on a map; ids are never issued twice.
- Tokens, hashes and webhook signatures are opaque: a token is an id, a webhook that
  arrives is genuine, and whether a credential is valid is a parameter.
- Clocks are parameters. A socket is a FIFO that loses everything in flight when it
  dies.
- `Streams`, `RoomView`, `ViewRuns` and `LiveView` treat a dispatch as one step, and
  a RESUME too; what survives without that is `DispatchRace` and `ResumeRace`.
- `RoomView`, `ViewRuns` and `LiveView` also take a whole handler as one step: its
  write, the listing of the room and the publishing, which are separate awaits in
  crates/api/src/routes/rooms.rs:188-208 and 244-268. Handlers that overlap can
  publish in the other order than they wrote; that is not modelled.
- A set of bits stands for a 64-bit permission mask.

## Model

| member | source | states |
|---|---|---|
| `Sessions.RingRefinesLog` | crates/api/src/gateway/session.rs:89-106 | after dispatching any log the buffer is exactly its newest `min(seq, capacity)` frames, contiguous and in order, and the eviction mark is the number of the newest dropped frame |
| `Sessions.BufferBoundedIffCapacityPositive` | crates/api/src/gateway/session.rs:99-105 | the buffer stays within its capacity for every log exactly when the configured capacity is at least 1; at 0 it never evicts |
| `Sessions.ReplayIsLogSuffix` | crates/api/src/gateway/session.rs:128-142 | a replay after `n` succeeds exactly for `evicted_through <= n <= seq`, and is then the exact suffix of the whole log after `n` |
| `Sessions.RingKeepsTheNewest` | crates/api/src/gateway/session.rs:89-106 | in plain numbers: after a log of m events the buffer holds the last `capacity` of them with their numbers, or all while there are no more, or all always at capacity 0 |
| `Sessions.ReplayGrantedIff` | crates/api/src/gateway/session.rs:128-142 | a replay after `n` is granted exactly when `n` was given out and no more than `capacity` events followed it, and brings those in order |
| `Sessions.Session.Dispatch` | crates/api/src/gateway/session.rs:84-126 | the log grows by the event whether or not anyone listens, the ring still stands for it, and an attached outbox gets exactly the last frame of the log |
| `Sessions.Session.ReplayAfter` | crates/api/src/gateway/session.rs:128-142 | the method answers exactly when nothing after `n` was evicted, with the log's frames after `n` |
| `Sessions.Session.Disconnect` | crates/api/src/gateway/session.rs:62-67 | no outbox, a time of disconnection, and the ring and its log untouched |
| `Sessions.Session.Reconnect` | crates/api/src/gateway/session.rs:69-74 | the new outbox is attached and nothing is replayed by that alone |
| `DispatchRace.EveryNumberIsConserved` | crates/api/src/gateway/session.rs:90-106 | from the start, with number-taking and pushing interleaved by many threads, every number in `1..seq` is in exactly one of pending, buffered or evicted, and the buffer stays within capacity |
| `DispatchRace.ReplayMissesPendingAndLost` | crates/api/src/gateway/session.rs:128-142 | a replay whose buffer is read some time after its tests: of the numbers above `n`, what it fails to carry is exactly what is pending or already dropped at the read |
| `DispatchRace.ReplayLosesIff` | crates/api/src/gateway/session.rs:128-142 | an accepted replay after `n` silently omits a dropped frame exactly when some number above `n` has been pushed out by the time the buffer is read |
| `DispatchRace.SilentLossIff` | crates/api/src/gateway/session.rs:99-142 | over every run from the start, with the last number, the mark and the buffer read at three different moments: some number is accepted and its replay silently incomplete exactly when the mark at the test had been given out when the numbers were counted and a number above it has been pushed out by the read; in terms of the push order |
| `DispatchRace.UndisturbedLossIff` | crates/api/src/gateway/session.rs:99-142 | with nothing between the tests and the read: exactly when, among the numbers pushed out, an earlier one is larger than the last one |
| `DispatchRace.OrderedReplayLacks` | crates/api/src/gateway/session.rs:90-142 | when frames are pushed in number order an accepted replay lacks exactly the numbers above `n` up to the mark at the read: none exactly when the mark has not passed `n` since the test |
| `DispatchRace.EvictionOvertakesTheReplay` | crates/api/src/gateway/session.rs:129-141 | a run in number order with one dispatch between the test and the read: a client that has seen 2 is accepted and sent 4 and 5 |
| `DispatchRace.SwappedPushesLoseAFrame` | crates/api/src/gateway/session.rs:90-106 | a schedule of four dispatches, two of them swapped, after which a client holding number 1 is replayed 3 and 4 and never 2 |
| `GatewayClients.GatewayClient.Start` | desktop/src/gateway/client.ts:77-84 | starting twice changes nothing at all; a start opens a fresh socket exactly when there is a token and otherwise stops again |
| `GatewayClients.GatewayClient.Stop` | desktop/src/gateway/client.ts:86-100 | no socket, no timers, session and position forgotten |
| `GatewayClients.GatewayClient.HandleFrame` | desktop/src/gateway/client.ts:124-190 | what each server frame does to the remembered session and position, and exactly what is written back: a resume from the last number when a session is remembered, an identify otherwise |
| `GatewayClients.GatewayClient.HandleClose` | desktop/src/gateway/client.ts:192-249 | 4001 and 4010 stop the client and everything else schedules a retry; 4001 to 4004 forget the session and no other code does; the attempt counter moves as the backoff needs, starting over after more than a minute of being ready |
| `GatewayClients.GatewayClient.RetryFires` | desktop/src/gateway/client.ts:102-122 | a live client is always on a socket or waiting to open one, never both and never neither |
| `GatewayClients.GatewayClient.Beat` | desktop/src/gateway/client.ts:262-274 | two unanswered beats close the socket; otherwise one more heartbeat goes out |
| `Connections.HandshakeIsOneSuffix` | crates/api/src/gateway/mod.rs:291-302 | the replayed frames and RESUMED are together one suffix of the new log |
| `Connections.Connection.Identify` | crates/api/src/gateway/mod.rs:262-270 | READY is frame 1 of a fresh session bound to this socket |
| `Connections.Connection.ResumeSession` | crates/api/src/gateway/mod.rs:272-304 | a granted RESUME puts on the socket exactly the log after the presented number, RESUMED included, and binds the session; a refused one answers INVALID_SESSION, leaves the session as it was and has it forgotten exactly when its gap was too wide |
| `Connections.Connection.Handle` | crates/api/src/gateway/mod.rs:215-251 | every outcome of a text frame, spelled out: an IDENTIFY or RESUME is accepted exactly on a connection without a session, with a payload that parses, a supported client and an authentic token; otherwise 4002, 4010 or 4001, in that order; exactly what reaches the socket; and an identified connection never changes the session it serves |
| `Connections.Connection.Serve` | crates/api/src/gateway/mod.rs:136-190 | the receiving loop: over every run of frames a session is served at the end only if one of them was a handshake with an authentic token; nothing after a closing frame is looked at; and the session loses its outbox |
| `Connections.Connection.Finish` | crates/api/src/gateway/mod.rs:186-190 | the session loses whatever outbox it has and keeps its log |
| `Streams.StepKeepsInv` | crates/api/src/gateway/mod.rs:215-304 | every step of server, network and client keeps the invariant: memory is a prefix of the log, a bound socket carries the next frames of it and nothing else, at most one handshake is under way |
| `Streams.EveryRunDeliversAPrefix` | desktop/src/gateway/client.ts:139-190 | over every run from the start, what the client applied since READY is entries 1 to `lastSeq` of its session's log: no gap, repeat or reorder |
| `Streams.DrainDeliversEverything` | desktop/src/gateway/client.ts:178-190 | with the session's outbox on the client's socket, delivering what is in flight brings the whole log |
| `Streams.ResumeAcceptedIff` | crates/api/src/gateway/mod.rs:278-303 | for any session id and number: a RESUME is accepted exactly when the session is known and registered, nothing after the number was evicted, and the number was given out; refused, it changes no session |
| `Streams.ResumeCatchesUp` | crates/api/src/gateway/mod.rs:272-303 | an accepted RESUME, drained, brings the client the whole log with RESUMED last |
| `Streams.ProgressNeverRewinds` | desktop/src/gateway/client.ts:178-190 | while the client keeps its session, no step shortens or rewrites what it has applied |
| `StreamLaws.StepSays` | crates/api/src/gateway/mod.rs:215-304 | exactly what the server puts on each socket in each step: READY, the frames after the number with RESUMED last, or INVALID_SESSION to a handshake on a socket without a session, acknowledgements, the published event to its session's outbox, RECONNECT to an evicted one, and nothing else |
| `StreamLaws.StepAsks` | desktop/src/gateway/client.ts:124-190 | exactly what the client writes: after HELLO a RESUME of what it remembers or else an IDENTIFY, an IDENTIFY after INVALID_SESSION, heartbeats; nothing without a token |
| `StreamLaws.StepRemembers` | desktop/src/gateway/client.ts:139-224 | the client forgets its session exactly after INVALID_SESSION or close codes 4001 to 4004, takes one up exactly with READY, and moves its position with each dispatch |
| `StreamLaws.StepRegisters` | crates/api/src/gateway/hub.rs:68-139 | a session becomes reachable exactly with its READY, and stops being so exactly when it is forgotten, evicted, or asked for with a number that cannot be granted |
| `StreamLaws.NothingWaits` | crates/api/src/gateway/mod.rs:136-190 | sockets can be lost and finish, frames arrive, and sessions be published to, evicted and forgotten at any moment |
| `LateDisconnect.StaysHeededIff` | crates/api/src/gateway/mod.rs:186-190 | which steps leave a session unable to reach the socket its client is still on, by taking its outbox or by unregistering it: after a step it is still heeded exactly when the step is none of them |
| `LateDisconnect.StaysHeededOverRunIff` | crates/api/src/gateway/mod.rs:186-303 | the same over every run in which the client keeps its socket: exactly when no step of the run was one of them |
| `LateDisconnect.SilentFromThenOn` | crates/api/src/gateway/session.rs:118-126 | once unheeded, whatever is published, the client's socket brings nothing beyond what was already in flight |
| `LateDisconnect.MoreCanComeIffHeeded` | crates/api/src/gateway/hub.rs:154-168 | some continuation on the same socket brings the client more than what is in flight exactly when it is heeded |
| `LateDisconnect.LateDisconnectSilencesTheClient` | crates/api/src/gateway/mod.rs:186-190 | when an older socket ends, over any later run without another such step, the client can get the whole log exactly when that socket was not bound to its session; otherwise only what was dispatched before |
| `LateDisconnect.LateDisconnectHappens` | crates/api/src/gateway/mod.rs:186-304 | a run from the start that ends there: identify, lose, resume on a second socket, the first one ends, and the next event never comes |
| `ResumeRace.ResumeIsExactIff` | crates/api/src/gateway/mod.rs:272-304 | a RESUME in steps, with every other dispatch in three (number, push, send), over every interleaving and every history: the socket is given everything after the number presented exactly when no frame it owes was dropped and sent before the read, nor sent unread before the attach; nothing twice and nothing the client has exactly when no frame read or already had is sent after the attach; in order exactly when what was read ascends and no frame is sent after a larger one or before a smaller one still to be replayed; and exactly the log after that number when all three hold |
| `ResumeRace.ResumedClientHoldsTheLogIff` | crates/api/src/gateway/mod.rs:272-304 | so the client is sent the frames after its number exactly when the run holds none of the three faults, and then holds the whole log |
| `ResumeRace.ClientEndsAtLastSent` | desktop/src/gateway/client.ts:178-181 | in every case the position the client ends at is the number whose send came last, which need not be the largest |
| `ResumeRace.UndisturbedDispatch` | crates/api/src/gateway/session.rs:84-107 | number-taking and pushing without a step between are the session's own dispatch |
| `ResumeRace.UndisturbedHandshake` | crates/api/src/gateway/session.rs:128-142 | and the three looks of a handshake without a step between are the session's own replay: refused exactly when it is, with the same numbers otherwise |
| `ResumeRace.NothingWaits` | crates/api/src/gateway/session.rs:84-142 | dispatches and new sockets can come at any moment of a handshake, and one that was not refused can always go on |
| `ResumeRace.OrderedResumeIsExactIff` | crates/api/src/gateway/mod.rs:283-302 | with frames pushed in number order and none above the number presented dropped by the read: exactly the log after it, in order, exactly when no frame up to the last one read is sent after the attach, none above it before the last missed one, and none after a larger one |
| `ResumeRace.FirstSocketContinuableIff` | crates/api/src/gateway/session.rs:89-107 | on the socket of an IDENTIFY, over every run: at every moment it could be lost the client has all numbers up to the one it would present, exactly when no frame was sent while a smaller number was on its way |
| `ResumeRace.ResumedSocketContinuableIff` | crates/api/src/gateway/mod.rs:291-303 | the same on the socket of a RESUME without fault, once it is through |
| `ResumeRace.LateSendRepeats` | crates/api/src/gateway/mod.rs:283-298 | a run from the start in which a frame is read for the replay and its own send comes after the attach: the client is given 2, 2, 3 |
| `ResumeRace.OvertakingFrameRepeats` | crates/api/src/gateway/mod.rs:291-298 | a run from the start in which a frame overtakes the replay, the socket is lost, and the next RESUME reads the frame again |
| `ResumeRace.SwappedSendsLoseAFrame` | crates/api/src/gateway/session.rs:99-107 | a run from the start in which two threads swap their sends and the socket dies between them: the client has 1 and 3, and its RESUME brings 4 |
| `Hubs.AttachDropsExactlyTheOldest` | crates/api/src/gateway/hub.rs:68-85 | with a limit of at least 1 the registry stays coherent, exactly the user's oldest session goes and only at the limit, the new one is last, other users keep their lists |
| `Hubs.AttachCoherentIff` | crates/api/src/gateway/hub.rs:71-83 | attaching keeps the two maps in agreement exactly when the connection limit is at least 1 |
| `Hubs.DropKeepsCoherent` | crates/api/src/gateway/hub.rs:101-139 | removing any set of sessions keeps the two maps in agreement |
| `Hubs.EmptiedIff` | crates/api/src/gateway/hub.rs:131-134 | a user's list disappears exactly when all of their sessions were removed |
| `Hubs.RegistryStaysCoherent` | crates/api/src/gateway/hub.rs:68-139 | every run of attach, forget and sweep from a coherent registry keeps it so: the lists partition the session map, are non-empty, duplicate-free, within the limit, and in attach order |
| `Hubs.EveryRegistryIsCoherent` | crates/api/src/gateway/hub.rs:38-139 | so it is over every run of a hub that starts empty |
| `Hubs.Hub.AttachSession` | crates/api/src/gateway/hub.rs:68-85 | the method computes that registry and returns the evicted sessions, oldest first |
| `Hubs.Hub.ForgetSession` | crates/api/src/gateway/hub.rs:101-111 | on any registry only the session and its own user's list change, the user's entry goes with its last session, and on a coherent one exactly that session is dropped |
| `Hubs.Hub.SweepExpired` | crates/api/src/gateway/hub.rs:113-139 | on any registry a session stays, unchanged, exactly when it is connected, has no time of disconnection, or lost its socket later than the time to live ago; and on a coherent one exactly the users whose every session went are returned |
| `Publications.ParseInvertsTileId` | desktop/src/media/publication.ts:23-40 | parsing a tile id recovers owner and source exactly when the owner's id is not empty |
| `Publications.TileIdInvertsParse` | desktop/src/media/publication.ts:27-40 | whatever parses is the tile id of what it parses to |
| `Publications.TileIdInjective` | desktop/src/media/publication.ts:23-25 | different publications never share a tile id |
| `Publications.TileIdReads` | desktop/src/media/publication.ts:21-25 | how a tile id reads |
| `RoomStore.RoomFromState` | desktop/src/store/room.ts:66-90 | the loops build the room whose laws are proved below, ignoring a repeated person |
| `RoomStore.AddParticipant` | desktop/src/store/room.ts:127-149 | a known person with the same publications changes nothing; a new one is appended with tiles sorted screen first |
| `RoomStore.RemoveParticipant` | desktop/src/store/room.ts:162-178 | the person and exactly their tiles go, everybody else keeps position |
| `SnapshotLaws.SnapshotMeans` | desktop/src/store/room.ts:46-91 | a snapshot has the room's channel, guild and name, its people in the order of the listing, whoever is named twice as named first, and their tiles person by person, the screen before the face |
| `SnapshotLaws.AddMeans` | desktop/src/store/room.ts:127-149 | somebody new comes last with their tiles last, the screen first; somebody known keeps their place and is replaced only if their publications differ |
| `SnapshotLaws.RemoveMeans` | desktop/src/store/room.ts:162-187 | exactly that person goes, the others keep their order and what they show |
| `SnapshotLaws.ShareMeans` | desktop/src/store/room.ts:189-230 | a share keeps every place and name, and a tile that goes on the air comes last |
| `SnapshotLaws.OtherEventsMean` | desktop/src/store/room.ts:97-125 | READY and ROOM_JOIN replace the snapshot, leaving empties it but for the reason, and events of other rooms change nothing |
| `RoomLaws.SamePublicationsIff` | desktop/src/store/room.ts:151-160 | two people count as having the same publications exactly when the two lists hold the same ones, clocks included, in whatever order |
| `RoomLaws.ApplyTwiceIsOnce` | desktop/src/store/room.ts:92-125 | applying any event twice equals applying it once, for every snapshot |
| `RoomLaws.ApplyKeepsWellFormed` | desktop/src/store/room.ts:97-240 | every event keeps: ids list the participants once each, tiles are duplicate-free and hold (u, s) exactly when u is present and publishing s |
| `RoomLaws.EverySnapshotIsWellFormed` | desktop/src/store/room.ts:97-240 | the same for every sequence of events |
| `RoomLaws.TilesNeverJump` | desktop/src/store/room.ts:127-240 | over any run of participant and share events the surviving tiles keep their relative order and every other tile comes after them |
| `Presence.PresenceTable.StartPublication` | crates/db/src/repo/presence.rs:109-150 | a source already on the air keeps its clock, a new one starts now, the other source is untouched |
| `Presence.PresenceTable.StopPublication` | crates/db/src/repo/presence.rs:162-200 | only that source stops, and the flag says whether another is live |
| `Presence.PresenceTable.ClearPublications` | crates/db/src/repo/presence.rs:218-268 | both sources stop and the answer is what was live before the write |
| `Presence.PresenceTable.ClearChannel` | crates/db/src/repo/presence.rs:361-369 | exactly the rows of that room go |
| `Presence.RoomHandlers.OnJoin` | crates/api/src/routes/rooms.rs:187-210 | the new table, and one PARTICIPANT_ADD to everybody in the room after the write; to nobody when the room cannot be listed or a later call fails |
| `Presence.RoomHandlers.OnLeave` | crates/api/src/routes/rooms.rs:212-236 | the new table, and one PARTICIPANT_REMOVE to everybody who was in the room and to the one who left; to that one alone when the room cannot be listed; to nobody when a later call fails |
| `Presence.RoomHandlers.OnShareStart` | crates/api/src/routes/rooms.rs:238-270 | the new table, and one SHARE_START carrying the stored clock; nothing for somebody with no row, and to nobody when the room cannot be listed or a later call fails |
| `Presence.RoomHandlers.OnShareStop` | crates/api/src/routes/rooms.rs:300-334 | the new table, and one SHARE_STOP for that source; to nobody when the room cannot be listed or a later call fails |
| `Presence.RoomHandlers.OnPublisherGone` | crates/api/src/routes/rooms.rs:273-298 | one SHARE_STOP for each source that was live before the clear, screen first, and none for the others; to nobody when the room cannot be listed or a later call fails |
| `Presence.RoomHandlers.OnEvict` | crates/bot/src/revoke.rs:80-106 | the row goes by user alone, and only the evicted one is told |
| `Presence.RoomHandlers.HandleChange` | crates/api/src/routes/rooms.rs:138-182 | the routing of every webhook, and of an eviction, to the table transition and postings the view theorems are about |
| `Presence.FlagsStayDerived` | crates/db/src/repo/presence.rs:66-247 | every write keeps the publishing flag equal to whether some source is live |
| `Presence.RowsAfter` | crates/db/src/repo/presence.rs:66-369 | what every change makes of every row, field by field: a join replaces it, a share keeps a running clock and takes the time otherwise, a stop loses it, and no other row moves |
| `Presence.WireMeans` | crates/db/src/repo/presence.rs:31-56 | what travels about a row: exactly the sources on the air, each with its clock, the screen first |
| `RoomView.ViewAgreesIff` | crates/api/src/routes/rooms.rs:187-334 | for a viewer who stays, one change leaves the snapshot equal to the room's rows exactly when it did not touch the room from another one and was not the eviction of somebody in it; told from the change and the old table |
| `RoomView.RowsChangeIff` | crates/db/src/repo/presence.rs:66-247 | which changes make a room look different, from the change and the table before it |
| `RoomView.RetryRepairsIff` | crates/api/src/routes/rooms.rs:187-334 | a handler that failed after its write and is run again leaves the view right exactly when it was not a lost publisher with something on the air |
| `ViewRuns.ViewFollowsTable` | crates/db/src/repo/presence.rs:66-369 | the same over any run of any changes, from any snapshot; the snapshot is right exactly when it is of the room and nobody is shown otherwise |
| `ViewRuns.ChangeTracked` | crates/api/src/routes/rooms.rs:187-334 | one change, whoever it is about, whatever room it names, whoever views it and however its handler ends: from any snapshot, exactly who is then shown otherwise than the table has them, and as what |
| `ViewRuns.StaysRightIff` | crates/api/src/routes/rooms.rs:187-334 | a right snapshot stays right exactly when the change does not evict its owner from the room, and does not touch the room without telling them; told from the change, the old table and the handler's end |
| `ViewRuns.OrderlyRunsShowTheGone` | crates/bot/src/revoke.rs:80-106 | over runs in which handlers do their work and share changes name the room of their row, the only people shown otherwise are those evicted or moved without a word since |
| `ViewRuns.DepartureRepairsEviction` | crates/bot/src/revoke.rs:92-105 | an eviction leaves the others looking at somebody who is gone, and the departure webhook repairs it |
| `RoomView.SnapshotAgrees` | crates/api/src/routes/rooms.rs:36-49 | a snapshot built from a listing of the room, in any order, starts well-formed and in agreement |
| `RoomView.ReadyStaysFreshIff` | crates/api/src/gateway/mod.rs:265-268 | a change between the building of READY and the attaching of its session leaves READY right exactly when it does not touch the room |
| `ViewRuns.AbsentViewerIsNotTold` | crates/api/src/gateway/hub.rs:187-195 | a viewer with no row hears nothing of the others: the snapshot stays right exactly when the change does not touch the room |
| `ViewRuns.ArrivalSeesTheRoomIff` | crates/api/src/routes/rooms.rs:187-210 | a viewer given a snapshot first and arriving later: after their own arrival the view is right exactly when the room's rows are again the ones it was given |
| `ViewRuns.UntouchedKeepsRows` | crates/db/src/repo/presence.rs:66-247 | which holds when no change in between touched the room |
| `ViewRuns.EarlierJoinStaysInvisible` | crates/api/src/routes/rooms.rs:187-210 | somebody who joins between a viewer's snapshot and the viewer's own arrival is not shown to that viewer even afterwards |
| `LiveView.RunsAgree` | crates/api/src/gateway/hub.rs:154-168 | at every moment of every run mixing webhooks, evictions, announcements of any room, publishing, socket loss and resumes, for any viewer and room, the log of a registered session folds to the table's room but for exactly those the history of what was told says, as it says |
| `LiveView.ClientConvergesToTable` | desktop/src/store/room.ts:97-125 | across disconnects, once its socket is the session's outbox and is drained, the client shows the same, whatever it showed before, and equals the table exactly when its snapshot is of the room and nobody is off |
| `LiveView.FreshSnapshotIsRight` | crates/api/src/gateway/ready.rs:44-74 | after a READY or ROOM_JOIN built from the room as it is, nobody is off |
| `LiveView.ClientIsNeverWrongOnlyLate` | desktop/src/gateway/client.ts:178-190 | at any moment a client with a session shows what its log folded to at some earlier moment of the run: that moment's table but for those its history names, or the state between the two halves of one lost publisher |
| `SweepView.SweepLeavesOthersLooking` | crates/bot/src/revoke.rs:55-106 | a guild sweep seen from the table: the evictions leave the table the sweep promises, and everybody who may stay sees the evicted of their room on, and nothing else wrong |
| `Rotation.StepKeepsInv` | crates/api/src/auth/session.rs:46-109 | every step of every interleaving keeps each family one chain with at most one holder |
| `Rotation.OneHolderPerFamily` | crates/api/src/auth/session.rs:46-99 | in every interleaving a family has at most one of: a live token, a rotation between consume and insert; and no token is consumed twice |
| `Rotation.FamilyIsOneChain` | crates/api/src/auth/session.rs:111-146 | every stored token is on its family's chain, each successor is recorded as made by spending its predecessor, which is spent, and only the last can be live |
| `Rotation.NoTwoSuccessors` | crates/api/src/auth/session.rs:70-99 | no token is spent for two successors |
| `Rotation.DeadForever` | crates/db/src/repo/refresh_tokens.rs:86-107 | a family with no live token and no rotation in flight never has a live token again |
| `Rotation.RevokeIsFinalIff` | crates/db/src/repo/refresh_tokens.rs:98-107 | a revoke, in any reachable state, ends the family in every continuation exactly when no rotation of it is between consume and insert |
| `Rotation.LosingTheRaceDoesNotKillTheFamily` | crates/api/src/auth/session.rs:46-99 | the interleaving in which the loser of a race revokes the family and the winner's insert brings it back |
| `Rotation.StaysLiveIff` | crates/api/src/auth/session.rs:46-109 | over every run a live token stays live exactly when its own consume, a revoke of its own family and a cleanup past its expiry all do not happen, whatever happens to other tokens and families |
| `Rotation.RowsChangeOnlySo` | crates/db/src/repo/refresh_tokens.rs:86-145 | no step changes a token's family or expiry, consumes it but a winning consume of its own, revokes it but a revoke of its family, or deletes it but a cleanup past its expiry |
| `Rotation.NewRowsComeOnlySo` | crates/api/src/auth/session.rs:29-99 | rows appear only with a login or an insert, live, with the expiry asked for, in their own family or that of the token spent |
| `Rotation.WhereCallersGo` | crates/api/src/auth/session.rs:46-109 | where a presented token leads, case by case: unknown, consumed, revoked, expired, usable; and what losing the consume leads to |
| `Rotation.NobodyIsStuck` | crates/api/src/auth/session.rs:29-109 | whatever a caller is in the middle of it can go on with, and an idle one can present or log out with any token |
| `Rotation.RefreshTokens.RotateRefresh` | crates/api/src/auth/session.rs:46-99 | run alone, row by row: reuse revokes exactly the rows of the token's family, a usable token is exchanged for one successor in the same family, anything else changes nothing, and which is which |
| `Rotation.RefreshTokens.IssueSession` | crates/api/src/auth/session.rs:29-39 | a fresh id becomes the only token of a family of its own, and it is live |
| `Rotation.RefreshTokens.RevokeSession` | crates/api/src/auth/session.rs:101-109 | exactly the rows of the presented token's family are revoked; every other row, and every row when the token is unknown, is unchanged |
| `Permissions.ResolvePermissions` | crates/domain/src/discord.rs:115-177 | the accumulating loops compute the function whose meaning is proved below |
| `Permissions.ResolveMeans` | crates/domain/src/discord.rs:115-177 | everything for owner and administrators; otherwise each bit follows the layered rule, member over roles over everyone over what roles grant, allow beating deny in each |
| `Permissions.ResolveIgnoresOrder` | crates/domain/src/discord.rs:115-177 | reordering roles, overwrites or the member's role list changes nothing when keys are distinct |
| `Permissions.MoreRolesNeverRevoke` | crates/domain/src/discord.rs:126-176 | granting more to roles never removes a resolved bit from anybody in any channel, also when it makes them an administrator |
| `Permissions.RightsOnlyGrow` | crates/domain/src/discord.rs:45-62 | so nobody loses the right to see, to join or to publish in any channel |
| `Permissions.CanPublishIff` | crates/domain/src/discord.rs:57-59 | publishing is allowed exactly to those who bypass the rule or whom it grants each of its three bits |
| `Permissions.CanJoinRoomIff` | crates/domain/src/discord.rs:45-54 | being in a room takes exactly bits 10 and 20 of the layered rule, or a bypass; seeing the channel takes bit 10 |
| `Permissions.PutRoleExtendsIff` | crates/api/src/discord/replica.rs:110-118 | writing a role only grants exactly when it keeps the bits the role had; a new id had none |
| `Replica.WriteCoherentIff` | crates/api/src/discord/replica.rs:78-147 | a write keeps the channel index equal to the guild maps exactly when it does not claim or release a channel another guild holds |
| `Replica.MembersAfter` | crates/api/src/discord/replica.rs:78-128 | after each write, who is a member of each guild and with exactly which roles; a removed member is none, a removed role is on no list |
| `Replica.GrantsAfter` | crates/api/src/discord/replica.rs:110-128 | after each write, what each role grants: a written one exactly its bits, a removed one nothing, every other one as before |
| `Replica.ChannelsAfter` | crates/api/src/discord/replica.rs:78-147 | after each write, which channels each guild holds, with which overwrites, and who owns it |
| `Replica.IndexAfter` | crates/api/src/discord/replica.rs:78-147 | after each write, where the index sends each channel, also when two guilds claim it |
| `Replica.RemovedMemberMayNothing` | crates/api/src/discord/replica.rs:103-108 | a removed member has no permissions in any channel of the guild; every other answer is as before |
| `Replica.WrittenMemberMay` | crates/api/src/discord/replica.rs:96-101 | a written member has exactly the permissions of the roles given; every other answer is as before |
| `Replica.IndexAnswersAsScan` | crates/api/src/discord/replica.rs:184-245 | after any run of such writes, permissions and channel information by index equal those found by searching every guild |
| `Replica.DiscordReplica.PutGuild` | crates/api/src/discord/replica.rs:78-88 | the old index entries of the guild go, the new ones are added one by one, the guild is replaced |
| `Replica.DiscordReplica.PutRoleOf` | crates/api/src/discord/replica.rs:110-118 | the first role of that id is overwritten in place, or the role is appended |
| `Revocation.Sweeper.Sweep` | crates/bot/src/revoke.rs:21-51 | exactly those stay who are in another room, are allowed, or have ids that are not snowflakes; the others are evicted, and they and nobody else are told |
| `Revocation.Sweeper.SweepAll` | crates/bot/src/revoke.rs:55-77 | the same for exactly the rooms the index still gives to the guild |
| `Revocation.Bot.HandleEvent` | crates/bot/src/handler.rs:228-405 | which write each Discord event makes, which sweep follows it, and that exactly the evicted are told |
| `Revocation.EventMembers` | crates/bot/src/handler.rs:228-405 | after each event, who is a member of each guild and with exactly which roles |
| `Revocation.EventGrants` | crates/bot/src/handler.rs:341-380 | after each event, what each role grants |
| `Revocation.EventChannels` | crates/bot/src/handler.rs:228-405 | after each event, which channels each guild holds and who owns it |
| `Revocation.RemovalEvictsTheMember` | crates/bot/src/handler.rs:327-338 | a member who is kicked has no permissions in the guild any more and is in none of its rooms; nobody else's permissions change, and from a safe state nobody else goes |
| `Revocation.AllowedIff` | crates/bot/src/revoke.rs:31-44 | being allowed is being a member of the guild that holds the channel for whom the layered rule grants bits 10 and 20, or a bypass |
| `Revocation.UnknownRoomAllowsNobody` | crates/bot/src/revoke.rs:31-44 | nobody is allowed in a room no guild holds |
| `Revocation.ChannelEventSweeps` | crates/bot/src/handler.rs:382-405 | a channel event evicts only from the room of its number, or from room 0 when the number does not fit |
| `Revocation.HandlingRevokesExactly` | crates/bot/src/handler.rs:295-405 | if everybody present was allowed, then after a covered event and its sweep the people left are exactly those the new replica allows |
| `Revocation.NobodyOverstays` | crates/bot/src/handler.rs:295-405 | the same over every run of covered events |
| `Revocation.AdditionSafeIff` | crates/bot/src/handler.rs:295-304 | a member announced again, with no sweep behind it, keeps the rooms safe exactly when the announced roles admit them where they already are |
| `Revocation.RoleCreateKeepsAllowed` | crates/bot/src/handler.rs:341-352 | a new role takes access from nobody, which is why nothing is swept |
| `Revocation.GuildDeleteEvictsNobody` | crates/bot/src/handler.rs:280-293 | deleting a guild evicts nobody, and leaves the rooms safe exactly when nobody was in one of the guild's |
| `Revocation.GuildCreateMissesDroppedChannels` | crates/bot/src/handler.rs:228-277 | announcing a guild again leaves the rooms safe exactly when nobody was in a channel it no longer lists |
| `SlotLedgers.ClaimIsAllOrNothing` | crates/api/src/livekit.rs:218-261 | a refusal changes no holder set anywhere; a success makes the caller's sources in that room exactly the wanted ones and moves nobody else |
| `SlotLedgers.AdmitsIff` | crates/api/src/livekit.rs:213-248 | a claim is admitted exactly when each wanted source that the caller does not hold has fewer holders than its own ceiling |
| `SlotLedgers.HoldsAfterIff` | crates/api/src/livekit.rs:228-289 | who holds what after any step, exactly: a release takes its own slots and no others, a closed room all of its, an admitted claim sets the caller's |
| `SlotLedgers.ReleasedSlotIsClaimable` | crates/api/src/livekit.rs:264-289 | after any run, once somebody gives a slot back anybody's claim of that source is admitted and takes it |
| `SlotLedgers.CeilingsHoldOverEveryRun` | crates/api/src/livekit.rs:228-289 | over every run of claims, releases and closed rooms each room and source has at most its ceiling of holders |
| `SlotLedgers.RenewalIsNeverRefused` | crates/api/src/livekit.rs:238-243 | whatever others do in between, claiming again what one still holds is never refused |
| `SlotLedgers.StepKeepsTidyIff` | crates/api/src/livekit.rs:234-260 | the one step that leaves a room listed with no holders: a refusal in an unlisted room for a source with no slots at all |
| `SlotLedgers.TidyOverEveryRunIff` | crates/api/src/livekit.rs:228-289 | empty rooms never accumulate, on any run, exactly when both ceilings are at least 1 |
| `SlotLedgers.Ledger.ClaimPublications` | crates/api/src/livekit.rs:228-261 | the check loop refuses exactly when some wanted source the caller does not hold is full, and the update loop computes that new ledger |
| `SlotLedgers.Ledger.ReleaseOne` | crates/api/src/livekit.rs:264-277 | that one source of that one person in that room is given back, nobody else's and nothing else; an emptied room is dropped |
| `SlotLedgers.Ledger.ReleaseEverything` | crates/api/src/livekit.rs:280-289 | both sources of that one person in that room are given back, nobody else's and nothing else; an emptied room is dropped |
| `PixelFormats.PaintedAt` | desktop/src-tauri/src/camera/convert.rs:342-352 | byte `column` of line `row` of a written plane is the picture's sample inside the picture and what was there before in the padding |
| `PixelFormats.Nv12Into` | desktop/src-tauri/src/camera/convert.rs:322-354 | it succeeds exactly when everything fits; then both planes hold the picture row by row and padding is untouched; otherwise nothing is |
| `PixelFormats.Packed422Into` | desktop/src-tauri/src/camera/convert.rs:363-402 | every luma byte is the right picture sample and chroma row k comes from picture row 2k, top-down or bottom-up, for both byte orders |
| `PixelFormats.PixelPair` | desktop/src-tauri/src/camera/convert.rs:363-402 | which of the four bytes of a pair is which sample, Y U Y V or U Y V Y, and where its row is stored, downwards or upwards |
| `PixelFormats.Nv12Planes` | desktop/src-tauri/src/camera/convert.rs:322-354 | where luma and chroma of an NV12 frame are |
| `PixelFormats.LayoutSizes` | desktop/src-tauri/src/camera/convert.rs:84-129 | bytes a pixel takes in each layout, and a whole picture: one and a half a pixel for the planar ones |
| `PixelFormats.Write` | desktop/src-tauri/src/camera/convert.rs:176-313 | which frames are refused, converted here or handed to libyuv, and that a refused one changes nothing |
| `PixelFormats.TwinsWriteTheSame` | desktop/src-tauri/src/camera/convert.rs:382-400 | a bottom-up buffer is accepted exactly when its row-reversed twin is, and both write the same bytes |
| `PixelFormats.StrideIsEnough` | desktop/src-tauri/src/camera/convert.rs:84-129 | a packed row is never shorter than the layout needs and never padded by four bytes or more |
| `Fitting.FitIsTight` | desktop/src-tauri/src/capture.rs:123-144 | both sides are even, at least 2, and at most the source and the ceiling (or 2) |
| `Fitting.InsideCeilingIff` | desktop/src-tauri/src/capture.rs:123-144 | the result is inside the ceiling exactly when both ceiling sides are at least 2 |
| `Fitting.WidthIsClose` | desktop/src-tauri/src/capture.rs:130-139 | the width is within 2 of the exact uniform scale |
| `Fitting.HeightIsClose` | desktop/src-tauri/src/capture.rs:130-139 | and so is the height |
| `Fitting.ShapeIsKept` | desktop/src-tauri/src/capture.rs:116-139 | the cross-multiplied distortion of the shape is below twice the sum of the source's sides |
| `Fitting.OneSideIsMaximal` | desktop/src-tauri/src/capture.rs:116-139 | one side is as long as source and ceiling allow, up to evenness |
| `Fitting.FitIsIdempotent` | desktop/src-tauri/src/capture.rs:123-144 | fitting twice is fitting once |
| `Fitting.FitIsNearest` | desktop/src-tauri/src/capture.rs:123-144 | in whole numbers: each side is the nearest whole number to the source's side times the smaller quotient or 1, a half counting up, at least 2 and made even downwards |
| `Fitting.LaptopScreenFits` | desktop/src-tauri/src/capture.rs:123-144 | 1366 by 768 inside 1280 by 720 is 1280 by 720 |
| `Fitting.NothingFitsNothing` | desktop/src-tauri/src/capture.rs:123-129 | the result is empty exactly when the source is |
| `Base64.ShiftsPickSextets` | desktop/src-tauri/src/preview.rs:333-342 | bytes shifted into place and joined bit by bit, shifted down and masked, give the four sextets of the standard |
| `Base64.JoinedIsSum` | desktop/src-tauri/src/preview.rs:333-333 | joining the shifted bytes is adding them, below 2^24, so nothing falls off a 32-bit word |
| `Base64.Base64Into` | desktop/src-tauri/src/preview.rs:327-347 | the loop appends exactly the encoding of section 4 of RFC 4648 |
| `Base64.Vectors` | desktop/src-tauri/src/preview.rs:321-347 | two test vectors of section 10 of RFC 4648, and the last two characters of the alphabet |
| `Base64.EncodeRoundTrip` | desktop/src-tauri/src/preview.rs:327-347 | a section 4 decoder recovers every byte string |
| `Base64.DecodesIffEncoding` | desktop/src-tauri/src/preview.rs:327-347 | a text decodes to some bytes exactly when it is their encoding |
| `Base64.EncodeIsInjective` | desktop/src-tauri/src/preview.rs:327-347 | different byte strings have different encodings |
| `Base64.EncodeLength` | desktop/src-tauri/src/preview.rs:328-328 | the length is `4 * ceil(n / 3)` |
| `Base64.EncodeShape` | desktop/src-tauri/src/preview.rs:336-346 | all characters are from the alphabet but for as many trailing pads as the last chunk is short of bytes |

## Left out

- Sequence numbers are unbounded; the wrap-around of the 64-bit counter is not modelled.
- Streams: every session belongs to one viewer, so the owner check of a RESUME is in `Hubs.Hub.Resumable` and not there; several users at once, and several clients of one user, are outside it.
- Connections.Connection.Identify: READY is a parameter, and the registration in the hub that follows is `Hubs.Hub.AttachSession`; what a change between the two does to READY is `RoomView.ReadyStaysFreshIff`.
- Connections.Connection.Serve: text frames only; binary frames, pings and the socket's own end are not among them.
- Connections.Connection.Handle: the frame size cap, the frame rate limit, the identify deadline and the server's zombie check are not modelled, nor is the parsing of versions.
- Hubs.Hub.AttachSession: sessions are values here, so the RECONNECT and the disconnect that the evicted ones receive are returned as a list and not performed; `Streams.Evict` models them.
- Hubs.Hub.SweepExpired: answers with a set, so the order of the returned users is not modelled.
- GatewayClients.GatewayClient.HandleClose: the delay before the retry and its jitter are not modelled, and neither is the branch for a close after `stop`, whose listener has been removed by then.
- GatewayClients: the heartbeat interval and the first beat's delay.
- ResumeRace: one session, one client, and a buffer capacity of at least 1; other sockets that end or resume while a RESUME is under way are in `LateDisconnect`, and the forgetting of a session whose RESUME is refused is in `Streams`.
- Presence.RoomHandlers.OnJoin: why a later call of a handler fails, and what the share sessions, the slots and the audience hold afterwards, is not modelled, here and in the other handlers; only that the handler stops there.
- Presence.RoomHandlers.OnPublisherGone: lists the room once for each stop; both listings succeed or fail together here.
- Presence.RoomHandlers.OnEvict: the removal from the media server, whose failure the code only logs, is not modelled.
- Presence.RoomHandlers.HandleChange: starts after the event name and identity have been decoded; the slot ledger and the announcer that the handlers also call are not linked to it.
- RoomStore: the client's error for events of rooms it is not in, and everything the user interface derives from the snapshot; a JavaScript object's prototype keys are not user ids here.
- RoomView.ViewAgreesIff: for viewers who are present and handlers that do their work; `ViewRuns.StaysRightIff` is for everybody else.
- LiveView.ClientConvergesToTable: READY carries whatever room it carries, so the order in which READY chooses between the voice channel and the presence row is not modelled.
- Rows of the presence table that disappear with a deleted user or an unclean database restart.
- Rotation: secrets and their hashes, the access token that is issued beside, revoking all families of one user, and the failing of a database call.
- Rotation.RefreshTokens.RotateRefresh: the user lookup between consume and insert succeeds here; its failure is the `Abandon` step of the interleaved model.
- Permissions: the arithmetic of machine words; conversion of bits to sets is taken as given.
- Replica.DiscordReplica.PutGuild: staleness, connection state and the voice snapshot of the mirror are not modelled.
- Revocation.Sweeper.SweepAll: one value of the replica is used for a whole sweep, and database failures in it, which skip a row, are not modelled.
- Revocation.Bot.HandleEvent: the filter of served guilds, the REST backfill of members and command registration are not modelled; a channel event of a type that is no room is ignored, as in the code.
- Revocation.HandlingRevokesExactly: covers member and role events and voice-channel events under `Revocation.Covered`; guild deletion and re-announcement are covered only where nothing is lost, and the two lemmas named after them say what happens otherwise. A webhook join, which does not recheck access, is not an event of this model.
- SlotLedgers: not linked to what LiveKit really carries; a live track may hold no slot after its owner asked for a viewer's token.
- PixelFormats.Write: I420 and RGB frames end as `Foreign`; the libyuv conversions and the widening of RGB24 rows before them are not modelled.
- Fitting: real arithmetic stands for double precision, so rounding of the quotient itself is not modelled.
- Base64.Base64Into: works on a value; the reserved capacity of the string is not modelled.
- The announcer, the `/tela` command, routes other than the ones cited, the media pipeline, and the screens of the desktop application.
