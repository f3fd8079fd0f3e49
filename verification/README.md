# Qonductor, verified

A Dafny model of a Qobuz Connect renderer: the wire format and the connection, the
session runner, the example player, the routing of many devices, and the page scanners.
`dafny verify dfyconfig.toml` checks it.

How the pieces stand to one another, and the main results of each:

- **Codec** (`Varint`, `Wire`, `WireTheorems`, `Messages`, `MessagesTheorems`, `Codec`).
  One encoder and one decoder, driven by schemas, for all message structs. What reading
  an encoding into a message does (`LastOneWins`), and with it the round trip
  (`MessageRoundTrip`), is proved once by induction over schemas and messages; the
  structs are tied to their schemas by typing and inverse lemmas (`MessageInverse`). The
  format follows the Protocol Buffers Encoding specification, sections "Base 128
  Varints", "Message Structure", "Length-Delimited Records", "Last One Wins" and
  "Groups"; the tags are those of the generated structs.
- **Bytes** (`WireBytes`, `WrittenBytes`, `Layouts`, `FrameBytes`). The same format once
  more, stated over the bytes with every tag and wire type as a number and apart from
  the encoder and decoder: `MessageReadExactly` says for any bytes what is read from
  them, `MessageWritten`, `BodyLaid` and `FrameWritten` which bytes are written, and
  `ReceivedExactly` which frames are taken.
- **Connection** (`Transport`, `TransportTheorems`, `Setup`). Envelope framing, the
  reader's loop, the writer, the set-up steps. `Connection`, `ConnectionReader` and
  `ConnectionWriter` are classes after the structs of src/connection.rs, with `frames`
  for what the socket was handed. A `Network` says of each write whether it succeeds and
  which clock readings went into it, so every theorem covers failing writes. Main
  results: `EndToEnd`, `StreamIsBatchesBeforeEnd`, `SessionFrameIds`.
- **Session runner** (`Events`, `Runner`, `SessionRunner`, `Readings`, `RunHistory`,
  `RunLogs`, `RunTheorems`, `RunErasure`). `Runner` has one step for each input of the
  select loop; because a responder is awaited inline, a step is atomic and its input
  carries the answer the user gives (`Dropped` when the responder is dropped). The class
  in `SessionRunner` is struct `SessionRunner` of src/qconnect.rs; each of its methods,
  named after the source's, has the effect of its part of a step. The theorems are about
  whole runs over arbitrary schedules, and most are stated over the message history
  alone, as `Readings` reads it off the messages' own fields: `StateReportsConserved`,
  `NotificationsInOrder`, `ActivationBlock`, `FinishedSessionShape`, `Erasure`.
- **Player** (`Player`, `FakePlayer`, `PlayerPosition`, `PlayerSteps`, `PlayerQueue`).
  The classes in `FakePlayer` are structs `FakePlayer` and `RandomDurationProvider` of
  examples/fake_player.rs; each method has the effect of its function in `Player`. Each
  call reads the clock once. `PlayerSteps` writes out what each event does. Main
  results: `PositionExactly`, `SnapshotSeries`, `IndexSafeExactly`.
- **Player and runner together** (`Composed`). The player gets a session's events in
  order, each at an arbitrary clock reading, and its answers are the ones the runner
  awaits: `ScheduleIsPlayed`, `TickFrames`, `SetStateFrames`.
- **Routing** (`Routing`, `RoutingTheorems`, `RoutingHistory`, `SessionManager`).
  Registry, selections, manager, handles, channels and runners as one state machine
  whose actions interleave in any way. The class in `SessionManager` joins the fields of
  structs `SessionManager`, `AppState` and `DeviceSession` of src/manager.rs,
  src/discovery.rs and src/session.rs; each method keeps the invariant and has the
  effect of its action. `RoutingHistory` tells registrations, runners, commands and
  events from the actions alone. Main results: `CommandsReachOneRunner`, `EventsArrive`.
- **From end to end** (`WholeSession`). The objects of a session put together as
  `spawn_session` does, and a user's command followed from the handle that accepts it to
  the frame on the connection: `SpawnSession`, `AcceptedBecomesFrame`.
- **Scanners** (`Scanner`, `Listing`, `SeedScanner`). The loops over positions of a
  text, against definitions that cut the text up instead: `ExtractScriptUrls`,
  `RenderedSeeds`.

The table has a row for each theorem and one for each class.

Where a property does not hold of the code, the model keeps the code, and there are a
theorem with the exact condition and a lemma at an input that fails:

| property | condition | failing input |
|---|---|---|
| the position shown is the one counted, after a deactivation | `PositionExactly`, `LosesTime` | `DeactivationLosesTime` |
| the same, long after the last record | `PositionExactly`, `WrapsAround` | `LongPlayWrapsAround` |
| a queue update keeps the current item | `UpdateExactly`, `KeyIsIdentity` | `LargeIdLost` |
| the index is within the queue | `IndexSafeExactly`, `BadRestore` | `EarlyRestoreUnsafe` |
| every inbound message is notified | `NotificationsInOrder`, `ClaimFails` | `FailedClaimLosesNotification` |
| a seed is given its own zone | `OwnZoneExactly` | `ZoneTakenOver` |

Where code and documentation differ, the model follows the code:

- `docs/ws-session-debug.md:272` says type 82 is ignored. The runner sends nothing for
  it, but does hand it to the user (src/qconnect.rs:501-520).
- `docs/architecture.md:283` has the SessionManager forward SessionClosed. The runner
  sends it to the user's event channel itself (src/qconnect.rs:203-208).
- `docs/architecture.md:133` has heartbeats while active. They also need a renderer id,
  and a removed renderer stays active without one (src/qconnect.rs:172, 457-463).

`ScanTags` is written once for the two loops of `extract_script_urls`, which differ only
in the tag name and in what they take from a tag.

## Model

| member | source | states |
|---|---|---|
| Varint.RoundTrip | src/connection.rs:352-380 | The length varint: decoding the encoding of any 64-bit value gives the value and the bytes it took, at most ten, whatever follows. |
| Varint.PrefixRefused | src/connection.rs:371-379 | A varint cut short anywhere is refused. |
| Varint.Stable | src/connection.rs:371-380 | Bytes after a complete varint do not change what is read or how many bytes are consumed. |
| WireBytes.VarintExactly | src/connection.rs:363-380 | For any bytes: a number is read iff they begin with bytes of which all but the last have the high bit set, at most ten, whose groups of seven bits, lowest first, add up to that number below 2^64. |
| WireBytes.VarintWritten | src/connection.rs:352-358 | What is written for a number are such bytes, and the fewest. |
| WireBytes.NumberExactly | src/proto/qconnect.rs:9-122 | For every kind of number: read iff the bytes are such a varint, or four or eight bytes whose sum base 256 it is; int32 and uint32 keep the low 32 bits, bool asks for not zero. |
| WireBytes.SkippedExactly | src/proto/qconnect.rs:308-329 | A record nobody knows is skipped iff it is a varint (wire type 0), eight bytes (1), a length and its bytes (2), whole records and the end mark 4 of the same tag (3), or four bytes (5). |
| WireBytes.MessageReadExactly | src/proto/qconnect.rs:84-122 | For every well-formed schema and any bytes: read into a message with that result iff the bytes are records, each a key of tag * 8 + wire type (0, 1, 2 or 5 as the field has it) and content that gives its field its value; refused otherwise. |
| WrittenBytes.MessageWritten | src/proto/qconnect.rs:84-122 | Every message is written as the lines of its fields in tag order: key varint tag * 8 + w, then varint (0), eight bytes (1), length and content (2) or four bytes (5). |
| WireTheorems.ConcatenationMerges | src/proto/qconnect.rs:308-329 | Decoding is merging records left to right: reading a then b is reading a and merging b into it, which is where "last one wins" comes from. |
| WireTheorems.ScalarRoundTrip | src/proto/qconnect.rs:9-122 | Every scalar kind used by the structs comes back: varints with negative int32 as ten bytes, bool, fixed32, fixed64. |
| WireTheorems.MessageRoundTrip | src/proto/qconnect.rs:84-122 | For every well-formed schema and every message of it, however nested, decoding the encoding returns the message: optional, required and unpacked repeated fields, multi-byte keys. |
| WireTheorems.UnknownIgnored | src/proto/qconnect.rs:308-329 | Records whose tags the schema does not have leave the message as it was. |
| WireTheorems.UnknownFieldsHarmless | src/proto/qconnect.rs:308-329 | The round trip with any unknown fields appended: they do not change the result. |
| WireTheorems.LastOneWins | src/proto/qconnect.rs:84-122 | For every well-formed schema, an encoding read into any message overlays it: repeated fields go on, embedded messages are merged at every depth, of anything else the last one wins. |
| WireTheorems.OverlayDefault | src/proto/qconnect.rs:84-122 | Overlaying a message that holds nothing gives the message read, so a plain decode is the special case. |
| WireTheorems.EmbeddedRecordsMerge | src/proto/qconnect.rs:86-105 | Two records of an optional embedded message are read as one that holds their contents one after the other, whatever is there already. |
| WireTheorems.UnknownGroup | src/proto/qconnect.rs:308-329 | A group of complete records, groups among them, under a tag the schema does not have is one unknown record. |
| WireTheorems.PackedLikeUnpacked | src/proto/qconnect.rs:424 | A repeated scalar field also accepts a packed record and adds its values to those already read. |
| MessagesTheorems.MessageSchemaWellFormed | src/proto/qconnect.rs:684-859 | The 64 body fields of QConnectMessage and the message type have legal, strictly increasing tags at every nesting level. |
| MessagesTheorems.MessageTyped | src/proto/qconnect.rs:684-859 | Every message the generated struct can hold is a message of that schema. |
| MessagesTheorems.MessageInverse | src/proto/qconnect.rs:684-859 | Turning a message struct into field values and back is the identity, for every combination of populated bodies. |
| Layouts.BodyLaid | src/proto/qconnect.rs:9-859 | The layout of every body the session looks into, field by field with its tags written out; negative numbers in two's complement on 64 bits, absent fields not at all. |
| FrameBytes.TagsExactly | src/proto/qconnect.rs:684-859 | A message has fields under the tags 2-4, 21-23, 25-30, 41-47 and 61-105, and no others. |
| Codec.PayloadRoundTrip | src/proto/qconnect.rs:308-329 | Decoding an encoded Payload, with or without unknown fields after it, returns it. |
| Codec.BatchRoundTrip | src/proto/qconnect.rs:673-682 | The same for a QConnectBatch with any number of messages inside. |
| Codec.RendererStateRoundTrip | src/proto/qconnect.rs:86-112 | The same for QueueRendererState. |
| Transport.EncodeEnvelope | src/connection.rs:352-358 | The pushed buffer is type byte, length varint, data. |
| TransportTheorems.EnvelopeRoundTrip | src/connection.rs:352-392 | For a type byte and any data the header split of a frame plus any trailing bytes gives that type and data back. |
| TransportTheorems.EnvelopePrefixRefused | src/connection.rs:363-390 | Every strict prefix of a frame is read as nothing. |
| TransportTheorems.EnvelopeCapacity | src/connection.rs:352-358 | A frame never outgrows the capacity reserved for it, 11 bytes and the data. |
| FrameBytes.FrameWritten | src/connection.rs:239-260 | The bytes of a frame sent: type byte 6 around id+1 (field 1), date (2), protocol 1 (3) and, in field 7, a batch of time (1, eight bytes), id (2) and the message (3), its type under 1 and each body under its tag. |
| FrameBytes.ReceivedExactly | src/connection.rs:363-430 | For any bytes: a frame is taken, and as which batch, iff its type byte is 6, a length varint follows with that many bytes, these are a payload, and the bytes of its field 7 are the batch. |
| FrameBytes.SmallestFrame | src/connection.rs:363-430 | For every t below 128 the frame 06 06 3A 04 1A 02 08 t is read as one message of type t. |
| Transport.ConnectionReader.IntoStream | src/connection.rs:190-222 | The reading loop yields exactly the stream function of what the socket delivers: batches flattened in order, stop at Close, error and stop at a failure. |
| TransportTheorems.StreamIsBatchesBeforeEnd | src/connection.rs:190-222 | For any frames, valid or not, the stream is the concatenation of the parsed batches before the first Close or failure, then that failure. |
| Transport.ConnectionWriter.Send | src/connection.rs:239-260 | Sending appends exactly one frame, numbered next, to what the socket was given, also when the write fails. |
| TransportTheorems.EndToEnd | src/connection.rs:190-443 | Any sequence of messages sent through the writer comes out of a reader fed with the frames, whole and in order. |
| TransportTheorems.ConsecutiveIds | src/connection.rs:239-273 | The k-th frame of a writer decodes to message id start+k+1 and its batch to id start+k, holding just the k-th message. |
| Setup.Connection.SetUp | src/connection.rs:45-173 | Authenticate, subscribe, join: the frames handed over are a prefix of those three, ending at the first failed write, and the counter equals their number. |
| FrameBytes.SetUpSays | src/connection.rs:78-157 | The first frame (type byte 1) gives the token in field 3, the second (2) subscribes to protocol 1 with no channel, the third is read as the one message of type 61 with the device's uuid, names and capabilities. |
| Setup.SessionFrameIds | src/connection.rs:66-273 | Over a whole session the n-th frame handed to the socket carries message id n: no gap, no repeat, whichever writes fail. |
| SessionRunner.SessionRunner.Run | src/qconnect.rs:133-210 | The event loop over any schedule leaves the fields and the log of the run function, the SessionClosed event included. |
| SessionRunner.ServerReads | src/connection.rs:190-260 | What a server decodes from the runner's frames is the sequence of messages in the runner's log. |
| WholeSession.SpawnSession | src/qconnect.rs:42-92 | The objects of a session from connecting to its end: a runner exists iff the three set-up writes succeed, its log is the session's, and the n-th frame in the connection's and then the writer's own log carries message id n. |
| RunHistory.RunIsItsBlocks | src/qconnect.rs:133-210 | A run is the blocks of its inputs one after the other, up to and including the first that exits. |
| RunHistory.ActiveHistory | src/qconnect.rs:565-598 | The device is active iff the latest SetActive with a body said true. |
| RunHistory.RegistrationHistory | src/qconnect.rs:406-463 | The renderer id is id (not 0) iff the latest AddRenderer for this device announced id and no later RemoveRenderer named it. |
| RunHistory.RegistrationStep | src/qconnect.rs:406-443 | An AddRenderer sets the id, and claims it when auto-activating, iff its body 83 has a renderer with this device's uuid; for any other, state and writer are untouched. |
| RunHistory.RemovalKeepsActivity | src/qconnect.rs:457-463 | Being removed clears the id and leaves the active flag alone. |
| RunHistory.UuidHistory | src/qconnect.rs:474-490 | The session uuid is the latest one received that was 16 bytes long. |
| RunHistory.DueHistory | src/qconnect.rs:171-183 | A tick asks for a heartbeat iff the message history, without the runner's fields, says active and registered. |
| RunLogs.StepProjected | src/qconnect.rs:400-631 | Two tables, of messages sent and of events emitted, give exactly what each input does. |
| RunLogs.SessionProjected | src/qconnect.rs:133-210 | A session's messages and events are those tables input by input, between Connected and SessionClosed. |
| RunTheorems.HeartbeatsAreDueTicks | src/qconnect.rs:171-183 | Heartbeat commands correspond one for one with the ticks at which the history says active and registered. |
| RunTheorems.StateReportsConserved | src/qconnect.rs:170-243 | The StateUpdated messages are, in order and one for one, the answered SetStates, the answered due heartbeats and the ReportState commands. |
| RunTheorems.VolumeReportsConserved | src/qconnect.rs:234-243 | The VolumeChanged messages are, in order and one for one, the answered SetVolumes, the answered activations whose mute report was written, and the ReportVolume commands. |
| RunTheorems.WritesAreMessages | src/qconnect.rs:213-396 | The k-th message of a run is the k-th write of its writer. |
| RunTheorems.ActivationBlock | src/qconnect.rs:385-396 | An activation's messages stand together in the outgoing log whatever is scheduled around it: the handshake, cut only after a failed write, then always the request for the latest session's queue. |
| RunTheorems.NotificationsInOrder | src/qconnect.rs:448-627 | The message-backed notifications are, in order, the inbound messages of the 24 listed types with the body of their type, iff no claim to be active renderer failed to be written; a failed claim loses its notification. |
| Readings.NotifiedExactly | src/event.rs:214-263 | The 24 listed message types, each with the body of its own number, are notified with that body, and no other message is. |
| RunTheorems.FailedClaimLosesNotification | src/qconnect.rs:432-454 | The failing input: an auto-activating device whose claim cannot be written never hears of its own registration. |
| RunTheorems.RestoreExactly | src/qconnect.rs:501-520 | A type-82 body gives exactly one of RestoreState and RendererStateUpdated; RestoreState iff the history says inactive and another renderer's. |
| RunTheorems.RestoreOnlyThere | src/qconnect.rs:501-520 | No other input, and no active device, ever emits RestoreState. |
| RunTheorems.FinishedSessionShape | src/qconnect.rs:133-210 | A finished session logs Connected, a middle without Connected, Disconnected or SessionClosed, then exactly Disconnected and SessionClosed; Deactivated ends only auto-activated sessions, with that reason, and never stands in their middle. |
| RunTheorems.ExitsExactly | src/qconnect.rs:133-210 | A step ends the session iff the stream ended or failed, or a body 43 without the flag true reached an auto-activating device. |
| RunErasure.InertExactly | src/qconnect.rs:400-631 | The inputs called inert are exactly those that in every state change no field, send nothing and do not exit. |
| RunErasure.Erasure | src/qconnect.rs:400-631 | Two runs: leaving any inert inputs out leaves the messages sent, the final state and the exit decision as they were. |
| RunErasure.BroadcastsGetNoResponse | docs/ws-session-debug.md:272 | The rule that a renderer does not respond to broadcasts: a session without its type-82 and default-arm messages sends the same. |
| FakePlayer.RandomDurationProvider.GetDuration | examples/fake_player.rs:39-46 | A track's first look-up draws its duration, later ones return it and change nothing. |
| FakePlayer.FakePlayer.Run | examples/fake_player.rs:364-462 | The main loop over any events leaves the state and gives the answers of the abstract run. |
| Player.FindTrack | examples/fake_player.rs:196-201 | The index found is in the queue, holds the sign-extended id and is the first that does; none means no track holds it. |
| PlayerSteps.PositionIs | examples/fake_player.rs:97-105 | The position shown is the recorded one plus, while playing, the milliseconds since then modulo 2^32, capped at 2^32-1. |
| PlayerSteps.ReportExactly | examples/fake_player.rs:112-141 | A report has the number of the state, the shown position, the duration of the current track, and the items at the index and right after it. |
| PlayerSteps.SetStateExactly | examples/fake_player.rs:205-244 | A playback command leaves the state of its number 0 to 3 (2 exactly Playing, 3 exactly Paused), for any other number or none the state there was, answers with that state, and changes only state, position, track and the duration drawn for that track. |
| PlayerSteps.SetVolumeExactly | examples/fake_player.rs:246-251 | A volume command sets the volume it carries, 100 when none, answers with it and changes nothing else. |
| PlayerSteps.SetActiveExactly | examples/fake_player.rs:253-262 | An activation answers muted, volume, quality 4 and the report of the moment, and changes nothing but the duration drawn for the track reported. |
| PlayerSteps.HeartbeatExactly | examples/fake_player.rs:144-194 | A heartbeat moves a player whose track is played out to the start of the track that follows under its loop mode, or stops it at the start of the last; else it changes nothing, but that a track looked at or reported has a duration from then on. |
| PlayerSteps.RestoreExactly | examples/fake_player.rs:307-321 | A restored state sets position (0 when absent) and, if it has one, the index; nothing else. |
| PlayerSteps.NoteExactly | examples/fake_player.rs:364-462 | Types 90, 96 and 97 (modes 1, 2, 3), deactivation, restoring and registration act on the player as written out; every other notification leaves it alone. |
| PlayerSteps.QueueWithoutTrack | examples/fake_player.rs:269-296 | A queue that comes while no track is current is stored and changes nothing else. |
| PlayerSteps.InitialExactly | examples/fake_player.rs:80-95 | The player starts stopped at 0 with no queue, loop off, volume 100, not muted. |
| PlayerSteps.MeasuredExactly | examples/fake_player.rs:120-123 | Reporting draws a duration for a current track that has none, and does nothing else. |
| PlayerPosition.ClockExactly | examples/fake_player.rs:98-105 | The 32-bit elapsed time shows the right position iff the record is less than 2^32 ms old or the sum is at the cap anyway. |
| PlayerPosition.StepPosition | examples/fake_player.rs:205-321 | Every step shows afterwards what it sets or what was shown before, except exactly a deactivation while the clock had added something. |
| PlayerPosition.SetStateShows | examples/fake_player.rs:205-223 | A playback command shows the position it carries, and one that carries none never makes the position jump. |
| PlayerPosition.RecordFollows | examples/fake_player.rs:97-232 | While no event loses time, value and timestamp stand for the last set value plus all time spent playing since, capped. |
| PlayerPosition.PositionExactly | examples/fake_player.rs:97-321 | Over any run with ordered clock readings the shown position equals that count around every event iff no event is a losing deactivation or comes too late after the last record. |
| PlayerPosition.PositionAtAnyTime | examples/fake_player.rs:97-105 | And then also at any later time less than 2^32 ms after the record. |
| PlayerPosition.DeactivationLosesTime | examples/fake_player.rs:264-267 | The failing input: deactivated five seconds in, the player shows 0 where the count is 5000. |
| PlayerPosition.LongPlayWrapsAround | examples/fake_player.rs:98-105 | The failing input: after 2^32 ms of playing the position shown is 0 where the count is at the cap. |
| PlayerQueue.KeyIsIdentity | examples/fake_player.rs:196-201 | The u64 to i32 to u64 key is the identity iff the id is below 2^31 or at least 2^64-2^31. |
| PlayerQueue.UpdateExactly | examples/fake_player.rs:269-296 | One update: the current item survives, with state, position and record untouched, iff the new queue holds its key; else stopped at 0 with no track. |
| PlayerQueue.SnapshotSeries | examples/fake_player.rs:269-296 | Any series of snapshots: the item stays current and nothing else changes iff every snapshot holds its key; else the player ends stopped at 0 with no track. |
| PlayerQueue.LargeIdLost | examples/fake_player.rs:269-296 | The failing input: an item with id 2^31 is stopped by its own queue sent back. |
| PlayerQueue.StepIndexSafe | examples/fake_player.rs:205-321 | From an index within the queue every step leads to one, except exactly a RestoreState with an index the queue does not have. |
| PlayerQueue.IndexSafeExactly | examples/fake_player.rs:307-321 | Over any run the index is within the queue throughout iff no such RestoreState occurs. |
| PlayerQueue.EarlyRestoreUnsafe | examples/fake_player.rs:307-321 | The failing input: a restore with index 0 before the first queue. |
| PlayerQueue.TickAdvancesSomething | examples/fake_player.rs:144-166 | A tick never advances an empty queue: only a track of the queue can be over. |
| PlayerQueue.RepeatAllCycles | examples/fake_player.rs:160-194 | n advances with RepeatAll lead from index i to (i+n) mod length and change nothing else but the position record. |
| PlayerQueue.OffPlaysThrough | examples/fake_player.rs:160-194 | Without repetition len-1-i advances reach the last track; the next and every later one stops on it at position 0. |
| PlayerQueue.AnnouncedComesNext | examples/fake_player.rs:125-194 | The announced next item is what becomes current iff the mode does not repeat the track and the queue goes on. |
| PlayerQueue.DurationsKept | examples/fake_player.rs:39-46 | Once drawn, a duration never changes in the rest of any run. |
| PlayerQueue.SameDurationReported | examples/fake_player.rs:120-141 | A track reported after a heartbeat measured it is always reported with the same duration. |
| PlayerQueue.HeartbeatReports | examples/fake_player.rs:298-305 | A heartbeat is answered iff the player is playing, unless its last track is over; the answer says Playing with the position below the duration. |
| PlayerQueue.SetStateReports | examples/fake_player.rs:205-244 | The answer to a playback command carries the number 0 to 3 asked for, else that of the state there was, and the position asked for, else the one shown before. |
| PlayerQueue.SetStateTrack | examples/fake_player.rs:227-241 | The command's item becomes current iff the queue holds its key, at its first occurrence; else the track stays, or the first starts. |
| PlayerQueue.VolumeHistory | examples/fake_player.rs:246-251 | The volume is the last one asked for, 100 for a request without one; muted never changes. |
| Composed.ScheduleIsPlayed | examples/fake_player.rs:364-391 | For every schedule of inputs and every clock the player's answers make one session in which the runner awaits exactly those answers. |
| Composed.TickFrames | src/qconnect.rs:171-183 | With the player answering, a tick sends something iff active, registered, playing and not at the end; it then says Playing with the position below the duration. |
| Composed.SetStateFrames | src/qconnect.rs:523-543 | Every SetState that asks for something is answered by one message with the number 0 to 3 asked for, else that of the state there was, and the position asked for or shown. |
| Composed.ActivationFrames | src/qconnect.rs:564-590 | Every activation sends, up to its first failed write, muted, the volume last asked for, quality 4, and always the request for the latest session's queue. |
| RoutingTheorems.Reachable | src/manager.rs:128-183 | The routing invariant holds after any interleaving of requests, manager steps, users and runners. |
| RoutingTheorems.CommandsReachOneRunner | src/session.rs:102-111 | What a runner got is an unbroken stretch, in order, of what a handle of its own device accepted; stretches of two runners of one handle never overlap and the later session's comes later. |
| WholeSession.AcceptedBecomesFrame | src/session.rs:102-111 | Every command a runner got was accepted by a handle of its own device and is handed to its own connection as one frame, read as that command's message alone, in the order of acceptance. |
| RoutingTheorems.AcceptedIsSent | src/session.rs:102-111 | What a handle accepted is what was sent into its sessions' channels, in the order the sessions were opened: nothing lost, repeated or moved. |
| RoutingTheorems.EventsStayHome | src/manager.rs:158-182 | A handle receives events only from runners of its own device, those that take its commands. |
| RoutingHistory.EventsArrive | src/manager.rs:158-182 | The events of runner r in its handle's inbox are, in order and one for one, those it emitted while alive, told from the actions alone. |
| RoutingHistory.InboxExactly | src/manager.rs:158-182 | A handle's whole inbox is what the live runners made for it emitted, in the order of the actions. |
| RoutingHistory.RunnersAreMade | src/manager.rs:128-183 | The runners are those of the openings that succeeded, each with handle and channel of the selection taken up; one is alive until its exit. |
| RoutingHistory.DevicesAreRegistered | src/discovery.rs:362-420 | The device table has, for every uuid, the handle of its latest registration unless it was removed since. |
| RoutingHistory.AcceptedExactly | src/session.rs:102-111 | A handle has accepted exactly the commands sent through it while its latest session was opening or alive. |
| RoutingHistory.ChannelsExactly | src/session.rs:102-111 | A channel was sent exactly the commands accepted while it was the latest of its handle. |
| RoutingHistory.GotExactly | src/session.rs:102-111 | A live runner that takes a command gets the next one sent into its channel, if there is one; nothing else gives it any. |
| RoutingTheorems.OpeningPairs | src/manager.rs:150-182 | Opening a session puts the sender in the cell of the entry registered for the selected device and gives receiver and event channel of that same entry to the session. |
| RoutingTheorems.CellIsLatest | src/manager.rs:165-175 | A cell holds the channel of the latest selection handled for it, whatever else has happened. |
| RoutingTheorems.SendReplyExactly | src/session.rs:102-111 | Not connected iff no selection was handled yet, accepted iff the latest session is opening or running, else session closed. |
| RoutingTheorems.SelectionsInOrder | src/discovery.rs:198-252 | The manager takes selections up once each, in the order they were sent. |
| RoutingTheorems.RequestsAccounted | src/discovery.rs:207-246 | Every request that named a registered device is sent to the manager once or is still to be sent. |
| RoutingTheorems.CurrentSessionIsLatest | src/discovery.rs:180-222 | The session a registered device shows is that of the latest request for it since it was registered. |
| RoutingTheorems.OrphanStays | src/discovery.rs:362-392 | Once its entry is removed or replaced a handle never gets another session: its cell stays for good. |
| RoutingTheorems.ReplacedIsOrphan | src/discovery.rs:362-420 | Registering a uuid again, or removing it, leaves the old handle in that condition. |
| SessionManager.SessionManager.HandleDeviceSelected | src/manager.rs:150-182 | One turn of the manager keeps the routing invariant, has the effect of its action, and fails exactly when the device is not registered. |
| Scanner.QuotedExactly | src/credentials.rs:139-151 | A value is found iff at the first occurrence of the key there stand the key, a quote, the value and the first equal quote after it. |
| Scanner.NextTag | src/credentials.rs:132-137 | One step of the scan finds the next tag of the page cut at each ">", and finds none exactly when there is none. |
| Scanner.ScanTags | src/credentials.rs:131-188 | The scanning loop terminates and collects the tags of the page cut at each ">", in order. |
| Scanner.ExtractScriptUrls | src/credentials.rs:127-193 | The result is strictly increasing and has exactly the absolutised .js values of closed script tags and closed preload-script link tags. |
| Scanner.PageUrlsExactly | src/credentials.rs:127-193 | Those urls written out: by quoted attribute, ".js" at the end, tag name, preload and script words, and prefix, http, // or /. |
| Listing.OneListing | src/credentials.rs:190-192 | Sorted without repetition, a list is determined by its members. |
| Listing.LessExactly | src/credentials.rs:190-192 | The order is that of the first character that differs, or of length. |
| Listing.Dedup | src/credentials.rs:190-192 | Removing equal neighbours from a sorted list leaves it strictly increasing with the same members. |
| SeedScanner.ScanSeeds | src/credentials.rs:225-263 | The loop terminates, its position strictly increasing, and leaves the map with the seeds of the left-to-right scan inserted in order. |
| SeedScanner.LastSeedWins | src/credentials.rs:252-259 | For every zone the map ends with the last seed found for it, or what was there before. |
| SeedScanner.CapitalizedExactly | src/credentials.rs:252-259 | A zone is stored with its first letter upper case and the others lower case. |
| SeedScanner.RenderedSeeds | src/credentials.rs:224-263 | Scanning a bundle written with any seeds, with or without zones, gives exactly the picked seeds in order, each with the zone picked for it. |
| SeedScanner.PicksExactly | src/credentials.rs:238-261 | A seed is picked iff it is the first or follows one with a zone, and a zone is still to come; it is given the next zone to come. |
| SeedScanner.OwnZoneExactly | src/credentials.rs:238-261 | A seed is found with its own zone iff it has one and so has the seed before it, if there is one. |
| SeedScanner.ZoneTakenOver | src/credentials.rs:238-261 | The failing input: of two seeds, the first without a zone, the first is given the zone of the second and the second is lost. |

## Left out

- Sockets, TLS, HTTP, mDNS and task spawning: the network is a sequence of what is read
  and a function saying which writes succeed; channels are sequences of unlimited
  capacity, and the receiver of events is there for as long as events are sent.
- Time and fairness: nothing says when ticks come, that a responder is ever answered or
  which ready branch `select!` takes; schedules are arbitrary.
- prost itself: its decoding errors are a single refusal, and nesting is unlimited where
  prost stops at a fixed depth.
- String fields: held as bytes, so a decoder's refusal of invalid UTF-8 is not modelled.
- Lengths: byte lengths are unbounded integers, so `payload_start + payload_len` does not
  overflow; the codec and framing theorems ask that a frame be shorter than 2^64 bytes.
- Setup.Connection.SetUp: the texts of the join message other than the friendly name,
  constants and the package version in the source, are parameters too.
- TransportTheorems.ConsecutiveIds: `msg_id += 1` wraps in the model as in a release
  build; for numbers without wrap-around the theorem asks for fewer than 2^31 frames.
- Runner: `dispatch_notification` takes the body out of the message in place; the message
  is not used afterwards, and the model reads the body with a function.
- FakePlayer.FakePlayer.Run: durations come from an arbitrary sequence of draws in
  60000..360000, and the two clocks read in a call give one whole-millisecond reading.
- SessionManager.SessionManager.HandleDeviceSelected: cells, channels and runners are
  named by number, not by reference; the three look-ups of the entry are one step, as
  nothing can change the table while the manager runs its handler. Whether the request's
  send finds the selection channel closed is not modelled.
- Scanner.ExtractScriptUrls: texts are sequences of characters and lower-casing is that
  of ASCII letters.
- `scan_app_id`, `scan_and_derive_secrets`, base64 and fetching the bundles: one search
  with a digit check, and library calls.
- `format_qconnect_message`, the enum name tables, accessors and builders, logging,
  `src/bin/decode.rs`, the other examples and `src/proto/ws.rs`: tables, plain data and
  user interface.
