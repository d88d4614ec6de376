# usbip-macos, modelled and verified

usbip-macos attaches a remote USB device to a Mac. A transfer engine takes messages from the host
controller's endpoint rings, sends them as URBs over a USB/IP session, and completes the messages
with the replies. This project models the engine, the session, the wire format, the rewriting of
configuration descriptors, the walk through a ring in memory and the frame clock, and proves what
they promise over every input, every interleaving and every run.

`dafny verify dfyconfig.toml` checks everything.

## How it is built

| files | part |
|---|---|
| `Common`, `Wire`, `Layouts`, `WireIO` | bytes, message layouts, what they are offset by offset, writing and reading them |
| `Seqnum`, `Session`, `SessionProofs`, `SessionRuns`, `Answers`, `Client`, `Writer` | the session: numbers, locked sections, runs, the class that implements them, the writer task |
| `Stream`, `ReaderTask` | the reader task and its byte stream |
| `HideUas`, `UasFilter`, `UasExample` | hiding UAS: what it means, the program that does it on byte ranges, and cases worked out |
| `Engine`, `Moves`, `EngineProofs` | work on one endpoint, and its invariants |
| `World`, `WorldProofs`, `Touches`, `Projection` | all endpoints, the session and the host together; induction over runs |
| `Interruptions` | the executor's work broken up, with the session's other users in between |
| `EntryPoints` | what each entry point leaves behind |
| `Custody`, `NoStaleWrites`, `Once`, `Pipelining`, `ControlTransfers`, `ControlRuns`, `Requests`, `Reports`, `Verdicts`, `Progress` | the theorems about runs of the system |
| `TransferEngine` | the engine as a class: in-place updates, loops, mutual recursion |
| `RingWalk`, `FrameClock` | the two algorithms of `host.rs` that are not foreign calls |

The state machines are functions on values (`Session.Step`, `World.Perform`), so that runs can be
quantified over. The classes `Client` and `TransferEngine` do the same work with mutable fields and
loops, and each method's postcondition says that the fields change exactly as the function says;
`Client.View` and `TransferEngine.View` are the values they stand for.

Proofs about `Pump` go through two inductions done once. `Moves.PumpKeeps`: everything `Pump` does
is a chain of six kinds of move, so a predicate kept by each move is kept by `Pump`.
`Touches.ActionSurvives` and `RunSurvives`: every action in the system reaches an endpoint as one of
thirteen kinds of touch, so a predicate kept by the touches a run may contain is kept by the run.

## What is assumed

- A ring is a sequence of messages that only grows, with a head that completions advance and the
  host may set anywhere (`MoveHead`); a message's identity is its position, as in the test suite's
  `FakeRing`. So identities are not reused, and a completion advances the head exactly when it is
  accepted.
- The session's locked sections are atomic, and anything may come between the reader's two. A piece
  of executor work takes several of them, and the session's other users may come in between: work on
  an endpoint is an action (`Doorbell`, `Finish`, `PauseEndpoint`), and its steps are actions too
  (`PumpStep`, `TakeResult`, `PauseStep`), so that every theorem about runs covers interrupted work;
  `Interruptions` shows that the former are chains of the latter, and that cancelling URBs one by one
  with interruptions is the same as cancelling them in one piece after those (before the counter
  wraps). The host does not change a ring in the middle of a step.
- Results are handed to `finish` once each and in any order.
- Sequence numbers are 32 bits and wrap. When all of them are in use the source's search for a free
  one never ends; there the functions return a number out of range, so that safety theorems need no
  assumption on how many are in use, and methods require that each search the call makes ends.
- Tokens are unbounded; the source's are 64 bits.
- History is part of the state where a theorem speaks of it: `acts` of a ring, `origins` of URBs,
  `tickets`, `replies`, `issued` of a session. No operation depends on it.

## Where properties fail, and exactly when they hold

- A control endpoint sends one URB per Setup only if its description gives it depth 1: the depth is
  taken from the endpoint's kind, not from its address (src/engine.rs:464-469). For every other kind
  `DeepControlEndpointSendsTwice` gives the run, and `OneUrbPerControlTransfer` holds for all kinds
  of depth 1.
- It further needs the host not to move the ring while the URB is in flight
  (`DisplacedControlUrbIsSentAgain`), nor off a Setup whose completion it rejected: the engine has
  stored the setup bytes before it learns of the rejection (src/engine.rs:369-375,
  `RejectedSetupThenMoveSendsTwice`).
- A reply reaches its own request as long as no request is handed a number that is remembered in
  `unlinked` or that the reader is in the middle of a reply for (`CarefulRunsAttribute`, for runs of
  any length). The source's search does not look at those. If the next number it will hand out is
  being parsed, or remembered while the reader is idle, a request can be answered by the wrong reply,
  unless that reply must be empty (`ReuseMisattributes`). With fewer than 2^32 numbers handed out
  none comes back; one more is too many (`AttributionBoundIsSharp`).
- Later frames begin later for every frame exactly when a tick is no longer than a frame
  (`LaterFramesBeginLater`); going from a frame to its first tick and back loses a frame exactly when
  the frame does not begin on a tick (`BackAndForth`).
- A command survives encoding and decoding exactly when it has at most 1024 packets
  (`CommandRoundTrip`); `Session::submit` does not check this.

## Model

| member | source | states |
|---|---|---|
| `Seqnum.NextIsFirstFree` | src/client.rs:293-302 | the number handed out is the first nonzero one not in use, cyclically after the last |
| `Seqnum.NextInRangeIffFree` | src/client.rs:293-302 | the search ends if and only if some number is free, and then yields a free one |
| `Seqnum.RoomLeavesFree` | src/client.rs:293-302 | pigeonhole: with fewer than 2^32 - 1 numbers in use the search ends |
| `Seqnum.NextCounts` | src/client.rs:293-302 | before the counter wraps the numbers are 1, 2, 3, ... |
| `Client.Client.NextSeqnum` | src/client.rs:293-302 | the loop terminates whenever a number is free and yields the first free one after the counter |
| `Client.Client.Submit` | src/client.rs:180-235 | refuses bad data and closed sessions unchanged; otherwise takes a free number, registers the reply under it and queues one CMD_SUBMIT with every field of the request and the endpoint's number |
| `Client.Client.Unlink` | src/client.rs:239-258 | queues one CMD_UNLINK for a pending transfer not yet being cancelled, else changes nothing |
| `Client.Client.Close` | src/client.rs:119-135 | first close answers exactly the pending transfers, each with the reason, and empties the maps; later ones change nothing |
| `Client.Client.ExpectPayload` | src/client.rs:360-374 | finds the pending request, else the oldest remembered unlinked one with that number |
| `Client.Client.Resolve` | src/client.rs:378-386 | the transfer, if pending, is answered with the very reply read, no other channel hears anything, and its unlinks and memories go |
| `Client.Client.ConfirmUnlink` | src/client.rs:388-405 | exactly the cancelled transfer is answered as unlinked, with the status, and remembered, at most 256 of them |
| `SessionProofs.StepKeepsNumbered` | src/client.rs:95-105 | no number has two roles or is 0; unlinks name distinct pending transfers; at most 256 memories; closed means empty |
| `SessionProofs.StepKeepsAccounted` | src/client.rs:195-258 | every accepted request is pending or answered, never both, and no channel is shared |
| `SessionRuns.SessionIsSound` | src/client.rs:95-135 | these invariants hold after every interleaving of submits, unlinks, closes and both halves of reading |
| `SessionRuns.Conservation` | src/client.rs:119-135 | accepted = pending + completed + unlinked + disconnected, and nothing is pending once closed |
| `Answers.AnswersSayWhatHappened` | src/client.rs:378-405 | every answer is a reply that was read, as it was read, or the status of a confirmation read for the CMD_UNLINK naming that request, or the reason the session ended |
| `SessionRuns.AnswersAreFinal` | src/client.rs:378-405 | no later run changes or repeats an answer |
| `SessionRuns.OneCommandPerRequest` | src/client.rs:195-229 | each accepted request queues exactly one CMD_SUBMIT |
| `SessionRuns.UnlinksNameEarlierSubmits` | src/client.rs:239-258 | every CMD_UNLINK names a CMD_SUBMIT queued before it and not cancelled since |
| `SessionRuns.UnlinkedAtMostOnce` | src/client.rs:241-246 | two CMD_UNLINKs for one number have a new CMD_SUBMIT of it between them |
| `SessionRuns.RepliesReachTheirRequest` | src/client.rs:357-387 | with fewer than 2^32 numbers handed out none repeats, each reply delivered fits the request of its own channel, and a reply being parsed is parsed as the pending transfer of its number asks |
| `SessionRuns.CarefulRunsAttribute` | src/client.rs:293-302 | the same in runs of any length in which no request is handed a number remembered as unlinked or being parsed |
| `SessionRuns.ReuseMisattributes` | src/client.rs:293-302 | if the next number to be handed out is one the reader is parsing a non-empty reply for, or is remembered while the reader is idle, some continuation answers a request with the wrong reply |
| `SessionRuns.AttributionBoundIsSharp` | src/client.rs:293-302 | with 2^32 numbers a late reply for an unlinked transfer can answer a new request |
| `SessionRuns.UnlinkedAreRemembered` | src/client.rs:361-366 | a transfer confirmed as unlinked can have its late RET_SUBMIT parsed through any run with fewer than 256 further confirmations |
| `SessionRuns.RememberedForWhatItWas` | src/client.rs:361-366 | and it is parsed with the direction and length it was submitted with, as long as no number still remembered is handed out |
| `SessionRuns.ConfirmedIsRecent` | src/client.rs:388-399 | a confirmed unlink becomes the most recent memory, with the request's direction and length |
| `Stream.ReaderStaysInStep` | src/client.rs:357-409 | for any legal frames and any interleaving the reader stands at a frame boundary or behind a header and never fails |
| `Stream.StreamStaysSynchronised` | src/client.rs:357-409 | from the start of a session exactly the frames' bytes are consumed; each reply delivered is that of a frame read, in every field, and each `Unlinked` the status of one; below 2^32 numbers the direction and length a reply is parsed with are those of the pending transfer it resolves, even after events between the halves |
| `Stream.AnyServerIsHarmless` | src/client.rs:357-409 | for arbitrary bytes and any interleaving the session goes through a run of its own steps, so its invariants, conservation and attribution hold against any server |
| `Stream.SecondHalfDelivers` | src/client.rs:378-386 | a legal reply's second half delivers the frame's own content to its pending transfer and to no one else |
| `Stream.UnknownReplyCloses` | src/client.rs:357-375 | a RET_SUBMIT for a number neither pending nor remembered ends the session, and all pending transfers are told |
| `Stream.MalformedReplyCloses` | src/client.rs:333-351 | so do bytes that are no header or no payload of the shape expected |
| `ReaderTask.ReadOne` | src/client.rs:357-409 | reading one reply does to session and stream what the two halves in a row do; anything unexpected closes the session |
| `Writer.Writer.WriteBatch` | src/client.rs:304-331 | what has been written is the first so many queued frames, whole and in order; batches stop at 256 KiB |
| `Writer.StreamDecodes` | src/client.rs:304-331 | a server decoding the written bytes gets the commands back, in order, with nothing left over |
| `Writer.ServerSeesCommandsInOrder` | src/client.rs:180-331 | the same for the commands of any session run: the first n frames written decode to the first n commands issued |
| `Writer.QueueGrowsBetweenBatches` | src/client.rs:304-331 | what has been written stays the first frames of the queue while the session queues more |
| `Writer.WrittenBytesDecode` | src/client.rs:304-331 | the bytes the writer has written decode to the first commands the session issued |
| `Wire.CommandRoundTrip` | src/protocol.rs:290-336 | an accepted command followed by anything decodes to itself and leaves the rest, exactly if it has at most 1024 packets |
| `Layouts.SubmitLayout` | src/protocol.rs:290-315 | every field of CMD_SUBMIT at its offset, then data and packets |
| `Layouts.UnlinkLayout` | src/protocol.rs:325-336 | every field of CMD_UNLINK at its offset |
| `Layouts.ReplyLayout` | src/protocol.rs:369-406 | which bytes are a reply header, which error the others give, and every field by offset |
| `Layouts.PayloadLayout` | src/protocol.rs:410-457 | when a payload is read, and its data and packets by offset |
| `Wire.HeaderRoundTrip` | src/protocol.rs:369-406 | reading a reply header inverts a server's encoding, the 0xffffffff marker included, and leaves the payload |
| `Wire.PayloadRoundTrip` | src/protocol.rs:410-457 | reading the payload inverts a server's encoding and stops at the end of the frame |
| `Wire.PacketsRoundTrip` | src/protocol.rs:255-271 | isochronous packet descriptors survive encoding and decoding |
| `WireIO.Buffer.PutSubmit` | src/protocol.rs:291-315 | appends exactly the encoding of the command |
| `WireIO.Buffer.PutUnlink` | src/protocol.rs:326-335 | appends exactly the encoding of the command |
| `WireIO.Cursor.ReadReplyHeader` | src/protocol.rs:369-406 | yields the header and stops behind it, or the error the specification says |
| `WireIO.Cursor.ReadSubmitPayload` | src/protocol.rs:410-457 | yields the reply and stops behind it, or the error the specification says |
| `HideUas.OutputIsInputMinusHidden` | src/hci.rs:260-312 | the output is a well-formed chain: the input's segments in order without exactly the UAS groups that have a fallback |
| `HideUas.OutputStatesItsLength` | src/hci.rs:300-311 | wTotalLength equals the output's length (inputs up to 65535 bytes), and the totals returned are the old and the new one |
| `HideUas.InterfacesKeepASetting` | src/hci.rs:287-296 | every interface number with a full-length group keeps one |
| `HideUas.HidingTwiceHidesNothing` | src/hci.rs:292-299 | a second application finds nothing to hide |
| `HideUas.OutputShrinks` | src/hci.rs:300-306 | hiding makes the descriptor shorter |
| `UasFilter.Groups` | src/hci.rs:264-283 | the walk fails exactly on malformed chains and otherwise notes the byte range of every group |
| `UasFilter.Pick` | src/hci.rs:284-296 | picks exactly the ranges of the hidden segments, in order |
| `UasFilter.Copy` | src/hci.rs:300-306 | copies everything but the hidden ranges |
| `UasFilter.Configuration.HideUas` | src/hci.rs:260-312 | changes the bytes exactly as `HideUas.Hide` says, and not at all when that hides nothing |
| `UasExample.HiddenExactly` | src/hci.rs:284-296 | a segment is hidden exactly if it is an interface of class 8, subclass 6, protocol 0x62 and another of its number is not |
| `UasExample.NoHeaderHidesNothing` | src/hci.rs:261-263 | nothing is hidden without a whole configuration header |
| `UasExample.BrokenChainHidesNothing` | src/hci.rs:267-271 | nothing is hidden from a chain with a length below 2 or past the end |
| `UasExample.DiskLosesItsScsiSetting` | src/hci.rs:329-351 | a disk worked out: exactly the UAS setting goes, an interface association behind it stays |
| `Moves.PumpKeeps` | src/engine.rs:311-362 | what each elementary move keeps, `pump` with `fill` and `submit` keeps |
| `EngineProofs.DropKeepsGood` | src/engine.rs:176-183 | forgetting URBs is safe once those still on the server are cancelled |
| `EngineProofs.PumpKeepsGood` | src/engine.rs:311-362 | `pump` keeps the endpoint's invariants and touches no other endpoint's |
| `WorldProofs.PerformKeepsInv` | src/engine.rs:185-283 | every entry point, host act and session step keeps the invariants of the whole system |
| `EntryPoints.PauseUnlinksEveryRead` | src/engine.rs:251-266 | on IN data endpoints a pause marks every read that waits and cancels all not marked before, and nothing else; on any other endpoint it does nothing |
| `EntryPoints.ResetForgets` | src/engine.rs:233-243 | in-flight URBs and setup are gone, exactly those waiting are cancelled, nothing else changes |
| `EntryPoints.SyncForgets` | src/engine.rs:269-283 | the same for the URBs if the ring has moved, else nothing |
| `EntryPoints.RemoveForgets` | src/engine.rs:207-212 | the endpoint is gone and exactly what it waited for is cancelled |
| `EntryPoints.AddStartsBlank` | src/engine.rs:185-199 | the endpoint is blank on its new ring; what the previous one waited for is cancelled |
| `EntryPoints.UpdateDescribes` | src/engine.rs:201-205 | the description changes and nothing else |
| `EntryPoints.ResultIsTaken` | src/engine.rs:535-551 | a result is kept with its entry, unless it confirms a paused read: then that read and those after it are forgotten, those waiting cancelled, those before it untouched |
| `EntryPoints.UnlinkedReadsAreNotKept` | src/engine.rs:544-551 | in every run no paused read waits to be completed as unlinked |
| `EntryPoints.UnlinkedReadStartsOver` | src/engine.rs:544-551 | in every run, once its confirmation is handed over the read and those after it are neither in flight nor ever reported, and those still waiting are being cancelled |
| `EntryPoints.UnlinkedReadIsSentAgain` | src/engine.rs:535-553 | if the host has resumed at the read's message, the message is not completed but sent again at once |
| `EntryPoints.LateResultIgnored` | src/engine.rs:535-543 | a result for a URB not in flight changes nothing |
| `Touches.ActionSurvives` | src/engine.rs:185-309 | an endpoint changes only by the touches its actions bring |
| `Interruptions.DoorbellIsSteps` | src/engine.rs:306-362 | a doorbell is a run of single moves, between which anything may happen |
| `Interruptions.FinishIsSteps` | src/engine.rs:535-553 | so is the arrival of a result, once it is taken |
| `Interruptions.PauseIsSteps` | src/engine.rs:251-266 | a pause is a run of single unlinks |
| `Interruptions.DiscardMayBeInterrupted` | src/engine.rs:176-183 | cancelling an endpoint's URBs, all or those from some position on, one by one with session steps in between ends as those steps followed by cancelling in one piece |
| `Projection.SystemRunIsSessionRun` | src/engine.rs:484-533 | the engine uses the session only as any caller may: every system run is a session run |
| `Custody.NoOrphanedUrb` | src/engine.rs:176-283 | in every reachable state each URB pending on the server is an unresolved entry of its endpoint or the target of a pending unlink |
| `Custody.InFlightStructure` | src/engine.rs:459-553 | tokens are unique over all endpoints and increasing; messages in flight are consecutive and on the ring; at most 32; only pausable reads are marked unlinking |
| `Custody.DepthRespected` | src/engine.rs:58-64 | at most 32 isochronous, 8 bulk and one other URB in flight while the depth is unchanged |
| `NoStaleWrites.CompletionsMatchTheirUrb` | src/engine.rs:311-338 | each completion by a URB is of the message on the ring that URB was built from; no URB is reported twice or while in flight |
| `NoStaleWrites.StaleResultChangesNothing` | src/engine.rs:535-543 | a result for a URB no longer in flight changes nothing |
| `NoStaleWrites.LetGoForGood` | src/engine.rs:323-327 | a URB let go of unreported is never reported in any later run, on any ring |
| `NoStaleWrites.InactiveRingUntouched` | src/engine.rs:318-320 | nothing is sent for or completed on a ring that is not active |
| `Once.AtMostOneUrbPerMessage` | src/engine.rs:245-266 | on control and OUT endpoints, with the ring left in place and completions accepted, no two URBs are for one message, whatever is paused, resumed, rung or cut off |
| `Pipelining.PipeliningRefinesOneAtATime` | src/engine.rs:314-343 | on an undisturbed data endpoint the completions equal those of handling one message at a time: every message once, in ring order, with the answer to its own URB; and the answers of the run are one such list |
| `Pipelining.ReplyOrderIsInvisible` | src/engine.rs:535-553 | two undisturbed runs from the creation of an endpoint in which its messages got the same answers report the same, up to how far each got, whatever the order of replies |
| `Pipelining.CompletionsInRingOrder` | src/engine.rs:314-361 | on every endpoint, through pauses, resets, rejections and a lost connection, messages are completed in ring order without gaps or repeats as long as the ring is not moved |
| `ControlTransfers.OneUrbPerControlTransfer` | src/engine.rs:365-396 | between two URBs of a control endpoint the host has had a Setup completed, even with resets and rejections |
| `ControlTransfers.DeepControlEndpointSendsTwice` | src/engine.rs:459-481 | with any kind of depth above 1 endpoint 0 sends two URBs for one Setup |
| `ControlTransfers.DisplacedControlUrbIsSentAgain` | src/engine.rs:323-327 | moving the ring off a control URB lets the same Setup be sent again |
| `ControlTransfers.RejectedSetupThenMoveSendsTwice` | src/engine.rs:369-375 | moving off a rejected Setup sends a URB for a Setup the host never accepted |
| `ControlRuns.ControlFollowsTheConversation` | src/engine.rs:365-415 | a control endpoint of depth 1 tells the host exactly what a conversation taken message by message would, for every order of replies, through pauses and a lost connection, as long as it is not reset or moved and completions are taken |
| `ControlRuns.WorkingOnTheLastSetup` | src/engine.rs:369-375 | the setup of that conversation is the last one placed before the head |
| `Requests.UrbsCarryTheirMessage` | src/engine.rs:418-456 | every URB asks exactly what its message asks: data, length, direction, setup bytes from the ring, flags, start frame and interval; and a CMD_SUBMIT with each of these fields, its number, the device and the endpoint's number is queued for it |
| `Requests.PlanCarries` | src/engine.rs:365-415 | the request planned for the head is the one its message calls for, `wLength` and direction of the setup respected |
| `Requests.IntervalLegal` | src/hci.rs:238-252 | 0 for bulk and control, `bInterval` frames or a power of two for the others, never 0 |
| `Reports.TouchKeepsSetup` | src/engine.rs:365-396 | while a control URB is in flight the endpoint holds the setup bytes it was sent with |
| `Reports.CompletionsStayInBounds` | src/engine.rs:569-636 | data and length of every completion stay within the message, and a completion by a URB reports that URB's own answer, a configuration rewritten at most with the totals of one read earlier on that ring |
| `Verdicts.CompletionsAreTruthful` | src/engine.rs:569-636 | in every run the status of a completion by a URB is that of its errno (or error) by an explicit table, its length and bytes are the server's up to what was asked for, and configurations are rewritten as `hide_uas` says |
| `Reports.ReadsAreDeliveredExactly` | src/engine.rs:569-636 | a non-isochronous read reports as many bytes as it delivers, the server's own unless a configuration is rewritten, and its actual length unless UAS is hidden |
| `Reports.ShortReadAgreesWithFullRead` | src/engine.rs:599-620 | in every run, after a configuration was delivered with UAS hidden, a read too short to show UAS states the new total length and is otherwise as sent |
| `Progress.PumpSettles` | src/engine.rs:311-362 | with host and connection up, `pump` stops only when the ring is empty, the head is a silent link, or the head's URB is on the server and read-ahead is blocked for a stated reason, or after reporting the device gone |
| `Progress.SettledIsStable` | src/engine.rs:311-362 | a settled endpoint is left as it is |
| `Progress.DoorbellAgainChangesNothing` | src/engine.rs:306-309 | ringing again changes nothing, so no transfer is sent twice |
| `Progress.NothingSentOnceOffline` | src/engine.rs:311-362 | within a doorbell or the arrival of a result, nothing is sent once the host was told that the device or connection is gone |
| `Progress.ParkedResultsHoldBack` | src/engine.rs:459-481 | while a finished URB waits for the head's, a doorbell sends nothing |
| `Progress.SilentLinksAreNotCompleted` | src/engine.rs:398-404 | in every run no link that wants no response is completed, and no URB is for a link |
| `Progress.RejectionEndsTheWork` | src/engine.rs:326-338 | a rejected completion ends the work: URBs behind it stay in flight, nothing is cancelled or sent |
| `TransferEngine.TransferEngine.UnlinkAll` | src/engine.rs:176-183 | cancels exactly the URBs without a result |
| `TransferEngine.TransferEngine.SubmitUrb` | src/engine.rs:484-533 | sends the URB and records it, or completes the head with the error and goes on |
| `TransferEngine.TransferEngine.FillAhead` | src/engine.rs:459-481 | reads ahead as the specification says; terminates |
| `TransferEngine.TransferEngine.Pump` | src/engine.rs:311-362 | the loop with its mutual recursion terminates (ring messages left, then URBs in flight, decrease) and does what `Engine.Pump` says |
| `TransferEngine.TransferEngine.RingDoorbell` | src/engine.rs:306-309 | performs the action of the system model and keeps its invariants |
| `TransferEngine.TransferEngine.AddEndpoint` | src/engine.rs:185-199 | likewise, letting go of an endpoint already there |
| `TransferEngine.TransferEngine.UpdateEndpoint` | src/engine.rs:201-205 | likewise |
| `TransferEngine.TransferEngine.RemoveEndpoint` | src/engine.rs:207-212 | likewise |
| `TransferEngine.TransferEngine.RemoveDevice` | src/engine.rs:214-230 | removes exactly the device's endpoints, as a run of single removals |
| `TransferEngine.TransferEngine.ResetEndpoint` | src/engine.rs:233-243 | likewise, forgetting the setup too |
| `TransferEngine.TransferEngine.PauseEndpoint` | src/engine.rs:251-266 | likewise, unlinking the reads of a data endpoint and nothing else |
| `TransferEngine.TransferEngine.SyncEndpoint` | src/engine.rs:269-283 | likewise, if the ring has moved |
| `TransferEngine.TransferEngine.Finish` | src/engine.rs:535-553 | likewise, restarting from a read that a pause unlinked |
| `RingWalk.BoundSuffices` | src/host.rs:158-181 | with at most three links before each message the bounded walk finds exactly the k-th message, or fails exactly when a blank cell or null comes first |
| `RingWalk.CutShortOnlyByLinks` | src/host.rs:163-164 | the bound cuts a walk short only after more than three links before a message |
| `RingWalk.MessageAt` | src/host.rs:160-181 | on any memory graph the loop terminates, returns only valid messages that are no links, and equals the bounded walk |
| `FrameClock.FrameBeginsBeforeNow` | src/host.rs:83-89 | the frame at a tick began at or before it, and the casts lose nothing |
| `FrameClock.FramesAreMilliseconds` | src/host.rs:83-89 | a tick falls into its frame of 1,000,000 ns, and a frame's start is its first tick, rounded down |
| `FrameClock.BackAndForth` | src/host.rs:83-89 | a frame's first tick is in that frame or the one before, and in it exactly if the frame begins on a tick |
| `FrameClock.WholeTicksLoseNothing` | src/host.rs:83-89 | if frames are whole numbers of ticks nothing is lost |
| `FrameClock.LaterFramesBeginLater` | src/host.rs:87-89 | start times increase strictly with the frame, exactly if a tick is no longer than a frame |
| `FrameClock.FrameClock.Next` | src/host.rs:92-101 | reports the first frame read that is later than any before, with a start time later than any before and not in the future |

## Left out

- Foreign calls of `src/host.rs`: controller creation, commands, state machines and capabilities; their behaviour is not visible.
- `IoRing` as the ring of the engine model: its `peek` skips links where `FakeRing` stops at them, and how the controller advances over links is not visible; the walk itself is `RingWalk.MessageAt`.
- Tasks, sockets and channels: they appear as steps in any order; a failed write leaves open how much of its batch got out.
- `reset_device`: its URB appears as a submit by some other caller (`Caller`); blocking and the timeout are wall-clock behaviour.
- `Session::unlink_all`: a loop of single unlinks; it would only add an easy member.
- `EndpointInfo::parse`, `Transfer::decode`, `AddressPool`, `unpack_iso_in`, `encode_busid`, `c_string` and the device-list and import handshakes: straight-line or independent of everything above.
- Agreement of wTotalLength for configuration reads cut at a descriptor boundary: `hide_uas` then states the length of the cut data.
- `src/cli.rs`, `src/main.rs` and logging, the UAS warning flag included.
- Calls in which the search for a sequence number never ends: `Client.Client.Submit`, `Client.Client.Unlink` and the methods of `TransferEngine` exclude exactly these.
