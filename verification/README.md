# Verified model of the SSM data channel client

This project models the client half of the AWS Session Manager data channel as this repository
implements it - a reliable, ordered, resumable byte stream with an smux v1 multiplexer on top - and
proves what its documentation and comments promise about it.

| file | models |
|---|---|
| `ack.dfy`, `estimator.dfy`, `ackruns.dfy` | the buffers and the RTT estimator of `src/ack.rs`, and whole runs of them |
| `inbound.dfy` | the reader half of `src/connection.rs` over a network that loses, duplicates and reorders |
| `outbound.dfy` | the sending half: chunking, numbering, resending, resuming, and the agent |
| `framing.dfy`, `mux.dfy`, `muxruns.dfy`, `streams.dfy` | `src/mux.rs`: frame codec, stream table, whole runs, the two ends of one stream |
| `session.dfy`, `shutdown.dfy` | the flag-and-`Notify` protocols, one shared-memory operation per step |
| `fanout.dfy` | the output fan-out of `src/channels.rs` |
| `codec.dfy` | the 120-byte header codec of `src/binary_protocol.rs` |
| `handshake.dfy`, `reconnect.dfy` | the two supervising state machines |
| `endtoend.dfy`, `pipeline.dfy` | the layers composed: out, in, and the way in as one step system |
| `bytes.dfy`, `wrappers.dfy` | shared byte-string lemmas and the option type |

## How it is built

Code that updates objects in place is a class (`RttEstimate`, `OutgoingBuffer`, `IncomingBuffer`,
`ReaderTask`, `Sender`, `Reassembly`, `SmuxSession`, `OutputFanout`, `HandshakeHandler`); loops are
loops with invariants. Each method is proved equal to a step function on values, and the theorems are
about every run of those step functions: a run is a list of labels, `Run(labels)` is the state it
leads to, a label that is not enabled changes nothing, and every main lemma holds for all `labels`.
Reference notions (the samples Karn's rule allows, what a single stream would do on its own, the batch
decoding of a byte string, the closed-form record of a reconnect cycle) are defined separately and
then proved to agree.

Granularity: a critical section is one step in the delivery and multiplexer layers; in `session.dfy`
and `shutdown.dfy` every atomic load, swap, store, `enable` and `notify_waiters` is its own step, for
any number of concurrent callers. Time is a natural number of nanoseconds. Clocks, randomness,
SHA-256, message ids, KMS answers and service answers are parameters. History (logs of what was sent,
handed over or dropped) is carried in plain fields next to the program's own state.

## Where the code does less than its documentation says

* **A resume can lose data that `send` accepted.** `send` returns once the command sits in a queue, and
  `Continuity` keeps the numbered messages, not the commands. When the channel breaks between two chunks
  of one command, the rest of that command is gone (`CutCommandLosesBytes`); when a command is still
  queued, all of it is (`QueuedCommandIsLost`). The bytes the agent consumes are then not a prefix of
  the bytes that `send` accepted. `NothingLostIff` proves that no accepted byte is lost if and only if
  no channel is ever replaced while some of them are not in a message yet.
* **`closed()` can return before there is a reason.** The flag is swapped before the reason is stored,
  so a caller that takes the fast path in between reads none, contrary to the comment in `close`.
  `FastPathWindow` is the run; `ReasonIsTheWinners` proves that the reason is missing exactly while the
  winning closer stands between the two, and never for a waiter that was woken.
* **The supervisor can act on a reason that is not the session's.** It reads the reason after `closed()`
  returns, and in the window above takes none for a lost connection. `ActsOnReasonIff`: a turn offers to
  resume if and only if the reason is resumable or was not on record yet, and gives up at once if and
  only if it is unrecoverable and was on record. `AnyCloseCanBeResumed`: for every reason, DeliveryFailed
  and Terminated included, a run of the close protocol after which the session is resumed.
* **A stream that reports Clean need not be complete.** When the session's output ends un-lagged in the
  middle of a stream, the multiplexer closes it as Clean. `CleanIsCompleteIff`: its reader got everything
  the agent framed for it exactly when the frames not dispatched to it carry nothing for it, as after its
  FIN; `CleanThoughCut` is a run with half of the bytes.
* **`max_delay` does not cap the first attempt.** `CappedIff`: every delay that any attempt can draw
  respects the cap exactly when `initial_delay`, in whole milliseconds, does; `FirstDelayAboveTheCap` is
  a draw that does not.
* **Client stream ids repeat.** `StreamIdsDistinct`: two streams share an id exactly when a multiple of
  2^31 opens lies between them, and `IdsRepeat` is a run that gets there; the theorems about single
  streams are for the first 2^31 opens.
* **`GaveUp` reports `max_attempts`, not the attempts made.** `GaveUpCountIff`: the two agree if and only
  if the reason acted on was unrecoverable, or no attempt before number `max_attempts` decided the cycle (so never
  with an unlimited budget). `GaveUpOverReports`: one refused attempt is reported as 10.
* **`generation` is not the number of replacements.** `GenerationIsAhead`: it is never that number,
  because it also counts the first session and every resume.

## Model

| member | source | states |
|---|---|---|
| Ack.RttEstimate.Record | src/ack.rs:135-148 | the in-place update is the step function whose bounds, RFC conformance and convergence are proved below; deviation is taken from the SRTT before the sample |
| Estimator.EstimateBounded | src/ack.rs:135-148 | for every non-empty history of samples in [lo, hi]: SRTT in [lo, hi], RTTVAR at most max(hi/2, hi-lo), RTO the clamp of SRTT + 4 RTTVAR to 50 ms..30 s |
| Estimator.FollowsTheRfc | src/ack.rs:135-148 | each update is the exact real-valued one of sections 2.2 and 2.3 of RFC 6298 rounded down by less than 1 ns |
| Estimator.ConstantStep | src/ack.rs:135-148 | under a constant sample SRTT never overshoots or moves away, and gets strictly closer until at rest |
| Estimator.ConstantSampleConverges | src/ack.rs:135-148 | after an explicit number of equal samples r, SRTT is in [r-7, r] and RTTVAR at most 7 ns, and stays there |
| Estimator.TimeoutConverges | src/ack.rs:135-148 | the RTO then lies between the clamps of r-7 and r+28 |
| Estimator.RestingShortOfTheSample | src/ack.rs:135-148 | the interval is tight: SRTT can stay up to 7 ns short of the sample for ever |
| Ack.IndexOf | src/ack.rs:251 | the first entry with a number, or the queue's length if there is none |
| Ack.OutgoingBuffer.Track | src/ack.rs:226-243 | appends exactly when below capacity, otherwise changes nothing |
| Ack.OutgoingBuffer.Acknowledge | src/ack.rs:249-271 | true iff the number was pending; removes that entry only; samples only an entry sent once |
| Ack.OutgoingBuffer.PollRetransmit | src/ack.rs:278-305 | idle, resend or give up as decided by the head alone; only the head's attempts and time change |
| Ack.IncomingBuffer.Insert | src/ack.rs:370-377 | refuses only a new number in a full map; never exceeds capacity |
| Ack.IncomingBuffer.Take | src/ack.rs:380-382 | removes and returns the message with that number, if any |
| AckRuns.RunInv | src/ack.rs:226-305 | after every run the queue mirrors the observable log: each entry's attempts and times are what the log says of its number |
| AckRuns.KarnsRule | src/ack.rs:226-305 | after every run the estimate is the fold of exactly the samples Karn's rule (section 3 of RFC 6298) allows, defined on the log alone; 200 ms without any |
| AckRuns.ClockRuns | src/ack.rs:226-305 | no event of a run is dated before an earlier one, so a sample is the plain difference of two times |
| AckRuns.RetransmissionBudget | src/ack.rs:278-305 | the queue is exactly the outstanding numbers, sorted, within capacity; no number is transmitted more than max(1, max_attempts) times; all resends plus remaining budget stay within what was granted |
| AckRuns.PollIsHeadOnly | src/ack.rs:278-305 | a poll touches only the oldest outstanding number, resends the bytes it was first sent with iff overdue with budget (paying exactly one unit), gives up iff overdue and spent |
| AckRuns.ResendsAreTheOriginals | src/ack.rs:296-304 | over every run each transmission of a number, first or again, carries the message first sent under it |
| AckRuns.DrainsInOneRoundEach | src/connection.rs:578-617 | an agent that acknowledges each resent overdue head empties a backlog of n in n rounds, leaving the estimate alone |
| Inbound.ReaderTask.RouteStreamData | src/connection.rs:913-962 | the three-way branch with its drain loop is the step function of the inbound system |
| Inbound.ReaderTask.Drain | src/connection.rs:952-959 | the drain loop hands over the contiguous run it finds, stopping at a gap or a failed delivery |
| Inbound.ExactlyOnceInOrder | src/connection.rs:913-962 | in every run with loss, duplication, reordering and resumes, the messages handed to `deliver` are the first entries of the agent's log, each once; what is buffered is a strictly later log entry, within capacity |
| Inbound.AcknowledgementDiscipline | src/connection.rs:913-978 | every acknowledgement ever built is for a number not below `expected` then, whose message is handed over or held; at most one sequential one per number |
| Inbound.ArrivalAnswered | src/connection.rs:919-960 | what each arrival is answered with; a full reorder map never refuses the expected number, and nothing below `expected` is answered |
| Inbound.StopsAtTheFirstRejection | src/connection.rs:948-959 | an arrival hands over messages up to the first one `deliver` rejects, which fails the reader with `expected` at it, for good |
| Inbound.CatchesUp | site/content/docs/protocol.md:191-204 | from every live state one in-order retransmission from the gap delivers the agent's whole log |
| Outbound.Sender.SendPayload | src/connection.rs:682-742 | number, track and enqueue together, or nothing when the buffer is full |
| Outbound.Sender.SendChunk | src/connection.rs:682-742 | one chunk through the critical section is one `Chunk` step of the system, or nothing when the buffer is full |
| Outbound.Sender.SendStreamData | src/connection.rs:668-679 | the loop is a run of `Chunk` steps of the system: chunks are non-empty, at most `chunk_size`, full except the last, consecutively numbered, tracked as pending, and concatenate to the data sent; it stops early only on a full buffer |
| Outbound.OutboundConservation | src/connection.rs:682-742 | in every run 0..seq-1 is the disjoint union of acknowledged and pending; pending is sorted and within capacity; every frame ever written with number s is the same message |
| Outbound.PollOutcome | src/connection.rs:578-617 | in every run a poll does nothing until the oldest unacknowledged message is overdue, then queues that very message again, or ends the session once its budget is spent |
| Outbound.DeadIsFinal | src/connection.rs:595-612 | a session that gave a message up sends nothing new and is never resumed |
| Outbound.FirstSendsInOrder | src/connection.rs:682-742 | on each channel the messages first numbered there enter the writer queue in order without a gap |
| Outbound.ConsumedIsPrefix | src/connection.rs:668-742 | what the agent consumed is a prefix of the chunked bytes, and every later message is pending or held by the agent |
| Outbound.NothingLostIff | src/connection.rs:624-679 | all bytes that `send` accepted are in messages, in the current remainder or in the command queue if and only if no channel was replaced while some of them were not in a message yet |
| Outbound.ConsumedIsPrefixOfSends | src/session.rs:747-778 | under that condition the consumed bytes are a prefix of the concatenated `send` data |
| Outbound.CutCommandLosesBytes | src/connection.rs:668-679 | a run that breaks inside a command, after which the agent has 1, 3 of the accepted 1, 2, 3 |
| Outbound.QueuedCommandIsLost | src/connection.rs:624-633 | a run that breaks between commands with one queued, with the same result |
| Framing.FrameLayout | src/mux.rs:65-74 | the encoding of a frame byte by byte: version 1, command, low bytes first in length and id, payload |
| Framing.Reassembly.DecodeFrame | src/mux.rs:290-316 | consumes one complete frame or nothing, with the verdict of the front of the buffer |
| Framing.FrontStable | src/mux.rs:290-316 | a verdict other than "incomplete" does not change when more bytes arrive |
| Framing.DecodeAppend | src/mux.rs:261-316 | decoding a + b is decoding a and then feeding b |
| Framing.IncrementalEqualsBatch | src/mux.rs:245-316 | for every way of cutting a byte string, the frames, the leftover and the corrupt verdict equal those of decoding it at once |
| Framing.FramesMonotone | src/mux.rs:261-316 | more input never takes back a frame |
| Framing.FrameRoundTrip | src/mux.rs:65-74 | a frame decodes to itself, whatever follows, exactly when its payload is at most 32 KiB |
| Framing.EncodeDecode | src/mux.rs:65-316 | any concatenation of encoded frames decodes to exactly those frames |
| Framing.DecodeEncode | src/mux.rs:290-316 | re-encoding the frames of an uncorrupted string and adding the leftover gives back every byte |
| Framing.CorruptIff | src/mux.rs:290-301 | a byte string is corrupt iff after some whole frames it has eight bytes that are no header: another version than 1, or a length above 32768 |
| Framing.LeftoverIsPartial | src/mux.rs:290-303 | what an uncorrupted string leaves over is less than a header or a proper prefix of one frame |
| Mux.SmuxSession.OpenStream | src/mux.rs:432-472 | registers a fresh stream under the next odd id, or rolls the registration back when the SYN does not fit |
| Mux.SmuxSession.RoutePush | src/mux.rs:177-201 | queue, evict with SlowConsumer and FIN, forget a dropped handle, or refuse an unknown id with FIN |
| Mux.SmuxSession.RouteFin | src/mux.rs:204-213 | unregisters and records Clean unless a reason is already there |
| Mux.SmuxSession.CloseAll | src/mux.rs:144-161 | first caller only: every registered stream without a reason gets this one, and the table empties |
| Mux.SmuxSession.PollRead | src/mux.rs:531-579 | at most n bytes, appended to what the stream has read; nothing else changes |
| Mux.PollStream | src/mux.rs:531-579 | partial chunk first, then the queue, end of file only when both are empty and the sender or session is gone |
| Mux.SmuxSession.PollWrite | src/mux.rs:583-621 | takes a prefix of at most 32 KiB as one PSH frame with the stream's id, or nothing |
| Mux.SmuxSession.DispatchBuffer | src/mux.rs:261-282 | the loop routes exactly the frames of the batch decoding, leaves its leftover, and fails iff it is corrupt |
| Mux.SmuxSession.Route | src/mux.rs:269-279 | PSH and FIN are routed by id; everything else is ignored |
| MuxRuns.StreamRefinesSolo | src/mux.rs:177-213 | in every run a stream of the multiplexer is, step for step, a single-stream machine run on its own events |
| MuxRuns.NonInterference | src/mux.rs:177-213 | two runs in which a stream starts alike and has the same events of its own leave it alike, whatever other streams did or suffered |
| MuxRuns.ReadIsPrefixOfOwnPayloads | src/mux.rs:531-579 | the bytes a reader obtains are a prefix of the PSH payloads dispatched to its id since it was opened |
| MuxRuns.Reported | src/mux.rs:518-527 | a reason is reported exactly once the reader has seen the end |
| MuxRuns.CloseReasonsTruthful | src/mux.rs:518-527 | a finished stream reports SlowConsumer iff a frame dispatched to it was dropped; otherwise its reader got every byte dispatched to it |
| Streams.ReportedIff | src/mux.rs:144-161 | a finished stream reports Desynchronised iff the session closed for that reason while it was registered, SlowConsumer iff a frame dispatched to it was dropped, and Clean otherwise |
| MuxRuns.ReasonIsFinal | src/mux.rs:144-161 | no later FIN, eviction or close overwrites a recorded reason |
| MuxRuns.PushIsQueuedOrRefused | src/mux.rs:177-201 | a PSH frame is queued, or its id is unregistered afterwards and the agent is told with a FIN if that fits |
| Streams.FinOutcome | src/mux.rs:204-213 | in every run a FIN unregisters the stream with its id, records Clean, and changes nothing else |
| Streams.OpenOutcome | src/mux.rs:432-472 | in every run an open queues a SYN with the new id and registers an empty stream under it, or leaves no stream and no frame |
| Streams.ReadOutcome | src/mux.rs:531-579 | in every run a read loses, repeats and reorders nothing, makes progress when there is a byte, and sees the end iff nothing is left and the stream is not registered |
| Streams.ShutdownOutcome | src/mux.rs:628-646 | in every run a shutdown queues one FIN and ends writing, or waits for room |
| Streams.DropOutcome | src/mux.rs:649-658 | in every run dropping a stream unregisters it and queues a FIN unless there was one or it does not fit |
| Streams.FrameQueueBounded | src/mux.rs:412 | the frame queue holds at most 256 frames, always the last ones queued |
| MuxRuns.StreamIdsDistinct | src/mux.rs:437 | client ids are odd, and equal exactly when a multiple of 2^31 opens lies between |
| MuxRuns.IdsRepeat | src/mux.rs:437 | a run of 2^31 + 1 opens whose first and last stream have the same id |
| Streams.EmittedAreTheWrites | src/mux.rs:583-621 | in every run the PSH frames queued under a stream's id carry exactly the pieces that the writes to that stream took, in order |
| Streams.CleanIsCompleteIff | src/mux.rs:106-113 | a stream that reports Clean gave its reader all the bytes the agent framed for it iff the frames not dispatched to it while registered carry none; so after its FIN |
| Streams.CleanThoughCut | src/mux.rs:233-256 | a run whose stream reports Clean with half of its bytes |
| MuxRuns.EmittedFramesDecode | src/mux.rs:583-646 | whatever was opened, written, refused or evicted, the peer's decoder recovers exactly the queued frames in order |
| Session.NoLostWakeUp | src/session.rs:188-258 | for any number of closers, setters and waiters, once no notifier is inside its call nobody sleeps on a closed session or through readiness |
| Session.ReturnsSoon | src/session.rs:188-278 | in every run, once no notifier is inside its call, a waiter that finds the session closed, or readiness or room if it waits for that, returns within five steps of its own |
| Session.NoEarlyReturn | src/session.rs:213-258 | in every run a waiter that has returned did so at a step of its own that found a closed session, readiness (`wait_sendable`), or room of which it took one place (`send_payload`) |
| Session.CallsTakeEffect | src/session.rs:188-237 | the first step of `set_sendable` sets the flag, that of `close` closes and picks the winner |
| Session.NeverSleepsThroughRoom | src/connection.rs:712-733 | a sender asleep while the buffer has room implies that the reader is between `acknowledge` and `notify_ack`, whose next step wakes it |
| Session.ReasonIsTheWinners | src/session.rs:188-225 | the reason is that of the closer that won the swap, missing exactly until that closer stores it, and present for every notified waiter |
| Session.FirstReasonLatches | src/session.rs:188-195 | once set, flag, winner and reason never change |
| Session.FastPathWindow | src/session.rs:189-223 | for every reason, a run in which `closed()` returns before it is recorded |
| Shutdown.NoLostCancellation | src/shutdown.rs:52-80 | a call past its swap has triggered the signal and the latch stays; once no caller is about to notify every waiter returns within two steps; waiters return only from a triggered signal |
| Fanout.OutputFanout.SubscribeTo | src/channels.rs:112-129 | attaches with capacity at least 1 exactly when not closed, else returns an ended stream |
| Fanout.OutputFanout.SendAll | src/channels.rs:132-148 | the retain loop offers the chunk to each subscriber once and keeps exactly those that took it |
| Fanout.OutputFanout.CloseAll | src/channels.rs:151-157 | the first close detaches everybody; a second changes nothing |
| Fanout.LosslessOrEvicted | src/channels.rs:112-157 | each subscriber was given one contiguous run of the output from its subscription; lagged iff evicted; un-lagged and detached with a live reader means nothing before the close was missed |
| Fanout.LaggedMeansDropped | src/channels.rs:132-148 | lagged is set by exactly one event, a chunk that finds an attached live queue full, and never unset |
| Fanout.NobodyAttachedAfterClose | src/channels.rs:116-157 | after a completed close no subscriber is attached, whatever raced with it |
| Fanout.SubscribeOutcome | src/channels.rs:112-129 | in every run a subscriber to an open fan-out gets a queue of max(1, capacity) from the next chunk on, one to a closed fan-out is never attached |
| Fanout.SendOutcome | src/channels.rs:132-148 | in every run a chunk goes to the end of each attached queue with a live reader and a free place, all other attached subscribers go, and nobody else is touched |
| Fanout.ReceiveOutcome | src/channels.rs:151-157 | receiving takes the head of the queue, also after an eviction or a close |
| Codec.FromCode | src/binary_protocol.rs:158-175 | the exact partial inverse of the payload-type codes |
| Codec.NamesBegin | src/binary_protocol.rs:90-99 | first byte and length of each message type's name |
| Codec.CodesInOrder | src/binary_protocol.rs:126-153 | the codes are 0 to 12 in the protocol's order |
| Codec.TextIff | src/binary_protocol.rs:420-422 | bytes decode to a text iff they are its UTF-8 encoding |
| Codec.ParseFieldIff | src/binary_protocol.rs:101-426 | a type field parses to a type if and only if it is UTF-8 text that is the type's name between NULs and Unicode white space |
| Codec.PaddedParses | src/binary_protocol.rs:412-418 | the space-padded field that is written is such a text |
| Codec.Serialize | src/binary_protocol.rs:272-293 | the field-by-field buffer is the wire form, 120 bytes plus the payload |
| Codec.WireLayout | src/binary_protocol.rs:10-33 | every field sits at its documented offset, big-endian, message id halves swapped, name padded with spaces |
| Codec.ReadIntegers | src/binary_protocol.rs:324-327 | the cursor reads the four integers at offsets 36, 40, 48 and 56 |
| Codec.Deserialize | src/binary_protocol.rs:305-368 | on arbitrary bytes the cursor never reads out of range and returns what the offset table says, with the first error in the source's order |
| Codec.ParseComplete | src/binary_protocol.rs:305-426 | any padding around the name and any trailing bytes parse to the same message |
| Codec.ParseSound | fuzz/fuzz_targets/binary_protocol.rs:11-29 | bytes that parse are the encoding of a valid message up to type padding and ignored trailing bytes, and re-encoding parses to the same message |
| Codec.RoundTrip | src/binary_protocol.rs:272-397 | the round trip holds exactly for messages within the size limit that pass validation |
| Handshake.HandshakeHandler.HandleAction | src/handshake.rs:469-562 | the result of one action and what it leaves behind, on every error path |
| Handshake.HandshakeHandler.OnRequest | src/handshake.rs:378-430 | the loop over actions produces results and errors in order; duplicates are ignored, a failed handler rejects |
| Handshake.HandshakeHandler.OnComplete | src/handshake.rs:433-451 | completes only from AwaitingComplete |
| Handshake.OneResponse | src/handshake.rs:378-451 | over every run at most one response, one result per action in request order, each with exactly the status, key and error that its action calls for; completed implies all succeeded, failed implies one did not |
| Handshake.EncryptionIsKept | src/handshake.rs:378-562 | in AwaitingComplete and Completed a cipher is present iff the accepted request asked for KMS; it is the last one negotiated, and its key is in the response |
| Handshake.LaterRequests | src/handshake.rs:378-437 | in every run the first request is answered, a failed handshake rejects every other, the rest are ignored; a completion counts only while awaited |
| Handshake.SettingsKept | src/handshake.rs:400-487 | version and session type are those of the answered request |
| Handshake.EndStatesAreFinal | src/handshake.rs:378-451 | Failed and Completed are never left: no later sequence of events changes the handler or is answered |
| Reconnect.CappedIff | src/reconnect.rs:66-69 | every delay of every attempt is within `max_delay` iff the initial delay in whole milliseconds is |
| Reconnect.FirstDelayAboveTheCap | src/reconnect.rs:400-416 | a configuration and a draw whose first delay exceeds the cap |
| Reconnect.ReconnectOnce | src/reconnect.rs:395-487 | for every script of answers: the complete record attempt by attempt, attempts within a non-zero budget, resume never offered again once ruled out, and the outcome and number of attempts that the script decides |
| Reconnect.DecidedOnce | src/reconnect.rs:395-487 | outcome and number of attempts are determined by configuration and script |
| Reconnect.AttemptIff | src/reconnect.rs:424-470 | an attempt tries to resume iff every earlier try failed with a retriable error, asks for a new session iff it did not try or the old one is gone, and reports what it got |
| Reconnect.OutcomeIff | src/reconnect.rs:424-484 | how a cycle ends, by the answers to its last attempt; a resumed session keeps id and stream state |
| Reconnect.Turn | src/reconnect.rs:344-382 | acts on the reason found on record, or on Transport if there is none: an unrecoverable one gives up at once with no attempt; otherwise a resume is tried only for a resumable one, outcome and attempts are those the script decides, and the record of the whole turn is exact |
| Reconnect.Supervise | src/reconnect.rs:305-387 | over every sequence of closes and shutdowns the turns chain, each as above; a resumed session has the lost one's id and stream state; `current` and `generation` end up as the turns say |
| Reconnect.SeesTheWinnersReason | src/reconnect.rs:343-351 | what the supervisor reads after `closed()` is the winner's reason or none; none exactly while the winner has not stored it, and never after a wake-up |
| Reconnect.ActsOnReasonIff | src/reconnect.rs:349-370 | in every supervised run the lost session is offered for resumption iff its reason was PeerUnresponsive or Transport or not on record, and a turn ends at once iff Terminated, AgentClosed or Protocol was on record |
| Reconnect.UnresumableNeverResumes | src/session.rs:131-136 | in every supervised run a close for any reason but PeerUnresponsive and Transport, so also DeliveryFailed, whose reason was on record leads to no resume call and no Resumed event |
| Reconnect.AnyCloseCanBeResumed | src/reconnect.rs:349-351 | for every reason, a run of the close protocol and a turn that resumes all the same |
| Reconnect.GaveUpCountIff | src/reconnect.rs:120-122 | a turn gives up exactly when it neither adopts nor is still trying, and reports the attempts made iff the reason acted on was unrecoverable or nothing decided before the budget was used |
| Reconnect.GaveUpOverReports | src/reconnect.rs:374-380 | one attempt refused for good, reported as 10 |
| Reconnect.GenerationIsAhead | src/reconnect.rs:221-228 | `generation` never equals the number of replacements, with or without resumes counted |
| EndToEnd.DecodedAreTheAgents | src/connection.rs:981-1001 | in every run of the inbound channel and the fan-out behind it, the frames decoded chunk by chunk are the first frames of the agent's bytes from the subscription on, and all of them once nothing is left to deliver |
| EndToEnd.AgentFramesArrive | src/mux.rs:221-258 | while the agent is sending encoded frames, the last perhaps incomplete, the decoded ones are a prefix of exactly those and nothing is found corrupt |
| EndToEnd.StreamBytesAreTheAgents | src/mux.rs:221-316 | network, reorder buffer, fan-out, decoder, stream table and reads together: a stream opened at any moment gets a prefix of the bytes the agent framed for its id after that moment |
| EndToEnd.EmittedFramesReachTheAgent | src/mux.rs:319-357 | the way out: the agent decodes a prefix of the frames the multiplexer queued, and for each stream a prefix of the bytes that the writes to that stream took |
| Pipeline.RunInv | src/mux.rs:221-258 | in every run of the composed system each part follows its own steps, and nothing is lost or added between delivery and fan-out, or between the receive task's queue and the multiplexer |
| Pipeline.BytesArrive | src/mux.rs:221-282 | in every run of the composed system, a stream opened at any moment gives its reader a prefix of the bytes the agent framed for its id afterwards; if it reports Clean, all of them iff nothing for it was left undispatched |
| Pipeline.EndReasonTruthful | src/mux.rs:226-256 | a stream registered when the receive task ends is Desynchronised iff the bytes received lose the framing or the subscription lagged, and Clean otherwise |
| EndToEnd.OutputTypes | src/connection.rs:986-1001 | exactly the non-empty payloads of types Undefined, Output and StdErr reach the output |
| EndToEnd.ChunksSurviveTheWire | src/connection.rs:701-707 | every chunk of every outbound run parses at the other end to its number and its bytes |

## Left out

- WebSocket dialing, TLS, the AWS SDK, SigV4 signing, URL and endpoint checks, the heartbeat: I/O.
- AES-GCM, KMS, SHA-256, JSON and base64 internals: parameters or results the environment supplies. Output is modelled with encryption off.
- `src/terminal.rs`, `src/interactive.rs`, `src/port_forward.rs`, the Python bindings, metrics, the builder and documents: user interface, plumbing or tables.
- `src/pool.rs`: its admission bound would be one easy invariant.
- Deadlock freedom of the outbound path, and eventual acknowledgement: the reader can itself wait for room, and a dropped acknowledgement is never rebuilt, so neither holds as stated. What is proved instead is the absence of lost wake-ups and the acknowledgement discipline.
- Acknowledgements that a full writer queue drops: `Inbound` records that one was built, not that it was written.
- A closed channel takes no further client step before the resumed one starts: every client step of `Outbound` needs an open link, and a resume of `Pipeline` starts with a fresh fan-out and multiplexer.
- What happens after a failed `deliver`: the reader stops and the run ends there, also when the channel was already closing for a resumable reason.
- Terminal-size commands share the command queue with `send`; they carry no stream bytes, so `Outbound` lets them be sent at any time instead. The bound of the writer queue and the readiness gate are not modelled there (the gate's wake-up is, in `Session`).
- Counter overflow: the i64 sequence counters, the u64 sample count, the u32 attempt count and `Duration` arithmetic are unbounded.
- Interleavings inside multiplexer methods: each method body is one step, and the `die` latch of `recv_task` and `keepalive_task` is not modelled.
- Session.NoLostWakeUp: atomics are sequentially consistent; weaker memory orderings are not modelled.
- Inbound.CatchesUp: the retransmission is assumed to be accepted by `deliver`.
- Reconnect.ReconnectOnce: unlimited retrying is a finite script that ends still trying, for every script.
- Losslessness of the durable output across a resume at subscriber level: the pump subscribes in a task spawned after the new channel is already running.
- `wait_timeout` and the signal handlers of `src/shutdown.rs`: timers and operating-system signals.
