# Sinan: verified models of the trading core's protocols

Most of the correctness of this trading core lies in small protocols over durable state. This project
models them in Dafny and proves what they promise, over every input, every interleaving and every run.

- **Framing**, **Writer**, **QueuedWriter**: the length-prefixed framer and its incremental decoder; the ordered
  transport writer as a machine over its atomic sections and as an object changed in place; their composition up
  to what the peer decodes.
- **Events**: the durable event log, its bounded fanout ring, retention, and a subscriber that listens first,
  snapshots second and de-duplicates.
- **Rejections**, **Delivery**, **Outbound**, **Dispatch**: at-most-once outbound delivery with compare-and-swap rows,
  replay and message generations; its composition with the transport writers up to the bytes on the wires; the labels
  rejections are stored under, and how an outcome enters the command lifecycle.
- **Lifecycle**: the fifteen-state command machine. **Projector**: leg and plan projection. **Sorting**,
  **Reconciliation**, **Findings**: evaluation of a broker observation, what it reports, escalation and request planning.
- **Sessions**: the packed fence word, the registry and the activation protocol.
- **Topology**, **Signing**, **Retry**, **Recovery**: Kahn's loop and the leg index, the signing string, the retry delay
  and lease-based recovery dispatch.

Concurrency is modelled as lists of atomic steps; loops and objects of the program are methods and classes proved
against the specification functions the theorems are about. Identifiers are opaque numbers with 0 for a blank text,
times are integers in the signed 64-bit range, quantities are known by bit pattern and sign. Clocks, leases, routes,
store failures and the peer are arguments of the steps; sink outcomes are arguments in Delivery and come from the
modelled writers in Outbound. A step is one section without a suspension point: one round of
`next`, one received message, closing the phase and failing what is pending are separate.
`dafny verify dfyconfig.toml` checks everything.

Where a promise does not hold of the code, the project keeps the code and states the exact condition:

- The writer reports a request as definitely not written although bytes left, exactly when its task is dropped in the
  middle of a write (`Writer.ReportsAreHonestIffNeverAborted`, `Writer.AbortMisreports`). At-most-once delivery holds
  whenever that does not happen to a frame of the subject (`Outbound.OneFrameOnTheWire`,
  `Outbound.SinksAreTruthfulIffNeverCutOff`) and can fail when it does (`Outbound.AbortSendsTwice`).
- A subscriber can miss records when creation times run against the sequence or when a record is appended without being
  published (`Events.CompleteIffNothingLost`, `Events.RetentionCanOpenAGap`, `Events.UnpublishedAppendIsMissed`).
- The retry delay stops doubling for base one under a maximum above 2^62 (`Retry.DelayIsDoublingExactlyWhen`).
- An activation dropped after its durable replacement leaves its route blocked: nothing is published on it until the
  session still attached there is closed or everything is fenced at startup (`Sessions.ActivationPublishes`,
  `Sessions.DroppedActivationBlocks`, `Sessions.BlockedUntilClosed`, `Sessions.CloseFreesRoute`).
- Frames completed in the chunk that contains a framing violation are not returned
  (`Framing.ViolationDropsCoalescedFrames`).
- A plan that passes the topology check has a cycle exactly when a foreign leg waits (`Topology.AnyTwoGiveTheThird`,
  `Topology.ForeignLegsHideACycle`), and the index that follows (crates/execution/src/builder.rs:393-426) refuses wrong
  counts and repeated identities but no foreign id. Such a plan, like any whose resolved ids are not the intended ones,
  stops at the lookup of a missing leg, which panics (crates/execution/src/builder.rs:140); whatever gets past the
  lookups has no cycle (`Topology.ResolveLegs`).

Backpressure of the sink and rejections by the peer are never recorded as rejection labels; they are texts of the bound
row and are read back from there (`Rejections.QueueDepthReadsBack`, `Rejections.TransportReasonReadsBack`).

## Model

| member | source | states |
|---|---|---|
| `Framing.ParseAppend` | crates/protocol/src/framing.rs:82-135 | Chunk independence: decoding `a` and then `b` gives the frames, the rest and the first violation that decoding `a + b` at once gives. |
| `Framing.ParseSound` | crates/protocol/src/framing.rs:82-135 | Whatever decodes without a violation is the concatenation of legal frames followed by an incomplete one. |
| `Framing.ParseComplete` | crates/protocol/src/framing.rs:24-43 | For any list of legal payloads followed by an incomplete frame, decoding the concatenated frames returns exactly those payloads and that rest. |
| `Framing.ParsePrefix` | crates/protocol/src/framing.rs:82-135 | Cutting a violation-free stream anywhere decodes to a prefix of its frames. |
| `Framing.WireAppend` | crates/protocol/src/framing.rs:24-43 | Encoding a longer list of payloads appends to the bytes already sent. |
| `Framing.BigEndian` | crates/protocol/src/framing.rs:24-43 | The length prefix is the four bytes of the payload length, most significant first. |
| `Framing.FromBigEndian` | crates/protocol/src/framing.rs:96-135 | Reading a prefix weighs its four bytes the same way. |
| `Framing.EncodeAnswers` | crates/protocol/src/framing.rs:24-43 | A frame is its prefix and the payload; an empty, oversized or unrepresentable payload is refused with its own error. |
| `Framing.FrameDecoder.Feed` | crates/protocol/src/framing.rs:82-135 | The in-place loop returns the frames of the reference decoder over everything pending plus the new bytes, keeps the rest buffered, poisons itself exactly on a violation, and never underflows a subtraction. |
| `Framing.FrameDecoder.Clear` | crates/protocol/src/framing.rs:72-76 | Clearing forgets the partial frame and the poison. |
| `Framing.DecodeChunks` | crates/protocol/src/framing.rs:82-135 | Feeding any split of the frames of any legal payload list yields exactly those payloads and leaves no pending frame. |
| `Framing.PayloadReader.NextPayload` | crates/gateway/src/native_tcp.rs:373-395 | The reader hands out the payloads of the stream one by one and in order, reports the end only when all are handed out, and reports an incomplete frame exactly when the bytes stop inside one. |
| `Framing.ViolationDropsCoalescedFrames` | crates/protocol/src/framing.rs:82-135 | For every list of legal payloads and every continuation that fails: one feed of the whole returns only the violation, so the frames completed before it in that chunk are lost, while feeding the frames first returns them all. |
| `Writer.StepKeepsInv` | crates/gateway/src/writer.rs:243-467 | Every atomic section (one round of `next`, one received message, closing the phase and failing what is pending each on their own) keeps the whole invariant: one place per request, permits in circulation, contiguous sequences, frames on the wire. |
| `Writer.WriterRun` | crates/gateway/src/writer.rs:353-445 | Over every interleaving: accepted sequences are exactly 1, 2, 3, ...; each request is in exactly one place; only the last frame handed to the transport can end other than Written; a blocked writer has its gap timer armed exactly when something is buffered; a finished writer has answered every request past admission. |
| `Writer.ElapsedGapFailsEverything` | crates/gateway/src/writer.rs:392-396 | A blocked writer with something buffered whose gap timer elapses closes, answers every staged, queued and buffered request as not written, returns all permits and ends; an unarmed timer changes nothing. |
| `Writer.LostSendersFailEverything` | crates/gateway/src/writer.rs:397-403 | The same when the last sender is gone; while one may still send, nothing happens. |
| `Writer.ClosedPhaseEnds` | crates/gateway/src/writer.rs:363-392 | A closed phase ends a blocked or idle writer at once with everything answered; an open one does not. |
| `Writer.DroppedWriterFailsEverything` | crates/gateway/src/writer.rs:462-467 | Dropping a writer that is not writing answers everything pending. |
| `Writer.WriteEnds` | crates/gateway/src/native_tcp.rs:407-461 | A write ends as written in full, as unconfirmed with a prefix on the wire, or as not written before its first byte; the task goes on, stops or fails accordingly. |
| `Writer.ReceivedMessage` | crates/gateway/src/writer.rs:404-423 | One received message: the expected sequence is accepted, a later one buffered, a stale or repeated one answered as not written and the writer fails. |
| `Writer.IdleTurn` | crates/gateway/src/writer.rs:363-392 | An idle writer takes the staged request, else the next buffered one, else blocks with its timer armed exactly when something is buffered. |
| `Writer.ProducerTurns` | crates/gateway/src/writer.rs:243-258 | Starting, closing, staging and admitting do what the gate and the permits allow, and nothing else. |
| `Writer.OfferTurn` | crates/gateway/src/writer.rs:259-276 | An admitted request enters the channel, or is answered at once when the receiver is gone. |
| `Writer.RunKeepsReports` | crates/gateway/src/writer.rs:535-548 | An outcome once reported never changes, so every request is completed at most once. |
| `Writer.StepKeepsReports` | crates/gateway/src/writer.rs:535-548 | No single section completes a request that was completed before. |
| `Writer.ChannelHasRoom` | crates/gateway/src/writer.rs:260-270 | The channel-full branch cannot be taken: an admitted request holds one of the permits that bound the queue. |
| `Writer.ReorderHasRoom` | crates/gateway/src/writer.rs:408-411 | The reorder-capacity test cannot fire for a request received from the queue. |
| `Writer.PeerDecodes` | crates/gateway/src/native_tcp.rs:398-461 | What the peer decodes from the wire is the bodies of the confirmed frames in sequence order, plus at most one more whose request was reported unconfirmed (or whose writer was aborted mid-write); the stream never contains a violation. |
| `Writer.ReportsAreHonestIffNeverAborted` | crates/gateway/src/writer.rs:542-548 | Over every list of events: no request answered as not written or refused for backpressure has a byte on the wire, if and only if no event of the list drops the writer in the middle of a write of which a byte has left. |
| `Writer.OnlySeveredIsMisreported` | crates/gateway/src/writer.rs:542-548 | In every reachable state the one answer that promises no bytes and is false is that of the request whose write was cut off. |
| `Writer.SeveredStep` | crates/gateway/src/native_tcp.rs:437-455 | Only dropping the writer in the middle of a write makes a request the cut-off one, and it remains so. |
| `Writer.AbortMisreports` | crates/gateway/src/writer.rs:542-548 | The failing family: aborting any write of which a byte has left answers that request as definitely not written, with its bytes on the wire. |
| `Writer.Frame` | crates/gateway/src/native_tcp.rs:407-436 | A frame is handed to the transport exactly for a materialized message within the message limit and of legal frame length, and it is the encoding of that message. |
| `QueuedWriter.QueuedWriter.constructor` | crates/gateway/src/writer.rs:139-175 | A new writer satisfies the invariant. |
| `QueuedWriter.QueuedWriter.StageBootstrap` | crates/gateway/src/writer.rs:194-209 | Staging a first message queues it before the start and refuses it afterwards. |
| `QueuedWriter.QueuedWriter.Admit` | crates/gateway/src/writer.rs:243-258 | Admission takes a permit, or closes the writer when there is none. |
| `QueuedWriter.QueuedWriter.Offer` | crates/gateway/src/writer.rs:259-276 | An admitted request enters the channel, or is completed and the writer closed when the receiver is gone. |
| `QueuedWriter.QueuedWriter.ClosePhase` | crates/gateway/src/writer.rs:81-95 | Closing fails the staged requests once. |
| `QueuedWriter.QueuedWriter.FailPending` | crates/gateway/src/writer.rs:447-460 | The drain loops complete every buffered and queued request as not written and return its permit. |
| `QueuedWriter.QueuedWriter.AcceptExpected` | crates/gateway/src/writer.rs:425-445 | The in-place step equals acceptance of the next sequence, or refusal and close on a mismatch or overflow. |
| `QueuedWriter.QueuedWriter.Round` | crates/gateway/src/writer.rs:363-392 | One round of `next` up to its select is exactly one step of the machine. |
| `QueuedWriter.QueuedWriter.Next` | crates/gateway/src/writer.rs:363-392 | The loop of `next` is a run of the machine that ends in a frame, a block or the end, and keeps the invariant. |
| `QueuedWriter.QueuedWriter.FailClosed` | crates/gateway/src/writer.rs:346-349 | Failing closed is two steps of the machine, closing the phase and failing what is pending, and ends the writer. |
| `QueuedWriter.QueuedWriter.Receive` | crates/gateway/src/writer.rs:393-423 | Receiving a message accepts it, refuses it as stale, or buffers it and continues, as the machine does. |
| `Events.DeliversInOrder` | crates/events/src/lib.rs:146-180 | In every interleaving, with no assumption: delivered records are a strictly rising prefix of the matching stored rows after the cursor followed by the matching records sent since; a caught-up subscriber has all of them. |
| `Events.NoGapNoRepeat` | crates/events/src/lib.rs:92-121 | When all appends are published and creation times follow the sequence: delivered is a prefix of all matching history after the starting point, and all of it once caught up. |
| `Events.StepKeepsInv` | crates/events/src/lib.rs:78-180 | Every publisher, retention and subscriber step keeps the invariant that ties delivered, pending and owed records together. |
| `Events.SilentAfterClose` | crates/events/src/lib.rs:146-149 | After a close nothing more is delivered and the subscription never changes, whatever happens. |
| `Events.CompleteIffNothingLost` | crates/store/src/event_stream.rs:261-375 | Without the assumptions: a caught-up subscriber has every matching record after its cursor if and only if each was still stored at the snapshot or was carried by the ring past its high water. |
| `Events.RetentionDropsPrefix` | crates/store/src/event_stream.rs:377-417 | Retention removes a prefix of the log if and only if no expired row follows one that stays. |
| `Events.OrderedRetention` | crates/store/src/event_stream.rs:377-417 | With creation times in log order retention only shortens the log from its old end. |
| `Events.RetentionKeepsLatest` | crates/store/src/event_stream.rs:377-417 | Retention leaves exactly the latest rows of the wanted number, less those older than the date, in order. |
| `Events.RetentionCanOpenAGap` | crates/store/src/event_stream.rs:377-417 | Concrete run: a late-dated record between two others is pruned and a resuming subscriber misses it. |
| `Events.UnpublishedAppendIsMissed` | crates/store/src/event_stream.rs:215-221 | A record committed without being published, matching ones included, is never handed to a subscriber that is already live, over every continuation, although it lies after the subscriber's start. |
| `Events.LostForever` | crates/events/src/lib.rs:146-180 | A record that a subscription has passed over is not handed out by any continuation. |
| `Events.QueryIsSelection` | crates/store/src/event_stream.rs:330-356 | The row condition of the replay query selects exactly what the in-memory filter matches. |
| `Events.ReplayWindow` | crates/store/src/event_stream.rs:261-375 | A snapshot returns exactly the matching rows after the cursor, or none without a cursor, with the top of the log as high water. |
| `Events.ReplayAnswers` | crates/store/src/event_stream.rs:261-375 | A snapshot is refused exactly for a zero limit or a cursor that is missing or outside the scope; beyond the limit it returns the first rows and says that there are more. |
| `Events.HugeLimit` | crates/store/src/event_stream.rs:303-318 | A limit that cannot be counted one further is refused as soon as rows would have to be fetched. |
| `Events.AppendAnswers` | crates/store/src/event_stream.rs:215-260 | An append is invalid, inserted, a duplicate or a conflict exactly by its fields and the stored row of its id. |
| `Events.LagCloses` | crates/events/src/lib.rs:146-180 | A receiver that fell behind is closed with the exact number of records it lost. |
| `Events.StreamTurns` | crates/events/src/lib.rs:78-90 | What publishing, sending, pruning and closing do to the stream, and when they do nothing. |
| `Events.SubscriberTurns` | crates/events/src/lib.rs:92-121 | A subscription listens from the end of the ring, then takes its snapshot, or is refused with the reason of that step. |
| `Events.SubscriptionFilter` | crates/events/src/lib.rs:234-261 | The topic loop refuses exactly the empty, repeated, blank-cursor and unauthorized requests and never widens the principal's accounts. |
| `Events.EventSubscription.Recv` | crates/events/src/lib.rs:146-180 | The `recv` loop equals repeated single turns of the machine. |
| `Events.RecvHandsOutPending` | crates/events/src/lib.rs:146-180 | One call hands out the first pending record and leaves the rest pending, waits only when nothing is pending, and closes for lag only after replay is exhausted. |
| `Events.RecvIsSteps` | crates/events/src/lib.rs:146-180 | A call of `recv` is a run of the interleaved machine. |
| `Events.EventStreamManager.Publish` | crates/events/src/lib.rs:78-90 | Only an inserted record is fanned out, in sequence order; duplicates and conflicts change nothing. |
| `Events.EventStreamManager.PruneRows` | crates/store/src/event_stream.rs:377-417 | A valid policy leaves exactly the latest rows of the wanted number that are not older than the date and counts the others as deleted; an invalid one changes nothing. |
| `Events.EventStreamManager.Subscribe` | crates/events/src/lib.rs:95-121 | A subscription starts at the ring position taken before the snapshot and replays exactly the matching rows after its cursor; a refusal is exactly that of the filter checks or of the replay query, in this order. |
| `Events.Find` | crates/store/src/event_stream.rs:442-455 | An event id is found exactly when a stored row carries it. |
| `Events.Retained` | crates/store/src/event_stream.rs:390-411 | A row stays exactly when neither retention condition removes it. |
| `Rejections.RejectionRoundTrip` | crates/gateway/src/outbound.rs:578-718 | A rejection recorded before any outbox row is replayed with the very reason it was given; exactly the reasons that are never recorded this way (backpressure of the sink, rejection by the peer) have no reading as a recorded label. |
| `Rejections.ReasonsRead` | crates/gateway/src/outbound.rs:660-718 | Exactly which statuses and texts are read as which reason. |
| `Rejections.WordsParse` | crates/gateway/src/outbound.rs:977-979 | A written number is read back with or without a plus sign, exactly when it fits a 64-bit word. |
| `Rejections.QueueDepthReadsBack` | crates/gateway/src/outbound.rs:786-799 | The queue depth written into a bound row's error text is read back as the same depth, for every 64-bit depth. |
| `Rejections.TransportReasonReadsBack` | crates/gateway/src/outbound.rs:919-927 | A peer's rejection reason stored on a bound row is read back unchanged, and read as absent exactly when it is blank. |
| `Delivery.AtMostOnce` | crates/gateway/src/outbound.rs:325-441 | Over every run with crashes, lease reclaims, racing workers and arbitrary acknowledgements: the sink is called at most once per message id, only the current generation can have bytes, and no claimed row replays as inconsistent. |
| `Delivery.StepKeepsInv` | crates/gateway/src/outbound.rs:88-500 | Every store transaction, sink call, crash and disturbance keeps the invariant. |
| `Delivery.MintedAfterNoBytes` | crates/core/src/outbound_processor.rs:792-862 | The generation rises by one at a time, and only when the old one is dead: no byte of it was or will be on the wire. |
| `Delivery.DeadForever` | crates/gateway/src/outbound.rs:325-441 | A dead generation stays dead over every continuation. |
| `Delivery.AdvancingRow` | crates/gateway/src/outbound.rs:740-825 | A stored row whose replay lets the generation advance was cancelled before its claim or finished without bytes. |
| `Delivery.ReplayIsTotal` | crates/gateway/src/outbound.rs:740-825 | Replaying a consistent row reports an inconsistency if and only if its write has not been claimed. |
| `Delivery.OutcomeOfRow` | crates/gateway/src/outbound.rs:740-915 | What every stored row means, outcome by outcome on its fields: accepted, unconfirmed, not written, expired, clock, session, backpressure with its depth, or rejected by the peer with its reason. |
| `Delivery.UnexplainedRow` | crates/gateway/src/outbound.rs:811-815 | Exactly which pairs of statuses are reported as inconsistent. |
| `Delivery.ClaimVerdicts` | crates/store/src/gateway_delivery.rs:1229-1330 | A claim goes through exactly on an untouched row at the expected revisions; each verdict replays as its own outcome. |
| `Delivery.FinishOutcome` | crates/store/src/gateway_delivery.rs:1362-1514 | What the peer already said wins over the sink, doubt and failure stay, only an untouched claim takes the sink's report; the exact condition of a stale write. |
| `Delivery.PeerChanges` | crates/store/src/gateway_delivery.rs:1516-1640 | What an acknowledgement, a rejection or a receipt makes of a row and of its outcome, and which rows it leaves alone. |
| `Delivery.OperatorChanges` | crates/store/src/gateway_delivery.rs:1642-1728 | What timeouts, session closes, cancellation and the startup fence make of a row and of its outcome. |
| `Delivery.ClaimedWork` | crates/store/src/outbound_work.rs:300-384 | Due or abandoned work goes to an idle worker at a new revision; a command that moved on ends it. |
| `Delivery.PreparedWork` | crates/gateway/src/outbound.rs:88-324 | Preparing stores at most the row of its generation; what is stored already is replayed. |
| `Delivery.ClaimedRowDecides` | crates/gateway/src/outbound.rs:325-372 | Only a claim that went through leads to the sink; everything else is decided from the row as it is then. |
| `Delivery.FinishedRowDecides` | crates/gateway/src/outbound.rs:392-441 | The sink's report is stored or found outdated, and the row as it is then decides. |
| `Delivery.ConcludedWork` | crates/core/src/outbound_processor.rs:241-413 | How the work ends for its owner, outcome by outcome; a worker that lost it changes nothing. |
| `Delivery.ClaimContinues` | crates/store/src/gateway_delivery.rs:1229-1360 | A claim succeeds only on an open row at the expected revisions, closes it, and marks it claimed exactly when it was not cancelled. |
| `Delivery.FinishContinues` | crates/store/src/gateway_delivery.rs:1362-1514 | Finishing a write keeps the row consistent and claimed, and reports no bytes only when the sink did. |
| `Delivery.ChangeContinues` | crates/store/src/gateway_delivery.rs:1516-1728 | Acknowledgements, receipts, timeouts, session closes and the startup fence keep rows consistent, never reopen one and never turn a row into one that reports no bytes. |
| `Delivery.DecideAdvances` | crates/core/src/outbound_processor.rs:241-413 | A worker asks for a new generation exactly on the outcomes in which no bytes were accepted. |
| `Delivery.ConcludeKeeps` | crates/store/src/outbound_work.rs:384-504 | Completing or retrying the work row by compare-and-swap on revision and owner keeps the invariant. |
| `Delivery.UndisturbedRound` | crates/core/src/outbound_processor.rs:137-238 | A worker alone: one sink call; a written or uncertain frame ends the work, an unwritten one makes the next generation due; the stored row is the one the outcome calls for. |
| `Delivery.RoundDecides` | crates/gateway/src/outbound.rs:374-441 | A worker alone decides what the sink reported: written is accepted, uncertain is unconfirmed, full is backpressure with its depth, not written is not written. |
| `Delivery.RefusedRound` | crates/gateway/src/outbound.rs:352-364 | A refused claim calls no sink: an expired command is settled and nothing minted; a missing session or bad clock makes the next generation due. |
| `Outbound.OneFrameOnTheWire` | crates/gateway/src/outbound.rs:325-441 | At most once, end to end, with the sinks being the modelled writers: over every interleaving of racing and crashing workers with any number of transports, unless one is dropped in the middle of writing a frame of the subject, at most one frame of the subject over all message ids and sessions has a byte on a wire, and it is the current generation's. |
| `Outbound.SinksAreTruthfulIffNeverCutOff` | crates/gateway/src/writer.rs:535-548 | What the processor relies on, that a frame reported as not written has no byte on a wire, holds for the subject if and only if no event of the run drops a transport in the middle of writing one of its frames. |
| `Outbound.AbortSendsTwice` | crates/gateway/src/writer.rs:542-548 | The condition is needed: a run in which, after each session's greeting, a dropped transport has sent part of one frame and reported it as not written, and a second message id of the same subject is then written in full on another session. |
| `Outbound.StepKeepsInv` | crates/gateway/src/outbound.rs:325-441 | Every step of the workers and every section of every writer keeps the joint invariant: one call per generation, each awaited by its worker or over. |
| `Outbound.FreshCall` | crates/gateway/src/outbound.rs:325-372 | A worker about to write has not been preceded by any accepted sink call for its generation. |
| `Outbound.ReturnedAnswer` | crates/gateway/src/outbound.rs:384-441 | A worker reports exactly what the writer answered, and bytes are counted exactly for written and unconfirmed answers. |
| `Outbound.SubmittedFrame` | crates/gateway/src/writer.rs:243-276 | A closed writer refuses the call, a full one closes and reports backpressure, otherwise the frame becomes one new request. |
| `Outbound.WaitingWorker` | crates/gateway/src/outbound.rs:384-388 | A worker that dies while it waits counts as one whose frame may be written; until then it does nothing else. |
| `Dispatch.DeliveryCommits` | crates/core/src/outbound_processor.rs:965-994 | Committing a delivery of a created command succeeds if and only if the write began within the command's life and any uncertainty came after it with a reason; the command is then dispatched once, at that time. |
| `Dispatch.LaterDelivery` | crates/core/src/outbound_processor.rs:965-994 | A dispatched command only takes up an uncertainty, exactly when it is well timed and reasoned; whatever moved on is left alone. |
| `Dispatch.SettledCommand` | crates/core/src/outbound_processor.rs:241-413 | What each delivery outcome makes of a created command: dispatched, dispatched in doubt with its error, expired, or nothing. |
| `Dispatch.RoundSettles` | crates/core/src/outbound_processor.rs:577-685 | A worker's undisturbed round carried through to the command: written dispatches it, uncertain leaves it in doubt, anything else leaves it created. |
| `Dispatch.CommitsWriteAtMostOnce` | crates/core/src/outbound_processor.rs:596-613 | However many workers settle deliveries of a command, among any other evidence: at most one settlement writes, and no recorded time is ever rewritten. |
| `Dispatch.CommitSticks` | crates/core/src/outbound_processor.rs:596-613 | After a settlement that wrote, and any further evidence, settling any outcome again changes nothing. |
| `Lifecycle.CommandRun` | crates/execution/src/state.rs:101-265 | Over every list of evidence: at most nine applied steps, each with a higher version; dispatched at most once and before expiry; times written once and none before the dispatch; a terminal status and its completion time are frozen even when a late receipt is recorded. |
| `Lifecycle.NineStepsHappen` | crates/execution/src/state.rs:607-659 | The bound is exact: every valid command has a run with nine applied steps. |
| `Lifecycle.TrailingValidationNeverRejects` | crates/execution/src/state.rs:150-190 | Validity is inductive: for every command, state and evidence the closing validation changes no result. |
| `Lifecycle.AppliedStep` | crates/execution/src/state.rs:101-191 | One applied step raises the version, lowers the rank and keeps everything already recorded. |
| `Lifecycle.StepsExactly` | crates/execution/src/state.rs:101-265 | For every kind of well-formed evidence, exactly the statuses it moves a command out of (all edges, column by column), exactly when it is a duplicate, and what a refusal means. |
| `Lifecycle.AppliedWrites` | crates/execution/src/state.rs:149-190 | The whole new state: each kind of evidence writes its own status and time, an ending its completion, and nothing else; the eight event statuses each end in their own. |
| `Lifecycle.UnfitIsRefused` | crates/execution/src/state.rs:403-592 | Evidence that does not fit its command is always refused, with the error of its first failing check. |
| `Lifecycle.StatusesAreEvidenced` | crates/execution/src/state.rs:101-191 | Over every run a command reaches a status only through evidence that stands for it. |
| `Lifecycle.ValidStates` | crates/execution/src/state.rs:267-376 | What a valid state has recorded, status by status. |
| `Lifecycle.InitialValid` | crates/execution/src/state.rs:72-99 | Creation succeeds exactly for a valid command created before its expiry; the state is valid, created and new. |
| `Lifecycle.ReceiptValid` | crates/execution/src/state.rs:201-265 | Every accepted receipt, on time or late, leaves a valid state. |
| `Lifecycle.RecordedValid` | crates/execution/src/state.rs:267-376 | Every other accepted evidence leaves a valid state. |
| `Reconciliation.EvaluationIgnoresOrder` | crates/reconciliation/src/evaluation.rs:29-167 | Permuting orders, positions, metadata, unresolved ids, commands and events gives the identical evaluation and canonical result, or the same class of refusal. |
| `Reconciliation.CompletedExactlyWhenSettled` | crates/reconciliation/src/evaluation.rs:46-154 | Completed if and only if every scoped command is non-manual, authoritative and not reported unresolved and (account-wide) no unknown id is brought up; otherwise pending with the violators as ascending command ids. |
| `Reconciliation.EscalationIsTotal` | crates/reconciliation/src/evaluation.rs:174-310 | A pending evaluation can be escalated on the same snapshot if and only if the evidence names its request, gives a reason and is not before the observation nor before any command state; each uncertain command of the attention scope then ends in manual reconciliation and no other is touched. |
| `Reconciliation.MissingEscalationIsTotal` | crates/reconciliation/src/evaluation.rs:318-386 | A missing result can always be escalated for a valid scope, and moves every uncertain command to manual reconciliation. |
| `Reconciliation.PlanningIsTotal` | crates/reconciliation/src/request.rs:60-98 | Planning a request never fails on a transition; it moves exactly the commands in delivery doubt, and they end reconciling. |
| `Reconciliation.RequestIgnoresOrder` | crates/reconciliation/src/request.rs:18-51 | The built scope lists exactly the given ids in ascending order, whatever order they came in. |
| `Reconciliation.LoneReportPends` | crates/reconciliation/src/evaluation.rs:138-154 | A client that reports one unknown id over an account without commands leaves exactly that id pending. |
| `Reconciliation.AuthorityAgrees` | crates/reconciliation/src/evaluation.rs:487-545 | Authority over the sorted events of a command means: a receipt, never having left, or a recorded event of the very name of its status; statuses in doubt have none. |
| `Reconciliation.UnknownIsNamed` | crates/reconciliation/src/evaluation.rs:241-263 | The findings name as unknown exactly the pending ids that have no command row. |
| `Findings.FindingsAreWarranted` | crates/reconciliation/src/evaluation.rs:46-154 | The findings of an evaluation are exactly those its inputs warrant: for every kind, on the raw orders, events and commands, with the right fields, orders and latest event. |
| `Findings.ConflictsAre` | crates/reconciliation/src/evaluation.rs:443-486 | The identity conflicts of an order are exactly the fields in which it disagrees with its command. |
| `Findings.LatestAgrees` | crates/reconciliation/src/evaluation.rs:455-470 | The event compared with a snapshot is the last one recorded at or before the observation. |
| `Findings.EvaluationAccepts` | crates/reconciliation/src/validation.rs:54-282 | An evaluation succeeds exactly on sound requests, results, scopes and events, and each refusal names the first part that is not. |
| `Findings.ReturnedResult` | crates/reconciliation/src/evaluation.rs:428-441 | The result that is returned is the one that came in, with each of its lists in ascending order. |
| `Findings.EscalationDemands` | crates/reconciliation/src/evaluation.rs:174-263 | What an escalation demands of any evaluation it is given, and what it returns. |
| `Findings.EscalationMoves` | crates/reconciliation/src/evaluation.rs:264-310 | An escalation moves exactly the commands in doubt among the ids that need attention, each as a swap of its current status and version. |
| `Findings.MissingEscalation` | crates/reconciliation/src/evaluation.rs:318-386 | A missing result is escalated for every command in scope with the one finding that says so. |
| `Findings.BuiltRequest` | crates/reconciliation/src/request.rs:18-51 | A request is built exactly from sound input with distinct ids and carries it over in ascending order. |
| `Findings.PlannedMoves` | crates/reconciliation/src/request.rs:60-98 | Planning begins the reconciliation of exactly the commands in delivery doubt. |
| `Reconciliation.SameCanonical` | crates/reconciliation/src/evaluation.rs:428-441 | Canonical results of permuted inputs are equal. |
| `Reconciliation.SameScope` | crates/reconciliation/src/validation.rs:54-135 | The scope check and the command map do not depend on the order of the commands. |
| `Reconciliation.SameEvents` | crates/reconciliation/src/validation.rs:222-282 | Event validation and the per-command event lists do not depend on the order of the events. |
| `Reconciliation.ManualTransition` | crates/execution/src/state.rs:127-134 | Requiring manual reconciliation of an uncertain command succeeds at any time not before its version. |
| `Reconciliation.CommandScope` | crates/reconciliation/src/validation.rs:54-135 | The map-building loop accepts exactly the valid scopes and returns their index. |
| `Reconciliation.InspectItems` | crates/reconciliation/src/evaluation.rs:46-115 | The command loop collects the specified findings and exactly the commands needing attention. |
| `Reconciliation.InspectOrders` | crates/reconciliation/src/evaluation.rs:118-137 | The order loop reports exactly the unknown ids seen in route-compatible orders. |
| `Reconciliation.InspectReports` | crates/reconciliation/src/evaluation.rs:138-145 | The report loop reports exactly the unresolved ids without a command row. |
| `Reconciliation.EvaluateResult` | crates/reconciliation/src/evaluation.rs:29-167 | The imperative evaluation equals the specification whose properties are proved. |
| `Reconciliation.CollectMoves` | crates/reconciliation/src/evaluation.rs:264-302 | The transition loop derives the compare-and-swap targets of the eligible commands in order, up to the first error. |
| `Reconciliation.MovesTotal` | crates/reconciliation/src/evaluation.rs:264-302 | If no eligible transition errors, the moves are exactly those of the eligible commands. |
| `Sorting.SortPermutes` | crates/reconciliation/src/evaluation.rs:428-441 | With unique keys the sorted list does not depend on the input order. |
| `Projector.ExposureIsNeverForgotten` | crates/execution/src/projector.rs:34-140 | Every successful projection over an event list with a fill of a leg shows that leg exposed and listed among the filled ones, under any command states and any other events; a full fill never falls back, and the plan is partial, completed or manual. |
| `Projector.ProjectionIgnoresOrder` | crates/execution/src/projector.rs:143-220 | Permuting events and command states changes neither success, nor error, nor the projected plan. |
| `Projector.ProjectionIdempotent` | crates/execution/src/projector.rs:143-220 | Projecting a projection again gives the same plan. |
| `Projector.ClosingValidation` | crates/types/src/dto.rs:829-894 | The closing plan validation rejects if and only if the plan's definitions were already invalid. |
| `Projector.ProjectLeg` | crates/execution/src/projector.rs:34-140 | The flag loop accepts exactly event lists that fit and have distinct ids, and computes the specified status. |
| `Projector.ProjectPlan` | crates/execution/src/projector.rs:143-220 | The in-place leg loop equals the specified projection, first error included. |
| `Projector.ValidatePlan` | crates/types/src/dto.rs:829-894 | Plan validation accepts exactly plans with valid legs, sound and acyclic dependencies, and summaries and status that match the legs. |
| `Projector.RecoveryClosesExposure` | crates/execution/src/projector.rs:222-243 | On a valid partial plan with close-filled rollback, recovery closes exactly the exposed legs and there is at least one. |
| `Projector.RecoveryPolicies` | crates/execution/src/projector.rs:222-243 | What each rollback and failure policy does with a partial plan; any other plan needs no recovery. |
| `Projector.LegShows` | crates/execution/src/projector.rs:95-140 | A leg shows its fills, else the stage of its command, and each stage has its own status. |
| `Projector.LegProjects` | crates/execution/src/projector.rs:34-94 | When a leg projects, on its state and events, and what each refusal means. |
| `Projector.PlanShows` | crates/types/src/dto.rs:896-940 | A plan shows what its set of leg statuses amounts to, status by status. |
| `Projector.SummariesList` | crates/execution/src/projector.rs:184-212 | The summaries list exactly the exposed and the lost legs. |
| `Projector.PlanRefusals` | crates/execution/src/projector.rs:143-183 | When a plan is refused before or after its legs are projected. |
| `Projector.ForeignEvents` | crates/execution/src/projector.rs:183-190 | The events stay inside a plan exactly when each one names one of its legs. |
| `Projector.ProjectedLegs` | crates/execution/src/projector.rs:164-182 | All legs project, each on its own, or the first failing one decides the error. |
| `Sessions.OpenHandlesAreActive` | crates/gateway/src/session.rs:152-215 | After every interleaving of activation, close and startup fencing, with store failures and dropped callers: an unfenced handle, attached or merely held, is the attached handle of the one durably active session of its route, and routes and attached sessions stay in bijection. |
| `Sessions.StepKeepsInv` | crates/gateway/src/session.rs:338-378 | Every step of the protocol keeps that invariant whether the store call succeeds or fails. |
| `Sessions.FencesAreForever` | crates/gateway/src/registry.rs:49-54 | A fence never clears over a whole run. |
| `Sessions.FenceAdmitsNoWrite` | crates/gateway/src/registry.rs:49-105 | Over every interleaving of loads, swaps, drops and fences: the low bits count the permits in use, no permit is granted behind the fence bit, and the bit never clears. |
| `Sessions.InstructionCounts` | crates/gateway/src/registry.rs:49-105 | Each atomic instruction keeps the count; a drop never borrows from the fence bit. |
| `Sessions.GatewayKeepsStep` | crates/gateway/src/registry.rs:49-105 | Over the protocol and the instructions on every handle's word together: a handle is fenced for the protocol exactly when the bit of its word is set. |
| `Sessions.WriterTurn` | crates/gateway/src/registry.rs:76-106 | A writer's instruction acts on the word of its handle alone and cannot fence. |
| `Sessions.WritesAreAdmittedOnlyToActiveSessions` | crates/gateway/src/registry.rs:76-95 | Over every interleaving of the session protocol with the writers' instructions: whenever a permit is granted, the handle's session is the durably active one of its route. |
| `Sessions.ActivationPublishes` | crates/gateway/src/session.rs:152-201 | With a working store an activation publishes if and only if the id is new (or repeats a route's active registration with no live handle) and the live session of the route, if any, is the durably active one. |
| `Sessions.DroppedActivationBlocks` | crates/gateway/src/session.rs:152-201 | Reachable on every route: an activation dropped between the durable replacement and the publication leaves the route on a session that is no longer active. |
| `Sessions.BlockedUntilClosed` | crates/gateway/src/session.rs:152-201 | From such a state no run without a close of that session or a startup fence publishes an activation of the route. |
| `Sessions.CloseFreesRoute` | crates/gateway/src/session.rs:338-363 | Closing that session, or fencing at startup, frees the route. |
| `Sessions.ReplaceKeepsOne` | crates/store/src/gateway_delivery.rs:495-587 | Durable replacement leaves exactly one active session on the route, retires only the replaced one and never reactivates a known id. |
| `Sessions.ReplacementIs` | crates/store/src/gateway_delivery.rs:495-587 | Durable replacement, exactly: when it is refused, whom it replaces and what it writes. |
| `Sessions.TaskTurns` | crates/gateway/src/session.rs:152-201 | What the holder of the mutex does next in every phase, whether the store call succeeds or fails. |
| `Sessions.OneHolder` | crates/gateway/src/session.rs:152-215 | While someone holds the mutex nobody else begins; a dropped holder only lets go. |
| `Sessions.BeginningTurns` | crates/gateway/src/session.rs:338-363 | An activation, a close and a startup fence each fence their live handles before any store call. |
| `Sessions.PublishedTurn` | crates/gateway/src/registry.rs:141-167 | Publishing puts the route on the new session, whose handle is the only new one and open. |
| `Sessions.LiveSessionHandle.FenceHandle` | crates/gateway/src/registry.rs:49-54 | Fencing sets the bit, closes the sink and leaves the writer count alone. |
| `Sessions.LiveSessionHandle.AcquireWrite` | crates/gateway/src/registry.rs:76-95 | The retry loop, under any steps of other threads and spurious failures between its instructions, is a run of the word machine: a permit is granted only on an unfenced word, and refused only if the word was fenced or full during the call. |
| `Sessions.LiveSessionHandle.DropPermit` | crates/gateway/src/registry.rs:102-106 | Dropping a permit lowers the count by one and leaves the fence bit. |
| `Sessions.LiveSessionRegistry.FenceRoute` | crates/gateway/src/registry.rs:131-139 | Fences the handle attached to the route and returns its session. |
| `Sessions.LiveSessionRegistry.ActivateSession` | crates/gateway/src/registry.rs:141-167 | Publishing detaches and fences the previous and the replaced session before the new handle is attached. |
| `Sessions.LiveSessionRegistry.DisconnectSession` | crates/gateway/src/registry.rs:178-191 | Disconnecting fences and detaches the session and removes its routes. |
| `Sessions.LiveSessionRegistry.ClearAll` | crates/gateway/src/registry.rs:193-203 | Clearing fences every attached handle and empties both maps. |
| `Topology.ValidateTopology` | crates/execution/src/builder.rs:557-615 | For every list of resolved legs: each refusal names its cause exactly; a plan is accepted if and only if legs are distinct, a simultaneous plan has no dependency, dependency lists are sound and the untangled nodes are as many as the intended legs; an accepted plan has no cycle if and only if no foreign leg waits for anything. |
| `Topology.Kahn` | crates/execution/src/builder.rs:593-607 | For every list of sound legs, foreign and repeated ones included, and every iteration order: terminates, takes each node at most once in topological order, and takes exactly the nodes that no cycle leads to. |
| `Topology.Release` | crates/execution/src/builder.rs:600-606 | Releasing the dependents of a leg never underflows an indegree and queues each at most once. |
| `Topology.CountEdges` | crates/execution/src/builder.rs:577-592 | The counting loop accepts exactly the sound dependency lists and counts every edge once. |
| `Topology.InitialQueue` | crates/execution/src/builder.rs:593-596 | The queue starts with exactly the legs without dependencies, in any order. |
| `Topology.OrderedIsUntangled` | crates/execution/src/builder.rs:608-613 | No node that stands in a topological order is reached from a cycle. |
| `Topology.StuckIsTangled` | crates/execution/src/builder.rs:608-613 | Legs that all wait for one another are all reached from a cycle. |
| `Topology.CyclicMeansTangled` | crates/execution/src/builder.rs:608-613 | A graph has a cycle if and only if some node is reached from one. |
| `Topology.AnyTwoGiveTheThird` | crates/execution/src/builder.rs:608-613 | The exact condition: the final count is met, the graph has no cycle, no foreign leg waits; any two of these give the third. A plan that passes beside a waiting foreign leg always has a cycle, and one without a cycle is then always rejected. |
| `Topology.ForeignLegsHideACycle` | crates/execution/src/builder.rs:608-613 | The failing family: four distinct legs for four intended ones, two of them waiting for each other and two foreign ones waiting for a third; the check accepts the cycle, and two intended legs are missing. |
| `Topology.IndexResolved` | crates/execution/src/builder.rs:393-426 | The index accepts exactly as many legs as intended, all named, with no leg, command or idempotency identity twice, and maps each id to its leg; the first offending leg decides the error. Foreign ids are not refused. |
| `Topology.LookUp` | crates/execution/src/builder.rs:135-141 | The lookups find every intended leg in order if and only if all are indexed; otherwise the source indexes a missing key. |
| `Topology.ResolveLegs` | crates/execution/src/builder.rs:114-141 | The two checks and the lookups together: once both checks pass, the lookups succeed if and only if the resolved ids are the intended ones, and then the graph has no cycle; each other outcome has its exact condition. |
| `Signing.SigningIsInjective` | crates/protocol/src/signing.rs:80-99 | Equal signing strings mean equal vectors of the twenty-five field values. |
| `Signing.RecoverUndoesSigning` | crates/protocol/src/signing.rs:80-99 | Splitting and decoding a signing string recovers every field value. |
| `Signing.EncodingHasInverse` | crates/protocol/src/signing.rs:338-352 | Percent decoding is a left inverse of the encoding. |
| `Signing.EncodedIsSeparable` | crates/protocol/src/signing.rs:338-352 | An encoded value contains neither `&` nor `=`. |
| `Signing.EncodedBytes` | crates/protocol/src/signing.rs:338-352 | Exactly the unreserved characters of RFC 3986 stay as they are; every other byte becomes a percent sign and two upper-case hexadecimal digits. |
| `Signing.SplitUndoesJoin` | crates/protocol/src/signing.rs:98-98 | Splitting at `&` undoes joining of parts without it. |
| `Signing.FieldNames` | crates/protocol/src/signing.rs:10-36 | There are twenty-five field names, and none holds `&` or `=`. |
| `Signing.Rfc3986Encode` | crates/protocol/src/signing.rs:338-352 | The byte loop produces the specified encoding, free of separators. |
| `Retry.DelayIsDoublingExactlyWhen` | crates/core/src/outbound_processor.rs:1227-1234 | For all attempts the delay is the base doubled per attempt and cut off at the maximum, if and only if the maximum is at most 2^62 or the base at least 2. |
| `Retry.DoublingStops` | crates/core/src/outbound_processor.rs:1227-1234 | The failing family: base one under a larger maximum stays at 2^62 from the sixty-fourth attempt on. |
| `Retry.DelayInRange` | crates/core/src/outbound_processor.rs:1227-1234 | The delay lies between base and maximum for every attempt count. |
| `Retry.DelayMonotone` | crates/core/src/outbound_processor.rs:1227-1234 | More attempts never wait less. |
| `Recovery.EffectsCommitOnce` | crates/gateway/src/durable_inbound.rs:410-601 | Across workers, timeouts, crashes and reclaims: the effects of an admission commit at most once, never together with its deadletter, and exactly for the handled rows. |
| `Recovery.RunKeeps` | crates/store/src/inbound_durability.rs:868-920 | Handled and failed rows never change again; committed effects and deadletters are never withdrawn. |
| `Recovery.FinishMeans` | crates/gateway/src/durable_inbound.rs:410-601 | What one finish does: effects with the handled row, a deadletter exactly for a terminal inbound failure, nothing for a lost lease. |
| `Recovery.FinishNeedsLease` | crates/store/src/inbound_durability.rs:868-900 | Exactly who may finish: the owner at the claimed revision while its lease runs. |
| `Recovery.TakeMeans` | crates/store/src/inbound_durability.rs:826-866 | Exactly when a row can be claimed and what the claim writes. |
| `Recovery.AdmitMeans` | crates/store/src/inbound_durability.rs:605-640 | An item is admitted once, as pending work; abandoning it only drops the claim. |
| `Recovery.QueryOrder` | crates/store/src/inbound_durability.rs:799-825 | Pending work is picked by arrival, expired work by the end of its lease first, with ids breaking ties. |
| `Recovery.QueryCandidates` | crates/store/src/inbound_durability.rs:799-825 | Candidates of a pending query are the pending rows of the kind; of an expired query, the claimed rows whose lease has run out. |
| `Recovery.EffectsAreLogged` | crates/gateway/src/durable_inbound.rs:410-601 | The effects a run commits are exactly those of its successful finishes, whoever made them, in order. |
| `Recovery.FinishedOnce` | crates/store/src/inbound_durability.rs:868-920 | Over every run an item is finished at most once, by one worker and with one ending, and its row shows that ending for good. |
| `Recovery.Dispatcher.ClaimFirst` | crates/store/src/inbound_durability.rs:799-866 | One claiming transaction takes exactly the first candidate in the store's order (end of lease, arrival, id) and fails when that row is newer than the clock, whatever follows it. |
| `Recovery.Dispatcher.ClaimKind` | crates/gateway/src/durable_inbound.rs:344-408 | Expired work is reclaimed first, then pending work claimed, each by the exact rule of the store on the state that other workers left; nothing is returned only when there are no candidates. |
| `Recovery.Dispatcher.HandleItem` | crates/gateway/src/durable_inbound.rs:410-556 | After any steps of other workers: effects commit with the completion or not at all, exactly when the claim is still owned; a terminal error fails the row with its deadletter; a retryable one leaves it leased; each error is the one of its branch. |
| `Recovery.Dispatcher.DispatchBatch` | crates/gateway/src/durable_inbound.rs:302-342 | With other workers acting between any two transactions: the items this worker finished are distinct, were open before and are over after, and have effects exactly when handled; a normal report counts exactly these, at most the maximum, and an undisturbed batch stops early only when nothing waits. |

## Left out

- HTTP routing, authentication, event and execution WebSocket plumbing: schema mapping and I/O only.
- SQL text, connection pool and migrations: store calls are atomic steps with the row conditions of the statements.
- HMAC, SHA-256, JSON canonicalisation and UUID generation: library code.
- Floating-point arithmetic (sizing, scaling, fixed-decimal formatting): quantities are bit patterns with a sign; the numeric and time checks of one broker snapshot row are a single flag.
- Circuit breaker, risk evaluation and the rest of the leg builder (risk results, metadata, expiry, command identities): would rest on definitions outside these protocols.
- Process supervision, environment parsing, timers and task scheduling beyond the interleavings named above.
- Heartbeat assessment: its compare-and-swap retry touches neither routes nor activity.
- Outbound delivery is modelled on values, as steps over durable rows: the rows live in the database, so update in place and aliasing do not arise; the reservation of wire sequences and the per-session inflight limit are arguments of the preparing step.
- Message texts of errors and the field names in reconciliation errors: errors are told apart by class only.
- Topology.ResolveLegs: leaves out the checks of risk results, metadata and leg bindings that stand between and beside the lookups; any of them may refuse a plan first.
