# Verification of the live-delay pipeline

The plugin delays a live programme, covers the change of delay with a holding scene, and sends the result to several RTMP
destinations. This project models the part of it that decides what viewers get: how packets of two feeds become one
outgoing timeline, how captured media is merged and kept, how a dump fences off media that is already on its way, and how
each destination queues, thins, writes and acknowledges tags. It proves what holds after every call and over every run.

Objects that the program updates in place are classes with the same fields; each of their methods is proved against
functions and predicates on values. Threads appear as state machines whose steps are the sections under a mutex, the pop
from a queue, or one atomic exchange; every interleaving of those steps is a run.

## How the modules fit together

| module | what it covers |
|---|---|
| Media, Sorting, Streams | packets, stable sorting by decode time, the two streams of a capture |
| Timeline, Splice, Plans, Placement, Limits, Awaited, CodecInForce, Coordinator, EmptySilence | the transition coordinator: what a published item promises, what joining a feed does to it, where every packet is placed, when that may fail, what is waited for, which codec headers are in force, every public call, and what it relies on capture for |
| Dispatcher, EpochFloor, PublicationFence, PublicationFenceProofs | publication epochs, their lock-free counter, and the fence over capture, owner, coordinator and destinations |
| Interleaver, HoldingFeed, DelayController, ProgrammePath | merging captured streams, the holding feed's queue, the delay buffer, and the way from capture to that buffer |
| SenderQueue, SenderState, SenderSteps, SenderProofs, SenderIntake, SenderCongestion, SenderRuns, SenderTurns, RtmpSender, Overtaking, EarlyAcknowledgement | one destination: bounded queue, congestion, reconnects, acknowledgement, runs of all its threads, and what it writes undisturbed |
| Handoff | from the coordinator's batches through the floor and a consumer's gate to its sender |
| DeliveryGate, Delivery, Flv | the gate over all destinations, what one destination receives, FLV tags and AVC framing |

The dispatcher keeps ghost logs of what was sent and of what consumers answered. `TransitionCoordinator` carries a ghost `trace` (every item handed out), a plan (the trace followed by what is scheduled)
and `fed` (what the two feeds supplied). `DelayController` carries what arrived and what was taken since live began. `RtmpSender` carries a ledger of how its callers behaved. None of these influence
what the code does.

## Model

| member | source | states |
|---|---|---|
| Coordinator.TransitionCoordinator.ViewersGet | src/transition-coordinator.cpp:196-314 | After every call, failed or not: decode times never go back, tickets rise, each epoch opens with headers and every picture goes out under the headers of its own feed, pictures of the two feeds never overlap, inserted silence bears payloads of the holding feed, and no programme sound is heard while a holding picture is shown (capture admits no empty holding packet); feeds in order never cause a timestamp regression |
| Coordinator.TransitionCoordinator.Publish | src/transition-coordinator.cpp:206-314 | The new plan is exactly what `Published` says: which packets are collected for a join, the drain frame if one is owed, the start time, the silence in front, the order; the promise about sound survives the call if and only if the call does not meet the guard `Exposes`; and it fails only for a reason `MayFail` names, so that packets in time, in order, within the limits and a second of each other are always placed |
| Placement.PublishedSound | src/transition-coordinator.cpp:225-276 | For any plan and input, sound stays clear of holding pictures if and only if it was clear before and not: a programme joins while a holding picture is on screen, no silence is kept, and sound precedes its key picture |
| Plans.JoinSoundExactly | src/transition-coordinator.cpp:249-296 | The same for one join: it breaks the promise exactly when a programme with sound before its key picture joins behind a holding picture |
| Plans.JoinPlan | src/transition-coordinator.cpp:249-296 | A join placed one millisecond behind all sound and pictures of the old feed keeps order, pictures apart and silence apart; sound too, where a voiced holding feed allows a bridge |
| Plans.JoinLater | src/transition-coordinator.cpp:249-253 | Every packet of the joining feed has a strictly later wire time than everything planned before it; silence in front is not earlier |
| Placement.GatherFromKey | src/transition-coordinator.cpp:212-223 | What is collected for a join is the first key picture and everything behind it that is not earlier, in order |
| Splice.Bridge | src/transition-coordinator.cpp:262-273 | Silence on whole milliseconds from `from` to `until`: no two frames overlap, the first starts less than a millisecond late, gaps are below a millisecond, less than a frame and a millisecond is left; None only if a time exceeds 64 bits |
| Splice.SilenceCount | src/transition-coordinator.cpp:258-263 | The inserted frames together last no longer than the span, so at most one second for a resume |
| Coordinator.TransitionCoordinator.Request | src/transition-coordinator.cpp:50-78 | Fails exactly without holding headers, exactly if the controller refuses a delay that is not a direct switch, on used-up epochs, or exactly if a consumer reports an error, and never over codecs; otherwise it opens a later epoch with fresh deadlines and cancels exactly what was planned and not published: the plan becomes the trace, nothing is collected or waiting, a drain is owed if and only if holding follows published media, and the promise about sound is kept |
| Coordinator.TransitionCoordinator.ProgrammePacket | src/transition-coordinator.cpp:79-123 | While a paced holding scene runs, released packets wait from a key picture on and the plan is unchanged; otherwise they are placed as `Released` says, in an epoch of their own when they take over from holding, and never while an accepted action is pending. `Handles` names the reasons for a failure and what happens to each deadline |
| Coordinator.TransitionCoordinator.HoldingPackets | src/transition-coordinator.cpp:124-131 | The first holding sound is kept; packets are placed exactly while holding is wanted and no action is pending, and fail only as `MayFail` says; a call never changes whether sound is clear of holding pictures, publishes nothing while the programme is wanted, and stays voiced as long as no sound handed in is empty |
| Coordinator.TransitionCoordinator.HoldingTick | src/transition-coordinator.cpp:135-159 | A paced scene ends only if every consumer answered that it delivered the drain, a batch with real sound of the scene, and the last batch of its epoch (`Over`); it goes on only for a reason `GoesOn` names, such as a denied ticket asked for in this tick; what goes out is not before its place on the timeline, counted from the moment the drain was seen delivered, and nothing due stays; then a waiting programme is placed as `Released` says; fails as too late exactly past the deadline of an active guard |
| Coordinator.TransitionCoordinator.ProgrammeTick | src/transition-coordinator.cpp:161-190 | The plan never changes. Pacing ends, and the rest goes at once, only if every consumer delivered a batch with real sound of this epoch; until then what is due goes out, nothing goes before its place on the timeline, and the tick fails past the deadline and only then |
| Coordinator.TransitionCoordinator.CheckDeadline | src/transition-coordinator.cpp:132-195 | The plan changes only when the pace of a holding scene ends, which takes what `Over` says, and pacing goes on only for the reasons of `GoesOn` and `Paces`; each time-out needs its own deadline passed, and if the call does not fail, no deadline that applies has passed; sound is exposed only under the guard of ReleaseExposes |
| Delivery.MuxerNeverSeesTimeGoBack | src/flv-muxer.cpp:126-140 | For any subsequence of the coordinator's batches that reaches a destination, the muxer refuses the next batch if and only if a packet is not muxable by itself or the session outlasts 32 bits of milliseconds; time never goes back |
| EpochFloor.LaterCallsGetLaterEpochs | src/released-packet-dispatcher.cpp:10-31 | In every run of the exchange loops, a reserved epoch exceeds every epoch handed out before the call and the caller's bound |
| EpochFloor.LoopsAreAtomic | src/released-packet-dispatcher.cpp:10-31 | Each loop acts like one operation at its last exchange, has no effect before it, and fails only if the epochs are used up |
| EpochFloor.SomeoneGetsOn | src/released-packet-dispatcher.cpp:10-31 | A lost exchange means that another thread moved the floor |
| PublicationFenceProofs.DumpFence | src/pipeline-owner.cpp:122-171 | Once a discarding action or a stop has returned, no destination ever begins to write media captured before, over every later run of capture, owner, coordinator, fan-out and destinations |
| PublicationFenceProofs.ConsumersAreCoordinated | src/network-packet-consumer.cpp:31-64 | In every reachable state the consumer errors "not coordinated" and "headers missing" cannot occur, for any number of destinations |
| PublicationFenceProofs.CutoffHolds | src/pipeline-owner.cpp:55-65 | After a failure latched by the owner or capture, or a stop, no batch passes the comparison with the floor and the coordinator does not move on by itself |
| PublicationFenceProofs.FailureWindsUp | src/pipeline-owner.cpp:200-206 | After any latched failure, also one reported by a destination, the worker takes no further action and no further media, over every later run, and its next look at the failure ends it |
| PublicationFenceProofs.LostConsumerFencesNothing | src/pipeline-owner.cpp:242-243 | A run in which a batch still passes the floor after a destination reported its failure |
| PublicationFenceProofs.EpochsRise | src/pipeline-owner.cpp:138-146 | Over every run, the epoch of a new action exceeds the floor, the coordinator's epoch, every queued action's, and that of every action accepted before, dealt with or not |
| PublicationFenceProofs.AdvanceJumpsNothing | src/transition-coordinator.cpp:36-49 | The coordinator moves on by itself if and only if nobody reserved an epoch above its own, and then no accepted action, failure or stop waits |
| PublicationFenceProofs.BufferIsKept | src/pipeline-owner.cpp:148-159 | Over every run in which nobody asks for a dump or a stop, the capture token stays, and the owner holds exactly the media it held and what was captured since |
| PublicationFenceProofs.ActionsAreKept | src/pipeline-owner.cpp:146-147 | Over every run without a stop, accepted actions are dealt with once each, in the order of acceptance |
| PublicationFenceProofs.MediaFlowsAgain | src/released-packet-dispatcher.cpp:58-74 | In every reachable state in which all accepted actions were dealt with, the coordinator is in the newest epoch, and a batch it publishes reaches every destination that is not cut off, ready to be written |
| Interleaver.Ingress.Enqueue | src/pipeline-owner.cpp:83-121 | Refuses a packet exactly when the session stopped or failed, the token is old, or one of the listed faults holds; keeps the invariant that what was released is the merge of both streams strictly below the slower one |
| Interleaver.Ingress.Revoke | src/pipeline-owner.cpp:150-159 | A dump forgets what was captured and leaves a floor that covers all of it |
| Interleaver.ArrivalOrderDoesNotMatter | src/pipeline-owner.cpp:106-119 | Two captures that accepted the same two streams in any callback order released the same packets and hold the same ones |
| HoldingFeed.HoldingFeed.Ingest | src/holding-feed.cpp:39-72 | Keeps everything from the first key picture on and no older sound; fails exactly when late, out of order, or out of room |
| HoldingFeed.HoldingFeed.TakePackets | src/holding-feed.cpp:117-138 | All packets up to the slower stream, in decode order and pictures before sound at equal times, each stream in its own order; what was handed out and what is queued is a permutation of what was admitted, and the whole session's output is in decode order |
| DelayController.RollAgain | src/delay-controller.cpp:125-137 | Rolling packet by packet equals rolling everything accepted at once |
| DelayController.PayOut | src/delay-controller.cpp:353-360 | Releases from the front, in order, until at most the delay is held, and only packets more than the delay older than the newest |
| DelayController.DelayController.Promote | src/delay-controller.cpp:337-361 | A trim that was put off drops to the one place TrimsTo names, and nothing else happens while that leaves too much; a buffer that is long enough begins at its first key picture or fails without one; then what is older than the delay goes out |
| DelayController.TrimsToOnePlace | src/delay-controller.cpp:363-389 | Trimming ends at one determined place: the first key picture, or the front, that leaves at most the target, else the last one |
| DelayController.TrimToTarget | src/delay-controller.cpp:382-389 | Drops whole groups of pictures, as few as possible, until the target is met; false only if no number of them will do |
| DelayController.DelayController.Ingest | src/delay-controller.cpp:222-275 | For every state, exactly what is kept, dropped, released or failed, while building and trimming too, and whether live still waits for its key picture; a replay loses nothing and releases in order what is older than its delay |
| DelayController.DelayController.LiveIsWhole | src/delay-controller.cpp:229-246 | At every moment while live, what the owner was given is everything that arrived since live began, from the first key picture on, without sound older than it |
| DelayController.DelayController.PrebufferReadyExactly | src/delay-controller.cpp:55-68 | A rewind is ready if and only if everything accepted so far has a key picture that is old enough, and sound in time behind the latest such picture |
| DelayController.DelayController.Rewind | src/delay-controller.cpp:94-104 | Succeeds exactly when live with a ready history; replays all of it from a key picture at the age it has |
| DelayController.DelayController.ResumeLive | src/delay-controller.cpp:106-117 | What was not replayed becomes the next history, rolled to the target |
| DelayController.DelayController.SetTarget | src/delay-controller.cpp:139-184 | Accepts or refuses a target, and trims or builds the buffer accordingly: a trim ends at the one place TrimsTo names; a refusal changes nothing but ends a replay |
| DelayController.DelayController.RollingSpan | src/delay-controller.cpp:125-137 | While armed, the history spans at most target + key gap + stream skew, for any valid controller and any accepted media |
| ProgrammePath.Programme.IngestNext | src/delay-controller.cpp:253-257 | With capture, dumps and the owner interleaved in any way, through arming, filling the history, going live, rewinding, returning and changes of the target, the controller's backwards-timestamp error is never reached; a rolling history fails only beyond its limits |
| ProgrammePath.Programme.Arm | src/pipeline-owner.cpp:21-32 | Arming before capture succeeds exactly for a positive target within the maximum and leaves an empty rolling history |
| RtmpSender.RtmpSender.EnqueueEpoch | src/rtmp-sender.cpp:102-149 | Keeps `Valid`: on every connection of an orderly session video goes out in GOP prefixes. `Queues` says what becomes of a batch: queued video is shed exactly if the batch is three seconds late, or else only if it does not fit; then the queue holds the batch's video from its first key picture on; audio, guards and the largest ticket stay in any case; a refusal means no room even without video. A stale batch changes nothing; a batch that finds no connection counts as delivered; acknowledgement becomes inexact only by a batch as `Risky` says |
| SenderCongestion.QueuesAll | src/rtmp-sender.cpp:134-141 | Without congestion, less than three seconds behind and with room for it, the whole batch is queued and nothing leaves |
| SenderTurns.EverythingDueIsWritten | src/rtmp-sender.cpp:324-391 | A connected sender that nobody disturbs writes of its queue, in order, exactly headers, guards, and media from the first key picture on without sound older than it, and counts each ticket written |
| SenderIntake.AcknowledgedIsGone | src/rtmp-sender.cpp:437-446 | While the current epoch is exact, an acknowledged ticket lies below the batch of every tag still pending |
| SenderIntake.AcknowledgeAdvances | src/rtmp-sender.cpp:441-443 | Within an epoch each acknowledged ticket exceeds the ones before |
| SenderRuns.LevelFallsExactly | src/rtmp-sender.cpp:530-545 | Of all steps of all threads, within an epoch the delivered ticket falls at one only, and exactly when a transition cut the I/O of a counted epoch while the session is starting |
| SenderRuns.SessionIsSafe | src/rtmp-sender.cpp:278-406 | Over every run from the start of a session: GOP prefixes on the connection, and nothing counted as delivered is pending in an exact epoch |
| Handoff.SendersAreOrderly | src/network-packet-consumer.cpp:31-74 | Whatever the coordinator hands out, whoever moves the floor and announces epochs, and whatever the sender's threads do: until a consumer throws, its sender sees rising tickets and headers for each epoch, so that video goes out in GOP prefixes |
| Handoff.BatchIsAdmitted | src/network-packet-consumer.cpp:31-64 | A muxable batch of the gate's epoch, or a first one, that brings the headers the gate lacks, is handed to the sender under its ticket and throws nothing |
| Overtaking.HonestExactly | src/rtmp-sender.cpp:138-147 | Handing in a batch lets some pending tag acknowledge a batch behind it if and only if the push is refused, video is being dropped, and the batch has no key picture and ends in media video behind two other tags |
| Overtaking.AcknowledgedExactly | src/rtmp-sender.cpp:441-443 | The acknowledgement of a tag leaves every pending batch above the level exactly when its ticket is below every batch behind it |
| EarlyAcknowledgement.AcknowledgedEarly | src/rtmp-sender.cpp:138-147 | A run from the start in which batch 4 counts as delivered while a tag of it is still queued |
| SenderIntake.ReconnectTakesBack | src/rtmp-sender.cpp:530-545 | A reconnect takes an acknowledgement of the current epoch back if and only if a transition cut the I/O after media of that epoch counted as delivered; this happens only while the session is starting |
| SenderIntake.AcknowledgementTakenBack | src/rtmp-sender.cpp:530-545 | A run in which that happens |
| SenderIntake.BeginsInEpoch | src/rtmp-sender.cpp:448-455 | A write begins only in its tag's own epoch and not after a stop |
| SenderIntake.AcknowledgedFence | src/rtmp-sender.cpp:200-219 | Once an epoch is acknowledged, no older media is being written |
| SenderIntake.PublishedIsOnAir | src/rtmp-sender.cpp:382-387 | An epoch counts as published only after headers, a key picture and then sound no earlier than it were written on this connection |
| SenderQueue.BoundedSenderQueue.TryPush | src/bounded-sender-queue.cpp:16-36 | The whole batch or nothing, exactly by the two limits |
| SenderQueue.ShedKeepsTickets | src/bounded-sender-queue.cpp:38-57 | Shedding keeps the largest ticket: on a kept tag or carried |
| SenderQueue.ThinKeepsTickets | src/rtmp-sender.cpp:179-198 | So does thinning, which takes up the carried ticket |
| DeliveryGate.ExpiresExactly | src/multi-target-sender.cpp:214-245 | A secondary's wait expires if and only if its polls form a stall of a second: one epoch, no progress, no gap above a quarter second |
| DeliveryGate.IsolatedOnlyByStall | src/multi-target-sender.cpp:214-245 | The primary is never isolated, a secondary only by such a poll |
| DeliveryGate.WaitGoesOnExactly | src/multi-target-sender.cpp:233-238 | A wait goes on from one look to the next if and only if they are close together and between them no ticket of the epoch, or for the boundary no epoch, was delivered or lost |
| DeliveryGate.MultiTargetSender.DeliveryReady | src/multi-target-sender.cpp:214-245 | The gate opens if and only if every destination passes; each is polled once |
| Flv.ValidateAvc | src/flv-muxer.cpp:17-46 | Accepts exactly the concatenations of non-empty units, each behind its length in four bytes |
| Flv.FramingIsUnique | src/flv-muxer.cpp:17-46 | Length-prefixed framing is injective |
| Flv.StartCodeLookalike | src/flv-muxer.cpp:19-22 | A framed payload resembles an Annex B start code if and only if its first unit has 1 or 256 to 511 bytes, and is accepted all the same |
| Flv.FlvMuxer.Mux | src/flv-muxer.cpp:99-173 | A batch is muxed whole or refused without effect, exactly by packet and order; each tag carries its packet's time, composition offset and payload |
| Flv.ReadsTimes | src/flv-muxer.cpp:144-157 | From a tag, a reader gets the decode time and the signed composition offset of its picture up to the millisecond cut off towards zero |
| Flv.FileRoundTrip | src/flv-muxer.cpp:189-211 | Parsing a file header and any serialised tags gives the tags back |

## Properties that fail, and exactly when

- Early acknowledgement. After a refused push the thinned tags are tried again (src/rtmp-sender.cpp:141-143), and the ticket
  of their own batch, dropped with its last tag, is put on the first of them. HonestExactly gives the condition on the state
  and the batch; AcknowledgedEarly is a run. It costs exactness for the current epoch only: the next epoch starts exact.
- Acknowledgement taken back. reconnect clears the delivered ticket (src/rtmp-sender.cpp:537-544) and restores it only when
  no transition cut the I/O. LevelFallsExactly shows that no other step lowers it and gives the condition,
  AcknowledgementTakenBack a run.
- Cutoff by a failed destination. An error that a destination reports (src/pipeline-owner.cpp:243) reserves no epoch, unlike
  one of the owner (line 61): a batch already on its way passes (LostConsumerFencesNothing). FailureWindsUp bounds what may
  follow.

## Assumptions

- Capture admits no empty holding packet (src/holding-obs-packet.cpp:16-20, src/holding-obs-capture.cpp:178-179), so that
  `fed.Voiced()` holds from the constructor on through every call.
- Frame durations and the admission of codec headers, which the program derives from SPS/VUI and AudioSpecificConfig, are
  parameters (`Clock`, `admitted`). So are outcomes of the network, clock readings, and what other threads ask for.
- The coordinator sees only what consumers answer when asked about a ticket (`Answer`); any answer at any time is allowed.
  What a destination's yes means is proved of the sender (AcknowledgedIsGone) and of the gate (DeliveryReady).
- "Feeds in order" (`fed.inOrder`) means that each feed comes in decode order since it last restarted; only SilenceDisjoint
  and the absence of a timestamp regression need it.
- "Orderly" (`ledger.orderly`) means that tickets rise from batch to batch, that each epoch brings headers, and that nothing
  is handed in after a refusal. SendersAreOrderly derives it from the coordinator and the consumer.

## Remarks

- The coordinator relies on the first assumption. By itself, fed an empty holding sound, it would skip the resume bridge at
  src/transition-coordinator.cpp:254; `Exposes` is the exact guard, and EmptySilence.Run a run of its calls.
- The first silent frame of a resume is not earlier than the packet before it, and shares its wire millisecond exactly when
  that packet is on a whole millisecond and no sound outlasts it, for a session whose base is a whole millisecond
  (Plans.BridgeSharesTick). All packets of the joining feed are strictly later (JoinLater).

## Left out

- User interface, OBS callbacks, scene capture, preflight, configuration files, the FFmpeg connection and error texts.
- begin_broadcast and the prebuffer phase of the owner's loop: a start-up sequence before anything is published.
- enqueue without an epoch or ticket, which no destination uses: it would only add easy members.
- Bit readers for SPS/VUI and AudioSpecificConfig: their results are parameters.
- The startup watchdog of a sender appears as a time-out that may strike at each connection attempt.
- Delivery.MuxerNeverSeesTimeGoBack: states order for the batches one destination receives; the promises about pictures and sound are stated for everything handed out (ViewersGet), since a fenced-off batch may leave a gap.
- Interleaver.Ingress.Enqueue: sizes are those of payloads; the counters of last-seen times that only feed the status display are not modelled.
- EpochFloor.LoopsAreAtomic: memory order is sequential consistency.
