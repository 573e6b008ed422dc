# The bridge's stateful kernel

The bridge connects browsers to ROS: authenticated peers subscribe to and publish on topics over data
channels, and watch video that one encoder per track produces. Transport, encoders, ROS, clocks and
timers are injected, so what remains is state, arithmetic and parsing. This project models that kernel
and proves what it keeps on every run.

- **Media lifecycle** (`VideoSource`, `SourceInvariants`, `SourceNumbering`, `ServiceRuns`,
  `ServiceWitnesses`, `Media`): one encoder per track with a grace timer, a start deadline, a pending
  release and starts suspended on it; a turn is one synchronous stretch of the program.
- **Encoder workers** (`Deframers`, `Worker`, `Supervised`, `SupervisedWitnesses`): the byte-stream
  deframers, the supervision of a process, and the media plane with supervised workers as its encoders.
- **Replay** (`Fixture`): the backend that plays a recorded stream.
- **Command authority** (`GuardModel`, `GuardSafety`, `CommandGuard`): leases, single-use tickets and
  sequences, under authorization hooks that may call back into the guard to any depth.
- **Peer session** (`QueueModel`, `DeliveryQueue`, `CacheModel`, `RequestCache`, `DeliveryModel`,
  `DeliverySafety`, `RouterModel`, `RouterSafety`, `RouterBounds`, `RouterRequests`, `RouterPublishes`,
  `RouterWitnesses`, `SessionRouter`): bounded queues that own their buffers, idempotent requests and the
  mutually recursive flush, error and event of the session router.
- **Video slots** (`VideoModel`, `VideoSystem`, `VideoSafety`, `VideoWitnesses`, `RouterVideos`): the peers'
  slots coupled to the media plane, and what the session router's notifications do to them.
- **Codec** (`Decimal`, `Validation`, `Base64`, `CodecModel`, `CodecRoundTrip`, `Conversion`).

Each stateful part appears twice: as a function from state to state, about which runs and invariants are
proved, and as a class with the program's fields, loops and early exits whose methods end in exactly the
state the function gives. What the program asks of its surroundings (does the transport accept, is this
allowed, does a callback throw, what does the clock read) is a parameter or a tape of arbitrary answers.

## Where the code and its promises part

The model follows the code. Where a promise made by its comments does not hold, the exact condition is
proved instead.

- *"The phase already claims this source, so a second viewer will not start a third encoder"*
  (`packages/bridge/src/media/source.ts:156-160`). A start that expires while it waits for a release,
  followed by a new viewer, leaves two starts suspended; both resume and both create. The first encoder is
  then out of reach for good. `SourceInvariants.ExclusiveStep` and `ServiceRuns.ExclusiveExactly` give the
  condition, `ServiceWitnesses.DuplicateIsReachable` a run, `ServiceRuns.StrandedForever` and
  `ServiceRuns.DuplicateOutlives` the consequence, and `SupervisedRuns.OneWorkerPerTrack` the timing under
  which it cannot happen.
- *A starting source has a start in progress.* If the release settles while the last viewer is away,
  the start is abandoned but its phase stays; a viewer joining in the grace window waits for nobody until
  the start deadline. `SourceInvariants.ServedStep` and `ServiceRuns.ServedExactly` give the condition,
  `ServiceWitnesses.AbandonedStartIsReachable` a run with prompt stops, `ServiceRuns.DeadUntilEnded` the
  consequence.
- The catch block of a start fails the source without asking whether it was superseded
  (`packages/bridge/src/media/source.ts:178-181`). Supervised workers make this harmless, because one that
  was asked to stop stays silent: with them as encoders the one-encoder claim needs no assumption about
  rejected starts (`SupervisedRuns.OneWorkerPerTrack`). The exception is an encoder stranded as above:
  `SupervisedRuns.SupersededExactly` gives the condition, `SupervisedWitnesses.StrandedExitFails` a run in
  which such a worker's exit fails the source and drops the encoder that replaced it.
- The length failure of the line deframer depends on how the bytes were cut into chunks; what it emits does
  not (`Deframers.LinesIgnoreChunks`). `Deframers.LengthFailureExactly` gives the condition: all cuts agree
  iff the unterminated rest is over the limit, or neither it nor any line is.
- `watching` and `attached` of a video binding are documented to diverge when a source fails
  (`packages/bridge/src/router/video.ts:15-21`); in the code they are always equal (`VideoModel.Agreed`,
  part of `VideoSafety.Sound`).
- A peer whose router is closed by a notification inside its own attachment leaves its viewer in the
  source (`VideoWitnesses.ClosesInsideIsReachable`); an encoder that fails inside the attachment that starts
  it leaves the track marked attached with no viewer (`VideoWitnesses.FailsInsideIsReachable`).
  `VideoSafety.PerformStep` proves that nothing else breaks the coupling, revocations and packets inside an
  attachment included. The first happens with any backend, when the peer's control queue overflows. The
  second needs a backend that reports failure before its start is answered; neither shipped backend does: a
  worker's failure callback runs only after its start was answered (`WorkerModel.EveryWorker`), and the
  recording player never calls it.
- `SessionRouter.close` stops at the first track the media plane refuses to detach, which it does once it
  has shut down, and then releases nothing else (`RouterSafety.CloseExactly` gives the condition,
  `RouterWitnesses.KeptCloseIsReachable` a run). The program closes its
  peers before the media plane (`packages/bridge/src/app/runtime.ts:35-38`), so this order does not arise there.

## Model

| member | source | states |
|---|---|---|
| `SourceInvariants.ShapeStep` | packages/bridge/src/media/source.ts:101-182 | every turn keeps: starting iff the start deadline is armed; starting or active without viewers iff the grace timer is armed; viewers only then, and told the current phase; a current encoder only then, always when active |
| `SourceInvariants.ExclusiveStep` | packages/bridge/src/media/source.ts:156-168 | a turn keeps a source to the encoder it holds iff it does not resume two wanted starts on one release |
| `SourceInvariants.ServedStep` | packages/bridge/src/media/source.ts:161-165 | a turn leaves a starting source with an encoder or a suspended start iff it does not settle a release while nobody watches a suspended start |
| `SourceInvariants.StrandedStep` | packages/bridge/src/media/source.ts:229-249 | no turn reaches an encoder that is neither current nor being released |
| `SourceInvariants.PromptStep` | packages/bridge/src/media/source.ts:151-170 | while stops settle within both intervals, and no encoder rejects its start once it was stopped for one that waits, at most one start is ever suspended |
| `SourceInvariants.ViewersStep` | packages/bridge/src/media/source.ts:229-242 | exactly who watches after each turn, and that watchers are told of a failure iff the turn is one |
| `SourceNumbering.NumberedStep` | packages/bridge/src/media/source.ts:197-226 | every turn keeps the numbering continuous across encoders |
| `ServiceRuns.EveryRun` | packages/bridge/src/media/index.ts:83-99 | on every run at most `maxPipelines` sources run, timers, viewers and encoders agree, the i-th packet of a track carries sequence i mod 2^16, one encoder's timestamps are shifted by a constant, and encoders join one frame apart |
| `ServiceRuns.NothingLingers` | packages/bridge/src/media/source.ts:120-155 | on every run an encoder nobody watches has a timer that puts it into release, and a start has one that fails it |
| `ServiceRuns.NoEarlyRestart` | packages/bridge/src/media/source.ts:45-68 | no encoder is created within the retry interval of the source's latest failure |
| `ServiceRuns.NothingAfterShutdown` | packages/bridge/src/media/index.ts:111-115 | after close no encoder is ever created and nobody watches |
| `ServiceRuns.ExclusiveExactly` | packages/bridge/src/media/source.ts:156-168 | a run keeps every track to the encoder it holds iff no turn resumes two wanted starts |
| `ServiceRuns.ServedExactly` | packages/bridge/src/media/source.ts:161-165 | a run keeps every starting source with an encoder or a suspended start iff no release settles while nobody watches a start that waits for it |
| `ServiceRuns.DeadUntilEnded` | packages/bridge/src/media/source.ts:101-113 | a start left without either gets no encoder, whoever joins and leaves, until a timer, a failure or a close ends it |
| `ServiceRuns.OneEncoderPerTrack` | packages/bridge/src/media/source.ts:142-182 | when each stop settles within the grace and start intervals and no encoder rejects its start after being stopped for one that waits, a track never has two encoders, current and released together, and the host never more than `maxPipelines` |
| `ServiceRuns.StrandedForever` | packages/bridge/src/media/source.ts:229-249 | a stranded encoder outlives every run |
| `ServiceRuns.DuplicateOutlives` | packages/bridge/src/media/source.ts:160-169 | once two wanted starts resume on one release, the first encoder they create is out of reach on every continuation |
| `ServiceWitnesses.DuplicateIsReachable` | packages/bridge/src/media/source.ts:160-169 | a run of six turns that leaves a track with two live encoders |
| `ServiceWitnesses.AbandonedStartIsReachable` | packages/bridge/src/media/source.ts:160-165 | a run with prompt stops that leaves a viewer waiting for a start nobody makes |
| `Media.VideoSource.Begin` | packages/bridge/src/media/source.ts:151-182 | the start as the model has it, up to the encoder it creates or the release it waits for |
| `Media.VideoSource.Finish` | packages/bridge/src/media/source.ts:229-249 | timers disarmed, encoder dropped into release, viewers told and, on failure, let go |
| `Media.VideoSource.Renumber` | packages/bridge/src/media/source.ts:197-207 | the packet buffer is rewritten in place with the model's sequence and timestamp and is otherwise untouched |
| `Media.VideoSource.OnStopSettled` | packages/bridge/src/media/source.ts:243-248 | the release is cleared and every suspended start resumed in order |
| `Media.MediaService.Attach` | packages/bridge/src/media/index.ts:83-94 | refused exactly as the model refuses, otherwise the source gains the viewer |
| `Media.MediaService.Close` | packages/bridge/src/media/index.ts:112-115 | every source is closed |
| `Deframers.PacketsIgnoreChunks` | packages/bridge/src/media/worker.ts:35-48 | any two ways of cutting the same bytes deliver the same packets, keep the same rest and agree on failure |
| `Deframers.FramesReadBack` | packages/bridge/src/media/worker.ts:35-48 | framings of packets in range (section 2 of RFC 4571) are read back exactly |
| `Deframers.PacketsConserve` | packages/bridge/src/media/worker.ts:35-48 | packets delivered and bytes kept are the bytes received, and at most 1501 stay buffered without a failure |
| `Deframers.LinesIgnoreChunks` | packages/bridge/src/media/worker.ts:16-28 | the lines emitted and the bytes kept do not depend on the cuts |
| `Deframers.LinesReadBack` | packages/bridge/src/media/worker.ts:16-28 | exactly the non-empty terminated segments are emitted |
| `Deframers.FeedingFailsExactly` | packages/bridge/src/media/worker.ts:18-27 | feeding fails iff after some chunk more than 8192 bytes are unterminated |
| `Deframers.LengthFailureExactly` | packages/bridge/src/media/worker.ts:25-27 | every two ways of cutting the same bytes agree on the length failure iff the unterminated rest is over the limit, or neither it nor any line is |
| `Deframers.PacketReader.Feed` | packages/bridge/src/media/worker.ts:37-47 | the loop delivers the packets of buffered and new bytes and keeps the rest |
| `WorkerModel.QuietOnceStopped` | packages/bridge/src/media/worker.ts:82-91 | once a stop is requested no line, frame, garbage or exit is ever reported as a rejection or a failure |
| `WorkerModel.EveryWorker` | packages/bridge/src/media/worker.ts:75-111 | a start is answered at most once and failures are reported only after that |
| `Workers.WorkerSource.OnOutput` | packages/bridge/src/media/worker.ts:92-107 | a chunk of output is read, interpreted and reported as the model says |
| `SupervisedRuns.CuesAreStep` | packages/bridge/src/media/worker.ts:81-111 | what a signal makes a worker react to, line by line and packet by packet, adds up to the worker model's step |
| `SupervisedRuns.SignalIsStep` | packages/bridge/src/media/worker.ts:81-111 | in the media plane too a signal takes its worker where the worker model does, unless what the source hears makes it ask for a stop meanwhile |
| `SupervisedRuns.StopIsFollowed` | packages/bridge/src/media/worker.ts:128-134 | an encoder that goes into release is stopped as the worker model stops it |
| `SupervisedRuns.OneWorkerPerTrack` | packages/bridge/src/media/worker.ts:68-111 | whatever the workers output and however they exit: when each stop settles within the grace and start intervals, no track has two encoders and the host no more than `maxPipelines` |
| `SupervisedRuns.SupersededExactly` | packages/bridge/src/media/source.ts:171-181 | a superseded encoder's packets and failures never move the source; its worker rejects its start iff it is stranded, unanswered and in trouble, and that fails the source |
| `SupervisedRuns.SpentSignalIgnored` | packages/bridge/src/media/source.ts:171-177 | a whole signal of a superseded encoder that is stopping or answered changes no source |
| `SupervisedWitnesses.StrandedExitFails` | packages/bridge/src/media/source.ts:178-181 | a run in which the exit of a stranded worker fails the source and drops the encoder that replaced it |
| `FixtureModel.ParseExactly` | packages/bridge/src/media/fixture.ts:26-48 | a framed recording parses iff some packet is joinable; its frames concatenate to its packets in order, adjacent frames differ in timestamp |
| `FixtureModel.UnframeConserves` | packages/bridge/src/media/fixture.ts:29-33 | whatever parses is the framing of its packets, up to a last byte too few for a length |
| `FixtureModel.SeekIsNearest` | packages/bridge/src/media/fixture.ts:103-109 | a keyframe request moves to the cyclically nearest keyframe at or after the cursor |
| `FixtureModel.RunContiguous` | packages/bridge/src/media/fixture.ts:78-92 | through loops and seeks the i-th packet sent is a recorded one, renumbered i mod 2^16 |
| `FixtureReplay.ParseFixture` | packages/bridge/src/media/fixture.ts:26-58 | the loop over offsets computes the model's parse |
| `FixtureReplay.FixtureSource.Play` | packages/bridge/src/media/fixture.ts:78-92 | one frame is copied, renumbered and sent, and cursor, sequence and timestamp move as the model says |
| `GuardSafety.EveryRun` | packages/bridge/src/session/command-guard.ts:39-118 | whatever calls are made and whatever their hooks do: one lease per topic, numbers only grow on a handle, tickets are used once; when a session publishes on a topic another was granted or used a lease on, that session's latest lease there, renewals included, had expired or been given up by closing its handle, its session or the guard |
| `GuardSafety.PublishExactly` | packages/bridge/src/session/command-guard.ts:75-96 | the callback runs iff the ticket is unused and, in the state the hook left, session, handle, epoch and lease are registered, the lease is unexpired and the number is above all published |
| `GuardSafety.ArmExactly` | packages/bridge/src/session/command-guard.ts:55-72 | arming succeeds iff the hook allows it and, in the state the hook left, the handle is owned, the clock is sound and no other session's lease on the topic is unexpired; then no other handle of the topic holds one |
| `GuardSafety.GrantKeepsOthers` | packages/bridge/src/session/command-guard.ts:61-63 | no other session's unexpired lease is displaced |
| `CommandGuards.CommandGuard.Arm` | packages/bridge/src/session/command-guard.ts:55-72 | the object ends in the model's state, with the hook's calls made on the object itself |
| `CommandGuards.CommandGuard.Publish` | packages/bridge/src/session/command-guard.ts:85-94 | the same for publishing, callback included |
| `QueueSafety.EveryRun` | packages/bridge/src/session/delivery-queue.ts:34-119 | bytes are the sum of pending lengths and within budget; what dequeue returned from a live reliable stream, followed by what is pending, is exactly what was accepted; a latest stream holds at most the newest message, returns accepted ones in increasing order and counts every other as lost; stopped streams hold nothing |
| `DeliveryQueues.DeliveryQueue.Enqueue` | packages/bridge/src/session/delivery-queue.ts:46-71 | the message goes into a fresh buffer of the queue's own, or is dropped or refused, as the model says of the bytes it held |
| `DeliveryQueues.DeliveryQueue.Dequeue` | packages/bridge/src/session/delivery-queue.ts:73-80 | the stored buffer of the head leaves the queue's buffers and holds what the model says was pending |
| `DeliveryQueues.ReuseBuffers` | packages/bridge/src/session/delivery-queue.ts:65-92 | whatever the stream holds, overwriting the buffers offered, shown and handed over changes nothing the queue shows, delivers or still holds |
| `CacheSafety.EveryRun` | packages/bridge/src/router/request-cache.ts:11-38 | cache bytes are the sum of entries and within budget; stored executions of one id are a lifetime apart; a retransmission in between replays identical bytes without executing and other content is refused |
| `CacheSafety.ReservedBeforeRunning` | packages/bridge/src/router/index.ts:137-143 | an operation runs only when its largest response is sure to fit |
| `CacheSafety.Retransmission` | packages/bridge/src/router/index.ts:134-145 | what was stored or replayed is replayed; an operation that failed may run again |
| `RequestCaches.RequestCache.Lookup` | packages/bridge/src/router/request-cache.ts:11-23 | the deletion loop reclaims exactly the expired entries before looking up |
| `DeliverySafety.HandOverKeeps` | packages/bridge/src/router/index.ts:275-283 | handing over a head keeps the order, the numbering and the trace claims |
| `DeliverySafety.OfferKeeps` | packages/bridge/src/router/index.ts:197-207 | a numbered sample keeps the invariant, or its stream can be removed with it kept |
| `DeliverySafety.OpenStreamKeeps` | packages/bridge/src/router/index.ts:183-191 | opening under a new identifier, or failing to, keeps the invariant |
| `DeliverySafety.ExpelKeeps` | packages/bridge/src/router/index.ts:268-273 | denial and removal keep the invariant, after which nothing of the stream goes out |
| `RouterModel.Flush` | packages/bridge/src/router/index.ts:79-94 | flush, revalidate, event and error end: every call lessens watched tracks plus subscriptions or the kind of call, and none raises them |
| `RouterSafety.FlushKeeps` | packages/bridge/src/router/index.ts:79-94 | with the five lemmas it recurs with: the whole recursion keeps the session invariant under every answer |
| `RouterSafety.EveryRun` | packages/bridge/src/router/index.ts:57-94 | fifo messages (and control) are handed over numbered 0, 1, 2, ..., latest ones increasing, each the envelope of its sample, with no control message queued and right after an authorization in the same pass, none after a denial or the close; in an open session nothing offered to a fifo subscription is missing |
| `RouterSafety.CloseExactly` | packages/bridge/src/router/index.ts:97-112 | closing releases everything iff the media plane is up or holds no viewer of this peer, and otherwise keeps everything else |
| `RouterWitnesses.KeptCloseIsReachable` | packages/bridge/src/router/index.ts:97-112 | a run of four turns that ends closed with the queue and the request cache still held |
| `RouterPublishes.PublishOnce` | packages/bridge/src/router/index.ts:215-237 | a message reaches ROS at most once per call, with a sequence and a time past what its handle recorded, and the handle records both |
| `RouterPublishes.EveryPublication` | packages/bridge/src/router/index.ts:215-237 | on every run, on a handle the session gave out itself, messages reach ROS numbered upwards and at least the topic's rate interval apart |
| `RouterBounds.RunBounded` | packages/bridge/src/router/index.ts:148-157 | on every run subscriptions and publishers stay within the handle bound and the cache within its budget |
| `RouterRequests.RequestServes` | packages/bridge/src/router/index.ts:134-145 | a session's request acts on the cache as the idempotent service; replays and refusals run no operation |
| `RouterRequests.RunServes` | packages/bridge/src/router/index.ts:134-145 | on every run the cache of an open session is what the idempotent service makes of the requests that came through |
| `RouterRequests.NothingRunsTwice` | packages/bridge/src/router/index.ts:134-145 | on every run of an open session, a request that comes again within the lifetime of its stored execution runs no operation: the same content is answered with the same bytes, other content is refused |
| `SessionRouters.SessionRouter.Flush` | packages/bridge/src/router/index.ts:79-94 | the loop over subscriptions, with its early returns, computes the model's flush |
| `SessionRouters.SessionRouter.Drain` | packages/bridge/src/router/index.ts:276-283 | heads are sent while accepted, each removed only after it was |
| `SessionRouters.SessionRouter.Sample` | packages/bridge/src/router/index.ts:194-212 | readiness, authorization, rate, numbering, queueing and the catch path as the model has them |
| `SessionRouters.SessionRouter.Receive` | packages/bridge/src/router/index.ts:57-76 | one inbound message, any operation, its flush and its rejection |
| `SessionRouters.SessionRouter.Close` | packages/bridge/src/router/index.ts:97-112 | resources are released in the program's order, including where an exception ends it |
| `SessionRouters.VideoRouter.Revalidate` | packages/bridge/src/router/video.ts:100-107 | the loop lets go of denied tracks and tells the peer, calling back into the router |
| `SessionRouters.VideoRouter.Bind` | packages/bridge/src/router/video.ts:110-131 | a slot of the track's profile moves from free to bound, or the refusal is the model's |
| `VideoSafety.PerformStep` | packages/bridge/src/router/video.ts:71-143 | until shutdown a turn, whatever its notifications provoke, keeps `attached` equal to membership in the source iff it fails no encoder inside the attachment that starts it, and leaves no viewer of a closed peer iff it closes no router inside its own attachment without such a failure |
| `VideoSafety.AttachedMeansViewer` | packages/bridge/src/router/video.ts:71-143 | on every run without such turns: attached iff the viewer is in the source, and closed peers have none |
| `VideoWitnesses.FailsInsideIsReachable` | packages/bridge/src/router/video.ts:71-79 | a run that leaves a track marked attached with no viewer in its source |
| `VideoWitnesses.ClosesInsideIsReachable` | packages/bridge/src/router/video.ts:71-79 | a run that leaves the viewer of a closed peer in a source |
| `RouterVideos.AnnouncedDoes` | packages/bridge/src/router/video.ts:71-107 | whatever is announced inside an attachment and whatever the surroundings answer, the session router's recursion does to its video what a sequence of revocations and closes does in the coupled system |
| `VideoSafety.SlotsForEver` | packages/bridge/src/router/video.ts:110-131 | on every run free plus bound slots are the negotiated ones, bound one to one at a matching profile, for good |
| `Decimal.TwentyCharactersSuffice` | packages/bridge/src/codec/scalars.ts:27-30 | the 20-character cap excludes no 64-bit integer |
| `Validation.SequenceExactly` | packages/bridge/src/session/validation.ts:14-20 | accepts exactly the decimal prints of 0 to 2^64-1, each as its value |
| `Base64.DecodeExactly` | packages/bridge/src/codec/scalars.ts:74-82 | a text decodes to given bytes iff it is their encoding (sections 3.5 and 4 of RFC 4648) |
| `Base64.CanonicalExactly` | packages/bridge/src/codec/scalars.ts:77-80 | syntax and canonical padding accept exactly the encodings |
| `CodecRoundTrip.RoundTrip` | packages/bridge/src/codec/index.ts:14-46 | at any depth and budget already spent, what one direction accepts the other accepts back as the normal form, spending exactly as many nodes |
| `CodecRoundTrip.EncodeDecode` | packages/bridge/src/codec/index.ts:48-53 | decode(encode(v)) is v normalised, encodes to the same wire value, and is v iff its leaves are exact |
| `CodecRoundTrip.DecodeEncode` | packages/bridge/src/codec/index.ts:48-53 | the same the other way round |
| `CodecRoundTrip.Integer64Exactly` | packages/bridge/src/codec/scalars.ts:19-45 | a 64-bit field reads exactly the text it prints, for every value in range |
| `CodecRoundTrip.BinaryExactly` | packages/bridge/src/codec/scalars.ts:67-83 | a byte field reads exactly the base64 of byte strings within its limits |
| `Codec.Conversion.Visit` | packages/bridge/src/codec/index.ts:17-44 | the walk with a mutable node counter and result loops computes the model's traversal |

## Left out

- RouterSafety.EveryRun: `send`, `authorize` and ROS callbacks answer without calling back into the session within the turn; the notifications of the media plane do call back, as the code has it.
- VideoSafety.PerformStep: turns after the media plane has shut down are not covered; a shutdown takes viewers out without telling their peers.
- ServiceRuns.OneEncoderPerTrack: needs stops that settle within both intervals, without which the claim is false (ServiceRuns.ExclusiveExactly says exactly when), and encoders that do not reject a start late, which supervised workers never do (SupervisedRuns.OneWorkerPerTrack).
- RouterPublishes.EveryPublication: handles the session gives out itself; those of guarded topics come from the command guard, whose own runs GuardSafety.EveryRun covers.
- RouterRequests.NothingRunsTwice: says nothing of a session that has closed, which answers no request.
- SupervisedRuns.OneWorkerPerTrack: a rejected start reaches its source when the output, packets or exit that caused it are dealt with, before anything else happens.
- CodecRoundTrip.RoundTrip: float32 rounding is any idempotent map; the bits of IEEE 754 are not modelled.
- JavaScript objects with accessors, holes, symbols or prototypes are one kind of value the codec refuses.
- Strings are sequences of Unicode scalar values, so unpaired surrogates, which the codec refuses, do not occur.
- Wire envelopes are an arbitrary function from envelopes to bytes; JSON, UTF-8 and the check for unknown fields are not modelled.
- Times are real numbers; the schedule of timers is any schedule that respects their due times.
- The command guard inside the session is its answers; the guard itself is modelled apart from the session.
- What a sample's codec returns inside the session is opaque data; the codec is modelled apart.
- The profile of a slot is a number; reading it from SDP hexadecimal is not modelled.
- Keyframe requests of a decoder reach the media plane as its own turns, not through the slot callback.
- Constructors take validated limits; configuration parsing, schema snapshots and descriptor generation are not modelled.
- `probe`, diagnostics, catalog contents and counters shown to operators only.
- HTTPS, signaling, WebRTC, child processes, GStreamer, ROS and command-line entry points.
