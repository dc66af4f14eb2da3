# WebSubHub: a verified model

WebSubHub is an event-sourced, at-least-once WebSub broker. This project models three state
machines that share one log, and proves what every run of them keeps.

- **Replicated state.** A deterministic reducer folds seven kinds of events into topics and
  subscriptions. A consolidator runs it with durable snapshots and one acknowledgement per event,
  and can crash between any two operations. Each hub runs the same reducer from a barrier snapshot
  plus its own consumer, and the two sources overlap.
- **Delivery.** A consumer that acknowledges contiguously, over a polling client that can lose
  records on an error, driven by a worker that retries, asks for redelivery, dead-letters and reconnects.
- **Ownership.** A manager that reconciles workers with a snapshot while workers finish on their own.

Around them: the handlers that decide which events enter the log, the ingestion gate, the snapshot
and record codecs, and the length-framed identity of a subscription (a subscription is keyed by topic
and callback, section 5.1 of W3C WebSub; a 410 answer to a delivery ends it, section 7).

Code that updates state in place is modelled by classes and loops: the reducer's clone, the
consolidator service, the hub projection, the consumer, the worker and the manager. Pure decisions
are functions. Failures of the broker, lost responses, batch sizes, watermarks, cancellations and the
actions of other processes are nondeterministic choices, so a proved clause holds for all of them.
The manager holds the workers themselves, over one event log and one consumer group per subscription.
`ConsolidatorService` records each step it takes, and its invariant says the record is a run of the
step system in `Consolidator`; a crash is possible after each recorded step.

Library code is left open. The media-type normalizer, the acceptance of subscription options,
lower-casing and the SHA-256 digests are function parameters, and nothing is assumed about them beyond
what a `requires` clause names. An instant is an `int` with zero for the zero time; revisions and
receipts are `nat`; backoff is over `real`.

## What does not hold, and when it does

Each of these has a concrete run or an all-inputs lemma, and a condition that is exact.

- **Replaying the overlap is not always harmless.** docs/architecture/decisions/0011-snapshot-startup-barrier.md
  (lines 22-26) says duplicates do not advance the revision twice. Three logs show a replay that is
  rejected (`ReplayedVerifyIsRejected`), that counts twice (`ReplayedRegistrationCountsTwice`) and
  that inserts a subscription (`ReplayedMergeInserts`). The hub converges iff every overlap event is a
  no-op at the barrier (`ConvergesExactly`), and a no-op stays one iff no later effective event
  disturbs it (`StaysNoOpExactly`).
- **The barrier can be old.** The flag a batch carries compares with the watermark it was fetched
  with, which can precede the request, and `Refresh` accepts it. A tidy run from the initial world ends
  a poll that way (`OldWatermarkEndsThePoll`), and a hub that observed the end first then misses an
  event for good (`StaleBarrierLosesEvent`). The barrier covers the request iff its last poll read the end
  of the log or the watermark it took for the end is not older than the request (`Service.Refresh`,
  `Projection.Start`), and a gap is harmless iff all it holds are no-ops (`GapIsHarmlessExactly`).
- **Crash safety fails after two windows.** It holds at every point of a run, crashes and lost
  responses anywhere, iff every durable save and acknowledgement in it is guarded: what is saved is a
  change the log itself makes from the state in memory no later than the committed offset, and what is
  acknowledged are no-ops on the latest stored snapshot (`CrashSafetyExactly`). Tidy runs, which stay out
  of two windows, always are (`CrashSafety`, `TidyIsGuarded`).
  - The snapshot loader acknowledges records under a durable group of its own and deletes that
    progress afterwards. If it stops in between, the next start loads the empty snapshot
    (`CommittedStateIsLost`, `LoaderWindowLosesExactly`), and the next event is stored and
    acknowledged safely only under two exact conditions (`WindowThenSaveExactly`, `WindowThenAckExactly`).
  - A receive error under an expired context returns without marking the consumer failed, so records
    the poll had already taken are stepped over (`DroppedEventIsSkipped`). That they were no-ops does
    not help if the next event is effective: it is stored two events past the commit, and a crash
    counts a dropped event again (`DroppedNoOpCountsAgain`). `DropThenSaveExactly`, `DropThenNoOpExactly`
    and `DropThenAckExactly` say exactly when going on is safe; then it is as if nothing had happened.
- **A hub's own event can stop the log.** A handler decides on its hub's view, and a rejected event
  stops the fold at its place for good (`PoisonStopsTheLog`). Topics in a view are always canonical
  (`HubTopicIsCanonical`), so deregistrations are always accepted; registrations and verifications are
  accepted under exact conditions, and lagging ones stop the log (`RacingRegistrationsStopTheLog`,
  `LateVerificationStopsTheLog`). Subscriptions in a view need not be: withdrawing one is accepted iff
  some verification of it was admitted rather than merged (`WithdrawalAcceptedExactly`), which an
  overlap of no-ops guarantees and a replayed merge breaks (`MergedWithdrawalStopsTheLog`).
- **Two hubs can want one subscription**, but only if its identifier was verified for both servers and
  one of the hubs was changed by its overlap (`HubsNeverShareASubscription`); a concrete log does it
  (`ReplayedMergeSharesASubscription`).
- **"Caught up" can be wrong after a failed poll.** Records that a poll took before it reported an error
  are never handed out, and the consumer still reports that it is caught up (`TornClientLooksCaughtUp`);
  everything else was handed out or resolved (`Consumer.CaughtUp`).
- **An active subscription can keep a worker that is asked to stop.** `Reconcile` is documented to maintain
  a worker for every active subscription (internal/delivery/manager.go:66-67), and it does not replace a
  registered one. A subscription that goes stale and is reactivated before its worker is done keeps that
  worker (`ReactivatedTooEarly`). Its worker is running and not asked to stop iff none was registered or
  the registered one was so already (`ReconcileAdmission`).
- **At-least-once begins at the first commit.** A reopened client skips no unresolved record iff the
  partition has a commit, or the consumer starts at the earliest record, or its start happens to be
  early enough (`ReopenSkipsNothingExactly`); a concrete record is lost otherwise
  (`UncommittedRecordIsLost`). Delivery is at least once from the first committed offset on, and from the
  start of the log for a consumer that starts there.

## Model

| member | source | states |
|---|---|---|
| `ReducerLaws.ApplyEvolves` | internal/state/reducer.go:51-149 | no accepted event lowers the revision, deletes an entity, changes a topic's URL or content type, changes a subscription beyond status, reason and revision, or revives a removed one |
| `ReducerLaws.ApplyKeepsValid` | internal/state/snapshot.go:81-118 | what the reducer returns passes the snapshot validation |
| `ReducerLaws.ApplyAdvances` | internal/state/reducer.go:38-48 | a change advances the revision by exactly one, anything else leaves the whole snapshot alone |
| `ReducerLaws.CommitKeepsStamps` | internal/state/reducer.go:165-196 | entity revisions over both maps stay positive, pairwise distinct and at most the snapshot's, and one of them equals it |
| `ReducerLaws.ApplyKeepsSound` | internal/state/reducer.go:51-196 | validity, one live subscription per (topic, callback), existing topics with matching URLs, non-zero times and distinct stamps are kept by every accepted event |
| `ReducerLaws.ApplyIsIdempotent` | internal/state/reducer.go:30-149 | an event applied twice in a row counts once, for every kind of event |
| `ReducerInPlace.Clone.RemoveSubscription` | internal/state/reducer.go:151-163 | in-place removal writes exactly the removal effect, or nothing when it is rejected or already removed |
| `ReducerInPlace.Clone.RegisterTopic` | internal/state/reducer.go:53-76 | in-place registration computes the specified effect, including both contract mismatches |
| `ReducerInPlace.Clone.VerifySubscription` | internal/state/reducer.go:88-120 | in-place admission computes the specified effect whatever order the subscriptions are scanned in; what that effect stores is stated on fields by `VerificationExactly` |
| `ReducerInPlace.Clone.ChangeInPlace` | internal/state/reducer.go:51-149 | the in-place change of all seven event kinds is the specified effect before its stamp |
| `ReducerInPlace.Clone.StampRevision` | internal/state/reducer.go:165-196 | exactly the named entity gets the new revision |
| `ReducerInPlace.ApplyCloned` | internal/state/reducer.go:30-49 | cloning, changing in place and stamping refines the one-step reducer, whose result on every snapshot and event is stated on fields in `ReducerEffects` |
| `ReducerEffects.SnapshotIsValidExactly` | internal/state/snapshot.go:81-118 | a snapshot is valid iff its schema, every topic and every subscription meet the listed conditions |
| `ReducerEffects.EventIsValidExactly` | internal/state/events.go:98-122 | an event is valid iff its metadata is complete and a registered type is normalized |
| `ReducerEffects.InvalidIsRejected` | internal/state/reducer.go:30-42 | which of the three errors a rejected application reports |
| `ReducerEffects.RegistrationExactly` | internal/state/reducer.go:53-76 | a registration is accepted iff complete and not contradicting URL or type, changes anything iff the same active registration is not there, and then stores all six registered fields as an active topic under the next revision and nothing else |
| `ReducerEffects.DeregistrationExactly` | internal/state/reducer.go:77-87 | a deregistration is accepted iff the topic exists, and then only an active one becomes inactive, with its registration kept |
| `ReducerEffects.VerificationExactly` | internal/state/reducer.go:88-120 | a verification is accepted iff complete, on an active topic with its URL, and new or identical; it changes anything iff new and the pair is free; then all eleven fixed fields, secret and consumer included, are stored as given, active, without a reason, under the next revision, and nothing else |
| `ReducerEffects.RemovalExactly` | internal/state/reducer.go:151-163 | an unsubscription or removal is accepted iff the subscription exists, and only its status, reason and revision change |
| `ReducerEffects.StaleExactly` | internal/state/reducer.go:122-133 | a stale mark is accepted iff the subscription exists and is not removed, and stores status and reason and nothing else |
| `ReducerEffects.ReactivationExactly` | internal/state/reducer.go:134-145 | a reactivation is accepted iff the subscription exists and is not removed, and clears the reason |
| `EventLog.FoldKeeps` | internal/app/hubstate/projection.go:153-162 | folding any events keeps validity and soundness, evolves the state, and an unchanged revision means an unchanged state |
| `EventLog.ReachableIsSound` | internal/state/reducer.go:51-196 | every state reachable from the empty snapshot satisfies all invariants |
| `EventLog.ReachableEvolves` | internal/state/reducer.go:51-163 | along one log nothing is deleted, retyped, re-owned or revived |
| `EventLog.RevisionCountsEffects` | internal/state/reducer.go:38-48 | the revision is the number of effective events of the prefix |
| `EventLog.RevisionIdentifiesState` | internal/state/reducer.go:38-48 | two prefixes of one log with equal revision have equal state |
| `EventLog.FoldNeedsCause` | internal/state/reducer.go:77-87 | a removed subscription or inactive topic is explained by a removal or deregistration among the events |
| `Replay.ReplayIsSilentExactly` | internal/app/hubstate/projection.go:153-162 | replay succeeds without a revision change iff every replayed event is a no-op on the starting state |
| `Replay.HubViewIsSound` | internal/app/hubstate/projection.go:102-162 | every hub view satisfies all invariants of reachable states, whatever replaying its overlap did to it |
| `Replay.ConvergesExactly` | docs/architecture/decisions/0011-snapshot-startup-barrier.md:22-26 | the hub equals the canonical fold at every position from the barrier on iff the whole overlap is no-ops there |
| `Replay.ConvergedViewIsCanonical` | internal/app/hubstate/projection.go:102-162 | with such an overlap the hub holds a canonical state at every point, also while it is still behind the barrier |
| `Replay.StaysNoOpExactly` | internal/state/reducer.go:51-163 | on a reachable state, a no-op stays one after another accepted event iff that event is not an effective one that disturbs it |
| `Replay.UndisturbedStaysNoOp` | internal/state/reducer.go:51-163 | an applied event stays a no-op over any stretch of log that does not disturb it |
| `Replay.UndisturbedOverlapConverges` | internal/app/hubstate/projection.go:102-116 | an overlap whose events do not disturb each other leaves the hub on the canonical fold |
| `Replay.ReplayedVerifyIsRejected` | internal/state/reducer.go:103-108 | a concrete overlap whose replay is rejected |
| `Replay.ReplayedRegistrationCountsTwice` | internal/state/reducer.go:64-87 | a concrete overlap whose replay advances the revision twice |
| `Replay.ReplayedMergeInserts` | internal/state/reducer.go:109-117 | a concrete overlap whose replay inserts a subscription the canonical state does not have, with the resulting view in full |
| `SnapshotStore.GreatestIsMaximal` | internal/persistence/statestore/messagestore.go:136-167 | the loader's choice is the base or a stored record, and no record exceeds it |
| `SnapshotStore.LoadIgnoresOrderAndDuplicates` | internal/persistence/statestore/messagestore.go:136-167 | with one state per revision, order and duplication of stored snapshots do not change what is loaded |
| `SnapshotStore.LoadFromIsRightExactly` | internal/persistence/statestore/messagestore.go:121-168 | reading from retained progress loads the right snapshot iff a record is left to read or nothing above the base exists |
| `Consolidator.PrefixStatesAgree` | internal/persistence/statestore/messagestore.go:136-167 | stored states of one log have one state per revision, so the order-independence of loading applies to them |
| `Consolidator.NextEventAtFrontier` | internal/consolidator/service.go:134-156 | at the committed offset or one past it, applying the next event gives the canonical next state, and changes something only if it was not in yet |
| `Consolidator.StepKeepsInv` | internal/consolidator/service.go:56-163 | every step that stays out of the two windows keeps the durable and in-memory invariant |
| `Consolidator.RunStaysBounded` | internal/consolidator/service.go:104-163 | in every run, tidy or not, offsets and loader progress stay inside what they index |
| `Consolidator.CrashSafety` | internal/consolidator/service.go:56-163 | every tidy run, with crashes and lost responses anywhere, is crash-safe: the latest stored snapshot is the canonical state at the committed offset or one past it and counts each effective event once, and every stored snapshot and the one in memory are canonical prefix states |
| `Consolidator.LoaderWindowLosesExactly` | internal/persistence/statestore/messagestore.go:121-168 | stopping in the loader's window makes the next start load the empty snapshot, which is right iff nothing committed had an effect |
| `ConsolidatorSafety.SaveSafeExactly` | internal/consolidator/service.go:141-150 | storing the next state keeps what is stored canonical and at the frontier iff the log itself makes that change from the state in memory, no later than the committed offset |
| `ConsolidatorSafety.AckSafeExactly` | internal/consolidator/service.go:152-155 | committing past an event leaves the latest snapshot at the frontier iff all events passed are no-ops on it |
| `ConsolidatorSafety.StepSafeExactly` | internal/consolidator/service.go:56-163 | from a coherent world any step, crash or lost response is crash-safe iff it is guarded |
| `ConsolidatorSafety.CrashSafetyExactly` | internal/consolidator/service.go:56-163 | every run from the beginning, with no restriction, is crash-safe at every point iff each durable save and acknowledgement in it is guarded |
| `ConsolidatorSafety.TidyIsGuarded` | internal/consolidator/service.go:56-163 | tidy runs are guarded, so the exact theorem covers the promise for them |
| `ConsolidatorSafety.DropThenSaveExactly` | internal/consolidator/service.go:127-150 | going on after dropped records to an effective event, storing it is crash-safe iff the first dropped event makes the very same change; never if all dropped events were no-ops |
| `ConsolidatorSafety.DropThenNoOpExactly` | internal/consolidator/service.go:127-156 | going on to a no-op, acknowledging it is crash-safe iff all dropped events were no-ops, and then the invariant is restored |
| `ConsolidatorSafety.DropThenAckExactly` | internal/consolidator/service.go:127-156 | after such a save, acknowledging is crash-safe iff the dropped events are no-ops on the stored state, and then the invariant is restored |
| `ConsolidatorSafety.DropsAddAndStopsForget` | internal/consolidator/service.go:127-133 | consecutive drops are one drop, and a crash or a reported failure after a drop restores the invariant |
| `ConsolidatorSafety.WindowThenSaveExactly` | internal/persistence/statestore/messagestore.go:121-168 | after a stop in the loader's window and the start that follows, storing the next event is crash-safe iff it makes the same change as the log's first event |
| `ConsolidatorSafety.WindowThenAckExactly` | internal/persistence/statestore/messagestore.go:121-168 | and acknowledging it then is crash-safe iff it is a no-op on the latest stored state |
| `ConsolidatorTraces.CommittedStateIsLost` | internal/persistence/statestore/messagestore.go:121-168 | a concrete run from the initial world that loses a committed registration |
| `ConsolidatorTraces.DroppedEventIsSkipped` | internal/consolidator/service.go:127-133 | a concrete run that commits past an event whose effect is never stored |
| `ConsolidatorTraces.DroppedNoOpCountsAgain` | internal/consolidator/service.go:127-150 | a concrete run whose dropped event is a no-op and that is not crash-safe after the next save; the process after a crash there counts the dropped event again |
| `ConsolidatorService.Service.LoadSnapshot` | internal/persistence/statestore/messagestore.go:121-168 | a successful load returns the greatest snapshot from the loader's progress on and deletes that progress; every acknowledgement and failure is a step of the model |
| `ConsolidatorService.Service.Restarted` | internal/consolidator/service.go:49-55 | a new process on a store with any recorded history, crashed at any step, is in a valid stopped state |
| `ConsolidatorService.Service.Crash` | internal/consolidator/service.go:56-96 | stopping a service at rest is a recorded, tidy step, after which it can be started again |
| `ConsolidatorService.Service.Start` | internal/consolidator/service.go:56-96 | a start, on a store with any history, is a run of the model, and it succeeds iff it leaves the service initialized, consuming, valid and caught up |
| `ConsolidatorService.Service.Consume` | internal/consolidator/service.go:104-163 | a poll is a run of the model; a successful one holds the fold of exactly the events it took over the snapshot it had and has committed behind them; one that reports caught up stands at the end it read or at the watermark its batch came with, so it has consumed everything before an offset iff that end or watermark reaches it; a failed one leaves an active consumer only under an expired context |
| `ConsolidatorService.Service.Handle` | internal/consolidator/service.go:134-156 | one event is reduced, saved, installed and acknowledged in that order, each a step of the model: afterwards snapshot, stored snapshots and commit are exactly the reduced ones, or the consumer has failed |
| `ConsolidatorService.Service.Refresh` | internal/consolidator/service.go:165-177 | a successful barrier has consumed everything appended before the request iff its last poll read the end of the log or accepted a watermark not older than the request |
| `ConsolidatorService.Service.Serve` | internal/consolidator/service.go:56-177 | over any number of lives, starts, polls, barriers and crashes, an active service after a tidy history holds a canonical frontier state |
| `ConsolidatorService.Service.ServesCanonicalState` | internal/consolidator/service.go:227-252 | after any tidy history an active service holds the canonical state at its committed position or one past it |
| `HubProjection.Projection.Reduce` | internal/app/hubstate/projection.go:153-162 | the reducing loop is the fold, with its error |
| `HubProjection.Projection.Acknowledge` | internal/app/hubstate/projection.go:164-171 | a complete acknowledgement commits exactly behind the last event; a failed one leaves the commit as it was or behind one of the events |
| `HubProjection.Projection.CaughtUp` | internal/persistence/messagestore/kafka/consumer.go:250-349 | with the log growing between its steps and its own poll possibly fetching, a successful answer is true iff the boundary is concrete and everything up to the end read was handed out; a boundary becomes concrete once, at the commit or at an end of the log during the call |
| `HubProjection.Projection.Buffer` | internal/app/hubstate/projection.go:65-94 | a successful buffering holds exactly the log from where the consumer began to an end observed then, and acknowledges nothing |
| `HubProjection.Projection.Barrier` | internal/consolidator/service.go:227-252 | the answer is valid and, after any tidy history, the canonical state where the last poll stands or one past it; that covers the log at the request iff the poll read the end or its watermark is not older |
| `HubProjection.Projection.Start` | internal/app/hubstate/projection.go:58-116 | gap-free startup: the hub resumes at its commit, or at an end of the log during the start, no later than the end it observed; it has committed exactly that end, or nothing if it buffered nothing; the barrier covers that end iff the consolidator's last poll read the end or accepted a watermark not older; it refuses iff the consolidator is not ready; a failed start acknowledged nothing unless acknowledging failed |
| `HubProjection.Projection.Consume` | internal/app/hubstate/projection.go:118-151 | a hub that stays ready always holds the fold of its part of the log over the barrier, and has committed exactly behind what it received, or nothing if it received nothing; it reports caught up iff it read the end it stands at or stands at the watermark its batch came with |
| `HubProjection.Projection.Rejoin` | internal/app/hubstate/projection.go:58-151 | a hub that tails the log, stops and starts again resumes exactly where it stopped, if it ever committed, and otherwise there or at an end of the log during the new start |
| `HubProjection.OldWatermarkEndsThePoll` | internal/persistence/messagestore/kafka/consumer.go:218-232 | a tidy run from the initial world in which a poll ends at a watermark older than the end it has read |
| `HubProjection.GapIsHarmlessExactly` | docs/architecture/decisions/0011-snapshot-startup-barrier.md:22-26 | a barrier taken at a mark before the resume position is canonical there iff all events in between are no-ops on it |
| `HubProjection.StaleBarrierLosesEvent` | internal/consolidator/service.go:157-162 | after that run the barrier is behind the end a hub observed, and the hub loses a subscription |
| `PendingQueue.TakeLinesUp` | internal/persistence/messagestore/kafka/consumer.go:375-387 | fetching keeps each partition's queue equal to its fetched, unresolved records in log order |
| `PendingQueue.HeadIsBase` | internal/persistence/messagestore/kafka/consumer.go:402-423 | the head of the queue is its partition's first unresolved record, at the commit or one before it; offset zero if nothing was committed since the log start |
| `PendingQueue.ResolveLinesUp` | internal/persistence/messagestore/kafka/consumer.go:402-423 | resolving the head keeps the queue in log order |
| `PendingQueue.ReopenKeeps` | internal/persistence/messagestore/kafka/consumer.go:479-512 | a reopened client stands at the committed offsets with an empty queue in log order |
| `PendingQueue.ReopenSkipsNothingExactly` | internal/persistence/messagestore/kafka/consumer.go:110-160 | reopening and applying the start policy skips no unresolved record iff the partition has a commit, or the consumer starts earliest, or the start is no later than the first unresolved record |
| `PendingQueue.UncommittedRecordIsLost` | internal/persistence/messagestore/kafka/consumer.go:110-160 | a concrete record that was fetched and handed out is behind the new client, unresolved and uncommitted |
| `PendingQueue.TornClientLooksCaughtUp` | internal/persistence/messagestore/kafka/consumer.go:191-200 | a concrete client at the end of its log with nothing left to hand out, whose only record was neither handed out nor resolved |
| `PendingQueue.AccountedResolves` | internal/persistence/messagestore/kafka/consumer.go:402-423 | resolving the head keeps every record from the beginning to the position accounted for as seen, queued or lost |
| `PendingQueue.NothingUnseen` | internal/persistence/messagestore/kafka/consumer.go:250-349 | at the end of a partition with everything handed out, each record from where the partition began to its end was handed out, resolved, or lost to a poll that reported an error |
| `KafkaConsumer.Consumer.Poll` | internal/persistence/messagestore/kafka/consumer.go:173-216 | any interleaving of partitions keeps the queue genuine and in log order under consecutive fresh receipts |
| `KafkaConsumer.Consumer.AppendFetched` | internal/persistence/messagestore/kafka/consumer.go:375-387 | fetched records are queued in order under receipts never issued before |
| `KafkaConsumer.Consumer.Receive` | internal/persistence/messagestore/kafka/consumer.go:173-216 | hands out exactly the next queued records and records them as handed out, polls only when all were handed out, and on an error hands out nothing and keeps the queue |
| `KafkaConsumer.Consumer.Ack` | internal/persistence/messagestore/kafka/consumer.go:402-423 | accepted iff the receipt is the head's; commits and drops only the record the receipt was issued for; a failed commit keeps the queue |
| `KafkaConsumer.Consumer.Nack` | internal/persistence/messagestore/kafka/consumer.go:425-440 | accepted iff the receipt is the head's, then everything queued is to be handed out again |
| `KafkaConsumer.Consumer.DeadLetter` | internal/persistence/messagestore/kafka/consumer.go:442-477 | refused iff the receipt is not the head's or the letter's identifier differs from the record's; the commit moves only after the annotated letter is stored, and only behind the record the receipt was issued for; success means both happened |
| `KafkaConsumer.Consumer.Reconnect` | internal/persistence/messagestore/kafka/consumer.go:479-512 | a new client stands at the committed offsets with an empty queue, and no receipt is ever reused |
| `KafkaConsumer.Consumer.Close` | internal/persistence/messagestore/kafka/consumer.go:514-542 | a temporary close keeps progress; a confirmed permanent one has deleted it, except in a shared group, and nothing else deletes it |
| `KafkaConsumer.Consumer.CommitHead` | internal/persistence/messagestore/kafka/consumer.go:389-400 | the only possible commit is the one behind the head, and the head is dropped only once it is confirmed |
| `KafkaConsumer.Consumer.Establish` | internal/persistence/messagestore/kafka/consumer.go:300-348 | an unknown boundary becomes the committed offset, the end just read, or the log start, by start policy, and no other position moves |
| `KafkaConsumer.Consumer.CaughtUp` | internal/persistence/messagestore/kafka/consumer.go:250-349 | a successful answer is true iff the group has assigned the partitions, everything queued was handed out and the client stands at every end read in the call; then every record of every assigned partition from where it began to that end was handed out, resolved under its own receipt, or lost to a failed poll, and none lost if no poll failed with records since the last reopen; beginnings and established boundaries do not move, and a client that knows its partitions is not polled |
| `KafkaConsumer.Consumer.DropHead` | internal/persistence/messagestore/kafka/consumer.go:549-554 | resolving drops exactly the head, moves its partition's boundary just behind it, and is recorded in order |
| `KafkaConsumer.AnnotatedIsLetter` | internal/persistence/messagestore/kafka/consumer.go:442-477 | a stored letter, field by field: the record's body, type and metadata under its own or a new identifier, with failure class, topic, subscription, attempt and storage error |
| `Messages.PassedMeans` | internal/delivery/worker.go:216-283 | what a commit means for each record it passed: a malformed one was never sent and has its letter; any other had a successful attempt, or was refused and has its letter |
| `RetryPolicy.BaseDelayIsMonotone` | internal/delivery/worker.go:390-401 | base delays start at the initial interval, never shrink and never exceed the maximum |
| `RetryPolicy.BaseDelayExactly` | internal/delivery/worker.go:390-398 | the schedule before jitter: the initial interval after the first attempt and after a reset, then each delay the previous one times the factor up to the maximum |
| `RetryPolicy.JitterExactly` | internal/delivery/worker.go:399-400 | jitter spreads the wait evenly around its base delay, by the jitter factor at most |
| `RetryPolicy.NextNumber` | internal/delivery/worker.go:234-254 | the attempt counter of the loop, with and without reset, is a function of the number of attempts made |
| `RetryPolicy.RetryDelayIsBounded` | internal/delivery/worker.go:390-401 | each wait lies between zero and the maximum stretched by the jitter factor |
| `RetryPolicy.TotalWithinBudget` | internal/config/config.go:562-576 | for a validated configuration all waits together stay within the attempts' budget |
| `DeliveryWorker.Worker.Stop` | internal/delivery/worker.go:188-199 | a permanent intent wins over any number of temporary ones in either order |
| `DeliveryWorker.FailureClassExactly` | internal/delivery/worker.go:403-411 | a failure is reported as `http_` and the decimal numeral of its status, or as a network failure without one |
| `DeliveryWorker.Worker.Acknowledge` | internal/delivery/worker.go:233-257 | acknowledging a delivered head is never out of order and keeps at-least-once even when the commit's outcome is unknown |
| `DeliveryWorker.Worker.Bury` | internal/delivery/worker.go:347-358 | dead-lettering the head, which is malformed or was refused, stores one letter with the record's fields and this failure, or none if the verdict is a failure; at-least-once is kept and other records' letters stay |
| `DeliveryWorker.Worker.AskRedelivery` | internal/delivery/worker.go:259-283 | asking for redelivery of the head always succeeds and hands the queue out again from it |
| `DeliveryWorker.Worker.Remove` | internal/delivery/worker.go:328-337 | the removal with cause `http_410` is durable before the worker decides to end for good |
| `DeliveryWorker.Worker.MarkStale` | internal/delivery/worker.go:317-326 | the stale mark with its reason is durable before the worker decides to end as stale |
| `DeliveryWorker.Worker.AttemptHttp` | internal/delivery/worker.go:233-257 | one attempt: success acknowledges, gone removes, a status not to be retried or the last attempt marks stale with its own reason, and it is retried iff none of these |
| `DeliveryWorker.Worker.DeliverHttp` | internal/delivery/worker.go:233-257 | from the recorded answers: all but the last were failures to be retried and the last one decides, delivered, gone, refused or exhausted, with exactly the event that goes with it; attempts and waits as configured, waits bounded in total, and it ends by itself unless interrupted |
| `DeliveryWorker.Worker.DeliverOnce` | internal/delivery/worker.go:259-283 | from the one recorded answer and the configured code sets: acknowledged, removed, redelivered, dead-lettered or marked stale, with exactly the event or letter that goes with it |
| `DeliveryWorker.Worker.Deliver` | internal/delivery/worker.go:216-231 | on the record's own fields: a malformed one is never sent and gets one letter with its failure class; any other is sent as the strategy says and under the HTTP strategy gets no letter; what is resolved was delivered or has its letter |
| `DeliveryWorker.Worker.Reconnect` | internal/delivery/worker.go:285-297 | after a receive error nothing is acknowledged before a new client is open |
| `DeliveryWorker.Worker.NextBatch` | internal/delivery/worker.go:156-165 | every batch is the whole queue, so each of its records is the head when it is resolved |
| `DeliveryWorker.Worker.HandleBatch` | internal/delivery/worker.go:166-182 | the resolved records are a prefix of the batch in its order, each resolved as its fields and the strategy call for, the rest stays queued, and the next receive starts with nothing handed out, also after a redelivery; a gone answer is the last and is recorded |
| `DeliveryWorker.Worker.Run` | internal/delivery/worker.go:106-184 | at-least-once at every cut of every run and no out-of-order answer; a gone answer is the last one, and its removal is recorded and the intent permanent, or recording failed; a permanent intent comes from nothing else; at most one event is appended, that removal or one stale mark after a refusal; under the HTTP strategy only malformed records get letters; it gives up only with a valid or a closed client |
| `DeliveryWorker.Worker.Finish` | internal/delivery/worker.go:137-143 | under a permanent intent a confirmed close has deleted the progress; under a temporary one it is kept |
| `DeliveryWorker.Worker.Live` | internal/delivery/manager.go:110-116 | a run followed by its close: the group keeps at-least-once, it is deleted only under a permanent intent, which only the manager or a durable removal can give; a run that ended has closed its client and finished |
| `DeliveryWorker.Lives` | internal/delivery/worker.go:106-184 | at-least-once over any number of worker lives on the same progress, from the log start for an earliest-start consumer |
| `DeliveryManager.Manager.OneWorkerPerSubscription` | internal/delivery/manager.go:110-116 | two unfinished workers for one subscription are the same worker |
| `DeliveryManager.Manager.StartDesired` | internal/delivery/manager.go:71-88 | every worker it starts is for an active subscription of this server on its own active topic, and nothing is decided about its end; all such subscriptions are registered unless a factory error stopped the scan; existing registrations stay |
| `DeliveryManager.Manager.StopUndesired` | internal/delivery/manager.go:89-107 | exactly the undesired workers are stopped, with the intent the snapshot calls for, and exactly the finished ones are forgotten |
| `DeliveryManager.Manager.Reconcile` | internal/delivery/manager.go:68-108 | on the snapshot's fields, after a success: every active subscription of this server on an active topic is registered, its old worker untouched; a worker is asked to stop iff it was already or its subscription is unknown, not active, of another server or on an unknown or inactive topic; it is to delete its progress iff told so already or the subscription is unknown or removed or the topic unknown or inactive; only finished ones are forgotten; after a factory error nothing is stopped; with evolving, explained snapshots every permanent intent has a cause in the log |
| `DeliveryManager.WithdrawnExactly` | internal/state/reducer.go:51-163 | after an accepted unsubscription, removal, stale mark or deregistration of its topic a subscription is removed, stale, or on an inactive topic |
| `DeliveryManager.ReconcileWithdrawal` | internal/delivery/manager.go:89-107 | an accepted unsubscription, removal, stale mark or topic deregistration reaches the worker: the next reconciliation asks it to stop, for good unless it only went stale |
| `DeliveryManager.ReconcileAdmission` | internal/delivery/manager.go:66-88 | an admitted or reactivated subscription of this server has a worker after the next reconciliation, and that worker is running and not asked to stop iff none was registered or the registered one was so already |
| `DeliveryManager.ReactivatedTooEarly` | internal/delivery/manager.go:66-81 | on every hub: a subscription reactivated before its stopped worker is done stays with that worker, which is still asked to stop |
| `DeliveryManager.Manager.CloseAll` | internal/delivery/manager.go:118-134 | closing asks every registered worker to stop and weakens no intent |
| `DeliveryManager.Manager.Slice` | internal/delivery/manager.go:110-116 | a stretch of any worker's run on its own client and group leaves every other worker able to go on, and every intent and deletion justified by the log |
| `DeliveryManager.Manager.Restart` | internal/app/runtime/hub.go:141 | a hub process can stop with its workers anywhere and a new one start on the same groups, with nothing unjustified |
| `DeliveryManager.StepStaysExplained` | internal/state/reducer.go:77-87 | a projection that advances by one event of the log stays explained by the log |
| `DeliveryManager.ReachableIsExplained` | internal/state/reducer.go:151-163 | every canonical state is explained by its log: its subscriptions were verified, its removed ones removed and its inactive topics deregistered by events |
| `DeliveryManager.Oversee` | internal/delivery/manager.go:68-134 | over every interleaving of appends, projection progress, reconciliations, closures, hub restarts and stretches of the workers' own runs, on one log and on groups with any past: at most one unfinished worker per subscription, at-least-once in every group, and progress deleted only after a removal of the subscription, or a deregistration of a topic it was verified for, is in that log |
| `DeliveryManager.HubViewIsVouched` | internal/app/hubstate/projection.go:102-162 | every subscription a hub sees was admitted, with all its fixed fields, by an event of the log |
| `DeliveryManager.HubsNeverShareASubscription` | internal/delivery/manager.go:71-78 | two hubs with different server identifiers, each at any point of its run and overlap replay included, never want the same subscription, unless the log verified it for both and one of them was changed by its overlap |
| `DeliveryManager.ReplayedMergeSharesASubscription` | internal/state/reducer.go:109-117 | a concrete log on which the canonical state and a replaying hub give one subscription to two servers |
| `DeliveryManager.CanonicalOwnerIsUnique` | internal/delivery/manager.go:71-78 | at any two prefixes of one log a subscription is desired under one server identifier only |
| `ResourceHub.CurrentSubscription` | internal/app/resourcehub/handler.go:421-432 | whatever the scan order, on reachable states it finds a subscription iff the pair is taken, and then the only holder |
| `ResourceHub.Unsubscribe` | internal/app/resourcehub/handler.go:371-385 | on reachable views an unsubscription is denied iff the pair is free, and otherwise it names the only holder |
| `ResourceHub.RegisterTopicExactly` | internal/app/resourcehub/handler.go:179-215 | which registrations are denied, in conflict or appended, by the view's fields, and every field of the event |
| `ResourceHub.DeregisterTopicExactly` | internal/app/resourcehub/handler.go:217-235 | a deregistration is appended iff the topic is active in view, and in conflict otherwise |
| `ResourceHub.SubscribeExactly` | internal/app/resourcehub/handler.go:302-346 | which verified subscriptions are appended, and every field of the event, its derived identifiers included |
| `ResourceHub.HubTopicIsCanonical` | internal/app/hubstate/projection.go:102-162 | every topic in any hub's view, overlap replay included, is in the shared state with its URL and content type |
| `ResourceHub.RegistrationAcceptedExactly` | internal/app/resourcehub/handler.go:179-215 | a registration decided on any hub's view is accepted iff no registration of the identifier under another URL or type came first; always if the topic was in view |
| `ResourceHub.DeregistrationIsAlwaysAccepted` | internal/app/resourcehub/handler.go:217-235 | a deregistration decided on any hub's view is accepted at every later state and takes effect |
| `ResourceHub.GateAgreesWithReducer` | internal/app/resourcehub/handler.go:412-419 | on the view it was decided on, a new verified subscription is accepted by the reducer iff the handler's own test finds its topic active |
| `ResourceHub.VerificationAcceptedExactly` | internal/app/resourcehub/handler.go:302-346 | a verification admitted on a topic any hub saw active is accepted iff the topic is still active and its identifier is new or holds the same active subscription |
| `ResourceHub.AdmittedExactly` | internal/state/reducer.go:88-120 | the shared state has a subscription iff some verification of it was admitted rather than merged |
| `ResourceHub.WithdrawalAcceptedExactly` | internal/app/resourcehub/handler.go:371-385 | an unsubscription or removal of what any hub sees is accepted, and takes effect, iff the subscription was admitted; always if the hub's overlap was no-ops |
| `ResourceHub.MergedWithdrawalStopsTheLog` | internal/app/resourcehub/handler.go:371-385 | a concrete hub whose unsubscription, or whose worker's removal, of a replayed merge stops every longer log |
| `ResourceHub.StaleMarkAcceptedExactly` | internal/delivery/worker.go:317-326 | a stale mark for what any hub sees is accepted iff the subscription was admitted and not removed meanwhile |
| `ResourceHub.PoisonStopsTheLog` | internal/consolidator/service.go:134-139 | an event the current state rejects makes every later prefix of the log unfoldable |
| `ResourceHub.RacingRegistrationsStopTheLog` | internal/app/resourcehub/handler.go:192-199 | any two registrations of one topic under different types, decided on any two views and standing anywhere in a log, stop it |
| `ResourceHub.LateVerificationStopsTheLog` | internal/app/resourcehub/handler.go:302-346 | any verification by a hub that missed its topic's deregistration stops the log |
| `ResourceHub.HubTopicIsRegistered` | internal/app/hubstate/projection.go:102-162 | every topic a hub sees has URL, type and destination of a registration in the log |
| `ResourceHub.RegistrationsAgree` | internal/state/reducer.go:61-76 | all registrations of one identifier in an accepted log have the same content type, through deregistration and re-registration |
| `ResourceHub.HandlerKeepsNamed` | internal/app/resourcehub/handler.go:204-214 | a handler's registration derives identifier and destination from the URL, so the log stays consistently named |
| `ResourceHub.PersistExactly` | internal/ingest/ingestor.go:56-93 | an update is sent iff exact content for an active topic with a destination under the topic's own type and with a fresh identifier; every field of what is sent |
| `ResourceHub.PublishedToItsTopic` | internal/ingest/ingestor.go:56-93 | what a hub accepts, at any point of its run, goes to the destination derived from the topic's URL |
| `ResourceHub.ContentTypeIsEndToEnd` | internal/ingest/ingestor.go:56-93 | a body accepted by one hub at any point is delivered unchanged under the type it was published with by whatever worker, on any hub at any point, reads its destination |
| `Ordering.BelowExactly` | internal/state/snapshot.go:45-46 | the order used is the lexicographic one by characters |
| `Ordering.ListingIsUnique` | internal/state/snapshot.go:45-46 | a set of identifiers has one ascending listing |
| `Ordering.Sorted` | internal/persistence/messagestore/kafka/record.go:49-53 | sorting gives that listing whatever order the keys are visited in |
| `SnapshotCodec.Encode` | internal/state/snapshot.go:34-48 | encodes iff the snapshot is valid, as its listings sorted by identifier |
| `SnapshotCodec.Fill` | internal/state/snapshot.go:63-74 | fills the map iff identifiers are distinct, and otherwise names one that occurs twice |
| `SnapshotCodec.Decode` | internal/state/snapshot.go:50-79 | accepts exactly wires with distinct identifiers and valid content, as the snapshot they list, and tells the two faults apart |
| `SnapshotCodec.EncodingIsUnique` | internal/state/snapshot.go:34-48 | the encoding does not depend on map iteration order |
| `SnapshotCodec.RoundTrip` | internal/state/snapshot.go:34-79 | decoding the encoding of a valid snapshot gives it back |
| `SnapshotCodec.ReEncodesExactly` | internal/state/snapshot.go:34-79 | an accepted wire is the encoding of what it decodes to iff it is sorted |
| `SnapshotCodec.SaveAndLoad` | internal/state/snapshot.go:34-79 | saving and loading returns a valid snapshot unchanged and lets no other in |
| `RecordCodec.Encode` | internal/persistence/messagestore/kafka/record.go:34-61 | accepts exactly complete messages with safe metadata keys; otherwise it reports what is missing first, or the least unsafe key |
| `RecordCodec.Decode` | internal/persistence/messagestore/kafka/record.go:63-80 | the header loop computes the specified message |
| `RecordCodec.DecodedExactly` | internal/persistence/messagestore/kafka/record.go:63-80 | any record at all: the body as it is, identifier, type and each metadata entry from the last header under its key, and the mark iff there is no identifier |
| `RecordCodec.ForeignHeaderIsIgnored` | internal/persistence/messagestore/kafka/record.go:63-80 | a header under any other key can stand anywhere without changing what is read |
| `RecordCodec.RecordExactly` | internal/persistence/messagestore/kafka/record.go:44-61 | the headers of a record in order, and nothing but one header per metadata entry after the reserved ones |
| `RecordCodec.RoundTrip` | internal/persistence/messagestore/kafka/record.go:34-80 | every accepted message is read back with the same identifier, body, type and metadata and no storage error |
| `RecordCodec.EncodingIsUnique` | internal/persistence/messagestore/kafka/record.go:44-59 | a message has one record, whatever order its metadata is visited in |
| `RecordCodec.MarkedIsUnpublishable` | internal/persistence/messagestore/kafka/record.go:63-80 | a decoded record is marked iff it has no identifier, keeps its body, and a marked one cannot be published as content |
| `Identity.BigEndianRoundTrip` | internal/persistence/layout.go:89-94 | a length that fits is read back from its eight bytes |
| `Identity.FramedIsPrefixFree` | internal/persistence/layout.go:89-94 | two framed fields that start alike are the same field, whatever follows |
| `Identity.FitsExactly` | internal/persistence/layout.go:89-94 | the framing's length covers every field shorter than 2^64 bytes |
| `Identity.FramingIsInjective` | internal/persistence/layout.go:74-83 | distinct (topic, callback, time) triples of fields shorter than 2^64 bytes are hashed as distinct inputs |
| `Identity.Hasher.WriteField` | internal/persistence/layout.go:89-94 | writing a field appends its eight-byte length and its bytes |
| `Identity.SubscriptionHashInput` | internal/persistence/layout.go:74-83 | there is a hash input iff all three parts are present, and it is the framed triple |

## Left out

- CrashSafety: stated for tidy runs only, because crash safety fails after the two windows it excludes; `CrashSafetyExactly` says of every run exactly when it holds.
- WindowThenSaveExactly: speaks of the next event after the loader's window; what happens to the events after it is decided by `CrashSafetyExactly`.
- CaughtUp: end offsets are read at one instant for all partitions, and direct partition assignment is treated like a group assignment.
- DeliverHttp: float rounding and truncation to nanoseconds are not modelled; a context is the number of rounds it lasts.
- Run: opening the consumer and the subscription's secret before the first receive is not modelled; the consumer is open when the run begins. A stop request takes effect between the rounds of a run.
- StartDesired: the worker factory is a nondeterministic success or refusal.
- JSON, TOML and media-type syntax: snapshots and records are modelled at the level of wire values.
- The Kafka client's internals, group rebalancing, retention and offset expiry: only the small client contract is modelled.
- HTTP servers, admin endpoints, metrics, logging, mutual TLS and tokens: they carry requests to the handlers and change no replicated state.
- Callback address policy, secret encryption and signature mechanics: whether a request is allowed is decided before the modelled handlers run.
- The in-memory message store of the tests: a simpler provider of the same contract.
- Subscription-option limits: an abstract acceptance test.
- Locations of time values, nil maps and wrap-around of 64-bit counters.
- Management list and detail views: they sort, filter and truncate a snapshot without changing it.
- Configuration loading: only the validated retry settings matter to the properties, and they are a precondition.
- Liveness: a finished worker stays registered on purpose, so nothing promises that delivery goes on.
