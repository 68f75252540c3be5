# A verified model of hareflow

Hareflow is a C++ client for RabbitMQ streams. This project models what lies between its public
interface and the sockets: the producer pipeline, the background task machinery, the consumer's
offset bookkeeping, the wire format with the frame splitter, the connection's queues, and the
client's life cycle with its outstanding requests.

Each concurrent component is modelled twice. First as a state machine over values: an event is one
region the source runs under a mutex, one callback on the strand, or one access to an atomic; any
event that is enabled may come next, so a theorem about `Run` speaks about every interleaving.
Second as a class in the form of the source, whose fields and methods are those of the C++ object;
every method states what it does to its fields and that this is the step of the machine it stands
for. Histories (accepted messages, messages handed to each connection, completed promises, delivered
offsets) are part of the abstract state only; for each there is a theorem that says, for every run,
what it is in terms of the events alone.

| file | models |
|---|---|
| `Prelude.dfy` | sequences, sorted keys, integer widths |
| `ProducerModel.dfy` | producer, accumulator and semaphore as one state machine |
| `ProducerConservation.dfy` | where the messages and the permits are |
| `ProducerGuarantees.dfy` | stop, repeated ids, resends |
| `ProducerOrder.dfy` | order of publishing ids on every connection |
| `ProducerTimeout.dfy` | the confirm-timeout scan |
| `ProducerHistory.dfy` | what connections were handed and handlers were told, read off the events |
| `ProducerSends.dfy` | what becomes of every send, and which ids are given out |
| `ProducerWitnesses.dfy` | runs that lose a message and that hide an expired one |
| `ProducerFrames.dfy` | what a message that cannot be framed does to recovery |
| `Producer.dfy` | the producer's classes and loops |
| `Task.dfy`, `Scheduler.dfy` | `ReschedulableTask`, `BackgroundScheduler` |
| `Consumer.dfy` | `ConsumerImpl`: filtering, resumption, cursor |
| `Wire.dfy`, `Buffer.dfy` | byte-level codec and `BinaryBuffer` |
| `Commands.dfy`, `CommandReader.dfy`, `ServerFrames.dfy`, `Chunks.dfy` | client frames, a reader for them, server frames, chunks |
| `FrameSplitting.dfy`, `ReadChain.dfy` | `publish_encoded` and `send_frame`; the read chain |
| `SendableFrames.dfy` | which frames go out |
| `Connection.dfy` | outbox and inbox |
| `ClientLifecycle.dfy`, `OutstandingRequests.dfy` | status of `ClientImpl`; its promises |
| `RequestWitness.dfy` | a run in which the correlation ids come round |

## What the proofs found

These are properties one would expect that the code does not have; each comes with a concrete
witness, for the state machines a run from the initial state, and with the condition under which
the property does hold, for all inputs.

- A second message accepted under a publishing id that is still live is dropped: its handler is never
  called and its permit returns (`RepeatedIdIsDropped`). Nothing is lost, and after a stop every
  accepted message has been resolved, exactly in the runs that record no batch over a live id
  (`LossExactly`, `ResolvedExactly`); one sending thread with automatic ids is always among them
  (`AutoRunsAreFresh`).
- The accumulator and `publish_encoded` measure a frame without its 4-byte length prefix,
  `send_frame` with it. A message whose frame leaves fewer than 4 bytes below the limit is admitted and
  then fails to publish, on its own and in every resend (`GapMessageCannotBePublished`); so does a
  batch filled that far out of small messages (`FullBatchCanBeRejected`), and a body of more than
  2^31 - 1 bytes, which the accumulator admits and `write_blob` rejects
  (`OversizedBodyCannotBePublished`). `PublishExactly` and `SingleMessageExactly` say exactly what goes
  through. While such a message is unconfirmed no reconnect succeeds: once the client is lost, the
  producer stays without one (`UnpublishableBlocksRecovery`).
- The confirm-timeout scan stops at the first young message in id order. Two threads with automatic ids
  are enough to hide an expired message from it (`ScanCanMissExpired`). It finds all expired ones
  exactly when no expired message follows a young one (`EarlyExitExactly`).
- A task function that throws leaves `current_invocation` set, and no later fire starts an invocation
  (`SecondFireIsLost`, `ThrowingLosesEveryLaterFire`). Pending fires have a runner exactly in the runs in
  which no invocation throws (`NoLostFireExactly`).
- A message handler that outlives its client can store its offset after a newer one
  (`OverlappingHandlersRegress`). The stored offsets increase exactly when no handler stores after the
  same or a later offset was stored (`CursorAdvancesExactly`), and so whenever messages are handled one
  after the other (`CursorOnlyAdvances`).
- A connection lost while `start` is still running is not reported: the frame loop ends without a
  shutdown and `start` may still commit (`StartedWithoutLoop`). A client is Started without a frame loop
  exactly after the runs in which the loop ended while starting (`LoopEndUnnoticedExactly`).
- A frame announced with more than 2^32 - 5 bytes makes the read chain throw out of its callback, before
  the connection is marked as failed. With the default io_context nothing catches the exception in the
  thread that runs it and the process terminates; with an io_context of the application's own the
  chain ends there. Either way no frame from that one on is ever recovered (`OversizedStopsTheChain`).
- After the largest 64-bit offset the consumer resumes at zero and delivers out of order
  (`ResumptionWraps`); delivered offsets increase exactly when no session feeds after it
  (`DeliveredInOrder`).
- The 32-bit correlation counter comes round after 2^32 requests; a caller that then drops its id takes
  another request's promise with it (`WrappedIdTakesAnother`), exactly when a waiting call has that id
  (`InterferenceExactly`), and never before (`RequestsDoNotInterfere`). Likewise the publishing id after
  the largest one is zero (`AutomaticIdsWrap`); the order theorem holds for the ids before that.

Assumptions made throughout: confirmation handlers return normally; so do message handlers and the
codec's `decode`, except in `HandleDeliver`, where an exception of either costs the rest of the chunk;
a producer or consumer is looked at from the moment its builder hands it out, after `start()` has
returned; reconnect tasks are single flight, which is `SingleFlightNoLostFire`; a condition wait is
modelled by the step that ends it; the negotiated frame limit is the same on every connection.

## Model

| member | source | states |
|---|---|---|
| `ProducerConservation.EachMessageInOnePlace` | src/producer_impl.cpp:188-342 | in every interleaving each accepted message is in exactly one of pending, batch, unconfirmed, claimed, resolved or dropped, once; no handler is called twice |
| `ProducerConservation.StepConserved` | src/producer_impl.cpp:220-342 | every step keeps the multiset of accepted messages equal to the sum of the places |
| `ProducerConservation.EmplaceLossless` | src/producer_impl.cpp:309-311 | a batch is recorded without loss if and only if its ids are new to the map and pairwise distinct |
| `ProducerConservation.PermitsNeverLeak` | include/hareflow/detail/semaphore.h:21-112 | free permits plus those of senders and live messages are `max_unconfirmed` in every reachable state; pending plus unconfirmed never exceeds it; the accumulator never outgrows its capacity |
| `ProducerConservation.StepPermits` | src/producer_impl.cpp:91-115 | every step, refusals, an exception of the codec, timeouts and stop included, keeps the permit balance |
| `ProducerGuarantees.StopDrainsForever` | src/producer_impl.cpp:188-235 | once `internal_stop` has failed everything, pending, batch and unconfirmed are empty in every later state |
| `ProducerGuarantees.EveryMessageResolvedOnce` | src/producer_impl.cpp:188-265 | with live ids distinct nothing is dropped, and after the stop every accepted message was resolved exactly once |
| `ProducerGuarantees.LossExactly` | src/producer_impl.cpp:285-316 | a run drops no message if and only if no batch is recorded over a live or repeated id |
| `ProducerGuarantees.ResolvedExactly` | src/producer_impl.cpp:188-316 | drained and with no handler running, resolved equals accepted if and only if no batch was recorded over a live or repeated id |
| `ProducerWitnesses.RepeatedIdIsDropped` | src/producer_impl.cpp:309-311 | a run from a fresh producer: two sends under one id are accepted, one is recorded, the other is lost and its permit returned |
| `ProducerGuarantees.UnconfirmedWereHanded` | src/producer_impl.cpp:285-396 | with a current client on which no publish has thrown, every unconfirmed message itself, not just its id, was handed to that connection |
| `ProducerHistory.PublishReaches` | src/producer_impl.cpp:285-316 | in every reachable state a published batch, up to where an exception ended it, is appended to what the current connection was handed and to no other; without a client nothing is handed |
| `ProducerHistory.ConnectionHistory` | src/producer_impl.cpp:285-396 | in every run each connection was handed exactly what was resent when it was made and the batches taken while it was the current one, in order |
| `ProducerHistory.CleanExactly` | src/producer_impl.cpp:302-306 | a connection counts as clean if and only if no publish on it has thrown since it was made |
| `ProducerHistory.LostConnectionsAreSilent` | src/producer_impl.cpp:188-358 | after a shutdown, a delayed reconnect or the stop no connection made until then is ever handed anything again |
| `ProducerHistory.ReconnectOnlyWithoutClient` | src/producer_impl.cpp:360-366 | a reconnect never replaces a client that is there |
| `ProducerHistory.AnsweredExactly` | src/producer_impl.cpp:220-342 | handlers are told exactly what the events decided: confirmation with code 1, the broker's error code, 0x4002 or 0x4004 from the scan by whether there was a client, or the stop's code |
| `ProducerHistory.ConfirmedExactly` | src/producer_impl.cpp:237-250 | a handler is told of a confirmation if and only if a confirm took its message |
| `ProducerHistory.HandlersCalledInOrder` | src/producer_impl.cpp:237-342 | a thread passes on just what it took from the map, and no call is undone |
| `ProducerHistory.AccumulatorIsFifo` | src/accumulator.cpp:22-57 | what was taken from the accumulator followed by what it holds is what it accepted, in order |
| `ProducerHistory.OnTheirWayExactly` | src/producer_impl.cpp:237-283 | messages whose handler was called and which still hold their permit, and shutdowns seen and not applied, are as many as the events say |
| `ProducerSends.SendsConserved` | src/producer_impl.cpp:86-115 | sends started are, id and size, the accepted messages, the refused sends and those in progress, each once |
| `ProducerSends.PublishTimeIsAdmission` | src/accumulator.cpp:32-38 | an accepted message bears the time of its admission, before it waited for room |
| `ProducerSends.HandedWereAccepted` | src/producer_impl.cpp:285-396 | whatever a connection was handed is a message that was accepted |
| `ProducerSends.NextIdExactly` | src/producer_impl.cpp:86-89 | the next automatic id is the first one plus the automatic sends so far, in 64 bits |
| `ProducerSends.NoIdReused` | src/producer_impl.cpp:46-78 | a producer that starts again with automatic ids publishes only under ids above the sequence the broker reported |
| `ProducerSends.FirstIdFollows` | src/producer_impl.cpp:46-78 | the first id is zero without history, else the one after the last, and zero again exactly after the largest |
| `ProducerGuarantees.ReconnectResendsExactly` | src/producer_impl.cpp:382-396 | in every run a successful reconnect hands the new connection exactly the unconfirmed messages, once each, ascending, and leaves the store as it was |
| `ProducerOrder.IdsIncreaseOnEveryConnection` | src/producer_impl.cpp:86-115 | for one sender with automatic ids, the ids handed to each connection strictly increase over its whole life; unconfirmed ids lie below pending ones, those below the next id |
| `ProducerOrder.StepOrdered` | src/producer_impl.cpp:285-396 | every step keeps that order, resends and later batches included |
| `ProducerOrder.AutoRunsAreFresh` | src/producer_impl.cpp:86-89 | automatic ids of one sender never clash with a live one |
| `ProducerOrder.AutomaticIdsWrap` | src/producer_impl.cpp:86-89 | the id after the largest 64-bit one is zero |
| `ProducerTimeout.NeverTooYoung` | src/producer_impl.cpp:318-342 | the scan never takes a message younger than the threshold |
| `ProducerTimeout.EarlyExitExactly` | src/producer_impl.cpp:318-342 | the early-exit prefix is the filter of all expired messages if and only if no expired one follows a young one |
| `ProducerWitnesses.ScanCanMissExpired` | src/producer_impl.cpp:318-342 | a run of two senders with automatic ids after which the scan takes nothing although a message has expired |
| `ProducerTimeout.ScanIsExact` | src/producer_impl.cpp:318-342 | in every run of one sender with automatic ids the scan takes exactly the expired messages and leaves exactly the others |
| `Producer.Semaphore.constructor` | include/hareflow/detail/semaphore.h:66-68 | starts with the desired permits |
| `Producer.Semaphore.Acquire` | include/hareflow/detail/semaphore.h:70-79 | takes one permit, or none when destroyed |
| `Producer.Semaphore.TryAcquireFor` | include/hareflow/detail/semaphore.h:81-93 | destroyed before timed out before granted; takes one permit only when granted |
| `Producer.Semaphore.Release` | include/hareflow/detail/semaphore.h:105-112 | gives one permit back |
| `Producer.Semaphore.Destroy` | include/hareflow/detail/semaphore.h:95-102 | marks the semaphore destroyed |
| `Producer.Permit.Drop` | include/hareflow/detail/semaphore.h:32-35 | for every semaphore, available plus what the permit holds is unchanged, and the permit ends empty |
| `Producer.Permit.MoveFrom` | include/hareflow/detail/semaphore.h:38-46 | ownership moves, what was held is released, and no unit is lost or doubled; self-move changes nothing |
| `Producer.Accumulator.Admits` | src/accumulator.cpp:26-30 | admits exactly the messages that alone fit the frame limit |
| `Producer.Accumulator.Append` | src/accumulator.cpp:38-44 | appends unless destroyed, never beyond the capacity, and reports full exactly at it |
| `Producer.Accumulator.ExtractAll` | src/accumulator.cpp:46-57 | returns all pending messages in order and leaves none |
| `Producer.Accumulator.Destroy` | src/accumulator.cpp:65-72 | marks the accumulator destroyed |
| `Producer.RecordBatch` | src/producer_impl.cpp:309-311 | the recording loop is emplace over the batch and returns one permit for each dropped message |
| `Producer.ScanSorted` | src/producer_impl.cpp:326-333 | the scanning loop removes and returns exactly the expired prefix, none of it too young |
| `Producer.TakeExpired` | src/producer_impl.cpp:323-333 | sorting and scanning leave the map without the expired prefix and return its messages |
| `Producer.ResendCalls` | src/producer_impl.cpp:382-395 | the calls are the sorted ids cut into groups of the batch size: they concatenate to them, none is empty, all but the last are full |
| `Producer.ResendUntil` | src/producer_impl.cpp:382-395 | it throws if and only if the failing call is reached; the calls made are then those up to it, and all of them otherwise |
| `Producer.FailMap` | src/producer_impl.cpp:220-235 | as many failed confirmations as entries, in the order in which the map is visited |
| `Producer.EveryEntryFailed` | src/producer_impl.cpp:220-235 | whatever that order, each entry is failed |
| `Producer.ProducerImpl.constructor` | src/producer_impl.cpp:46-78 | a started producer with the first id after the broker's last sequence |
| `Producer.ProducerImpl.TakePublishingId` | src/producer_impl.cpp:86-95 | takes the step of the machine; the id is spent even on a stopped producer |
| `Producer.ProducerImpl.AcquirePermit` | src/producer_impl.cpp:97-106 | takes the acquire or give-up step, with or without timeout |
| `Producer.ProducerImpl.AdmitSend` | src/accumulator.cpp:22-37 | takes the admission step; a refused send returns its permit |
| `Producer.ProducerImpl.FailEncoding` | src/accumulator.cpp:22-24 | an exception of the codec gives the permit back |
| `Producer.ProducerImpl.EnqueueSend` | src/accumulator.cpp:38-44 | takes the enqueue step; a send refused by a destroyed accumulator returns its permit |
| `Producer.ProducerImpl.EnterBatch` | src/producer_impl.cpp:285-291 | goes on only while started |
| `Producer.ProducerImpl.ExtractBatch` | src/producer_impl.cpp:285-316 | moves all of pending into the batch |
| `Producer.ProducerImpl.PublishBatch` | src/producer_impl.cpp:285-316 | gives the batch to the current client if there is one, and records it whatever the client did with it |
| `Producer.ProducerImpl.TakeConfirmed` | src/producer_impl.cpp:237-250 | takes the message out of the map if it is there, to be told of a confirmation with code 1, and nothing otherwise |
| `Producer.ProducerImpl.TakeRejected` | src/producer_impl.cpp:252-265 | the same for a publish error, to be told of the failure with the broker's code |
| `Producer.ProducerImpl.ScanTimeouts` | src/producer_impl.cpp:318-342 | takes the expired messages out of the map, to be told of 0x4002 without a client and 0x4004 with one |
| `Producer.ProducerImpl.FinishReconnect` | src/producer_impl.cpp:371-396 | takes the reconnect step, throwing or not; the calls concatenate to the sorted unconfirmed ids, in groups within the batch size, or to a prefix ending with the throwing call, of which the messages handed over are all but the last group and some of that; the client is then as before |
| `Producer.ProducerImpl.LoseClient` | src/producer_impl.cpp:275-283 | takes the shutdown step |
| `Producer.ProducerImpl.MarkStopped` | src/producer_impl.cpp:188-196 | only the first stop goes on |
| `Producer.ProducerImpl.DestroyAccumulator` | src/producer_impl.cpp:188-218 | takes the accumulator-destroying step of stop |
| `Producer.ProducerImpl.DestroySemaphore` | src/producer_impl.cpp:188-218 | takes the semaphore-destroying step of stop |
| `Producer.ProducerImpl.TakeClient` | src/producer_impl.cpp:188-218 | takes the client away from the producer |
| `Producer.ProducerImpl.FailAllUnconfirmed` | src/producer_impl.cpp:220-235 | takes the draining step: map and accumulator are empty, each message failed once |
| `Task.SingleFlightNoLostFire` | src/reschedulable_task.cpp:63-86 | accepted fires are started plus pending invocations; at most one runs; a pending one has a runner while none has thrown |
| `Task.FiresAcceptedUntilDestroyed` | src/reschedulable_task.cpp:63-86 | started plus pending invocations are exactly the fires before the first destroy |
| `Task.InvocationsAccounted` | src/reschedulable_task.cpp:63-86 | every invocation started has returned, has thrown, or is the one running |
| `Task.DestroyRethrowsOnlyThrown` | src/reschedulable_task.cpp:149-176 | destroy rethrows only if an invocation has thrown |
| `Task.SilentAfterDestroy` | src/reschedulable_task.cpp:149-176 | after a destroy has returned no invocation runs and none ever starts |
| `Task.ThrowingLosesEveryLaterFire` | src/reschedulable_task.cpp:63-86 | after an exception out of the function, anywhere in a run, no invocation starts in any later state |
| `Task.SecondFireIsLost` | src/reschedulable_task.cpp:63-86 | a run in which the first invocation throws and the next accepted fire stays pending for good |
| `Task.NoLostFireExactly` | src/reschedulable_task.cpp:63-86 | pending fires of a live task have a runner if and only if no event of the run is a throwing invocation |
| `Task.StuckExactly` | src/reschedulable_task.cpp:63-86 | a run gets stuck if and only if an invocation of it throws |
| `Task.ReschedulableTask.constructor` | src/reschedulable_task.cpp:63-86 | no fire, no runner, not destroyed |
| `Task.ReschedulableTask.OnFire` | src/reschedulable_task.cpp:63-86 | takes the fire step and says whether a runner is submitted |
| `Task.ReschedulableTask.AtLoopHead` | src/reschedulable_task.cpp:63-86 | takes the loop-head step: invoke, or clear the current invocation |
| `Task.ReschedulableTask.BeginDestroy` | src/reschedulable_task.cpp:149-176 | takes the flagging step of destroy |
| `Task.ReschedulableTask.InvocationToAwait` | src/reschedulable_task.cpp:149-176 | takes the step that decides which invocation to wait for |
| `Scheduler.FindAvailableThread` | src/background_scheduler.cpp:49-70 | finds the first idle running worker, else the first stopped one, else none |
| `Scheduler.ChosenUnique` | src/background_scheduler.cpp:49-70 | that choice is unique |
| `Scheduler.TasksRunInOrderAtMostOnce` | src/background_scheduler.cpp:29-110 | until quitting, dispatched followed by overflow is the submission sequence; a non-empty overflow means all workers are busy; each task is dispatched, begun and finished at most once |
| `Scheduler.NoneForgotten` | src/background_scheduler.cpp:29-110 | tasks dispatched or waiting, begun and finished are as many as were submitted, begun and finished |
| `Scheduler.HistoriesExactly` | src/background_scheduler.cpp:89-110 | tasks begun and finished are those the workers had at these events, in their order |
| `Scheduler.NoTaskDroppedOrOverwritten` | src/background_scheduler.cpp:82-110 | only a worker's own completion changes the task it has, idle timeouts included |
| `Scheduler.SubmitInv` | src/background_scheduler.cpp:29-47 | a submission keeps the invariant, and a chosen worker has no task while the overflow is empty |
| `Scheduler.BackgroundScheduler.constructor` | src/background_scheduler.cpp:5-13 | at least one worker slot, none running |
| `Scheduler.BackgroundScheduler.RunTask` | src/background_scheduler.cpp:29-47 | takes the submission step |
| `Scheduler.BackgroundScheduler.FinishTask` | src/background_scheduler.cpp:89-110 | takes the completion step: next overflow task, or idle |
| `Scheduler.BackgroundScheduler.EndWait` | src/background_scheduler.cpp:89-110 | an idle timeout stops the worker only if it still has no task |
| `Consumer.DefinedKept` | src/consumer_impl.cpp:150-313 | every step leaves the optionals dereferenced at subscribe and store set |
| `Consumer.OptionalsAlwaysSet` | src/consumer_impl.cpp:150-313 | in every reachable state the optionals are set, so every enabled step can be taken |
| `Consumer.DeliveredInOrder` | src/consumer_impl.cpp:202-300 | across any number of reconnects, with sessions that increase and handlers overlapping or not, the delivered offsets strictly increase if and only if no session feeds after the largest 64-bit offset |
| `Consumer.RequestsExactly` | src/consumer_impl.cpp:275-300 | in every run the subscriptions ask first for the start position, then at each successful reconnect for the offset after the last delivered one, or the start position while nothing has been |
| `Consumer.DeliveredExactly` | src/consumer_impl.cpp:202-229 | with increasing sessions a message is delivered if and only if it lies at or after the start position and beyond the last delivered offset, and no other step delivers |
| `Consumer.SubscribesOnlyWithoutClient` | src/consumer_impl.cpp:275-283 | a reconnect subscribes only while no client is there |
| `Consumer.DeliveredWithoutGap` | src/consumer_impl.cpp:202-300 | with consecutive sessions that start at or below what their subscribe asked for, no offset is skipped after the first |
| `Consumer.FirstDelivered` | src/consumer_impl.cpp:33-63 | the first delivered offset is exactly the stored one plus one, or the requested one |
| `Consumer.ResumptionWraps` | src/consumer_impl.cpp:296-299 | a run that delivers 2^64 - 1, resumes at zero and delivers 0 |
| `Consumer.CursorWithinBounds` | src/consumer_impl.cpp:150-257 | handlers overlapping or not, stored offsets lie above the one read at start and never exceed the last seen one |
| `Consumer.StoredExactly` | src/consumer_impl.cpp:150-257 | in every run the stored offsets are exactly those of the due and successful stores of returning handlers, of the periodic task and of the stop |
| `Consumer.CountExactly` | src/consumer_impl.cpp:186-229 | the unpersisted count is the number of messages delivered since the last store, in 32 bits |
| `Consumer.CursorAdvancesExactly` | src/consumer_impl.cpp:150-257 | handlers overlapping or not, stored offsets strictly increase if and only if no handler stores after the same or a later offset was stored |
| `Consumer.OtherStoresAdvance` | src/consumer_impl.cpp:162-257 | the periodic store and the final store of a stop never break the order |
| `Consumer.CursorOnlyAdvances` | src/consumer_impl.cpp:202-229 | with messages handled one after the other stored offsets strictly increase |
| `Consumer.UnpersistedBelowFrequency` | src/consumer_impl.cpp:202-229 | while due stores succeed, fewer than `persist_frequency` messages are unpersisted unless a handler that will store is running, whatever the offsets and overlaps |
| `Consumer.OverlappingHandlersRegress` | src/consumer_impl.cpp:202-229 | a run with two handlers at once and increasing sessions, the first client taken away by a delayed reconnect, that stores 6 and then 5 |
| `Consumer.ConsumerImpl.constructor` | src/consumer_impl.cpp:33-63 | a started consumer; a named one's stored offset overrides the requested position |
| `Consumer.ConsumerImpl.BeginMessage` | src/consumer_impl.cpp:202-217 | takes the feed step and delivers exactly the offsets not filtered |
| `Consumer.ConsumerImpl.EndMessage` | src/consumer_impl.cpp:223-229 | takes the step after the handler, with its second test of the count |
| `Consumer.ConsumerImpl.StoreOffset` | src/consumer_impl.cpp:186-200 | stores on a named consumer with a client; a failed store keeps the count |
| `Consumer.ConsumerImpl.StoreCurrentOffset` | src/consumer_impl.cpp:249-257 | takes the periodic store step |
| `Consumer.ConsumerImpl.FinishReconnect` | src/consumer_impl.cpp:289-300 | subscribes at the offset after the last seen one, or at the position still standing, and takes the client over on success |
| `Consumer.ConsumerImpl.TakeForReconnect` | src/consumer_impl.cpp:259-268 | takes the client away unless stopped |
| `Consumer.ConsumerImpl.BeginReconnect` | src/consumer_impl.cpp:275-282 | goes on only while started and without a client |
| `Consumer.ConsumerImpl.LoseClient` | src/consumer_impl.cpp:239-247 | takes the shutdown step |
| `Consumer.ConsumerImpl.MarkStopped` | src/consumer_impl.cpp:150-157 | only the first stop goes on |
| `Consumer.ConsumerImpl.TakeClient` | src/consumer_impl.cpp:157-161 | takes the client away from the consumer |
| `Consumer.ConsumerImpl.StoreOnStop` | src/consumer_impl.cpp:162-179 | stores the last seen offset exactly if something is unpersisted and there was a client |
| `Wire.BigEndianInverse` | src/binary_buffer.cpp:181-210 | reading the big-endian bytes of a number gives the number back |
| `Wire.FromBigEndianInverse` | src/binary_buffer.cpp:81-117 | writing the number read from some bytes gives those bytes back |
| `Wire.UintRoundTrip` | src/binary_buffer.cpp:81-210 | unsigned integers of every width round-trip and leave the rest |
| `Wire.IntRoundTrip` | src/binary_buffer.cpp:119-234 | signed integers of every width round-trip in two's complement |
| `Wire.StringRoundTrip` | src/binary_buffer.cpp:149-248 | strings up to the limit round-trip |
| `Wire.BlobRoundTrip` | src/binary_buffer.cpp:161-262 | blobs up to the limit round-trip |
| `Wire.ArrayRoundTrip` | include/hareflow/detail/binary_buffer.hpp:13-37 | an array over any codec that round-trips does so too and consumes exactly what it wrote |
| `Wire.ArrayHasSize` | include/hareflow/detail/binary_buffer.hpp:3-11 | the computed size of an array is the length of its bytes |
| `Buffer.SerializedArraySize` | include/hareflow/detail/binary_buffer.hpp:3-11 | the size loop gives the number of bytes the array loop writes |
| `Buffer.BinaryBuffer.ReadUint` | src/binary_buffer.cpp:81-117 | reads as the wire definition does and advances by the width, or fails without moving |
| `Buffer.BinaryBuffer.ReadInt` | src/binary_buffer.cpp:119-147 | the same for signed integers |
| `Buffer.BinaryBuffer.ReadBytes` | src/binary_buffer.cpp:170-179 | takes exactly the bytes asked for, or fails without moving |
| `Buffer.BinaryBuffer.ReadString` | src/binary_buffer.cpp:149-159 | reads as the wire definition does, short and negative lengths included |
| `Buffer.BinaryBuffer.ReadBlob` | src/binary_buffer.cpp:161-168 | reads as the wire definition does |
| `Buffer.BinaryBuffer.ReadElements` | include/hareflow/detail/binary_buffer.hpp:19-22 | the element loop reads as the wire definition does and fails exactly when it does |
| `Buffer.BinaryBuffer.ReadArray` | include/hareflow/detail/binary_buffer.hpp:13-23 | the same with the length in front; a length of zero or less is the empty array |
| `Buffer.BinaryBuffer.WriteBytes` | src/binary_buffer.cpp:264-288 | appends exactly the bytes at the write cursor, within the buffer limit |
| `Buffer.BinaryBuffer.WriteUint` | src/binary_buffer.cpp:181-210 | appends the big-endian bytes, and fails exactly at the buffer limit |
| `Buffer.BinaryBuffer.WriteString` | src/binary_buffer.cpp:236-248 | appends length and bytes, and fails exactly above the string or buffer limit |
| `Buffer.BinaryBuffer.WriteBlob` | src/binary_buffer.cpp:250-262 | appends length and bytes, and fails exactly above the blob or buffer limit |
| `Buffer.BinaryBuffer.WriteElements` | include/hareflow/detail/binary_buffer.hpp:34-36 | the element loop succeeds exactly if no element is rejected by its writer and all fit the buffer, and then appends their encoding |
| `Buffer.BinaryBuffer.WriteArray` | include/hareflow/detail/binary_buffer.hpp:25-37 | the same with the length in front and its limit |
| `Commands.AnnouncedSizeIsExact` | src/commands.cpp:18-447 | for every client command the bytes written are as many as `serialized_size` announces |
| `CommandReader.FramesAreReadBack` | src/commands.cpp:18-447 | a reader that follows the protocol recovers each of the 21 client frames from its bytes |
| `ServerFrames.MetadataRoundTrip` | src/commands.cpp:274-291 | brokers, streams and their replica arrays decode to what was encoded |
| `ServerFrames.FirstWins` | src/commands.cpp:316-320 | of several properties with one key the first is kept |
| `ServerFrames.PropertyMapRoundTrip` | src/commands.cpp:301-320 | a property map written in any order of its keys reads back as the map |
| `ServerFrames.OutcomeRoundTrip` | src/commands.cpp:79-94 | publish confirmations and errors decode to what was encoded |
| `Chunks.DeliverRoundTrip` | src/commands.cpp:151-178 | for versions 1 and 2 chunk parsing yields exactly the encoded bodies in order and consumes all the data |
| `Chunks.HighBitIsTheSign` | src/commands.cpp:171-177 | the peeked high bit is the sign of the length, so `read_blob` never sees a negative one |
| `Chunks.SubBatchDeliversNothing` | src/commands.cpp:171-177 | a sub-batch entry anywhere means that no message of the chunk comes out |
| `Chunks.DeliveredEndToEnd` | src/client_impl.cpp:549-573 | whatever bodies are put into a chunk of either version, the listener is given exactly those, numbered from the chunk offset |
| `Chunks.ReadEntries` | src/commands.cpp:171-177 | the parsing loop gives what the recursive definition gives |
| `Chunks.NumberMessages` | src/client_impl.cpp:567-572 | message i is numbered chunk offset plus i, in 64 bits, up to the message at which an exception ends the loop |
| `Chunks.HandleDeliver` | src/client_impl.cpp:549-573 | a malformed chunk delivers nothing, any other delivers its messages numbered from the chunk offset, all of them unless an exception of codec or listener ends the loop |
| `FrameSplitting.PublishEncoded` | src/client_impl.cpp:311-333 | sends a prefix of the greedy batches up to the first that `send_frame` rejects, all of them if and only if it accepts each |
| `FrameSplitting.PublishExactly` | src/client_impl.cpp:311-333 | a call goes through if and only if every body has an announceable length and every batch leaves room for the length prefix |
| `FrameSplitting.AdmissionIsFrameSize` | src/accumulator.cpp:27-30 | the accumulator's test is on the serialized size of the publish frame a message makes alone |
| `FrameSplitting.BatchSizeIsSerializedSize` | src/commands.cpp:58-77 | the running size is the size of the frame it stands for |
| `FrameSplitting.AcceptsIsSendFrame` | src/client_impl.cpp:469-475 | exactly which publish frames `send_frame` lets out: frame limit with prefix, buffer limit, and the limits of the writers |
| `FrameSplitting.BatchesConcatenate` | src/client_impl.cpp:311-333 | the batches concatenate to the input in order |
| `FrameSplitting.BatchesFit` | src/client_impl.cpp:311-333 | if each message fits alone, every batch fits and none is empty |
| `FrameSplitting.SplitIsOptimal` | src/client_impl.cpp:311-333 | and no order-preserving split within the limit has fewer batches |
| `FrameSplitting.NoLimitOneBatch` | src/client_impl.cpp:319-323 | without a limit there is one batch, or none for no messages |
| `FrameSplitting.GapMessageCannotBePublished` | src/client_impl.cpp:469-475 | a list with a message in the four-byte gap is never published |
| `FrameSplitting.OversizedBodyCannotBePublished` | src/binary_buffer.cpp:250-255 | nor is one with a body above 2^31 - 1 bytes |
| `ProducerFrames.ReconnectThrows` | src/producer_impl.cpp:382-396 | with a message in the gap or above that size unconfirmed, the resending loop of a reconnect always throws |
| `ProducerFrames.UnpublishableBlocksRecovery` | src/producer_impl.cpp:360-408 | and the producer that has lost its client has none in any later state for as long as the message stays unconfirmed |
| `FrameSplitting.SingleMessageExactly` | src/client_impl.cpp:469-475 | an admitted message publishes if and only if it is not in the gap and has at most 2^31 - 1 bytes |
| `FrameSplitting.FullBatchCanBeRejected` | src/client_impl.cpp:316-332 | two small messages whose batch is refused |
| `ReadChain.ParseAppend` | src/connection.cpp:195-247 | parsing a stream in two instalments is parsing it at once |
| `ReadChain.ConcatenationRecovered` | src/connection.cpp:195-247 | any concatenation of frames is recovered as the same frames |
| `ReadChain.CutOffAnywhere` | src/connection.cpp:195-247 | a stream cut anywhere gives a prefix of the frames |
| `ReadChain.OversizedStopsTheChain` | src/connection.cpp:211-212 | the chain gets past a frame if and only if a buffer can hold it; otherwise `resize` throws and nothing more is recovered |
| `ReadChain.SentIsSealed` | src/client_impl.cpp:469-482 | what `send_frame` writes is the frame behind its exact length, within all limits, and can be read back |
| `SendableFrames.FrameReads` | src/binary_buffer.cpp:236-262 | every frame the protocol reader makes of any bytes has fields within the limits of the writers |
| `SendableFrames.SendableExactly` | src/client_impl.cpp:469-482 | each of the 21 client frames goes out if and only if its bytes with the prefix are within the limit and a reader makes the same frame of them; it then goes out behind its exact length |
| `ReadChain.StreamIsUnderstood` | src/client_impl.cpp:469-482 | a receiver of any prefix of the sent bytes holds a prefix of the frames and reads each back as the command it was |
| `Connection.OneWriteInFlight` | src/connection.cpp:103-193 | at most one write is in flight, exactly when the outbox is not empty, over a prefix of it; promises complete once in order; the socket gets each buffer once in order |
| `Connection.OutcomesExactly` | src/connection.cpp:161-193 | the promise of the k-th write is completed with the outcome of the socket operation that covered it |
| `Connection.AnswersExactly` | src/connection.cpp:115-234 | readers are told exactly what the events call for: concurrent, the oldest frame not handed out, or the failure; the waiting one the next frame or the failure |
| `Connection.PeerUnderstandsInOrder` | src/connection.cpp:103-193 | through outbox, framing and codec: whatever has reached the peer are the first frames written, understood |
| `Connection.NoFrameLostToAFailure` | src/connection.cpp:115-234 | handed out followed by inbox is arrived; each read is answered at most once; a pending read means an empty inbox and an unfailed connection; a failure is reported only when all arrived frames were handed out |
| `Connection.EveryFailureReported` | src/connection.cpp:115-234 | that holds of every failure told to a reader |
| `Connection.EndOfChainIsFinal` | src/connection.cpp:200-233 | after an error of the socket or a length no buffer holds no further frame arrives |
| `Connection.FailureIsFinal` | src/connection.cpp:200-233 | after the chain has ended and the inbox is drained nothing is ever handed out again |
| `Connection.Connection.constructor` | src/connection.cpp:136-159 | empty queues, not connected |
| `Connection.Connection.Write` | src/connection.cpp:103-113 | takes the enqueue step; starts a write exactly on a queue of one |
| `Connection.Connection.WriteCompleted` | src/connection.cpp:161-193 | completes exactly the covered prefix, each promise with the outcome of the operation, then sends the rest |
| `Connection.CompleteFront` | src/connection.cpp:165-174 | the loop itself: the covered prefix in order, each with the outcome, and the rest |
| `Connection.Connection.Established` | src/connection.cpp:37-42 | takes the connect step |
| `Connection.Connection.PostRead` | src/connection.cpp:115-134 | takes the read step: concurrent, frame, failure, or wait |
| `Connection.Connection.PostToInbox` | src/connection.cpp:211-233 | takes the arrival step; the frame is the next one of the byte stream |
| `Connection.Connection.ReadFailed` | src/connection.cpp:200-222 | takes the failure step and fails the waiting read |
| `ClientLifecycle.ShutdownAtMostOnce` | src/client_impl.cpp:123-173 | in every interleaving `shutdown` runs at most once, is owed or done exactly once the client is stopping, and calls the listener exactly if start had reached Started |
| `ClientLifecycle.StatusExactly` | src/client_impl.cpp:123-173 | the status is Stopping once a stop, a failed start, or a loop's end or missed heartbeat of a started client has happened, else Started once start got through, else Starting once it began |
| `ClientLifecycle.FailedStartStopsSilently` | src/client_impl.cpp:149-152 | a failed start leaves the client stopping, with one shutdown owed or made of which the listener never hears |
| `ClientLifecycle.StoppingIsFinal` | src/client_impl.cpp:155-173 | after a shutdown no start succeeds, nothing is owed and the listener is not called again |
| `ClientLifecycle.WinnerGivesTheReason` | src/client_impl.cpp:524-535 | the listener hears the reason of the step that left Started |
| `ClientLifecycle.LoopEndUnnoticedExactly` | src/client_impl.cpp:524-535 | a run that ends Started ends without a frame loop, and with no shutdown owed, if and only if the loop ended while starting |
| `ClientLifecycle.StartedWithoutLoop` | src/client_impl.cpp:123-153 | a run that ends Started with the frame loop gone and no shutdown owed |
| `ClientLifecycle.ClientStatus.constructor` | src/client_impl.cpp:335-366 | Initialized, nothing owed |
| `ClientLifecycle.ClientStatus.BeginStart` | src/client_impl.cpp:123-128 | takes the first exchange of start |
| `ClientLifecycle.ClientStatus.CommitStart` | src/client_impl.cpp:145-152 | takes the last exchange of start, or stops |
| `ClientLifecycle.ClientStatus.BeginStop` | src/client_impl.cpp:155-169 | takes the exchange of stop and says what shutdown it owes |
| `ClientLifecycle.ClientStatus.FailStart` | src/client_impl.cpp:149-152 | stops the client, owing a shutdown unless it was stopping |
| `ClientLifecycle.ClientStatus.Shutdown` | src/client_impl.cpp:368-375 | tells the listener the reason, if there is one |
| `ClientLifecycle.ClientStatus.EndOfLoop` | src/client_impl.cpp:524-535 | takes the exchange at the end of the frame loop |
| `ClientLifecycle.ClientStatus.HeartbeatMissed` | src/client_impl.cpp:622-628 | takes the exchange of the idle handler |
| `OutstandingRequests.CompletedAtMostOnce` | src/client_impl.cpp:432-467 | no promise is completed twice, and a response completes only the promise with its own correlation id |
| `OutstandingRequests.SettledExactly` | src/client_impl.cpp:432-456 | a promise is completed by the first event due to it while its call waits: the response with its correlation id, or the failure of the connection |
| `OutstandingRequests.OtherPhases` | src/client_impl.cpp:443-467 | a call is registered or refused by its own registration only, and erased by whoever gives up its id |
| `OutstandingRequests.ShutdownSettlesEveryone` | src/client_impl.cpp:449-456 | failing all leaves an empty map and no call waiting |
| `OutstandingRequests.RequestsDoNotInterfere` | src/client_impl.cpp:443-467 | with fewer than 2^32 requests none is refused and giving up touches no other call |
| `OutstandingRequests.InterferenceExactly` | src/client_impl.cpp:443-447 | giving up takes another call's promise if and only if a waiting call has the same id |
| `RequestWitness.WrappedIdTakesAnother` | src/client_impl.cpp:443-467 | a run of 2^32 + 1 requests after which giving up the first one erases the promise of the last |
| `OutstandingRequests.InKeyOrder` | src/client_impl.cpp:452-454 | the failing loop reaches every promise once, in key order |
| `OutstandingRequests.RequestMap.constructor` | src/client_impl.cpp:354-358 | sequence zero, no request |
| `OutstandingRequests.RequestMap.NextId` | src/client_impl.cpp:182-183 | the next correlation id, in 32 bits |
| `OutstandingRequests.RequestMap.SendRequest` | src/client_impl.cpp:458-467 | registers the promise unless its id is taken |
| `OutstandingRequests.RequestMap.CompleteRequest` | src/client_impl.cpp:432-441 | completes and removes the promise of a known id, ignores others |
| `OutstandingRequests.RequestMap.DropRequest` | src/client_impl.cpp:443-447 | erases by id |
| `OutstandingRequests.RequestMap.FailAllRequests` | src/client_impl.cpp:449-456 | fails every promise once and clears the map |

## Left out

- Sockets, TLS, name resolution, asio timers and the io_context: an expiry or a completion is a step that may come at any time.
- The AMQP codec: message bodies are opaque bytes.
- Builders, parameters, stream creation, logging and plain getters: only easy members; the checks of builders appear as configuration.
- The environment with its locator retries, host choice and registrations.
- Recovery liveness and real time: only safety is stated.
- A stop during `start()` of a producer or consumer: both are modelled from a started object on.
- Scheduler behaviour after `m_quitting` is set: queued tasks may then be dropped by design.
- Manual `store_offset` and credit calls: they store what the user says, so they are not part of the cursor.
- Joining the frame thread and the lifetime of client objects: the steps of a client that is being stopped are not delayed until its thread has ended, so the machines allow more interleavings than the code; the runs given as witnesses do not use the additional ones.
- Server responses other than metadata, peer properties, publish confirmations, publish errors and deliveries, and the negotiation of frame size and heartbeat: readers of a few fixed fields.
- The `write_body` and `read_body` members are functions on byte sequences; only the primitives and array loops they use are modelled as updates of a buffer.
- The buffer pool of Connection.
- Buffer.BinaryBuffer.ReadElements: does not say where the cursor is left after a failed element, because a failing element reader may have taken part of its element.
- Buffer.BinaryBuffer.ReadArray: the same.
- Connection.Connection.PostToInbox: the case of a length no buffer holds, in which `resize` throws, is the `Stall` step of the inbox machine only; what the exception does outside the connection is not modelled.
