# Verified model of blaster's delivery pipeline

Blaster pumps messages from a broker into a pool of detached workers that retry,
poison or delete them, and, for Kafka, commits offsets through a buffered
committer while consumer sessions come and go. This project models that machinery
in Dafny and proves what holds in every run of it.

`dafny verify dfyconfig.toml` checks everything.

## How it is modelled

- `Retry.dfy`, `Workers.dfy`: `RetryPolicy.Execute` and the goroutine that handles
  one message. Operations are arbitrary sequences of outcomes.
- `Pump.dfy`, `PumpTheorems.dfy`: the pump goroutine, its workers, the
  `DispatchDone` channel and the context as one step relation. An event is one
  atomic action of one goroutine; a run is any sequence of enabled events, and the
  points between two launches of one iteration are states of their own.
- `MessagePump.dfy`: `MessagePump.Start` as a class with its loop. At every point
  where another goroutine can act, it does so arbitrarily; the loop is proved to be
  a run of the step relation, so that all its theorems apply.
- `Committer.dfy`, `Staleness.dfy`: the two committers on a sequence of requests
  and ticks, as classes and as a specification, and the timing of commits.
- `CommitServer.dfy`, `CommitServerTheorems.dfy`: the buffered committer as a server
  used concurrently: callers blocked in `Commit`, rendezvous, the hook in progress,
  `Stop`. The theorems are stated against the calls, ticks and hook answers that
  happened, not against what the server records.
- `Pipeline.dfy`, `PipelineTheorems.dfy`: one Kafka partition, composed of the pump
  and the committer (buffered or direct); `Delete` is a call of `Commit`.
  `PipelineConservation.dfy` shows that nothing handled is lost; `PipelineRuns.dfy`
  builds, for every configuration, the runs that show the bounds exact; `StopSafety.dfy` says when stopping the committer is safe.
- `Sessions.dfy`, `ConsumerGroup.dfy`: consumer sessions as a step relation with
  channels and awaiters as close counters beside the program counters of the
  goroutines, and the methods of the handler and the binder proved to be runs of
  it. `Awaiters.dfy` is the one-shot latch.

A `select` with several ready cases is a free choice everywhere.

Environment assumptions: `MaxHandlers >= 1` after defaulting (a negative value
panics in `make`); both transporters' message channels are unbuffered; a claim
delivers messages in increasing offset; one topic, so that no partition is claimed
twice in a session; `ConsumeClaim` runs at most once per claimed partition, only
between `Setup` and `Cleanup`, and `Cleanup` starts after all of them have returned. Theorems about batches require
`CommitBatchSize >= 1`, which line 57 of the handler guarantees for a buffered
committer; those about staleness a positive interval.

Where documentation and code differ, the model follows the code. README.md:107-109
describes retrying on failure, but the loop of `Execute` also goes on after a
successful retry (`Retry.AgreesForAllOutcomesExactly` says when this shows).
README.md:176 promises that the messages of a partition are delivered to the handler
sequentially, in the order received, which the code keeps exactly for one handler,
whatever the committer (`PipelineRuns.SequentialExactlyWithOneHandler`).

Cleanup stops the committer without waiting for the workers that the pump has
launched. A worker that goes on to delete its message then sends on the closed
channel and panics: `StopSafety.StopCanPanic` gives such a run for every buffered
configuration, and `StopSafety.StopIsSafeExactly` the exact condition under which
none exists.

## Model

| member | source | states |
|---|---|---|
| Retry.RetryPolicy.Execute | core/retry_policy.go:31-50 | the loop makes one attempt if the first succeeds and Count+1 otherwise, success of a retry notwithstanding, and returns the result of the last attempt |
| Retry.AgreementExactly | core/retry_policy.go:41-48 | on one outcome sequence, calls equal those of a loop that stops at the first success iff the first attempt succeeds or no attempt strictly between the first and the last does; results differ iff, besides, the last retry fails |
| Retry.AgreesForAllOutcomesExactly | core/retry_policy.go:41-48 | the documented retry-on-failure behaviour (README.md:107-109) holds for all outcome sequences iff Count <= 1; a concrete outcome sequence refutes it above |
| Retry.StickySuccessAgrees | core/retry_policy.go:31-50 | if success is sticky the result is the documented one for every Count: nil iff some attempt succeeds |
| Workers.RunDispatch | core/message_pump.go:110-140 | the goroutine body ends in the state that stepping a fresh worker call by call reaches, with every result the one the dispatcher and the transporter gave |
| Workers.FinishedWorkerFollowsGrammar | core/message_pump.go:116-139 | a finished worker has made 1..Count+1 dispatches and then either one poison or 1..Count+1 deletes, according to the last dispatch; exactly one of handled and poisoned holds |
| Workers.NoDeleteWithoutDispatch | core/message_pump.go:122-134 | in every intermediate state a delete has begun only after a successful dispatch, and never together with a poison |
| Workers.DriveReachesOutcome | core/message_pump.go:110-140 | a worker in any reachable state, left to run, makes all its remaining calls and reaches its token |
| Pump.RunKeepsInv | core/message_pump.go:45-104 | in every reachable state, mid-launch included: token conservation, the closed form of activeHandlers, FIFO of messages, the window law, and the global trace projects to each worker's calls |
| Pump.LaunchKeepsInv | core/message_pump.go:71-75 | one launch inside the loop of line 71 keeps all of it |
| Pump.PumpStepKeepsInv | core/message_pump.go:54-101 | every other step of the pump goroutine, and cancellation and close, keep all of it |
| PumpTheorems.TokenConservation | core/message_pump.go:77-90 | running workers + tokens in DispatchDone = activeHandlers + launched so far in this iteration <= MaxHandlers, and a worker's send to DispatchDone is always possible |
| PumpTheorems.LoopHeadClosedForm | core/message_pump.go:66-90 | at a loop head activeHandlers = min(launched, MaxHandlers-1) and tokens consumed = max(0, launched-(MaxHandlers-1)) |
| PumpTheorems.WindowLaw | core/message_pump.go:66-90 | message i is launched only when at least i-MaxHandlers+1 earlier ones have finished, so at most MaxHandlers-1 run |
| PumpTheorems.UnfinishedBefore | core/message_pump.go:66-90 | at any later time too, at most MaxHandlers-1 of the messages launched before message j are unfinished |
| PumpTheorems.ExitAccounting | core/message_pump.go:54-101 | on exit launched messages followed by the buffer are the concatenation of the received batches; the buffer is empty unless cancelled while saturated, and no call was made for what it holds; the transporter was closed, or the context cancelled, according to the exit |
| PumpTheorems.TraceGrammar | core/message_pump.go:110-140 | for every message, its calls in the global trace follow the worker grammar once finished, and its safety part before |
| PumpTheorems.SignalsAreTold | core/message_pump.go:54-101 | the context is done exactly when it was cancelled, and the transporter closed exactly when it was closed |
| PumpTheorems.CancelledLoopNeedsTokens | core/message_pump.go:80-101 | after a cancellation the loop goes on only by taking a token while saturated: the default case of line 99 is never taken again |
| PumpTheorems.CancelledSelectEnds | core/message_pump.go:80-101 | at a select with the context done the pump can exit, and can also take a token if saturated; with a handler free it does nothing but exit: it never reads or launches again |
| PumpTheorems.CancellationUnseenWhileWaiting | core/message_pump.go:54-63 | a pump waiting for its stream at an empty buffer stays there, launching nothing, as long as nothing is delivered and nothing closed, cancelled or not: line 55 does not look at the context |
| PumpTheorems.ExitsOnce | core/message_pump.go:54-98 | exiting is terminal: a run contains exactly one exit, and so one notification, if the pump has exited, and none before |
| PumpTheorems.SerialisedWithOneHandler | core/message_pump.go:54-90 | with MaxHandlers = 1 the global trace is the concatenation in arrival order of whole per-message blocks, only the last possibly incomplete, whatever the batches |
| PumpTheorems.SerialExactlyWithOneHandler | core/message_pump.go:64-90 | for a transporter that delivers batches: the trace is serial in every run iff MaxHandlers = 1; a concrete run refutes it above |
| PumpTheorems.CompleteWorker | core/message_pump.go:110-114 | from every reachable state with an unfinished worker, steps of workers alone lead to a state with a token in DispatchDone |
| PumpTheorems.SaturatedPumpProgresses | core/message_pump.go:80-90 | a saturated pump is never deadlocked: worker steps alone always make a token available |
| MessagePumpLoop.MessagePump.constructor | core/message_pump.go:142-158 | MaxHandlers is 256 times NumCPU if zero is given and what is given otherwise; the retry count is the one given; the pump starts in the initial state with its awaiter not notified |
| MessagePumpLoop.MessagePump.Start | core/message_pump.go:45-104 | the loop is a run of the step relation under arbitrary interference; on a finite stream that is closed or stays open it ends by exiting, with exit accounting of its fields and its awaiter notified exactly once, with the error of the exit, or by waiting at line 55 for the open stream with all it delivered launched and its awaiter not notified; with the context done from the start it exits after the first batch if that leaves a handler free, having read no other |
| MessagePumpLoop.MessagePump.LaunchSome | core/message_pump.go:66-78 | launches min(len(buffer), MaxHandlers-activeHandlers) messages from the front of the buffer, other goroutines acting in between |
| MessagePumpLoop.MessagePump.LaunchAndSelect | core/message_pump.go:66-101 | one iteration shortens a nonempty buffer, and obeys a context that is done if a handler stays free |
| MessagePumpLoop.MessagePump.Select | core/message_pump.go:80-101 | the loop goes on iff the context is not done or, when saturated, the select prefers a token; going on saturated consumes one token and decrements activeHandlers, otherwise both are unchanged |
| MessagePumpLoop.LaunchingHasRoom | core/message_pump.go:66-70 | every iteration finds a free handler, so a nonempty buffer always launches at least one message |
| Awaiters.AwaitNotifier.Notify | core/awaiter.go:32-35 | sets the error and the latch; may be called once only, a second close would panic |
| Committer.DirectCommitter.Commit | kafka/direct_committer.go:36-39 | marks every message, always nil |
| Committer.BufferedCommitter.DoCommitAndReset | kafka/buffered_committer.go:126-148 | on the fields: marks the message, empties what is pending and records the time, unless a configured hook refuses, in which case nothing changes and its error is returned |
| Committer.BufferedCommitter.OnTick | kafka/buffered_committer.go:77-84 | on the fields: lastSeenMessage is marked iff there is one, the last commit is an interval old and the hook does not refuse; otherwise nothing changes; one round is the step of the specification |
| Committer.BufferedCommitter.OnRequest | kafka/buffered_committer.go:91-102 | on the fields: a request that fills the buffer and is not refused is committed at the latest message and answered nil; one that is refused is answered with the error and stays pending, uncommitted; one that does not fill the buffer stays pending and is answered nil; one round is the step of the specification |
| Committer.BufferedCommitter.Run | kafka/buffered_committer.go:73-106 | the event loop over any interleaving of requests, ticks and hook outcomes computes the specified log, one reply per request |
| Committer.BatchPartition | kafka/buffered_committer.go:56-148 | the counters refine a reference that groups requests in lists, from the requests, ticks and hook answers alone: nonempty consecutive blocks, each committed once at its latest message (largest offset, last among equals), a pending tail that numberOfMessagesObserved and lastSeenMessage describe exactly, the same replies and the same last commit time; a buffer-full block has CommitBatchSize requests plus one per refused commit |
| Committer.FailedHookCount | kafka/buffered_committer.go:96-103 | max(0, numberOfMessagesObserved-(CommitBatchSize-1)) = failed buffer-full commits since the last successful one; without a hook fewer than CommitBatchSize requests are ever pending and full blocks have exactly CommitBatchSize |
| Committer.ReplyOfRequest | kafka/buffered_committer.go:96-102 | a request is answered with the hook's error iff it fills the buffer and the hook refuses, otherwise with nil |
| Committer.RefusedRequestStaysPending | kafka/buffered_committer.go:91-102 | after every sequence of events, a request with a refusing hook is not committed: it is counted, and lastSeenMessage is the latest of all that is pending |
| Committer.CommitsNeedPermission | kafka/buffered_committer.go:127-132 | with a hook configured there are never more commits than nil answers of the hook |
| Committer.WatermarkCoupling | kafka/buffered_committer.go:73-148 | max committed offset joined with lastSeenMessage's offset = max offset of all requests |
| Committer.RefinesDirectCommitter | kafka/buffered_committer.go:73-148 | against the direct committer on the same requests: never ahead; same watermark iff nothing pending is beyond what is committed, in particular when nothing is pending |
| Committer.DegenerateBatch | kafka/buffered_committer.go:91-103 | with CommitBatchSize = 1 and no hook the commitFunc calls are those of the direct committer for every interleaving with ticks |
| Committer.OrderedRequestsOrderedCommits | kafka/buffered_committer.go:91-102 | requests in offset order are committed in offset order, and what is pending is at or beyond what is committed |
| Staleness.StalenessBound | kafka/buffered_committer.go:77-84 | with punctual undropped ticks, a monotone clock, instantaneous commits and no hook failure, a request accepted two intervals ago is covered by a later commit at or beyond its offset |
| Staleness.StalenessBoundIsTight | kafka/buffered_committer.go:77-84 | for every interval a request can still be uncommitted two intervals less one time unit after it was accepted |
| Staleness.TimerSpacing | kafka/buffered_committer.go:77-84 | in every run a tick commits iff something is pending, the hook does not refuse, and the previous successful commit (or the start) is at least one interval old |
| Staleness.CoveredByNextCommit | kafka/buffered_committer.go:91-102 | the first commit after a request is at or beyond its offset; until then lastSeenMessage is |
| CommitServerTheorems.RecordIsTrue | kafka/buffered_committer.go:73-116 | the event sequence that the committer processes is what happened: every tick with its time, every accepted call with its message, each with the hook answer and clock reading given for it, in order, none added or left out |
| CommitServerTheorems.Linearizable | kafka/buffered_committer.go:73-116 | for every interleaving of callers, timer and hook: marks and replies are those of the sequential committer on the calls in acceptance order, the ticks that fired and the answers that the hook gave; when the loop is ready for its next event every accepted call has returned |
| CommitServerTheorems.MarksAreAnnounced | kafka/buffered_committer.go:134-135 | every step marks exactly the message it is said to pass to commitFunc |
| CommitServerTheorems.RealTimeOrder | kafka/buffered_committer.go:108-116 | a call answered at an earlier action than another was made at precedes it in acceptance order, in which no call occurs twice |
| CommitServerTheorems.ReplyIsFinal | kafka/buffered_committer.go:32-35 | a returned call keeps its one answer under every further step |
| CommitServer.RunKeepsInv | kafka/buffered_committer.go:73-116 | the simulation invariant, including the intermediate state while the hook runs, holds in every reachable state |
| CommitServerTheorems.EndsOnce | kafka/buffered_committer.go:86-89 | ending is terminal: a run contains exactly one end of the event loop, and so one notification, if the loop has ended, and none before |
| CommitServerTheorems.SelectIsFree | kafka/buffered_committer.go:75-89 | between events a tick can be taken at any time, also after Stop, any sending caller can be accepted until Stop, and the end is possible iff Stop was called |
| CommitServerTheorems.NothingAcceptedAfterStop | kafka/buffered_committer.go:85-89 | after Stop no call is accepted, and a call that was still sending never returns |
| CommitServerTheorems.StoppedLoopCanEnd | kafka/buffered_committer.go:85-120 | after Stop the loop can always end, by at most the hook in progress, one reply and the end; what is pending is not flushed |
| CommitServerTheorems.StopWithoutNewCalls | kafka/buffered_committer.go:118-120 | of the calls made before Stop: no continuation without a new call panics iff no call of Commit is blocked in its send |
| Pipeline.PartsKeepTheirInvariants | kafka/transporter.go:32-38 | in the composed partition pipeline the pump and the committer keep all their own invariants |
| Pipeline.RunKeepsLinks | kafka/transporter.go:32-34 | every call of Commit belongs to a worker that has handled that very message and is blocked in Delete until the reply; delivered offsets stay increasing |
| PipelineConservation.CommitsAreAnnounced | kafka/sarama_consumer_group_handler.go:53-62 | every step of the partition marks exactly what it is said to pass to commitFunc, with either committer |
| PipelineConservation.EveryDeleteCommits | kafka/transporter.go:32-34 | the calls of Commit are the deletes of the trace, in order, with their workers' messages: a direct committer has marked exactly those |
| PipelineConservation.DeletesGetReplies | kafka/buffered_committer.go:32-35 | what a worker's deletes returned, which decides its retries, are the committer's replies to its calls, all of them, in order |
| PipelineConservation.TransporterNeverFails | kafka/direct_committer.go:36-39 | in every run Poison and a direct committer's Delete return nil, and so with a direct committer no message is deleted, and marked, twice |
| PipelineConservation.HandledIsCovered | kafka/transporter.go:32-34 | in every run, with either committer: a message whose worker has finished having handled it is covered by a commit at or beyond its offset or by what the committer has pending |
| PipelineTheorems.CommitGap | kafka/sarama_consumer_group_handler.go:53-62 | whenever an offset is passed to commitFunc, by either committer: its message has been handled, and at most MaxHandlers-1 messages delivered with a smaller offset are neither handled nor poisoned, none if MaxHandlers = 1 |
| PipelineTheorems.CommitsInOrderWithOneHandler | kafka/buffered_committer.go:91-102 | with MaxHandlers = 1 committed offsets are nondecreasing, for either committer |
| PipelineRuns.CommitGapIsTight | kafka/sarama_consumer_group_handler.go:53-62 | in every configuration, with either committer, a run attains the bound: MaxHandlers-1 messages with smaller offsets are neither handled nor poisoned when an offset is committed |
| PipelineRuns.SequentialExactlyWithOneHandler | kafka/sarama_consumer_group_handler.go:116-143 | what README.md:176 promises, for each configuration by itself, direct or buffered with any batch size, interval and hook: messages are handled one after the other in arrival order in all runs iff MaxHandlers = 1; no commit ever runs ahead of unfinished work iff MaxHandlers = 1; committed offsets never go back iff MaxHandlers = 1 |
| StopSafety.StopIsSafeExactly | kafka/buffered_committer.go:108-120 | once the pump has exited and a buffered committer has been stopped: no continuation of the partition, workers included, panics by sending on the closed channel iff every launched worker is poisoning, has finished, or waits for the reply to the call being served and retries on no reply it can get |
| StopSafety.StopCanPanic | kafka/sarama_consumer_group_handler.go:90-93 | in every buffered configuration a run exits the pump by cancellation, stops the idle committer while no call of Commit has been made, and has a continuation that panics |
| StopSafety.RunKeepsBlocked | kafka/transporter.go:32-34 | every worker blocked in Delete has a call of Commit that has not returned |
| PipelineTheorems.ReplyNeverBlocks | kafka/buffered_committer.go:32-35 | the committer's reply always finds its worker waiting, so the event loop never hangs in Complete |
| Sessions.NoSecondClose | kafka/sarama_consumer_group_handler.go:82-146 | no goroutine ever closes a channel a second time, notifies an awaiter a second time, or sends a batch on a closed message channel or to a pump that is not running; sends of Commit are the subject of StopSafety |
| Sessions.CloseDiscipline | kafka/sarama_consumer_group_handler.go:86-146 | each partition's channel is closed at most once, exactly once by the end of Cleanup, started or not, and never while the loop holds a message to send; what is sent is what the claim delivered, in order, without at most the last message, and without that only if the runner has exited |
| Sessions.GenerationSeparation | kafka/binder.go:45-74 | when a new session begins, and ever after, every partition of every earlier one has its channel closed, handler manager, pump and runner each notified exactly once, and its committer ended; the binder is notified once, on exit |
| Sessions.StateIsExplained | kafka/binder.go:39-76 | in every run the binder has exited, once, iff Consume returned an error or it looked at its context after a cancellation, and otherwise has begun another session as often as it looked; contexts are done iff cancelled, the session's since it began; the session holds exactly the claims installed, buffered as configured; handler manager, pump and committer have notified as often as they ended, and the pump only if its channel was closed or its context done |
| Sessions.WaitsAreExact | core/default_message_pump_runner.go:39-50 | every wait of a session ends exactly for what it waits for: the pump's exits, the runner's select and its two joins, the receive loop's selects, the committer's end and the two waits of Cleanup |
| Sessions.PartitionStep | core/default_message_pump_runner.go:32-51 | every step of a partition's goroutines, which may run until their own program counter ends, keeps the counts: handler manager, pump and committer have notified once if gone and not at all before, and the runner once, after the first two are gone |
| Sessions.CleanupCanFinish | kafka/sarama_consumer_group_handler.go:82-98 | from every reachable state inside Cleanup there is a continuation that finishes it: its waits, the runner's joins and the pump never wait for each other |
| ConsumerGroup.Binder.Setup | kafka/sarama_consumer_group_handler.go:40-80 | the loop over the claims fills the map with a handler for exactly the claimed partitions, buffered iff CommitBatchSize > 0, none consumed or closed, while the goroutines of those already installed run |
| ConsumerGroup.Binder.ConsumeClaim | kafka/sarama_consumer_group_handler.go:100-146 | while the receive loops of other partitions and all background goroutines run: however the loop ends, the partition's channel is closed exactly once, and the pump got the claim's messages in order without at most the last; all of them unless the runner exited |
| ConsumerGroup.Binder.Cleanup | kafka/sarama_consumer_group_handler.go:82-98 | under interference, the loop over the partitions in any order ends with every partition torn down and done closed once |
| ConsumerGroup.Binder.ConsumeClaims | kafka/sarama_consumer_group_handler.go:100-146 | the receive loops of any of the claims, interleaved freely, come to an end: all that were started return |
| ConsumerGroup.Binder.AfterConsume | kafka/binder.go:56-73 | the binder goes on, with a fresh session, iff Consume returned nil and its context is not done; otherwise it notifies, with that error or nil |
| ConsumerGroup.Binder.Start | kafka/binder.go:39-76 | over any sequence of sessions: every ended session is torn down before the next begins, with exactly the partitions it claimed; the binder notifies once, with the first error of Consume, or with nil only if its context is done, and otherwise runs every session; with its context done from the start it stops after the first |

## Left out

- HTTP dispatching, handler processes, brokers and AWS calls: arbitrary outcomes or environment steps.
- `cmd/`, configuration, logging, stopwatch, mocks, samples and scripts: plumbing.
- `sqs/sqs_binder.go`: a source of arbitrary batches, including empty ones; its read loop is not modelled.
- `kinesis/`: an unfinished sketch whose store does nothing.
- Delays: `RetryDelay` and the handler's startup delay take no part in the properties; only the committer has a clock, unbounded and in nanoseconds.
- Integer widths: offsets are only compared and counters are bounded by the handlers or the requests; overflow of the interval in seconds times 10^9 is not modelled.
- Consuming an unclaimed partition (the error path that returns with the lock held): claimed partitions only.
- Buffered message channels: batches left in a channel when it is closed would be received before the close is seen.
- The pump inside `Sessions` is reduced to its exits, and workers and calls of Commit are not part of it; `Sessions` and `Pipeline` are not joined into one state machine. What a worker that outlives its session does is in `StopSafety`, from the states that Cleanup leaves: pump exited, committer stopped.
- CommitServerTheorems.StopWithoutNewCalls: calls that workers make after Stop are excluded there; they are covered by `StopSafety.StopIsSafeExactly`.
- `DefaultMessagePumpRunner.Run`, `Transporter.Close` and `Transporter.Poison` are steps of the step relations rather than methods; their update of shared objects is captured by the step's state.
- ConsumerGroup.Binder.ConsumeClaim: a claim whose channel never closes while its runner goes on is an endless receive loop and is in `Sessions` only; in the method the claim delivers a finite sequence and closes.
- Sessions.CleanupCanFinish: says that a way to finish exists, not that a fair scheduler takes it; a handler process that never exits keeps Cleanup waiting.
