# Verified model of the notification system

A Dafny model of the delivery path of the notification system and of its real-time
hub, with machine-checked proofs. `dafny verify dfyconfig.toml` checks everything.

## What is modelled

**Delivery lifecycle.** `Lifecycle` is the protocol between the API service, the
`notifications` table, the nine Redis streams, the workers and the schedulers: every
repository, queue or limiter call is one atomic step, any steps of any number of
processes may interleave, and any call may succeed, take effect and still return an
error, or fail without effect. A caller that gets an error does what the code does.
`LifecycleInvariant` states what every reachable state satisfies: per notification
there is at most one *delivery token*, and its place fixes what the row, the message
and the history say. `LifecycleSteps` and `LifecycleTransfers` prove that every step
keeps it; `LifecycleEffects` spells out what each step writes, in columns and streams;
`LifecycleMoves` and `LifecycleTokens` follow tokens from state to state;
`LifecycleSafety`, `LifecyclePermanence`, `LifecycleConservation` and
`LifecycleProgress` draw the consequences. `Throughput` and `Pool` combine lifecycle,
rate limiter and pool into a bound on the load that the provider sees.

**The code on top of it.** `Runtime` is the shared system as an object that keeps the
run so far: between two calls of one process the others may do anything the protocol
allows, and contracts speak of the steps of the run in which a call was made.
`Workers`, `Schedulers` and `NotificationServices` are the methods of the source,
statement by statement, working on that object; `Batches` holds what their two enqueue
loops share. `NotificationTable` and `Streams` are the atomic operations, each as a
function on values and as a method that updates fields.

**Rate limiter, circuit breaker, backoff.** `TokenBucket` is the Lua script with
`Allow` and `Wait`. `CircuitBreaker` splits `Send` into admission, call and recorded
result, for any number of concurrent callers. `Backoff` is the retry delay with cap,
jitter, floor and truncation.

**WebSocket hub.** `HubRuns` interleaves the hub, which holds its mutex over a
broadcast, with the write pumps at the level of single channel operations. `Hubs` has
the hub and the clients as objects.

## Where the code and its documentation differ

The model follows the code.

- README.md line 453 says that half-open allows one probe request. The code admits
  every caller, so that is true if and only if there is no more than one
  (`CircuitBreaker.OneProbeIffOneCaller`), and results of calls from before the trip
  count too (`CircuitBreaker.LateResultsCloseIffEnough`).
- README.md line 327 says that queued notifications can be cancelled. The status is
  set, but the entry stays in its stream and can still be delivered
  (`LifecyclePermanence.CancelInStreamIsOverturned`); when a cancel sticks is said by
  `LifecyclePermanence.CancelSticksIff`.
- `IsTerminal` says that its statuses cannot transition further. `failed` is left by
  retries, and `cancelled` and `delivered` can be overwritten; the exact condition is
  `LifecyclePermanence.TerminalIsFinalIffNoWriter`.
- `Create` publishes before it writes `queued`. The late write can overwrite what a
  worker has recorded and so lose a retry
  (`LifecycleConservation.LateMarkLosesRetry`).

## Assumptions

- Ids are unique per notification; UUIDs are integers and zero is the nil UUID.
- One clock for all processes, which does not go back; instants are whole
  nanoseconds, and the limiter sees them as whole milliseconds.
- `Create` and `CreateBatch` are handed new entities: no attempts, no retry time, no
  provider answer.
- A stream entry is read by one consumer only, and entries that were read but not
  acknowledged are not claimed again, as in the code.
- Redis runs the script at the instant the client read its clock.
- After a failed write on a WebSocket connection all later ones fail. This is a
  property of the WebSocket library, which is not part of this model.

## Model

| member | source | states |
|---|---|---|
| LifecycleSafety.AtMostOneToken | internal/worker/processor.go:62-127 | In every reachable state of every interleaving, with any call failing, a notification has at most one delivery token: due or scheduled row, API call before its enqueue, scheduler between fetch and enqueue, unread stream entry, or busy worker. |
| LifecycleSafety.NoConcurrentDelivery | internal/worker/processor.go:62-127 | No two workers are ever busy with the same notification. |
| LifecycleSafety.DeliveryBudget | internal/worker/processor.go:76-116 | Over every run a notification has at most one successful `Send` and at most `MaxAttempts` calls of `Send`. |
| LifecycleProgress.BudgetIsReached | internal/worker/processor.go:94-116 | The budget is exact: from any reachable state with a token that the provider has not accepted, a run without infrastructure errors makes exactly `MaxAttempts` calls of `Send`. |
| LifecycleProgress.DeliverableIffChance | internal/worker/processor.go:62-127 | Nothing gets stuck: from any reachable state a run without infrastructure errors delivers the notification if and only if it is delivered already, or has a token and either an attempt left or a call in hand. |
| LifecycleProgress.HopelessIsFinal | internal/worker/processor.go:62-127 | Without that condition no run delivers it, with or without errors. |
| LifecycleSafety.OneSuccessPerKey | migrations/000001_create_notifications.up.sql:7 | Summed over any set of notifications, at most one successful `Send` carries a given idempotency key. |
| LifecycleSafety.ProviderIdIsTheAnswer | internal/worker/processor.go:79-86 | A provider message id in the table is the one that the one successful `Send` returned, and no run changes it. |
| LifecycleSafety.EntriesAreNumbered | internal/scheduler/scheduler.go:164-174 | The k-th stream entry of a notification carries attempt number k, counting both from zero. |
| LifecycleSafety.SnapshotsAgree | internal/worker/processor.go:63-97 | Whatever copy of the entity a creator, scheduler, stream or worker holds agrees with the row on identity and attempt counter, and unread entries and busy workers have budget left. |
| LifecycleSafety.FailedRowsRetryWithinBudget | internal/worker/processor.go:96-116 | `attempts <= max_attempts` always, and a row in `failed` has a retry time if and only if `IsRetryable` holds. |
| LifecycleSafety.SendsAreTimely | internal/worker/processor.go:99-107 | Nothing is sent before its `ScheduledAt`, any two sends of one notification are at least `RetryBaseDelay` apart, and send k+1 follows send k by at least the shortest delay that the backoff of attempt k can give. |
| LifecycleSafety.AcknowledgedIsDurable | internal/worker/processor.go:79-126 | An acknowledged entry has its outcome in the table (provider message id set, or more attempts than its snapshot), now and in every continuation. |
| LifecycleSafety.AckNamesItsOwnEntry | internal/infrastructure/redis/queue.go:135-141 | Every acknowledgement names the stream and entry its message was read from. |
| LifecycleEffects.EntriesMatchTheirStream | internal/infrastructure/redis/queue.go:51-67 | In every reachable state each entry is in the stream of its own channel and priority. |
| LifecycleEffects.MessagesMatchTheirWorker | internal/worker/pool.go:85-110 | And each worker has messages of its own channel and priority only. |
| LifecycleEffects.ProcessingIsNotCancelled | internal/worker/processor.go:65-69 | After step a the row says `processing`, so a cancel finds nothing to cancel and changes nothing. |
| LifecycleEffects.PlanIsBounded | internal/worker/processor.go:96-104 | A planned retry is neither before the base delay nor after max(base, 1.2*maxDelay). |
| LifecycleSafety.TokenMovesAreBounded | internal/worker/processor.go:62-127 | Any run moves the token of a notification at most ten times per allowed attempt. |
| LifecycleTokens.Trace | internal/worker/processor.go:62-127 | Every token after a step comes from a token before it, unchanged or exactly one rank lower: tokens are never made out of nothing. |
| LifecycleTokens.MoveUsesUp | internal/worker/processor.go:62-127 | The measure (attempts left, stage) of a notification never grows, and falls with each token move. |
| LifecycleTransfers.StepKeepsInvariant | internal/worker/processor.go:62-127 | Each of the 22 kinds of step of API calls, workers and schedulers keeps the invariant, deletes no row, and takes nothing off a stream. |
| LifecycleTransfers.RunKeepsInvariant | internal/worker/processor.go:62-127 | The same over whole runs. |
| LifecycleInvariant.InitEstablishes | internal/worker/processor.go:62-127 | Empty storage and idle workers satisfy the invariant. |
| LifecycleMoves.CreatorEnqueueMoves | internal/service/notification_service.go:83-95 | The publish of an API call takes its token to the end of the stream and nowhere else, and moves no token of another notification. |
| LifecycleMoves.SchedEnqueueMoves | internal/scheduler/scheduler.go:164-174 | The publish of a scheduler takes its token to the end of the stream and nowhere else, and moves no token of another notification. |
| LifecycleMoves.DequeueMoves | internal/infrastructure/redis/queue.go:92-131 | Reading an entry takes its token to the worker that reads it, or ends it when the reply is lost; no other token moves. |
| LifecycleMoves.FetchMoves | internal/infrastructure/postgres/notification_repository.go:302-356 | The select-and-mark transaction takes the tokens of exactly the selected rows to the scheduler, or ends them when the reply is lost. |
| LifecycleMoves.MarkFailedMoves | internal/worker/processor.go:105-116 | Marking as failed takes the token from the worker to the row if a retry is planned and ends it otherwise; no other token moves. |
| LifecycleMoves.AckMoves | internal/worker/processor.go:121-126 | An acknowledgement moves no token. |
| LifecyclePermanence.TerminalIsFinalIffNoWriter | internal/domain/entity/notification.go:78-86 | A status that `IsTerminal` lists is final if and only if no token and no late API call is left for the row; the code promises finality without that proviso. If one is left, a run without infrastructure errors changes the status. |
| LifecyclePermanence.DeliveredIsFinalIffNotLate | internal/service/notification_service.go:83-90 | A delivered row stays delivered if and only if no `Create` or `CreateBatch` call has yet to mark it as queued. |
| LifecyclePermanence.FrozenWithoutWriter | internal/infrastructure/postgres/notification_repository.go:202-221 | Without such a writer the row of a terminal notification never changes again. |
| LifecyclePermanence.SilentWithoutWriter | internal/worker/processor.go:76-77 | Without such a writer nothing is sent for the notification any more. |
| LifecyclePermanence.CancelBeforeFetchSticks | internal/infrastructure/postgres/notification_repository.go:224-240 | A scheduled notification that is cancelled while pending stays cancelled and is never sent, whatever runs afterwards. |
| LifecyclePermanence.CancelSticksIff | internal/infrastructure/postgres/notification_repository.go:224-240 | A cancel is final if and only if the notification was still pending and scheduled, or nobody was left who could write its row; otherwise a run without infrastructure errors overturns it. |
| LifecyclePermanence.CancelInStreamIsOverturned | internal/infrastructure/postgres/notification_repository.go:202-221 | The cancel of an item that is unread in a stream is overturned by a run without infrastructure errors. |
| LifecyclePermanence.LeaveWhenLate | internal/service/notification_service.go:83-90 | The status write after the enqueue can overwrite any status but `queued`. |
| LifecycleConservation.LostExactlyByLateOverwrite | internal/service/notification_service.go:83-90 | In a step without errors, a notification that holds a token or is final remains so if and only if the step is not a late status write over `delivered` or `failed`; after any other such step a token is still there, or its notification is delivered, failed with no attempts left, or was cancelled while pending and scheduled. |
| LifecycleConservation.NothingIsLost | internal/worker/processor.go:62-127 | In runs without infrastructure errors in which API calls write their status before the entry is read, each notification always holds exactly one token, or holds none and is final: delivered, failed with no attempts left, or cancelled without ever having been in a stream. |
| LifecycleConservation.NothingIsLostIff | internal/service/notification_service.go:83-90 | Over any run without infrastructure errors, every notification has a token or is final at every moment if and only if no step is a late status write over `delivered` or `failed`. |
| LifecycleConservation.LateMarkLosesRetry | internal/service/notification_service.go:83-90 | The proviso is needed: a concrete error-free run in which the late write turns a failed row with four attempts left into `queued`, after which it is never sent again. |
| Throughput.SendRateIsBounded | internal/infrastructure/redis/rate_limiter.go:58-74 | In every run and every window of T ms, the `Send` calls on a channel number at most burst + rate*T/1000 plus one per worker of the channel. |
| Throughput.AskPays | internal/infrastructure/redis/rate_limiter.go:58-74 | One execution of the script keeps tokens plus grants of a window below burst plus refill. |
| Pool.PoolLoadIsBounded | internal/worker/pool.go:43-54 | With P processes of concurrency c that bound is burst + rate*T/1000 + 3*c*P. |
| Pool.PoolServesEveryStream | internal/worker/pool.go:43-54 | With at least one worker per stream every stream has a worker at every moment of every run. |
| Pool.WorkerPool.Start | internal/worker/pool.go:43-54 | Launches exactly c workers for each of the nine streams, so 3*c per channel and 9*c in all. |
| Workers.Processor.Process | internal/worker/processor.go:62-127 | Amid arbitrary interference: the row was made `processing` before the provider was called, unless that write failed; success means one provider call, its answer in the table and the entry acknowledged: the row was made `delivered` with the provider's id, or the attempt was counted with its instant and the planned retry time, and the row made `failed` with the provider's error. An error names a call of this worker that failed, or the given-up wait, and tells whether the provider was called. |
| Workers.Processor.Deliver | internal/worker/processor.go:63-77 | Steps a to c make the row `processing` and then one provider call with a granted token, or return the status or limiter error, which a failed call or the given-up wait accounts for. |
| Workers.Processor.RecordSuccess | internal/worker/processor.go:79-92 | Step d: unless that write failed, the row was made `delivered` with the provider message id that the provider returned, and the entry is acknowledged only then. |
| Workers.Processor.RecordFailure | internal/worker/processor.go:94-127 | Step e: unless that write failed, the attempt was counted at its instant, with a retry time, the backoff of the next attempt after the plan, exactly if attempts are left; unless its own write failed, the row was then made `failed` with the provider's error, and the entry is acknowledged only then. |
| Workers.Processor.Ack | internal/infrastructure/redis/queue.go:135-141 | Success means that this message is no longer pending. |
| Workers.Processor.Wait | internal/infrastructure/redis/rate_limiter.go:115-140 | Asks until the first grant or an error of the script; gives up only when the context ends, here after a given number of refusals; never calls the provider. |
| Workers.Processor.RunWorker | internal/worker/pool.go:72-111 | Each round reads the next message unless the stream is exhausted at that moment, and deals with it before the next round; the provider is called exactly once for each message whose status write and token wait succeed, and for any other one of these calls failed or the wait was given up. |
| Runtime.OthersLeaveMine | internal/worker/processor.go:62-127 | No process can move another one within its code, or make its provider calls. |
| Runtime.World.Do | internal/worker/processor.go:62-127 | A call of the code is one enabled step of the protocol that ends as the environment decides, and extends the run so far, so all theorems about runs apply to it. |
| Schedulers.Scheduler.ProcessReady | internal/scheduler/scheduler.go:115-160 | A tick makes one transaction, which selects from the table at that moment at most 100 due unlocked rows, the earliest `scheduled_at` or `next_retry_at` first, leaving out none that is earlier, and makes exactly them `queued`; it fails exactly if that call does. The rows are then dealt with in that order, each ending up in its stream or counting as failed, and each failed one has a failed call that was made for it, so one failure does not stop the others. |
| Schedulers.Scheduler.EnqueueNotification | internal/scheduler/scheduler.go:164-174 | On success the row was made `queued` and the fetched snapshot is in the stream of its channel and priority; on failure the error tells which of the two calls failed. |
| NotificationServices.NotificationService.Create | internal/service/notification_service.go:61-95 | Invalid input changes nothing. A valid one is stored exactly if the INSERT, at its moment of the run, meets no repeated key and works; then a scheduled notification is a pending row that holds its token, and any other is in its stream on success, with its row saying `queued` whatever a worker has done meanwhile; an error names the call that failed. |
| NotificationServices.NotificationService.CreateBatch | internal/service/notification_service.go:100-156 | Rejects an empty batch, more than 1000 entries, and the first invalid entry before anything is stored. Otherwise all rows are stored exactly if the INSERT, at its moment of the run, meets no repeated key and works; then the unscheduled ones are dealt with in order, each being in its stream or logged as failed, each logged one having a failed call that was made for it. |
| NotificationServices.NotificationService.EnqueueAndMark | internal/service/notification_service.go:83-90 | Publish comes before the status write; an error of the latter leaves the entry in the stream. |
| NotificationServices.NotificationService.Cancel | internal/service/notification_service.go:177-185 | Succeeds exactly if its UPDATE, at its moment of the run, works and finds a pending or queued row, and then cancels that row and no other. |
| NotificationTable.NotificationRepository.Create | internal/infrastructure/postgres/notification_repository.go:47-80 | Succeeds if and only if neither key is taken, and adds exactly the row. |
| NotificationTable.NotificationRepository.CreateBatch | internal/infrastructure/postgres/notification_repository.go:84-145 | All rows or none. |
| NotificationTable.InsertAddsExactly | internal/infrastructure/postgres/notification_repository.go:84-145 | A successful INSERT adds exactly the given rows under new, distinct ids and keeps both keys unique. |
| NotificationTable.InsertRefusedIffRepeated | migrations/000001_create_notifications.up.sql:5-7 | An INSERT is refused if and only if some row repeats an id or idempotency key of the table or of an earlier row of the statement. |
| NotificationTable.NotificationRepository.UpdateStatus | internal/infrastructure/postgres/notification_repository.go:202-221 | Unconditional; writes the status, and the provider message id and the error where given, and leaves all other columns and rows; not found if and only if there is no such row. |
| NotificationTable.NotificationRepository.Cancel | internal/infrastructure/postgres/notification_repository.go:224-240 | Makes a pending or queued row `cancelled` and leaves all other columns and rows; not found for any other. |
| NotificationTable.NotificationRepository.IncrementAttempts | internal/infrastructure/postgres/notification_repository.go:419-438 | Adds one attempt, sets its instant, replaces the retry time, also by none, and leaves all other columns and rows. |
| NotificationTable.NotificationRepository.FetchReady | internal/infrastructure/postgres/notification_repository.go:302-415 | Returns up to the limit unlocked pending rows whose `scheduled_at` has come, the earliest first, or failed rows with attempts left whose `next_retry_at` has come, the earliest first, leaving out none that is earlier; marks exactly them as queued, and returns them with that status. |
| NotificationTable.Select | internal/infrastructure/postgres/notification_repository.go:319-325 | ORDER BY scheduled_at or next_retry_at ASC, LIMIT and SKIP LOCKED: no due unlocked row is left out while a later one is taken. |
| NotificationTable.NotificationRepository.GetByID | internal/infrastructure/postgres/notification_repository.go:148-165 | The row, or not found. |
| Streams.StreamNamesAreDistinct | internal/infrastructure/redis/queue.go:28-32 | The nine stream names are distinct. |
| Streams.StreamNames | internal/infrastructure/redis/queue.go:28-32 | The nine names, spelled out. |
| Streams.ReadManyDelivers | internal/infrastructure/redis/queue.go:92-131 | A counted read delivers the next entries, oldest first, makes exactly them pending, and leaves other streams alone. |
| Streams.StreamQueue.EnsureStreams | internal/infrastructure/redis/queue.go:148-163 | All nine streams exist afterwards, new ones empty, and existing ones are unchanged. |
| Streams.StreamQueue.Enqueue | internal/infrastructure/redis/queue.go:49-67 | Appends one entry to the stream of the notification's channel and priority, and changes no other stream. |
| Streams.StreamQueue.Dequeue | internal/infrastructure/redis/queue.go:92-131 | At most `count` messages, consecutive and in order, fewer only if the stream is exhausted. |
| Streams.StreamQueue.Ack | internal/infrastructure/redis/queue.go:135-141 | Takes exactly this entry off the pending list. |
| TokenBucket.RetryAfterIsExact | internal/infrastructure/redis/rate_limiter.go:64-74 | For a denied call `retryAfter` is at least 1 ms and is the exact least wait: a call w ms later is served if and only if w has reached it. |
| TokenBucket.WindowBound | internal/infrastructure/redis/rate_limiter.go:58-74 | Calls in any window of T ms are served at most burst + rate*T/1000 times, whatever happened before. |
| TokenBucket.BurstIsServed | internal/infrastructure/redis/rate_limiter.go:47-50 | A new channel serves its first `burst` calls whenever they come, under a nondecreasing clock. |
| TokenBucket.BurstIsServedExactly | internal/infrastructure/redis/rate_limiter.go:45-74 | Of n calls on a new channel at one instant exactly min(n, burst) are served. |
| TokenBucket.ScriptIsOptimal | internal/infrastructure/redis/rate_limiter.go:58-74 | No policy drawing on the same bucket, even one that refuses servable requests, has served more calls after any prefix of any request sequence. |
| TokenBucket.LazyRefinesEager | internal/infrastructure/redis/rate_limiter.go:58-67 | Under a nondecreasing clock the script answers like a bucket topped up every millisecond. |
| TokenBucket.DeniedCallsAreErasable | internal/infrastructure/redis/rate_limiter.go:45-74 | Erasing all denied calls from a run changes no later answer. |
| TokenBucket.TokenBucketLimiter.Allow | internal/infrastructure/redis/rate_limiter.go:96-111 | One execution of the script on the bucket of its channel only; a new channel starts with a full bucket. |
| TokenBucket.TokenBucketLimiter.Wait | internal/infrastructure/redis/rate_limiter.go:115-140 | The bucket moves by exactly the script executions of the waiter and its rivals in order; all calls of the waiter but a granted last one are refused, and slept off for as long as the script said; with no other consumer there are at most two. |
| CircuitBreaker.OpenHoldsUntilTimeout | internal/infrastructure/httpclient/circuit_breaker.go:114-120 | From a trip on there is neither an admission nor another trip before the timeout, also with late results arriving. |
| CircuitBreaker.TripsAreSpaced | internal/infrastructure/httpclient/circuit_breaker.go:106-184 | Successive trips of any run are at least `OpenTimeout` apart. |
| CircuitBreaker.TripsInWindow | internal/infrastructure/httpclient/circuit_breaker.go:106-184 | A window of length T holds at most 1 + floor(T/OpenTimeout) trips. |
| CircuitBreaker.CountersRefineHistory | internal/infrastructure/httpclient/circuit_breaker.go:136-184 | In every run the counters are what a breaker without counters reads off its recorded results: the trailing failures while closed, the successes while half-open, nothing while open, each below its threshold. |
| CircuitBreaker.FailingLoadIsBounded | internal/infrastructure/httpclient/circuit_breaker.go:89-184 | If every inner call fails, n callers make, within T of any closed state, at most FailureThreshold + n - 1 + n*floor(T/OpenTimeout) inner calls, less the failures counted and the calls in flight at the start. |
| CircuitBreaker.HalfOpenAdmitsEveryCaller | internal/infrastructure/httpclient/circuit_breaker.go:122-127 | Half-open is not limited to one probe: any number of callers are in flight at once. |
| CircuitBreaker.OneProbeIffOneCaller | internal/infrastructure/httpclient/circuit_breaker.go:106-132 | With n callers, every half-open state that a closed start leads to has at most one call in flight if and only if n is at most 1. |
| CircuitBreaker.LateResultsCloseIffEnough | internal/infrastructure/httpclient/circuit_breaker.go:162-176 | On entry into half-open, the results of calls admitted before the trip can close the breaker with no probe returning if and only if at least as many are in flight as the success threshold asks for. |
| CircuitBreaker.CircuitBreakerClient.AllowRequest | internal/infrastructure/httpclient/circuit_breaker.go:106-132 | Admission and the move to half-open. |
| CircuitBreaker.CircuitBreakerClient.RecordResult | internal/infrastructure/httpclient/circuit_breaker.go:136-145 | The state after a recorded result. |
| CircuitBreaker.CircuitBreakerClient.OnFailure | internal/infrastructure/httpclient/circuit_breaker.go:148-160 | The state after a failure. |
| CircuitBreaker.CircuitBreakerClient.OnSuccess | internal/infrastructure/httpclient/circuit_breaker.go:163-176 | The state after a success, for any clock. |
| CircuitBreaker.CircuitBreakerClient.Trip | internal/infrastructure/httpclient/circuit_breaker.go:179-184 | The open state, counters cleared. |
| CircuitBreaker.CircuitBreakerClient.Send | internal/infrastructure/httpclient/circuit_breaker.go:89-101 | The inner client is called if and only if the request is admitted; a refused request changes nothing. |
| Backoff.CalculateNextRetry | internal/worker/processor.go:152-167 | The retry time is the clock plus the delay the lemmas below speak of, never before the base delay nor after max(base, 1.2*maxDelay). |
| Backoff.DelayRange | internal/worker/processor.go:152-167 | Every delay lies between the base and max(base, 1.2*min(base*2^a, maxDelay)), and so never passes max(base, 1.2*maxDelay). |
| Backoff.DelayWithoutJitter | internal/worker/processor.go:152-167 | Without jitter the delay is base*2^a up to the cap, and then the cap. |
| Backoff.TotalDelayBound | internal/worker/processor.go:152-167 | The delays of attempts 1 to m-1 sum to at most 1.2*base*(2^m - 2). |
| Backoff.UncappedHasRoom | internal/worker/processor.go:152-167 | There is room to grow while base*2^(a+1) is within the cap. |
| Backoff.GrowsWithRoom | internal/worker/processor.go:152-167 | With room to grow the next delay is never shorter, whatever the two jitters. |
| Backoff.DelayWithinExtremes | internal/worker/processor.go:152-167 | Every returned delay lies between the shortest, max(base, floor(0.8*d)), and the longest, max(base, ceil(1.2*d) - 1), d being the capped exponential. |
| Backoff.ShortestIsReached | internal/worker/processor.go:152-167 | Some jitter gives exactly the shortest delay. |
| Backoff.LongestIsReached | internal/worker/processor.go:152-167 | Some jitter gives exactly the longest delay. |
| Backoff.BackoffMonotoneIffRoom | internal/worker/processor.go:152-167 | The returned delay never shrinks from one attempt to the next, whatever the two jitters, if and only if the longest delay of the one does not pass the shortest of the other. |
| Backoff.ExactBackoffMonotoneIffRoom | internal/worker/processor.go:152-167 | The same before truncation: if and only if the cap leaves room to grow by half, or the base is above the longest delay. |
| HubRuns.NeverPanics | internal/delivery/websocket/hub.go:51-109 | No reachable hub sends on a closed channel or closes a channel twice. |
| HubRuns.ChannelCarriesItsRun | internal/delivery/websocket/hub.go:82-98 | What was sent to a client is exactly the contiguous run of broadcasts from its registration to its removal, without the one that found the buffer full; at most 256 wait; the channel is closed if and only if the client is removed. |
| HubRuns.DroppedIffFull | internal/delivery/websocket/hub.go:90-96 | A broadcast drops a client if and only if 256 messages wait for it, and otherwise puts the message behind them. |
| HubRuns.RemovalIsFinal | internal/delivery/websocket/hub.go:62-68 | After its removal nothing more is sent to a client. |
| HubRuns.HubNeverBlocks | internal/delivery/websocket/hub.go:82-98 | While the hub holds the mutex it always has a step to take, whatever buffers and pumps are like, and each of its steps, but no pump, brings the release nearer by one. |
| HubRuns.MutexHeldBriefly | internal/delivery/websocket/hub.go:85-109 | A broadcast or shutdown releases the mutex after one step per registered client, however the pumps interleave. |
| HubRuns.DrainNeverBlocks | internal/delivery/websocket/client.go:109-119 | A draining pump always finds the messages it has counted, although the hub runs between. |
| HubRuns.FrameSizeIsSettled | internal/delivery/websocket/client.go:108-119 | From the count on the size of a frame is settled: its message and all that waited behind it, however the hub goes on. |
| HubRuns.FramingIsInvisible | internal/delivery/websocket/client.go:109-119 | However messages are grouped into frames, the frames joined by newlines are the messages joined by newlines. |
| HubRuns.PeerSeesPrefixOfRun | internal/delivery/websocket/client.go:91-123 | The peer has received the newline-joined beginning of its run, and the whole run once the pump has seen the channel closed. |
| HubRuns.RunKeepsInvariant | internal/delivery/websocket/hub.go:51-109 | Every interleaving of hub and pumps keeps the invariant. |
| Hubs.Hub.Register | internal/delivery/websocket/hub.go:56-59 | The client counts broadcasts from here on. |
| Hubs.Hub.Unregister | internal/delivery/websocket/hub.go:62-68 | Closes the channel of a registered client, which has then been sent exactly its run; leaves any other alone. |
| Hubs.Hub.Broadcast | internal/delivery/websocket/hub.go:85-98 | Each client gets the message at the end of its buffer, or, with 256 waiting, is removed and closed. |
| Hubs.Hub.Stop | internal/delivery/websocket/hub.go:101-109 | All channels closed, once each, and no client left. |
| Hubs.Hub.Start | internal/delivery/websocket/hub.go:43-80 | Over any sequence of events a client is registered at the end if and only if it was registered, before or by an event, has not left since, and its initial buffer and the broadcasts since come to at most 256; everyone registered has been sent all broadcasts since its registration. |
| Hubs.Client.TrySend | internal/delivery/websocket/hub.go:90-91 | A send that does not block, at most 256 buffered. |
| Hubs.Client.WriteFrame | internal/delivery/websocket/client.go:101-123 | One frame with the next message and all that were waiting behind it, or a failed connection and no frame. |
| Hubs.Client.DrainInto | internal/delivery/websocket/client.go:109-119 | The open frame is the newline-joined batch, and exactly the messages counted at the start are drained. |
| Hubs.Client.WritePump | internal/delivery/websocket/client.go:84-132 | The wire carries the newline-joined beginning of what was sent to the channel, and all of it if the pump ends because the channel was closed; the first round that is no ping writes all that waits, and two such rounds end the pump of a closed channel. |
| Entity.Validate | internal/domain/entity/notification.go:141-184 | Reports exactly the faults of the entity: nil id, empty key, recipient or content, no attempts allowed, a recipient the channel cannot use, a mail without subject, a send time before the creation; and nothing if and only if the entity is valid. |

## Left out

- HTTP handlers, routing, middleware, metrics, tracing, configuration loading: plumbing.
- Status broadcasts over Redis Pub/Sub: best effort, and their errors are swallowed. The hub starts with the message received.
- JSON encoding of stream payloads: an entry is a copy of the entity. An entry that cannot be decoded is a read whose reply is lost.
- Template rendering and its variables, `BatchID`, `UpdatedAt`: the lifecycle never reads them.
- Real Postgres, Redis and HTTP: statements and commands are atomic steps. `SKIP LOCKED` is a parameter: any set of rows may be locked.
- List and pagination queries: no state and no protocol.
- Rounding of floating-point numbers: tokens and delays are reals; the ceiling of the wait and the truncation of the delay are kept. Timestamps keep their nanoseconds in the table.
- Fairness of `Wait` and progress in general: the code promises neither. Loops that run until their context ends take a number of rounds as a parameter.
- The sleep between two polls, timers and tickers: time may pass between any two steps.
- Restart of a process: a worker that stops in the middle is the step `Abandon`.
- `ReadPump`, deadlines and pong handling: its one effect on the hub is to unregister the client.
- Workers.Processor.Wait: the end of the context is a bounded number of refusals.
- Hubs.Hub.Broadcast: pumps do not run inside the loop of the object; `HubRuns` has them run between any two channel operations.
- Hubs.Client.WritePump: which of a ready message and a ready tick is taken is a parameter.
- Entity.Validate: channel, priority and status are enumerations and so always valid; whether a string parses as a mail address is a parameter, and the texts of the errors are left out.
