# Verified models of the GPU inference gateway

Dafny models of the stateful core of the gateway, with machine-checked proofs of what it guarantees. Five components are
covered: the batch job protocol, admission control over Redis counters, the settlement of admission leases, the
analytics pipeline, and the streaming pipeline. `dafny verify dfyconfig.toml` checks everything.

## How the model is laid out

**Batch jobs.** `BatchStatus`, `BatchStore` and `BatchQueue` state the job state machine and the store and queue
operations as functions; `BatchService`, `BatchQueue` and `RecoveryScanner` hold the classes that perform them in place.
`BatchProtocol` is a step system: any number of workers, submitters, recovery scanners and cancellers share one store and
one queue, every awaited call is one step, each agent has a program counter, any call may raise, any agent may crash, and
the queue may hold anything, duplicates included. `BatchInvariants` proves the ownership invariant that makes the
protocol safe although `mark_succeeded` and `mark_failed` refuse only CANCELLED; `BatchTheorems` draws the conclusions
for every run. `BatchWorker` is `process_one` as imperative code with its try, except and finally, proved to be a run of
those steps; `BatchOutcome` is the table of everything a claimed job can lead to, proved of the same steps;
`BatchSequential` and `BatchRecovery` prove what whole calls, whole scans and whole queues do. `BatchTornCalls` widens
the protocol by calls that raise although they were carried out, and proves exactly what that costs the state machine;
`BatchTornClaims` proves what it does not cost. `BatchAudits` proves what audit records say of the jobs they are for, and
`Filters` which items a filter keeps in which order.

**Admission.** `RedisModel` gives the counter commands with expiry and a clock. `RateLimiter`, `ConcurrencyLimiter`,
`QuotaReserver` and `Admission` hold the classes. `AdmissionLedger` and `TokenLedger` run admissions, settlements and
passing time against each other and prove what the slot and token counters are worth; `LedgerRuns` constructs the runs
in which they fall short, `Lockout` proves exactly when a key can never be granted again, and `WindowBounds` how much a
token window can be charged. `ConcurrencySteps` and `TokenSteps` take the two counters apart into single commands, and
`TokenLockout` proves exactly when the token counter is stuck. `Leases` is a lease as its holder sees it.
`AcceptedRequests` joins the token plan, admission and the ledger.

**Analytics.** `Analytics` is the bounded queue, `Flusher` the ClickHouse flusher, `AnalyticsRuns` the interleaving of
collects with any number of flushes.

**Streaming and the chat route.** `Stream` is heartbeat insertion and DONE completion over `Text`'s Python string
operations; `TokenAccounting` the token plan and usage; `ChatRoute` the stream's loop, the finally blocks and the
non-streaming path.

## What the proofs found

Where the code guarantees less than it may seem to, the model keeps the code's behaviour and proves exactly how much:

- The request limit is not a limit per minute: any 60 seconds may accept up to 2 * limit - 1 calls of a key, and for
  every limit some call pattern does (`RateBound`, `RateBoundIsAttained`).
- An admission that takes a slot and is then refused its tokens loses that slot for good, since slot counters never
  expire; after as many refusals as there are slots the key is locked out for good, and not before (`LockedOutIff`), and
  nothing stops that from happening to a key that holds no slot at all (`RefusalsHappen`).
- A reservation finalized in a later window than its own gives its tokens back to that one. The counter is then the
  ledger of the window less exactly what was drawn on it (`TokenCounterFollowsLedger`); `FinalizeStaysExactIff` and
  `AdmitOverfillsIff` say which calls make it inexact and which overfill the window. By how much has no bound in terms of
  the token limit alone (`LateFinalizesOverfillAWindow`), but the request limit gives one, tpm + (2 * rpm - 2) * (tpm - 1)
  (`WindowIsBounded`), and some run attains it (`WindowCeilingIsAttained`). Finalized in time, the counter is exact
  (`TokenCounterIsLedger`).
- A release decrements and deletes in two commands. A DELETE that comes late wipes out requests that have counted
  themselves in since. `CounterLaw` says what is lost. The slots held stay within the limit until the next DELETE exactly
  when the last one found nobody in flight (`LimitIsSafeIff`); otherwise the limit and all whom it found can hold one
  (`HeldBeforeNextDelete`), and one late DELETE after the other lets any multiple of the limit do so
  (`LateDeletesBreakTheLimit`).
- A refused token reservation takes itself back in a separate command. When the key has gone in between, that command
  creates it anew without a time to live (`KeyExpiresIff`, `OrphanedKey`), and once such a counter is full every later
  request of the key is refused (`StuckForever`, `KeyGetsStuck`). From any other state some request can still be granted
  its tokens (`StuckIff`).
- `mark_failed` does not refuse a SUCCEEDED job. When a `mark_succeeded` is carried out and raises, it turns the success
  into a failure (`TornMarkIsOverwritten`); that is the only way a job can leave the state machine
  (`StatusesArePathsIff`, `OtherTornCallsKeepPaths`). However calls are torn, a job is claimed at most once and sent to
  vLLM at most once (`BatchTornClaims`).
- `requeue_front` appends at the tail (`RequeueAppends`), which keeps the order exactly when nothing was collected since
  or there is no room (`FailedFlushKeepsOrderIff`).
- With `max_retries` below 1 a flush reports success and loses its batch (`FlushOnce`).
- The chat route starts its audit record before the try, and in the stream's finally a failing close or audit finalize
  comes before the slot release: those failures, and no others, leave a lease unsettled (`CreateChatCompletion`,
  `StreamResponse`). The batch worker has no such gap (`SettledExactlyOnce`).

## Assumptions

- One call of the job store is atomic. A store, queue, audit or vLLM call that raises has had no effect, except in
  `BatchTornCalls`, where it may have had any. A ClickHouse insert that raises may have been carried out. Redis commands
  inside admission succeed.
- In the batch protocol and the chat route every lease logs its token finalize. A lease without tokens or without Redis
  holds a reservation that counts nothing, and there the finalize of `AdmissionLease` does nothing: what
  `SettledExactlyOnce` and `StreamResponse` say of token finalizes is about reservations in Redis.
- Exceptions are ordinary ones: asyncio cancellation and generator exit, which pass `except Exception`, are left out.
- Job ids and audit ids are naturals. New job ids are fresh. An audit id is the record's position.
- How JSON reads as text or usage, how a token estimator counts, and how long things take are parameters.

## Model

| member | source | states |
|---|---|---|
| BatchStatus.PathVisitsOnce | backend/services/batch/batch_service.py:24-34 | a history that follows the allowed transitions has at most three entries, repeats none, and ends where it first becomes terminal |
| BatchStatus.PathIffNeighbours | backend/services/batch/batch_service.py:24-34 | a history is such a path iff every neighbouring pair is an allowed transition |
| BatchStore.TransitionIsAllowed | backend/services/batch/batch_service.py:165-170 | `transition` keeps every other job, moves its job one allowed step or not at all, and leaves a terminal job untouched |
| BatchStore.MarksAreAllowedIff | backend/services/batch/batch_service.py:172-195 | exactly from which statuses the two marks keep to the state machine, their guard refusing only CANCELLED |
| BatchQueue.QueuesAgree | backend/services/batch/batch_queue.py:13-34 | fed the same ids, the in-memory queue holds the first occurrences of what the Redis list holds |
| BatchQueue.RedisBatchQueue.EnqueueId | backend/services/batch/batch_queue.py:13-14 | appends, duplicates or not |
| BatchQueue.RedisBatchQueue.Dequeue | backend/services/batch/batch_queue.py:16-18 | takes the oldest entry, or reports an empty list |
| BatchQueue.RedisBatchQueue.Contains | backend/services/batch/batch_queue.py:20-22 | true iff the id is in the list |
| BatchQueue.InMemoryBatchQueue.EnqueueId | backend/services/batch/batch_queue.py:30-34 | appends an id it does not hold; the failing variant raises and changes nothing |
| BatchQueue.InMemoryBatchQueue.Dequeue | backend/services/batch/batch_queue.py:36-39 | takes the oldest entry, or reports an empty list |
| BatchQueue.InMemoryBatchQueue.Contains | backend/services/batch/batch_queue.py:41-42 | true iff the id is in the list |
| BatchService.InMemoryBatchJobStore.CreateJob | backend/services/batch/batch_service.py:147-160 | adds one fresh QUEUED job after all others in the order of creation and keeps one record per id |
| BatchService.InMemoryBatchJobStore.TransitionTo | backend/services/batch/batch_service.py:165-170 | updates the record in place iff it exists and the move is allowed; the others keep theirs |
| BatchService.InMemoryBatchJobStore.MarkSuccess | backend/services/batch/batch_service.py:172-183 | sets status, result, counters and usage in place unless the job is missing or CANCELLED |
| BatchService.InMemoryBatchJobStore.MarkFailure | backend/services/batch/batch_service.py:185-195 | sets status, error and counter in place unless the job is missing or CANCELLED |
| BatchService.InMemoryBatchJobStore.ListRecoverable | backend/services/batch/batch_service.py:197-198 | lists QUEUED jobs only, in the order of their creation, none passed over for a younger one; at most `limit` of them, and all if there are fewer |
| BatchService.BatchJobService.Submit | backend/services/batch/batch_service.py:101-122 | a streaming request is refused and changes nothing; otherwise the job is created and returned even if its enqueue raised |
| BatchService.BatchJobService.GetJob | backend/services/batch/batch_service.py:124-133 | the job's record, or a not-found error |
| BatchService.BatchJobService.Cancel | backend/services/batch/batch_service.py:135-140 | an existing job comes back terminal: with the terminal status it had, or else CANCELLED; an unknown id is an error |
| AuditService.InMemoryRequestAuditService.Start | backend/services/inference/usage_finalizer.py:62-65 | appends an unfinalized record whose id no other record has |
| AuditService.InMemoryRequestAuditService.Finalize | backend/services/inference/usage_finalizer.py:67-71 | sets the final state of the record with that id and of no other |
| BatchInvariants.StepKeepsInv | backend/services/batch/batch_worker.py:73-171 | every step of every agent keeps the ownership invariant: a worker past its claim is the job's only owner and the job is RUNNING or CANCELLED |
| BatchTheorems.RunEvolves | backend/services/batch/batch_service.py:165-195 | over any stretch of a run a job stays, never moves back, and once terminal keeps its whole record |
| BatchTheorems.ClaimedOnce | backend/services/batch/batch_worker.py:73-88 | no run takes a job from QUEUED to RUNNING twice, whatever interleaves or crashes |
| BatchTheorems.CalledOnce | backend/services/batch/batch_worker.py:86-122 | in every run vLLM is called at most once for a job, and only after a claim of it |
| BatchTheorems.HistoryIsPath | backend/services/batch/batch_service.py:24-34 | in every run the statuses a job is seen in form a path from QUEUED through the allowed transitions |
| BatchTheorems.RecordsAgreeInRuns | backend/services/batch/batch_worker.py:123-133 | in every run counters, result, usage and error say what the status says, and a SUCCEEDED job has a completed audit record with its usage and a lease charged for it |
| BatchTheorems.SettledExactlyOnce | backend/services/batch/batch_worker.py:100-171 | in every run a lease has had one token finalize and then one slot release once its worker no longer holds it, and a prefix of those before |
| BatchTheorems.CancelReturnsTerminal | backend/services/batch/batch_service.py:135-140 | under every interleaving `cancel` returns a terminal status, which the job keeps from then on; a CANCELLED job never gains a result |
| BatchTheorems.CancelFindsTheJob | backend/services/batch/batch_service.py:135-140 | once `cancel` has seen a job, no interleaving makes it report the job missing |
| BatchTheorems.CancelAlone | backend/services/batch/batch_service.py:135-140 | an uninterrupted `cancel` returns the terminal status a job has, or else leaves it CANCELLED and returns that; it reports a job missing iff it is |
| BatchTheorems.CancelledBeforeClaimIsNeverSent | backend/services/batch/batch_worker.py:78-88 | a job cancelled before any claim is never sent to vLLM |
| BatchTheorems.NoJobLost | backend/services/batch/batch_service.py:114-122 | a QUEUED job is in the queue or carried by an agent, unless a crash or an exception between pop and claim, or in its enqueue, lost it |
| BatchTheorems.OlderIsListedFirst | backend/services/batch/batch_service.py:197-198 | in every run a QUEUED job that existed before another was created is listed for recovery before it |
| BatchAudits.RecordsSayHowJobsEnded | backend/services/batch/batch_worker.py:123-167 | in every run a job has at most one audit record; that of a FAILED job says "failed", no tokens and the job's error code, that of a SUCCEEDED job "completed", the job's usage and no error code |
| BatchSequential.ProcessOneEffect | backend/services/batch/batch_worker.py:73-171 | a `process_one` whose calls before the claim succeed takes the head off the queue, leaves its job not QUEUED and every other job as it was |
| BatchSequential.DropsUnclaimable | backend/services/batch/batch_worker.py:78-88 | an entry whose job is unknown or not QUEUED is dropped without any other effect |
| BatchWorker.BatchWorker.ProcessOne | backend/services/batch/batch_worker.py:73-171 | the imperative method leaves the shared state and answers as the protocol's run of one worker does |
| BatchWorker.ProcessOneSettles | backend/services/batch/batch_worker.py:97-171 | after a whole call every lease of the worker is settled exactly once and the invariant holds |
| BatchOutcome.ClaimedJobFollowsTable | backend/services/batch/batch_worker.py:97-171 | for every combination of exceptions: the job's final record, the lease's effects, the audit record's final state, the vLLM call and the answer |
| BatchOutcome.ProcessOneFollowsTable | backend/services/batch/batch_worker.py:73-171 | the same for a `process_one` that finds a QUEUED job at the head of its queue |
| BatchTornCalls.StatusesArePathsIff | backend/services/batch/batch_service.py:172-195 | in every run in which calls that raise may have been carried out, all statuses follow the state machine iff no `mark_failed` met a SUCCEEDED job |
| BatchTornCalls.OtherTornCallsKeepPaths | backend/services/batch/batch_worker.py:73-171 | as long as no `mark_succeeded` is torn, no other torn call makes a job leave the state machine |
| BatchTornCalls.TornMarkIsOverwritten | backend/services/batch/batch_worker.py:129-167 | every run with a worker about to mark its running job goes on, by a torn mark, to turn the success into a failure |
| BatchTornCalls.SuccessIsOverwritten | backend/services/batch/batch_worker.py:129-167 | such a run from the start |
| BatchTornClaims.ClaimedOnce | backend/services/batch/batch_worker.py:73-88 | whichever calls are torn, no run takes a job from QUEUED to RUNNING twice |
| BatchTornClaims.CalledOnce | backend/services/batch/batch_worker.py:86-122 | whichever calls are torn, vLLM is called at most once for a job, and only after a claim of it |
| BatchTornClaims.CancelledBeforeClaimIsNeverSent | backend/services/batch/batch_worker.py:78-88 | whichever calls are torn, a job cancelled before any claim is never sent to vLLM |
| BatchRecovery.ScanAppendsMissing | backend/services/batch/recovery_scanner.py:11-18 | an uninterrupted scan appends exactly the listed ids that the queue lacks, and counts them |
| BatchRecovery.WholeScan | backend/services/batch/recovery_scanner.py:11-18 | a scan of the protocol, uninterrupted from its listing on, leaves the old queue and the recoverable jobs it lacked |
| BatchRecovery.ScanIsComplete | backend/services/batch/recovery_scanner.py:11-18 | after a scan the queue holds its old entries and the recoverable jobs and nothing else; a second scan adds nothing |
| BatchRecovery.BacklogIsCleared | backend/services/batch/recovery_scanner.py:11-18 | from any queue, ceil(backlog / limit) rounds of one scan and working the queue off leave no QUEUED job |
| BatchRecovery.DuplicatesAreHarmless | backend/services/batch/batch_worker.py:73-88 | working off a queue and working off its first occurrences lead to the same store, leases, audits and vLLM calls |
| RecoveryScanner.BatchRecoveryScanner.ReenqueueMissing | backend/services/batch/recovery_scanner.py:11-18 | the loop leaves the queue of a complete scan and returns the number added, oldest jobs first; a failing enqueue escapes iff something was missing |
| RedisModel.NamesAreDistinct | backend/services/rate_limit/rate_limiter.py:12-21 | no two counters, and no counter and the overload flag, share a Redis key, whatever the API key ids contain |
| RateLimiter.RateLimiter.CheckOverload | backend/services/rate_limit/rate_limiter.py:30-38 | refuses iff the flag is set to anything but an empty, 0, false or none value |
| RateLimiter.AdmittingFlags | backend/services/rate_limit/rate_limiter.py:32 | the flags that admit, letter by letter: none, an empty one, 0, and "false" and "none" in any case |
| RateLimiter.RateLimiter.CheckRpm | backend/services/rate_limit/rate_limiter.py:40-51 | counts the call, starts the expiry with the first, and refuses iff the count exceeds the limit |
| RateLimiter.WindowAcceptsUpToLimit | backend/services/rate_limit/rate_limiter.py:40-51 | each window accepts as many calls of the key as were made in it, up to the limit |
| RateLimiter.RateBound | backend/services/rate_limit/rate_limiter.py:40-51 | in any half-open 60 seconds at most 2 * limit - 1 calls of a key are accepted, for every nondecreasing sequence of calls of any keys |
| RateLimiter.RateBoundIsAttained | backend/services/rate_limit/rate_limiter.py:40-51 | for every limit some calls attain that bound |
| ConcurrencyLimiter.ConcurrencyLimiter.Acquire | backend/services/rate_limit/concurrency_limiter.py:44-58 | grants a fresh lease iff the counter is below the limit, and takes a refused increment back |
| ConcurrencyLimiter.ConcurrencyLease.Release | backend/services/rate_limit/concurrency_limiter.py:26-35 | gives the slot back the first time and does nothing after that |
| QuotaReserver.QuotaReserver.Reserve | backend/services/rate_limit/quota_reserver.py:62-81 | reserves iff the window has room, starts the window's expiry, takes a refused reservation back; without Redis or tokens counts nothing |
| QuotaReserver.TokenReservation.Finalize | backend/services/rate_limit/quota_reserver.py:30-44 | gives the unused tokens back the first time and does nothing after that |
| Admission.AdmissionService.Admit | backend/services/rate_limit/admission.py:48-63 | the first failing check decides the error, and exactly the checks made so far have counted |
| Admission.AdmissionLease.Release | backend/services/rate_limit/admission.py:23-24 | the counter gives up one slot the first time and nothing after that, as the lease its holder sees |
| Admission.AdmissionLease.FinalizeTokens | backend/services/rate_limit/admission.py:26-27 | the counter gives up the unused tokens the first time and nothing after that, as the lease its holder sees |
| AdmissionLedger.SlotCounterIsHeldPlusRefusals | backend/services/rate_limit/admission.py:48-63 | in every reachable state the slot counter is the leases held plus the admissions refused for their tokens, and the leases held stay within the limit |
| AdmissionLedger.RefusalsLockTheKeyOut | backend/services/rate_limit/admission.py:55-63 | once a key has had as many token refusals as slots, no later admission of it is granted |
| Lockout.SlotLeftCanBeGranted | backend/services/rate_limit/admission.py:48-63 | every run with fewer token refusals of a key than slots goes on to grant the key a lease, for any number of tokens up to the limit, if the request limit is at least 1 |
| Lockout.LockedOutIff | backend/services/rate_limit/admission.py:55-63 | no continuation of a run grants the key another lease iff it has had as many token refusals as slots, or the request limit is below 1 |
| LedgerRuns.RefusalsHappen | backend/services/rate_limit/admission.py:55-63 | for every number of refusals up to the slot limit, a run in which a key without any lease has had them, one a minute |
| TokenLedger.TokenCounterFollowsLedger | backend/services/rate_limit/quota_reserver.py:30-81 | after every method of every run the token counter is within the limit and has a time to live; while its window runs it is the window's ledger less what older leases drew on it, so it is the ledger iff they drew nothing or nothing is charged, and a window is charged at most the limit plus what was drawn |
| TokenLedger.FinalizeStaysExactIff | backend/services/rate_limit/quota_reserver.py:30-44 | a finalize leaves an exact counter exact iff it gives nothing back, or its own window is the current one, or the counter is 0 |
| TokenLedger.AdmitOverfillsIff | backend/services/rate_limit/quota_reserver.py:66-81 | an accepted reservation takes its window over the limit iff the counter, the reservation and what was drawn add up to more |
| TokenLedger.TokenCounterIsLedger | backend/services/rate_limit/quota_reserver.py:30-81 | when leases are finalized before their window ends, a running window's counter is exactly the open reservations plus min(actual, reserved) of the finalized ones, and within the limit |
| LedgerRuns.LateFinalizesOverfillAWindow | backend/services/rate_limit/quota_reserver.py:40-42 | for every n and limits with tpm >= 2, rpm >= n + 1 and slots >= 2n + 1, a run in which n leases of earlier windows are finalized in one that is still running, which gets charged tpm + n * (tpm - 1) tokens |
| WindowBounds.WindowIsBounded | backend/services/rate_limit/quota_reserver.py:30-81 | however late leases are finalized, in every run a window is charged at most tpm + (2 * rpm - 2) * (tpm - 1), and nothing if one of the limits is below 1 |
| LedgerRuns.WindowCeilingIsAttained | backend/services/rate_limit/quota_reserver.py:40-42 | for every rpm and tpm of at least 1, and at least 4 * rpm - 2 slots, a run attains that bound in a window that is still running |
| TokenSteps.MethodsAreCommands | backend/services/rate_limit/quota_reserver.py:30-81 | the single commands of a reservation and a finalize, uninterrupted, are `reserve` and `finalize` |
| TokenSteps.CounterLaw | backend/services/rate_limit/quota_reserver.py:30-81 | command by command, the token counter is what all requests have counted less what they had when it was last reset, and exceeds the limit by no more than the refused requests have yet to take back |
| TokenSteps.KeyExpiresIff | backend/services/rate_limit/quota_reserver.py:66-75 | with no EXPIRE or DELETE pending, a present key has a time to live iff it was not made by a rollback: the last command that created it took a refused reservation back, and no EXPIRE has run since |
| TokenSteps.OrphanedKey | backend/services/rate_limit/quota_reserver.py:70-72 | for every limit a run that leaves a counter of -1 without a time to live |
| TokenSteps.StuckForever | backend/services/rate_limit/quota_reserver.py:66-80 | a full counter without a time to live, with every request refused or gone, stays so under every command, and no request is granted |
| TokenSteps.KeyGetsStuck | backend/services/rate_limit/quota_reserver.py:66-80 | for every limit a run that gets there |
| TokenLockout.StuckIff | backend/services/rate_limit/quota_reserver.py:62-81 | for a limit of at least 1, no continuation of a run grants any request its tokens iff the counter has no time to live, would be at the limit with all refusals taken back, and every request is new, refused or gone |
| ConcurrencySteps.MethodsAreCommands | backend/services/rate_limit/concurrency_limiter.py:26-58 | the single commands of a request, uninterrupted, are `acquire` and `release` |
| ConcurrencySteps.CounterLaw | backend/services/rate_limit/concurrency_limiter.py:30-33 | command by command, the counter is the requests in flight less those in flight at the last DELETE, and held slots exceed the limit by no more than those |
| ConcurrencySteps.CounterNeverAboveInFlight | backend/services/rate_limit/concurrency_limiter.py:44-58 | the counter never exceeds the requests in flight, and equals them iff the last DELETE found none |
| ConcurrencySteps.SlotWhenNoneInFlight | backend/services/rate_limit/concurrency_limiter.py:44-58 | with nobody in flight a request gets a slot if the limit is at least 1 |
| ConcurrencySteps.QuietDeletesKeepTheLimit | backend/services/rate_limit/concurrency_limiter.py:26-35 | if every DELETE ran with nobody in flight, the slots held are within the limit |
| ConcurrencySteps.HeldBeforeNextDelete | backend/services/rate_limit/concurrency_limiter.py:26-58 | until the next DELETE at most the limit and those in flight at the last DELETE hold a slot, and every run goes on so that exactly as many do |
| ConcurrencySteps.LimitIsSafeIff | backend/services/rate_limit/concurrency_limiter.py:26-58 | no continuation without another DELETE exceeds the limit iff the last DELETE found nobody in flight |
| ConcurrencySteps.LateDeletesBreakTheLimit | backend/services/rate_limit/concurrency_limiter.py:31-33 | for every limit and every k a run with k late DELETEs in which k + 1 times the limit hold a slot |
| Analytics.AnalyticsCollector.CollectEvent | backend/services/analytics/event_collector.py:26-37 | queues the event if there is room, else hands it to the spool if critical, else drops and counts it |
| Analytics.AnalyticsCollector.DrainBatch | backend/services/analytics/event_collector.py:45-52 | takes the oldest events, as many as the smaller of the batch size and the queue |
| Analytics.AnalyticsCollector.RequeueFront | backend/services/analytics/event_collector.py:54-62 | puts the events back one by one, in order |
| Analytics.RequeueAppends | backend/services/analytics/event_collector.py:54-62 | what that comes to: the events that fit go to the tail, of the rest the critical ones to the spool and the others are dropped and counted |
| AnalyticsRuns.EventsAreConserved | backend/services/analytics/event_collector.py:26-62 | in every run each collected event is queued, in flight, acknowledged, spooled or dropped, exactly once; the queue keeps its bound; only non-critical events are dropped and their counter is exact |
| AnalyticsRuns.CriticalEventsAreNotLost | backend/services/analytics/event_collector.py:32-34 | a critical event is never dropped |
| AnalyticsRuns.SpooledCriticalCountsCollects | backend/services/analytics/event_collector.py:33-35 | `spooled_critical` is the number of critical events collected while the queue was full, requeued ones not among them |
| AnalyticsRuns.OrderIsKeptUntilAFlushFails | backend/services/analytics/event_collector.py:26-52 | until a flush fails, the drained batches and the queue are the collected events in order |
| AnalyticsRuns.FailedFlushKeepsOrderIff | backend/services/analytics/event_collector.py:54-57 | after a failed flush every event collected since keeps its place and the events put back take the places behind, so they come first iff there are none since or there is no room; the queue shows it unless both begin with equal events |
| Flusher.ClickHouseFlusher.Group | backend/services/analytics/clickhouse_flusher.py:97-99 | the dictionary holds, for each table in order of first mention, its rows in batch order |
| Flusher.TablesFollowMention | backend/services/analytics/clickhouse_flusher.py:97-100 | the tables are inserted into in the order in which the batch first mentions them |
| Flusher.ClickHouseFlusher.InsertAll | backend/services/analytics/clickhouse_flusher.py:96-101 | returns iff no insert raises, having inserted all tables; the first insert that raises leaves those before it inserted, and its own table unless it was lost |
| Flusher.ClickHouseFlusher.InsertWithRetry | backend/services/analytics/clickhouse_flusher.py:84-94 | attempts go on until one meets no insert that raises, at most `max_retries` of them: no attempt before the last was complete, and it returns iff one of the first `max_retries` is; if no insert of the first raises there is just that one; events are collected between them |
| Flusher.ClickHouseFlusher.FlushOnce | backend/services/analytics/clickhouse_flusher.py:46-70 | True: the batch left the queue and its last attempt, the only complete one, inserted all of it; False: every attempt raised and the batch was put back behind what was collected during the sleeps; if no insert raises, each table is inserted into once; with no retry allowed True means lost |
| Flusher.AtLeastOnce | backend/services/analytics/clickhouse_flusher.py:84-101 | a complete last attempt has inserted every event's row at its place, and no other rows |
| Flusher.AtMostOncePerAttempt | backend/services/analytics/clickhouse_flusher.py:84-101 | no table is inserted into more often than there are attempts, and always with its whole rows |
| Flusher.RowsKeepOrder | backend/services/analytics/clickhouse_flusher.py:96-99 | the rows of a table follow the order of the batch |
| TokenAccounting.CountIsInFours | backend/services/inference/token_accounting.py:21-25 | the heuristic count is the stripped length in fours, rounded up, and 0 only for a blank text |
| TokenAccounting.CountIgnoresSurroundings | backend/services/inference/token_accounting.py:21-25 | the heuristic count ignores surrounding space and is 0 iff the text is blank |
| TokenAccounting.EstimatePromptTokens | backend/services/inference/token_accounting.py:86-93 | the loop sums the messages' role and content counts with 4 for each message and 2 for the prompt |
| TokenAccounting.PromptsAddUp | backend/services/inference/token_accounting.py:86-93 | est(a + b) = est(a) + est(b) - 2, for every estimator |
| TokenAccounting.OneMessageCosts | backend/services/inference/token_accounting.py:86-93 | a prompt of one message costs 6 and what its role and content count, an empty one 2 |
| TokenAccounting.BuildTokenPlan | backend/services/inference/token_accounting.py:43-83 | accepts iff all three limits hold, and names the first one exceeded in the order output, input, total |
| TokenAccounting.AcceptedReservesTokens | backend/services/inference/token_accounting.py:52-83 | an accepted request reserves something unless it leaves its output open and the configured limit on that is negative |
| AcceptedRequests.PlanAndAdmit | backend/api/routes/chat_completions.py:98-108 | a request over a limit touches no counter; an admitted one holds a Redis reservation of its plan's total, positive and within the total limit unless the output limit is negative |
| AcceptedRequests.PlannedRequestsAreBounded | backend/services/rate_limit/quota_reserver.py:30-81 | in every run of planned requests each lease has reserved tokens and is charged, however it is finalized, no more than it reserved nor than the total limit |
| TokenAccounting.UsageFromResponse | backend/services/inference/token_accounting.py:96-129 | the whole record: the reported counts with their defaults, or the estimate that a stream of the same text would be charged |
| TokenAccounting.ConcatenatedInOrder | backend/services/inference/token_accounting.py:111-121 | the text that is counted holds every content whole and in its turn, and nothing else |
| Stream.StreamWithHeartbeats | backend/services/vllm/stream.py:27-53 | one heartbeat for every timeout, before the line that was waited for: each line stands in its place among the frames, every other frame is a heartbeat, and there are as many frames as lines and timeouts |
| Stream.SpacedPlaces | backend/services/vllm/stream.py:36-43 | the same while any line is waited for: as many frames so far as lines and timeouts, the lines in their places and heartbeats everywhere else |
| Stream.EnsureDoneEvent | backend/services/vllm/stream.py:56-67 | the frame of each non-blank line in its turn, stripped and ended, and a DONE after them iff upstream ended without one |
| Stream.StreamIsTransparent | backend/services/vllm/stream.py:27-67 | with comments erased the output is upstream's non-blank, non-comment lines framed in order, plus a DONE exactly when upstream sent none, for every pattern of timeouts |
| Stream.EnsureDoneIsIdempotent | backend/services/vllm/stream.py:56-67 | applying `ensure_done_event` twice is applying it once, and a stream that ends has a DONE |
| ChatRoute.ConsumeStream | backend/api/routes/chat_completions.py:225-243 | the events passed on are those up to the first that cannot be, the counted text is that of their payloads in order, and the status tells why the loop ended |
| ChatRoute.DataFrameReads | backend/services/inference/token_accounting.py:132-153 | a data frame reads as what its payload parses as, the space around the payload not counting, and [DONE] as nothing |
| ChatRoute.PayloadsAreRead | backend/api/routes/chat_completions.py:225-243 | of a stream of payloads each counted text is what its payload parses as; the first that raises ends the loop with its exception, and without one all are passed on |
| ChatRoute.OthersReadAsNothing | backend/services/inference/token_accounting.py:134-138 | frames without the data prefix, and the DONE event, add no text |
| ChatRoute.StreamResponse | backend/api/routes/chat_completions.py:202-281 | a stream is charged for the texts it passed on, or gives everything back after an exception; its audit says completed, client_disconnected or failed accordingly; its lease is settled iff closing and the audit finalize succeed |
| ChatRoute.CreateChatCompletion | backend/api/routes/chat_completions.py:106-199 | the lease is settled iff nothing raises between admission and the try; the first call that raises decides the exception that escapes and the error code audited; what is charged, returned and audited for every combination of exceptions |
| ChatRoute.SilenceIsNotCharged | backend/api/routes/chat_completions.py:226-258 | the text a whole stream is charged for is that of upstream's data frames, whatever heartbeats and DONE were added |

## Left out

- PostgresBatchJobStore: `transition` there reads and then writes without a row lock (backend/services/batch/batch_service.py:226-234), so the atomicity that the in-memory store has is an assumption about it.
- Jobs of dead workers: a job whose worker died while it was RUNNING is never listed as recoverable, and the model claims nothing else.
- BatchTheorems.NoJobLost: names the exceptions that lose a job, since the code does not catch them; the recovery scanner lists such a job again as long as it is QUEUED.
- BatchRecovery.BacklogIsCleared: assumes that no call before the claim raises, that the worker is allowed to run, and that nobody else acts meanwhile; the claimed jobs themselves may fail in any way.
- BatchWorker.BatchWorker.ProcessOne: its collaborators are one object over the shared state, so the aliasing of job records is only in `BatchService`.
- Cancelled coroutines and generator exit: they bypass `except Exception`; a response whose stream is never started does not run its finally block either.
- Redis failures: `_redis_call` turns them into refusals and failed decrements are swallowed; the counter equations assume commands succeed, within 64 bits. A crash between INCR and EXPIRE is left out too.
- AdmissionLedger.SlotCounterIsHeldPlusRefusals: takes each method as one step; the single commands are in `ConcurrencySteps`.
- TokenLedger.TokenCounterFollowsLedger: takes each method as one step too; between its commands the counter may exceed the limit, lack a time to live, or lose reservations to a late DELETE, which `TokenSteps` accounts for.
- Stream.StreamWithHeartbeats: an upstream that itself raises Python's TimeoutError would be taken for a timeout again and again; the vLLM client converts its timeouts to other errors.
- The spool: whether a spooled event is written is not modelled, as failures there are only logged.
- TokenAccounting.CountIgnoresSurroundings: `ceil(len / 4)` is floating point in the source, exact for texts shorter than 2^53.
- JSON parsing of frames and responses, and conversions of reported usage to integers: parameters that may raise.
- The HTTP layer, authentication, the vLLM client and runtime, metrics, Sentry, logging, scripts, configuration and infrastructure: plumbing with no feedback into the state modelled here.
