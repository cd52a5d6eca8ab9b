# Notification service: a verified model

The service accepts notification requests over HTTP, stores them in Postgres, hands one delivery per
channel to Celery workers, and uses Redis for a sliding-window rate limit and for idempotency keys. This
project models the whole path of a request in Dafny and proves what it keeps: key check, rate slot,
committed PENDING rows, queue, attempts and retries, terminal status, reconciliation.

`dafny verify dfyconfig.toml` verifies everything.

## Structure

Each part of the protocol appears twice: as imperative code in the source's own form, and as a state
machine whose runs are every interleaving of its small steps. The imperative methods are proved against
the machines or their functions; the results about all runs are lemmas about the machines.

| file | content |
|---|---|
| `Model.dfy` | rows, log, status update, queue routing |
| `Machine.dfy` | the delivery protocol as small steps: `Perform` is `app/workers/tasks.py:39-155` step by step, `Step` adds handlers, publishing, redelivery, message loss and reconciler passes |
| `Basic.dfy`, `Bounds.dfy` | results of all runs: references, queue agreement, potential for attempts, countdowns |
| `Serial.dfy` | results of runs in which executions of one delivery do not overlap |
| `Outbox.dfy`, `Drain.dfy`, `Settling.dfy` | coverage, termination, end-to-end settling |
| `Witness.dfy`, `Exhausted.dfy` | runs that show where the guarantees end, and that the bounds are reached |
| `Execution.dfy` | one execution of the delivery task: what it leaves behind, for every reply and wherever it is killed |
| `Repository.dfy`, `Worker.dfy` | the repository and both Celery tasks as classes; the worker records the machine run it performs |
| `RateLimiter.dfy`, `Contention.dfy`, `RateLimiterService.dfy` | the limiter of one user as a machine, how far concurrent calls exceed the limit, and the service class for all users |
| `Idempotency.dfy`, `Requests.dfy` | the key service as a class, and many interleaved requests as a machine |
| `Preference.dfy`, `Api.dfy` | channel filtering, and the request handler over all of the above |
| `Service.dfy` | requests, also interrupted ones, template creation, executions, redeliveries and reconciliation in any order; records the run of `Requests` that its requests amount to |

Every outside call is given a reply as a parameter: it succeeds, the provider refuses it
(`ProviderError`), it raises without effect, or it raises after taking effect. Where a worker is killed is a
parameter, too. Clock readings are `real` parameters. Identifiers are positions in append-only tables, which
stands for keys that are never reused.

## Assumptions

- Scheduling: the results of `Serial`, and `Drain.SentIsOwnedOrOrphaned`, `Drain.OrphanedByStep`,
  `Drain.OrphanedIff` and `Drain.DrainSettlesIff`, assume that executions for the same delivery do not overlap
  (`Machine.Serialized`); the runs `Worker` and `Service` record are of that kind. Any number of queued
  duplicates, crashes between any two steps and redeliveries are allowed. `Witness.OverlapDeliversTwice` shows
  the assumption is needed. No other result about runs uses it.
- A status update reads and writes the committed row in one atomic step. The session may serve a row it
  loaded earlier (`app/core/database.py:20-26`), so for overlapping executions this is an idealisation;
  for executions that do not overlap the two agree.
- Clocks are monotone. A limiter call reads its clock together with its first transaction.
- Timing: `Requests.OneOwner` and `Requests.NeverTouchesAnothersEntry` assume that an owner acts before
  the entry it wrote expires; saving or deleting within 120 s of acquiring the lock is enough
  (`Requests.ActingInTimeIsTimely`). `Requests.OneAnswerPerKey` assumes no timing at all.
- Templates are only ever created, and rendering is a deterministic partial function of a template and
  its variables, otherwise unknown.

## Where code and documentation disagree

- `DESIGN.md:112` speaks of 3 attempts; the code sends `max_retries + 1 = 4` times before it gives up
  (`Bounds.Exhaustion`, reached for every maximum by `Exhausted.BoundsAreReached`).
- `DESIGN.md:116` takes a stuck PENDING row as the sign of a crashed worker and re-queues it. A delivery can also
  be stuck SENT, and nothing recovers it (`Drain.OrphanStays`). That happens exactly when the execution that
  committed SENT dies, or when its exhausted, back-off or fatal update has no effect (`Drain.OrphanedByStep`,
  `Drain.OrphanedIff`; `Witness.CrashOrphans` and `Witness.FailedBackOffOrphans` are two such runs).
- `DESIGN.md:138` promises the limit in any interval. It holds if and only if calls of one user do not
  overlap (`Contention.StrictOnlyOneAtATime`); k at once can exceed it by k - 1, and no more.
- `README.md:122` says keys expire after 24 hours. The cached response does, but the unique column stays,
  so a later request with the key can never succeed (`Requests.ExpiredKeyFails` is such a run,
  `Requests.OnlyTheCommitterSaves` the general statement).
- The status names DELIVERED and FAILED suggest terminal states. FAILED is one. A DELIVERED row is overwritten by
  FAILED exactly when the commit of DELIVERED takes effect, its call raises, and the fatal branch's own update takes
  effect as well (`Execution.DeliveredIsKept`; `Witness.LostReplyUndoesDelivered` is such a run). Once the reply to
  the commit has arrived the row never changes (`Serial.TerminalForever`).
- An empty `x-idempotency-key` header skips the lock but is still stored in the unique column
  (`app/api/v1/notifications.py:47`, `app/api/v1/notifications.py:100`); the model keeps both.

## Model

| member | source | states |
|---|---|---|
| `Basic.WorkLocal` | app/workers/tasks.py:39-155 | One step of an execution keeps its row well formed (no accepted delivery is rejected, FAILED only by exhaustion or a fatal error) and its copy within its retries; a published retry is a well-formed copy |
| `Basic.NewRowsOk` | app/api/v1/notifications.py:93-113 | The rows one accepted request inserts refer to its notification, whose template renders, and all route to the queue of its priority; older rows stay |
| `Basic.StepKeeps` | app/workers/tasks.py:39-203 | Every step of handlers, workers, broker and reconciler keeps all references valid, keys unique, copies in the right queue and within their retry limits, and only appends rows |
| `Basic.InvHolds` | app/workers/tasks.py:39-203 | The same in every state of every run, also with overlapping executions |
| `Basic.CountedHasMessage` | app/repositories/notification.py:74-77 | In every run a delivery that has counted a retry carries an error message |
| `Basic.MessageStays` | app/repositories/notification.py:74-75 | In every run a message, once there, is never erased: an update that passes none keeps it |
| `Model.UpdateMeans` | app/repositories/notification.py:66-86 | One update in row fields: status, message only if one is passed, counter only if asked, one log entry from the old status to the new; nothing else, and nothing for a missing row |
| `Bounds.StepKeeps` | app/workers/tasks.py:113-155 | Every step keeps the accounts: provider calls plus calls still possible are paid by enqueues and redeliveries, counted retries by provider errors, fatal failures by something that raised |
| `Bounds.AttemptBound` | app/workers/tasks.py:123-147 | In every run, provider calls of a delivery plus the calls its queued copies can still cause never exceed (max_retries + 1) times its enqueues and redeliveries |
| `Bounds.Exhaustion` | app/workers/tasks.py:129-147 | A delivery failed by exhaustion counts at least max_retries + 1 retries; enqueued once and never redelivered, it is sent at most max_retries + 1 times, exactly that often if exhausted |
| `Bounds.FailureCauses` | app/workers/tasks.py:60-155 | No delivery of an accepted notification fails for its template, rendering or channel; if only the provider ever refused, a FAILED row had at least max_retries + 1 refusals |
| `Bounds.CountdownBound` | app/workers/tasks.py:26-37 | The countdowns along a retry chain sum to at most (4^max_retries - 1) / 3, with equality exactly when all retries were made; 21 seconds for three |
| `Bounds.CopiesAgree` | app/workers/tasks.py:184-201 | Every copy refers to a committed row and has no more retries than the row has counted; whoever enqueued it, it sits in critical, high, default or low if and only if its notification's stored priority is CRITICAL, HIGH, NORMAL or LOW |
| `Bounds.WorkCounts` | app/workers/tasks.py:113-155 | The counters the results speak of count exactly the provider calls and how they ended, the raising calls, lost DELIVERED replies and who wrote SENT |
| `Bounds.EventCounts` | app/workers/tasks.py:198-201 | And exactly the enqueues, redeliveries and losses of the delivery concerned |
| `Exhausted.BoundsAreReached` | app/workers/tasks.py:123-147 | For every max_retries a run without overlap and with one enqueue in which the delivery is sent max_retries + 1 times, counts as many retries, fails as exhausted, and its last copy has waited (4^max_retries - 1) / 3: the bounds above are exact, and 4 sends happen with max_retries = 3 |
| `Serial.WorkLocal` | app/repositories/notification.py:66-88 | One step of an execution extends the log of its row by a legal transition, keeps the balance of SENT marks and retries, and lets no second provider call take effect |
| `Serial.UpdateLocal` | app/repositories/notification.py:66-88 | A legal update keeps the log an unbroken chain and the SENT marks balanced |
| `Serial.TaskLocal` | app/workers/tasks.py:113-155 | After its step an execution still knows its row: PENDING before it marks SENT, SENT by itself before it writes the outcome |
| `Serial.NewHistory` | app/repositories/notification.py:45-52 | A new delivery's log is the one entry NONE to PENDING; the logs of the others do not change |
| `Serial.StepKeeps` | app/workers/tasks.py:39-155 | Every step from a state without overlapping executions keeps all of this for every row and every copy |
| `Serial.LogChain` | app/repositories/notification.py:66-88 | Each log is an unbroken chain from NONE -> PENDING to the row's status that holds only PENDING->SENT, PENDING->FAILED, SENT->DELIVERED, SENT->PENDING, SENT->FAILED and, after a lost commit reply, DELIVERED->FAILED |
| `Serial.SentMarksConserved` | app/workers/tasks.py:113-155 | PENDING -> SENT marks equal the retry count, plus one if the row is SENT or DELIVERED, plus one if the fatal branch failed it after SENT |
| `Serial.MessageOfLastRefusal` | app/repositories/notification.py:74-77 | A delivery that has not failed carries the refusal's message if it has counted a retry, and none otherwise; a DELIVERED one keeps it |
| `Serial.AtMostOneSuccess` | app/workers/tasks.py:45-121 | With crashes, redeliveries and duplicates, the provider accepts a delivery at most once, counting calls whose reply was lost; one call returned if the row is DELIVERED, none was accepted if it is PENDING or exhausted |
| `Serial.ChangesIff` | app/workers/tasks.py:113-155 | A step changes a row that is not PENDING if and only if it is a status update that takes effect at one of the four later program points; then the updater is the one that wrote SENT |
| `Serial.OnlyTheSenderChanges` | app/workers/tasks.py:51-53 | The same along every run: a row past PENDING, SENT or DELIVERED, is changed only by the execution that wrote SENT, DELIVERED only in the fatal branch after a lost commit reply, FAILED never |
| `Serial.TerminalForever` | app/workers/tasks.py:51-53 | From the state in which a row is FAILED, or DELIVERED with the reply to that commit received, it never changes again |
| `Outbox.StaysSafe` | app/workers/tasks.py:39-203 | No step leaves a PENDING row without a live copy unless a message of that delivery was lost or one of its calls raised; holds with overlapping executions |
| `Outbox.PassCoversOldRows` | app/workers/tasks.py:172-201 | Wherever handlers stopped, after a completed reconciler pass every row older than the cutoff that is still PENDING has a live copy, or suffered a loss since the pass began |
| `Outbox.PassTakesOnlyStuck` | app/repositories/notification.py:121-134 | A pass never re-queues a row that was not PENDING, or not older than the cutoff, when it began |
| `Drain.DrainTerminates` | app/workers/tasks.py:129-147 | Without crashes and new enqueues, whatever the provider answers and however executions interleave, the number of steps is bounded by the fuel of the queued copies |
| `Drain.DrainLength` | app/workers/tasks.py:129-147 | In steps: at most 11 * max_retries + 10 for each copy there is at the start |
| `Drain.DrainSettles` | app/workers/tasks.py:39-155 | A drain that cannot go on has made every covered delivery DELIVERED or FAILED |
| `Drain.SentIsOwnedOrOrphaned` | app/workers/tasks.py:113-147 | In a serialized run a SENT row is owned by an execution that wrote SENT, or it is orphaned |
| `Drain.OrphanStays` | app/workers/tasks.py:51-53 | An orphaned delivery stays SENT in every continuation: neither redelivery nor reconciliation recovers it |
| `Drain.OrphanedByStep` | app/workers/tasks.py:113-155 | A step orphans a delivery if and only if the row is SENT and its sender dies, or its exhausted, back-off or fatal update has no effect |
| `Drain.OrphanedIff` | app/workers/tasks.py:113-155 | In a serialized run a delivery is orphaned if and only if such a step happened before |
| `Drain.DrainSettlesIff` | app/workers/tasks.py:39-155 | Whatever crashed and was redelivered before, a drain that cannot go on has settled a delivery if and only if at its start the row, when PENDING, had a live copy and, when SENT, still had its sender |
| `Settling.LosslessDeliveriesSettle` | app/workers/tasks.py:39-155 | From any state of any run: every drain takes at most 11 * max_retries + 10 steps per copy, and settles each delivery no handler still has to enqueue that lost no message and no call |
| `Settling.ReconciledDeliveriesSettle` | app/workers/tasks.py:165-203 | Whatever happened before, an old delivery still PENDING after a completed reconciler pass without further losses is DELIVERED or FAILED at the end of every drain |
| `Witness.OverlapDeliversTwice` | app/workers/tasks.py:45-53 | A run with two overlapping executions in which the provider succeeds twice and the log shows DELIVERED -> SENT: the scheduling assumption is needed |
| `Witness.CrashOrphans` | app/workers/tasks.py:113-118 | A run without overlap whose last event is a worker death that leaves a row SENT for good |
| `Witness.FailedBackOffOrphans` | app/workers/tasks.py:138-145 | A run without overlap and without any death in which the back-off update raises without effect and leaves a row SENT for good |
| `Witness.LostReplyUndoesDelivered` | app/repositories/notification.py:86-88 | A run without overlap in which the commit of DELIVERED loses its reply and the fatal branch overwrites DELIVERED by FAILED |
| `Repository.NotificationRepository.CreateNotification` | app/repositories/notification.py:13-31 | Appends the row to the session; refuses and changes nothing exactly when it has a key that another row has already |
| `Repository.NotificationRepository.CreateDelivery` | app/repositories/notification.py:33-52 | Appends a PENDING row with zero retries and its NONE -> PENDING log entry, uncommitted |
| `Repository.NotificationRepository.UpdateDeliveryStatus` | app/repositories/notification.py:54-88 | Status, message, retry counter and log entry are committed together or not at all, also when the call raises; a missing row changes nothing |
| `Repository.NotificationRepository.GetPendingDeliveries` | app/repositories/notification.py:121-134 | Exactly the rows whose status is PENDING and whose creation time lies before the cutoff, each once |
| `Repository.NotificationRepository.CreateTemplate` | app/repositories/template.py:20-30 | Appends the template and commits |
| `Repository.NotificationRepository.Commit` | app/repositories/notification.py:136-138 | Makes the session's rows visible |
| `Repository.NotificationRepository.Close` | app/core/database.py:28-34 | Discards uncommitted rows |
| `Worker.Backend.Load` | app/workers/tasks.py:45-98 | Loading and rejecting takes the execution exactly to where the machine takes it, also when it is killed on the way |
| `Worker.Backend.HandleProviderError` | app/workers/tasks.py:123-147 | Gives up with FAILED or goes back to PENDING and publishes a retry, as the machine does, for every way its calls can end |
| `Worker.Backend.CallProvider` | app/workers/tasks.py:117-147 | The provider call and what follows it arrive where the machine does, and say whether the fatal branch is next |
| `Worker.Backend.Attempt` | app/workers/tasks.py:113-155 | The whole try block arrives at the machine's end state of the execution |
| `Worker.Backend.Retry` | app/workers/tasks.py:146-147 | Publishes one copy with one more retry in the same queue, none when the broker call has no effect or the worker is killed before it |
| `Worker.Backend.Write` | app/repositories/notification.py:54-88 | One status update of an execution: what it writes and whether it raises agree with the machine's step |
| `Worker.Backend.Crash` | app/workers/tasks.py:26-27 | A killed execution touches nothing more; with late acknowledgement its copy may be queued again |
| `Worker.Backend.SendNotificationDelivery` | app/workers/tasks.py:26-163 | The task leaves tables, log and queue as the machine's execution does, for every way its calls can end and wherever the worker is killed, with or without redelivery, and records a serialized run, so all results about runs hold of it |
| `Worker.Backend.ReconcilePendingDeliveries` | app/workers/tasks.py:165-203 | Selects exactly the rows that are PENDING and were created more than 300 s ago, each once, and enqueues them in order, without retries, in the queue of their priority, until a broker call raises, before or after taking effect; the recorded pass has exactly the others left |
| `Worker.Backend.EnqueueAll` | app/workers/tasks.py:183-201 | The loop alone: exactly the first rows, as many as the broker took, have one fresh copy each |
| `Worker.Backend.EnqueueStuck` | app/workers/tasks.py:184-201 | One stuck row gets one fresh copy, in critical, high, default or low if and only if its notification's priority is CRITICAL, HIGH, NORMAL or LOW, in default when there is no notification; none when the call raises without effect |
| `Worker.Backend.CommitAccepted` | app/api/v1/notifications.py:112-113 | A notification and all its deliveries become visible in one step, before anything is enqueued |
| `Worker.Backend.ApplyAsync` | app/api/v1/notifications.py:116-125 | Enqueues one fresh copy in the given queue and takes it off the handler's list, or neither when the call raises without effect |
| `Worker.Backend.Redeliver` | app/workers/tasks.py:26 | Any copy that is not acknowledged may be queued once more |
| `Execution.FinishEnds` | app/workers/tasks.py:39-155 | An execution changes nothing but its own row and copy, adds at most its retry or itself, and its effect is a function of its row and its replies |
| `Execution.FinishOutcome` | app/workers/tasks.py:113-155 | For every way the calls can end and wherever the worker is killed: exact conditions on the replies for ending FAILED, DELIVERED, PENDING or SENT, for publishing the retry and for counting it |
| `Execution.DeliveredIsKept` | app/workers/tasks.py:120-155 | An execution that committed DELIVERED leaves FAILED if and only if the reply to that commit was lost and the fatal branch's own update took effect, and DELIVERED otherwise |
| `Execution.NothingToSend` | app/workers/tasks.py:45-98 | A copy whose delivery is not PENDING or whose rows are missing changes nothing; one that cannot be sent fails for its own reason, if that update takes effect |
| `Execution.LoadMeans` | app/workers/tasks.py:45-98 | What loading leads to, case by case in row fields: nothing to do, missing template, rendering error, unsupported channel, or ready to send |
| `Execution.FinishKeepsTables` | app/workers/tasks.py:39-155 | An execution adds and removes no template, notification or delivery |
| `RateLimiter.StepKeeps` | app/services/rate_limiter.py:26-53 | Every transaction, also one whose reply is lost, and every key expiry keeps the sorted set equal to the live admitted calls, and the key outlives its entries |
| `RateLimiter.WindowBound` | app/services/rate_limiter.py:20-53 | With at most k calls of a user at once, every half-open window of the configured length holds at most limit + k - 1 admitted calls, for every limit and all real times; a limit of zero or less admits none |
| `RateLimiter.AdmitsByRecount` | app/services/rate_limiter.py:26-39 | A call passes if and only if fewer than limit calls of the full log were admitted in (now - window, now], window being the configured number of seconds; the pruned set is exactly those, with their times |
| `RateLimiter.ExpiryLosesNothing` | app/services/rate_limiter.py:50-53 | Key expiry never drops an entry that still counts |
| `RateLimiter.RetryAfterRange` | app/services/rate_limiter.py:39-46 | The value lies between 1 and the window and exceeds the oldest entry's remaining life only through the floor of one second |
| `RateLimiter.AdmittedOnceOldestLeaves` | app/services/rate_limiter.py:37-46 | With calls one at a time and no admission since a rejection, the next call passes if and only if the oldest live entry has left the window |
| `RateLimiter.WaitingAdmits` | app/services/rate_limiter.py:41-46 | Waiting one second longer than stated always admits; waiting exactly as stated does if and only if truncation lost nothing |
| `Contention.BoundIsReached` | app/services/rate_limiter.py:26-53 | For every limit and k a run with at most k calls at once in which a window holds limit + k - 1 admitted calls |
| `Contention.StrictOnlyOneAtATime` | app/services/rate_limiter.py:26-53 | The limit is kept in every window of every run if and only if k = 1, although DESIGN.md line 138 promises it without condition |
| `RateLimiterService.RateLimiterService.DropExpired` | app/services/rate_limiter.py:48-53 | Redis treating a key past its expiry as missing loses no live entry and touches no other user |
| `RateLimiterService.RateLimiterService.RemoveOld` | app/services/rate_limiter.py:29-30 | Removes exactly the entries at or before the cutoff of one user |
| `RateLimiterService.RateLimiterService.PruneAndCount` | app/services/rate_limiter.py:26-37 | Leaves exactly the live slice of the user's full log and returns its size and oldest time |
| `RateLimiterService.RateLimiterService.CountAndFirst` | app/services/rate_limiter.py:31-37 | The size and the lowest score of the sorted set as it is |
| `RateLimiterService.RateLimiterService.First` | app/services/rate_limiter.py:32-33 | The lowest score, if there is one |
| `RateLimiterService.RateLimiterService.AddEntry` | app/services/rate_limiter.py:48-53 | Adds the call under a fresh member, renews the expiry and keeps the quota of every window and every user |
| `RateLimiterService.RateLimiterService.Refuse` | app/services/rate_limiter.py:39-53 | A rejected or abandoned call takes no slot and leaves the sorted set alone |
| `RateLimiterService.RateLimiterService.CheckRateLimit` | app/services/rate_limiter.py:15-53 | Past the count if and only if fewer than limit earlier calls were admitted in (now - window, now], so one that finds limit of them is rejected; allowed if the second transaction returns too; a rejected one is told the whole seconds, at least one, until the oldest of them leaves; logs the call, leaves other users alone, for every way the two transactions can end |
| `RateLimiterService.PruneIsStep` | app/services/rate_limiter.py:26-46 | The service's first transaction is the machine's check, or its sweep when the reply is lost |
| `RateLimiterService.AddIsStep` | app/services/rate_limiter.py:48-53 | The service's second transaction is the machine's add, score and key expiry included |
| `Idempotency.IdempotencyService.CheckOrLock` | app/services/idempotency.py:21-65 | Answers from the live entry (cached, payload conflict, in progress) without writing; locks a free key for 120 s, unless the store as others left it between GET and SET NX holds it, then busy; both calls may raise, the second after taking effect |
| `Idempotency.IdempotencyService.LookUp` | app/services/idempotency.py:29-65 | The GET and what its value means for this payload, as `LookMeans` says; writes nothing |
| `Idempotency.LookMeans` | app/services/idempotency.py:30-65 | An expired entry is missing; a live one with another payload conflicts; with this payload a lock is in progress and a finished response is returned as stored |
| `Idempotency.LockMeans` | app/services/idempotency.py:34-40 | The lock holds the payload and lives for 120 s; a live entry and all other keys stay |
| `Idempotency.IdempotencyService.SetLock` | app/services/idempotency.py:34-48 | The SET NX: the lock is written exactly when no live entry is there and the call takes effect |
| `Idempotency.IdempotencyService.SaveResponse` | app/services/idempotency.py:67-80 | Overwrites the key with the finished response, whoever wrote it |
| `Idempotency.IdempotencyService.DeleteKey` | app/services/idempotency.py:82-85 | Removes the key, whoever wrote it |
| `Requests.StepKeeps` | app/api/v1/notifications.py:47-155 | Every interleaved step of any request, clock tick or crash keeps: rows unique per key and author, cached responses name their row, answers match their row |
| `Requests.OneAnswerPerKey` | app/api/v1/notifications.py:47-143 | All 201 answers for one key, fresh or replayed, have the same body, were for the same payload and name the key's single notification; at most one is fresh |
| `Requests.EverySuccessCounts` | app/api/v1/notifications.py:50-53 | Fresh and replayed 201 answers are all counted as answers, and a replayed one always has status 201 |
| `Requests.OnlyTheCommitterSaves` | app/models/notification.py:36-41 | Only the request that committed the key's row can reach the save; every other request of that key never commits or answers fresh again, also after the cache entry expired |
| `Requests.ExpiredKeyFails` | app/models/notification.py:36-41 | A run in which the same request, sent again once the cached response has expired, takes the lock and fails on the unique column |
| `Requests.AnswersStay` | app/api/v1/notifications.py:143-155 | An answer once given never changes |
| `Requests.OneOwner` | app/services/idempotency.py:29-48 | If owners act before their entry expires, at most one request owns a key and the store holds its live lock meanwhile, despite separate GET and SET NX |
| `Requests.NeverTouchesAnothersEntry` | app/services/idempotency.py:67-85 | Under the same timing a save or delete only ever hits the entry its own request wrote |
| `Requests.ActingInTimeIsTimely` | app/services/idempotency.py:38-44 | Saving or deleting within 120 s of acquiring the lock is acting before the entry expires, when responses are cached for at least 120 s |
| `Requests.LateOwnerDeletesAnothersLock` | app/services/idempotency.py:82-85 | Without the timing: a run in which an owner that took 120 s deletes the next owner's live lock |
| `Preference.KeepEnabled` | app/services/preference.py:35-46 | The requested channels the user has not opted out of, in order |
| `Preference.FilterChannels` | app/services/preference.py:8-46 | EMAIL, SMS and PUSH are each in the result exactly when requested, or nothing was requested, and the user's own setting for it does not say otherwise |
| `Preference.KeepSplits` | app/services/preference.py:35-46 | Order and repetitions of the requested channels are kept |
| `Preference.KeepOne` | app/services/preference.py:18-26 | Each channel is dropped exactly by its own opt-out |
| `Preference.KeepAll` | app/services/preference.py:29-33 | Without a request: the enabled ones of EMAIL, SMS and PUSH, in this order |
| `Api.NotificationApi.GetByName` | app/repositories/template.py:15-18 | A template with this name, and none only if there is none |
| `Api.NotificationApi.InsertRows` | app/api/v1/notifications.py:93-110 | The notification and one PENDING row per channel are in the session, or nothing is, when the unique column holds the key |
| `Api.NotificationApi.InsertDeliveries` | app/api/v1/notifications.py:103-110 | One PENDING row per channel, in order, uncommitted, with the new identifiers |
| `Api.NotificationApi.Persist` | app/api/v1/notifications.py:93-113 | Notification and deliveries are stored together, with one rate slot, or nothing is, as `RowsMean` says |
| `Api.RowsMean` | app/api/v1/notifications.py:95-113 | Rows and slot appear together exactly when the key is absent or free and the commit takes effect: one notification and one PENDING delivery per channel, in order; otherwise nothing changes |
| `Api.NotificationApi.EnqueueDeliveries` | app/api/v1/notifications.py:115-125 | The copies enqueued are the first ones in order, as many as the broker took, each in critical, high, default or low if and only if the priority is CRITICAL, HIGH, NORMAL or LOW |
| `Api.MessagesMean` | app/api/v1/notifications.py:116-125 | Each task message is a fresh copy for one delivery, in order, in the one queue of the priority |
| `Api.NotificationApi.Submit` | app/api/v1/notifications.py:93-132 | Tables, queue and slots are as `CarryOutMeans` and `RowsMean` say; a body is returned exactly when commit, every enqueue and the re-fetch succeeded, and it is the one of `BodyMeans` |
| `Api.CarryOutMeans` | app/api/v1/notifications.py:112-125 | Nothing is enqueued without committed rows; a commit that returned is followed by fresh copies for the new rows, in order, as many as the broker takes, in the one queue of the priority |
| `Api.BodyMeans` | app/api/v1/notifications.py:127-132 | A response body names the new notification and lists exactly the stored rows with its id, in order: one PENDING delivery per planned channel; a 201 carries it |
| `Api.ListsKept` | app/api/v1/notifications.py:127-132 | Later rows and later updates do not change what a body lists |
| `Api.AnswerMeans` | app/api/v1/notifications.py:61-155 | 201 exactly when the plan could be made, the key was free and every call returned; 400 exactly for an invalid request; 500 otherwise |
| `Api.NotificationApi.Admit` | app/api/v1/notifications.py:62-64 | Takes one fresh slot of the user when the window has room; both Redis transactions may raise |
| `Api.NotificationApi.Resolve` | app/api/v1/notifications.py:66-91 | A plan exactly when the template exists and renders and both reads return; its channels are the filtered ones |
| `Api.ResolutionMeans` | app/api/v1/notifications.py:66-101 | A request is invalid exactly when its template is missing or does not render; a plan carries the request's own user, variables, priority and key, the template of that name, and exactly the channels requested and not opted out |
| `Api.NotificationApi.Complete` | app/api/v1/notifications.py:134-143 | A guarded key caches the very body that is answered; a raising save means no 201 |
| `Api.NotificationApi.Fulfil` | app/api/v1/notifications.py:66-143 | A bad request changes nothing; any other answer, and the cache entry, are fixed by how far the plan was carried out |
| `Api.NotificationApi.CheckKey` | app/api/v1/notifications.py:47-59 | Stops the request or lets it go on, and leaves the store, exactly as `CheckedMeans` and `UnguardedMeans` say |
| `Api.CheckedMeans` | app/api/v1/notifications.py:47-59 | Case by case: a raising GET, a live entry with another payload (409), a live lock (409), a cached response replayed as stored, a raising or lost SET NX, a lock taken for 120 s |
| `Api.UnguardedMeans` | app/api/v1/notifications.py:47-59 | Without a key, or with an empty one, nothing is looked up, locked, saved or deleted |
| `Api.NotificationApi.Process` | app/api/v1/notifications.py:61-143 | At most one limiter call is logged; it lets the request in exactly when the window has room and the limiter's calls return, and a 429 states its retry value; otherwise database, queue and cache stay |
| `Api.NotificationApi.Proceed` | app/api/v1/notifications.py:61-155 | The try block with its clean-up: the exact final store, and everything `Process` says |
| `Api.NotificationApi.SendNotification` | app/api/v1/notifications.py:35-155 | A request stopped by its key consumes no slot and touches nothing; otherwise answer, tables, queue, slots and the exact final store are fixed by how far it got; a 201 names the new notification and lists exactly its stored deliveries |
| `Api.StoreMeans` | app/api/v1/notifications.py:134-155 | A 201 leaves its own body cached for the configured time, a failed request leaves no key behind when its clean-up works, no other key is touched |
| `Api.NotificationApi.CommittedWithinQuota` | app/api/v1/notifications.py:61-113 | Notifications committed for a user by requests admitted in any half-open window of the configured length number at most the limit |
| `Api.NotificationApi.EachHasItsSlot` | app/api/v1/notifications.py:61-113 | Each committed notification was let in by an admitted call of its own user, no two by the same one |
| `Service.Fulfils` | app/api/v1/notifications.py:66-155 | What the handler does once the limiter let it in is a run of the interleaved machine with the same store, rows and answer |
| `Service.Answers` | app/api/v1/notifications.py:35-155 | Every request that is not interrupted, however it ends, is a run of the interleaved machine that ends with the same store, the same rows and the same answer |
| `Service.Proceeds` | app/api/v1/notifications.py:61-155 | The same for the part after the key check, from any state of the machine |
| `Service.NotificationService.LookUp` | app/services/idempotency.py:29-32 | A new request up to its GET, recorded as the machine's steps; other requests may run between this and its next step |
| `Service.NotificationService.Lock` | app/services/idempotency.py:34-48 | Its SET NX on the store as others have left it, recorded as the machine's step |
| `Service.NotificationService.Proceed` | app/api/v1/notifications.py:61-155 | The rest of a request, whatever others have done since its key check, recorded as a run of the machine with the same answer |
| `Service.NotificationService.Crash` | app/api/v1/notifications.py:61-155 | A handler may be killed between those steps; the recorded run goes on |
| `Service.NotificationService.Post` | app/api/v1/notifications.py:35-155 | The handler refines the machine: after each request the recorded run has led to the actual store and table, and the newest request has the answer returned |
| `Service.NotificationService.SameAnswer` | app/api/v1/notifications.py:47-143 | All 201 answers ever returned for a key are equal, were for the same payload, name the one stored notification with that user, variables and priority, and list exactly its stored deliveries |
| `Service.NotificationService.CreateTemplate` | app/api/v1/templates.py:17-29 | A template is added exactly when its name is free |
| `Service.NotificationService.Deliver` | app/workers/tasks.py:26-163 | An execution, killed or not, keeps quota, keys, answers and the recorded runs |
| `Service.NotificationService.Redeliver` | app/workers/tasks.py:26 | So does a redelivery |
| `Service.NotificationService.Reconcile` | app/workers/tasks.py:165-203 | So does the reconciliation job, which enqueues exactly the rows PENDING for more than 300 s that the broker took, each once, in the queue of its priority |
| `Service.NotificationService.EveryDelivery` | app/repositories/notification.py:54-88 | After any requests, executions, deaths, redeliveries and reconciliations, every committed delivery has an unbroken log ending in its status, was accepted at most once, and was sent successfully exactly once if DELIVERED |

## Left out

- Bounds.CopiesAgree: for overlapping executions it relies on the atomic status update named under Assumptions; a stale session row could lose an increment of the retry counter there.
- Bounds.Exhaustion: the lower bound on the retry counter relies on the same atomic update when executions overlap.
- Settling.LosslessDeliveriesSettle: a worker death counts as a loss even when the copy is redelivered; for runs without overlap `Drain.DrainSettlesIff` decides those cases, too.
- Worker.Backend.SendNotificationDelivery: one execution at a time; executions of different deliveries interleaved step by step are covered by the machine only.
- Worker.Backend.ReconcilePendingDeliveries: a database read that raises in the loop is represented by the broker call after it raising without effect.
- Api.NotificationApi.SendNotification: others act between its GET and its SET NX only; from there on it is one request at a time, and requests interleaved at every step are covered by `Requests`.
- Service.NotificationService.Proceed: other requests and workers act before or after it, not inside it.
- RateLimiter.WindowBound: time is real, so the rounding of floating-point clock readings and scores is not modelled; a member's random part is taken as unique.
- Contention.StrictOnlyOneAtATime: for a window of at least one second and a limit of at least one, the values for which the limit means anything.
- Requests.ActingInTimeIsTimely: for responses cached for at least 120 s; the configured default is 86400 s.
- Countdowns and beat times do not gate when a copy or a pass starts: every start time is allowed.
- Template parsing and rendering (`app/services/template.py`) is a given predicate; subject and body contents are not modelled.
- Providers (`app/providers/`) are replaced by an arbitrary reply per call.
- Redis, Postgres, SQLAlchemy and Celery internals beyond the atomic operations used; column widths; the foreign keys' ON DELETE actions, since nothing is deleted.
- Queue and status names are datatypes: lower-casing of the priority is not modelled as text.
- Error messages keep their kind, not their text.
- Preference upsert, template listing, history pagination, status query: thin queries that would only add easy members.
- Routing, middleware, exception handlers, logging, settings and migrations; the Retry-After header carries the modelled value (section 10.2.3 of RFC 9110).
