# Verified model of the backend's queues, tokens, listings and webhooks

A Dafny model of the stateful parts of the service, with proofs of what they guarantee. `dafny verify dfyconfig.toml`
checks the whole project.

Each Python class or module that works on shared state is a class whose methods carry that state as fields and are
proved against a specification function or against the new state outright. Where several processes share the state, a
second layer describes the same operations as a state machine (`State`, `Step`, `Enabled`, `Do`, `Run`), and the main
results speak of every run of that machine. Times are integers in microseconds; expiry times and intervals that the
code keeps in whole seconds stay whole seconds.

## What is modelled

* **Job queue and worker** (`jobs`, `backoff`, `job_queue`, `worker`, `queue_weights`, `leases`, `lease_theorems`,
  `worker_loop`, `fencing`, `no_loss`, `queue_alone`, `command_exclusivity`, `command_timing`). Main list, processing
  list, delayed sorted set and failed list, at two granularities. In `leases` each queue function is one step; workers, reclaimers, promoters
  and operators interleave and a worker may die while its handler runs. In `no_loss` each Redis command is one step and a process between two commands holds an
  entry in hand. `worker_loop` proves that the worker's loop is a run of the first machine, `queue_alone` that
  undisturbed commands compose to the queue functions, `fencing` treats runs in which handlers outlive their
  visibility timeout, `command_exclusivity` says when interleaved commands keep one entry per job, and `command_timing` which part of that
  follows from the clocks.
* **Password reset** (`password_reset`, `reset_emails`, `reset_alone`). The queued handler interleaved with itself, with
  markers that expire at will: which tokens are committed, how many e-mails go out, and what one handler alone does.
* **Inbound webhooks** (`webhook_security`, `webhooks`, `webhook_runs`, `webhook_alone`, `webhook_replay`). Header
  parsing and signing; the endpoint as one method; the endpoint statement by statement with locks that may change in
  any way; agreement of the two; and the replay window against the retention of event rows.
* **User listing** (`like_search`, `user_listing`, `keyset_paging`, `user_directory`, `cache_coherence`). The LIKE
  escape, keyset and offset pages, walks over fixed and changing tables, and the versioned cache, once as a method on
  one process and once with readers and writers interleaved.
* **Refresh tokens** (`refresh_tokens`, `token_runs`, `token_alone`). Revocation keys with their time to live, rotation, logout and
  `token_version`, with the requests split into their steps.
* **Rate limiter** (`rate_limit`). INCR followed by an EXPIRE that may come late.

## Assumptions

* JSON text is a lossless codec: an entry is the JSON value it denotes, members in written order, timestamps as
  integers. A member of the wrong type counts as unreadable. Base64 cursors and hashed cache keys are injective.
* HMAC (RFC 2104) is injective for a fixed secret, and yields a lower-case hexadecimal digest. Signed tokens
  (RFC 7519) cannot be forged: only issued claims are presented.
* Job ids, token ids and user ids are fresh (`CommandExclusivity` states it as the clause `FreshIds`). A commit is one
  atomic step that enforces the unique constraints.
* Equal scores come out of the delayed set in any order; the lowest score comes first, as in Redis.
* `CommandTiming.Timely`: a reclaimer reads the clock while every running handler is within its visibility timeout, and no
  worker's stamp lags a whole timeout behind a reclaimer's reading. One clock gives it (`CommandTiming.OneClockIsTimely`).
* `Leases.Tick`: time does not pass the visibility timeout of a lease whose worker is alive. `Fencing` and `NoLoss` do
  without any assumption about time.
* `TokenRuns.Punctual`, for `RotatedAtMostOnce`: no claim of a token has its time to live
  computed before the token's expiry second and its key set in or after it. `RotatedOnceIff` gives the exact condition
  over all runs, `RotatedOnceIffNoLag` the one in clock readings, and `StraddlingClaimRotatesTwice` a run in which a
  claim whose SET comes one microsecond late rotates a token twice.
* A query returns rows as committed, but the caller's own row was loaded when the request was authenticated and is not
  read again in the same session (`app/api/dependencies/auth.py:54-58`). `CacheCoherence` keeps that row per reader;
  `KeysetPaging` and `UserDirectory` take it as unchanged since.
* `WebhookReplay.Within`: no request takes longer than `lag` from its first query to its event insert. `lag` is a
  parameter of every result; 0 is a request at one clock reading. `received_at` is the start of the request's
  transaction or anything between that and the insert.

## Where the code differs from what one might expect

* A lease is exclusive when queue functions are atomic (`LeaseTheorems.ExclusiveLeases`), but not when single commands
  interleave: between BRPOPLPUSH and the stamped LPUSH the entry has no stamp, and an entry without one is stale at once
  (`app/core/job_queue.py:167-177`, `app/core/job_queue.py:252`). A reclaimer that takes it there starts a second handler
  although no time has passed and nobody has died (`CommandExclusivity.TwoHandlersWithout`). `CommandExclusivity.ExclusiveIff`
  gives the exact condition, and with handlers that end in time this gap is the only one (`CommandTiming.OnlyGap`).
* The listing cache can show the row of a caller as it was before a commit to readers that start after the increment: the
  caller was authenticated before the commit, then queried and stored the page under the new version
  (`CacheCoherence.StaleRowOfCaller`). No other row is ever older, and `CacheCoherence.AsCommittedIff` gives the exact
  condition.
* A failed job keeps its lease stamp in the failed list (`app/core/job_queue.py:278-296`); requeueing pops an entry
  before reading it, so an unreadable one is gone (`app/core/job_queue.py:320-326`).
* A password-reset job can send more than one e-mail, though only one token is committed. It sends at most one when its
  handlers do not overlap, none dies between its e-mail and its commit, and none finds its token hash taken at the commit
  (`ResetEmails.AtMostOneEmail`); each of the three is needed (`ResetEmails.SecondEmailWithout`).
* A password confirmation commits the new password before the used tokens: a process that stops in between leaves the
  presented token open until it expires (`PasswordReset.InterruptedTokensStayOpen`).
* A signature that is not ASCII makes the comparison raise, so the answer is a server error and not a 401. A signed body
  that fails the schema ends in a server error too, not in a 422 (`app/api/routes/webhooks.py:69`).
* An update that sets `is_active` to false does not raise `token_version`; deactivation does
  (`TokenRuns.WhatBumpsTheVersion`).
* `docs/webhook-idempotency.md` says a lost race returns the first stored response. The code returns it only while it
  has not expired and otherwise fails, with the event already on file (`Webhooks.FailsOverExpiredRow`). The same
  document speaks of successful responses being cached; the code stores the 409 answer to a duplicate too.
* A signed message is accepted at most once for ever only if the retention period is strictly longer than twice the
  tolerance: the clock is truncated to seconds, so equality leaves a gap (`WebhookReplay.AcceptedOnceIff`).

## Model

| member | source | states |
|---|---|---|
| Jobs.StoredMember | app/core/job_queue.py:27-47 | which members a stored job has and with what values; optional members only when set |
| Jobs.RoundTrip | app/core/job_queue.py:52-64 | reading a written job gives the job back, omitted members as `None` |
| Jobs.RequiredMembers | app/core/job_queue.py:52-64 | an entry with id, type and payload only reads as a job with no attempts and nothing else set |
| Jobs.UnreadableIff | app/core/job_queue.py:52-64 | an entry cannot be read exactly when a required member is missing or a member has the wrong type |
| Jobs.ToJsonInjective | app/core/job_queue.py:27-47 | jobs stored as the same entry are the same job, so exact-match removal cannot confuse jobs |
| Backoff.DelayIsDoubling | app/core/job_queue.py:134-139 | the delay formula is the iteration "start at the base, double, cap" for every attempt number |
| Backoff.DelayMonotone | app/core/job_queue.py:134-139 | more attempts never wait less, and every delay lies between base and maximum |
| Backoff.TotalDelayBound | app/core/job_queue.py:134-139 | n retries wait at most min(n * max, base * (2^n - 1)) in all, the latter exactly until the cap bites |
| JobQueue.RedisQueues.EnqueueJob | app/core/job_queue.py:142-157 | a fresh job with no attempts goes to the head of main, nothing else changes |
| JobQueue.RedisQueues.DequeueJob | app/core/job_queue.py:160-179 | the tail of main becomes a lease at the head of processing, every field kept and the stamp set; an unreadable entry is moved and raises |
| JobQueue.FirstInFirstOut | app/core/job_queue.py:155-179 | jobs are leased in the order in which they were enqueued, the others staying in place |
| JobQueue.RedisQueues.AckJob | app/core/job_queue.py:182-188 | exactly the first equal lease leaves processing |
| JobQueue.RedisQueues.ScheduleRetry | app/core/job_queue.py:191-208 | lease removed; the delayed entry reads as the job with the same id, type, payload, request and failure time, one more attempt, the first 500 characters of the error and no stamp, scored at exactly now plus the doubled and capped delay |
| JobQueue.RedisQueues.MoveJobToFailedQueue | app/core/job_queue.py:278-296 | lease removed; the entry at the head of failed reads as the job with its payload, attempts and stamp kept, its failure time, and the given or else the last error, cut at 500 characters |
| JobQueue.RedisQueues.DueEntries | app/core/job_queue.py:219-220 | every due entry once, earliest score first, and no other |
| JobQueue.RedisQueues.PromoteDelayedJobs | app/core/job_queue.py:211-231 | the first min(limit, due) entries move to the head of main, latest outermost; the count is exact |
| JobQueue.RedisQueues.ReturnLease | app/core/job_queue.py:259-261 | a lease still present is swapped for the job without its stamp, every other field kept, at the head of main; otherwise nothing happens |
| JobQueue.RedisQueues.ReclaimStaleProcessingJobs | app/core/job_queue.py:234-263 | processing keeps in order the leases stamped and within their timeout, main gets the others reversed and unstamped in front, the count is exact, and a scan stops at the first unreadable lease |
| JobQueue.ReclaimStep | app/core/job_queue.py:245-261 | with repeated entries too, each iteration removes the very lease it read |
| JobQueue.FreshKeepsNoStale | app/core/job_queue.py:252-257 | the leases kept are exactly those not stale |
| JobQueue.RedisQueues.RequeueOldest | app/core/job_queue.py:320-326 | pop the oldest failed entry and push it to main; an unreadable one is popped and raises |
| JobQueue.RedisQueues.RequeueFailedJobs | app/core/job_queue.py:310-329 | the last min(limit, n) failed entries end up in front of main in their order, up to the first unreadable one; the count is exact |
| JobQueue.RequeueStep | app/core/job_queue.py:319-327 | each pass moves the next entry from the tail and stops exactly where an entry cannot be read |
| QueueAlone.DequeueAlone | app/core/job_queue.py:160-179 | BRPOPLPUSH, LREM and LPUSH undisturbed make the lease of `DequeueJob` |
| QueueAlone.SettleAlone | app/worker.py:100-136 | the commands of ack, retry or fail undisturbed settle the job as a whole |
| QueueAlone.PromoteAlone | app/core/job_queue.py:211-231 | the promotion loop's commands undisturbed move exactly the first min(limit, due) entries |
| QueueAlone.ReclaimAlone | app/core/job_queue.py:234-263 | the reclaim loop's commands undisturbed have the effect of the whole function, unreadable leases included |
| QueueAlone.RequeueAlone | app/core/job_queue.py:310-329 | the requeue loop's commands undisturbed have the effect of the whole function, unreadable entries included |
| QueueAlone.DeadHandlersJobReturns | app/core/job_queue.py:234-263 | command by command too, an undisturbed reclaim after the timeout brings a dead handler's job back |
| Worker.WorkerProcess.ProcessNextJob | app/worker.py:87-139 | the oldest job leaves main and processing; it is acknowledged exactly when its handler returned, its type is one of the two known and its payload has the member that type needs; else it is delayed for the next attempt while its type is known and tries are left, and dead-lettered otherwise, fields and error text written out |
| Worker.CompletedIff | app/worker.py:54-84 | the dispatch completes exactly the jobs that are done, and tells an unknown type from every other failure, with its error text |
| Leases.AcknowledgedIff | app/worker.py:100-136 | settling as one step: acknowledged exactly when done, else one entry with the right fields and score added to delayed or failed |
| NoLoss.AcknowledgedIff | app/worker.py:100-136 | settling command by command: acknowledged exactly when done, else the worker holds the very copy it will put back |
| LeaseTheorems.AcknowledgedByHandlers | app/worker.py:100-136 | over every run an id is acknowledged once for each handler of it that did its job, and for nothing else |
| LeaseTheorems.DeadWorkersJobReturns | app/core/job_queue.py:245-261 | the job of a worker that died is put back into main once its timeout and no running handler's has passed, every field but the stamp kept |
| LeaseTheorems.QueuedForARun | app/core/job_queue.py:142-329 | a new job is the newest of main, and a requeue without a limit leaves none failed, each entry reading as it did |
| Worker.WorkerProcess.MaybeRunQueueMaintenance | app/worker.py:195-208 | at most once an interval: reclaim, then promote a batch; an unreadable lease stops it in between |
| WorkerLoop.RunWorker | app/worker.py:235-236 | no call in the loop raises, and its passes are a run of the atomic queue machine ending in the stored queues |
| QueueWeights.PromotedWeight | app/core/job_queue.py:223-229 | promotion moves exactly the taken entries' weight from delayed to main |
| QueueWeights.ReclaimedWeight | app/core/job_queue.py:245-261 | reclaiming conserves every weight that does not see the lease stamp, repeated entries included |
| QueueWeights.RequeuedWeight | app/core/job_queue.py:319-327 | requeueing conserves every weight that sees no difference between failed and main |
| Leases.AccountedStep | app/core/job_queue.py:142-329 | every step keeps "one place per id": one entry of one structure or one acknowledgement |
| Leases.InvStep | app/core/job_queue.py:142-329 | readable entries, one place per id, held leases and respected retry times survive every step |
| LeaseTheorems.ExclusiveLeases | app/core/job_queue.py:160-296 | in every reachable state each id is in exactly one place and no two live workers hold one job |
| LeaseTheorems.RetryTimesGrow | app/core/job_queue.py:191-208 | the retry time of an id never moves back |
| LeaseTheorems.NeverRetriedEarly | app/core/job_queue.py:191-231 | a job that fails into attempt k at time t is not dequeued before t + delay(k), whatever happens in between |
| LeaseTheorems.WorkStep | app/worker.py:87-139 | every draining step that moves a job lowers a measure over structure and attempts |
| LeaseTheorems.DrainingTerminates | app/worker.py:87-139 | a draining run makes no more moves than the measure at its start |
| LeaseTheorems.DeliveriesBounded | app/worker.py:110-132 | a draining run starts a handler at most as often as the id has tries left |
| LeaseTheorems.HandlerRunsBounded | app/worker.py:110-132 | a job in main or delayed with a attempts is started at most maxRetries - a + 1 times, a leased one at most maxRetries - a times more, one of an unknown type at most once and never again from its lease |
| LeaseTheorems.NoWorkLeft | app/worker.py:87-139 | the measure is zero exactly when main, processing and delayed are empty |
| LeaseTheorems.Progress | app/worker.py:87-139 | while work is left and workers live, some step moves a job, perhaps after waiting |
| LeaseTheorems.DrainedIsSettled | app/worker.py:87-139 | with no work left every id was acknowledged once or sits once in the failed list |
| LeaseTheorems.DrainingCompletes | app/worker.py:87-139 | from every such state a draining run reaches that end |
| LeaseTheorems.LRemCounts | app/core/job_queue.py:188 | LREM 1 takes one occurrence of the value and touches no other entry |
| LeaseTheorems.StaleWorkerFenced | app/core/job_queue.py:182-208 | settling a stale lease leaves another lease's entry untouched if and only if the two leases differ |
| LeaseTheorems.ReleasedJobFenced | app/core/job_queue.py:160-208 | reclaimed and leased again at another time, a job's new lease survives the old worker's ack, retry or fail |
| Fencing.CoveredStep | app/core/job_queue.py:160-296 | every step keeps an entry in processing for each holder of a lease that is not stale |
| Fencing.LeasesInTimeAreFenced | app/core/job_queue.py:160-296 | over all runs, with no assumption about time, processing holds at least as many entries of a lease in time as workers holding it, whatever late workers do |
| NoLoss.ConservedExec | app/core/job_queue.py:142-329 | every single Redis command keeps all unacknowledged ids in a structure or a hand |
| NoLoss.NoJobLost | app/core/job_queue.py:142-329 | over all interleavings of commands the ids present or acknowledged are exactly the ids enqueued |
| CommandExclusivity.OnceStep | app/core/job_queue.py:142-329 | every single command keeps "one place per id": one entry of a structure, one hand, or one acknowledgement |
| CommandExclusivity.OneEntryPerId | app/core/job_queue.py:160-263 | over all interleavings of commands in which reclaimers spare popped entries and running handlers, each id has one entry until acknowledged and none after, and no two running handlers share a job |
| CommandExclusivity.TwoHandlersWithout | app/core/job_queue.py:167-177 | without any one of the clauses some run that keeps the others ends with two handlers of one job; for the entry not yet stamped, with no time passing and no death |
| CommandExclusivity.ExclusiveIff | app/core/job_queue.py:245-261 | after any run that keeps the clauses, a command leaves handlers exclusive for all runs to come if and only if it is no LREM of an entry not yet stamped or of a running handler |
| CommandTiming.OneClockIsTimely | app/core/job_queue.py:245-257 | one clock that never runs backwards, with handlers inside their visibility timeout, makes a run timely |
| CommandTiming.OneEntryInTime | app/core/job_queue.py:160-263 | over every timely run in which reclaimers spare entries not yet stamped, running handlers are spared too, each id has one entry until acknowledged, and no two handlers share a job |
| CommandTiming.OnlyGap | app/core/job_queue.py:167-177 | after any such run a command leaves handlers exclusive for all runs to come if and only if it takes no entry not yet stamped |
| CommandTiming.GapInTime | app/core/job_queue.py:167-177 | that gap is open with one clock and all handlers in time: a run ends with two handlers of one job |
| PasswordReset.PasswordResetService.CreateTokenAndSendEmail | app/services/password_reset_service.py:104-183 | outcome and whole new state of one undisturbed run; a token appears exactly when the job is new, the user active and the mail delivered |
| PasswordReset.PasswordResetService.ConfirmPasswordReset | app/services/password_reset_service.py:186-248 | accepted exactly for an unused, unexpired token of an active user; the user gets the new password and the next version and no other account changes; then all open tokens of the user are used, unless the process stops in between |
| PasswordReset.ConfirmedTokensAreSpent | app/services/password_reset_service.py:223-233 | after a confirmation none of the user's tokens is accepted at any time, and other users' tokens as before |
| PasswordReset.InterruptedTokensStayOpen | app/services/password_reset_service.py:223-233 | a stop between the two commits leaves every token as acceptable as before |
| TokenRuns.ConfirmedIsReset | app/services/password_reset_service.py:223-224 | a confirmed reset changes the users of the token runs as `ResetPassword` does |
| PasswordReset.CommitStep | app/services/password_reset_service.py:162-177 | the commit keeps "completed exactly when a token of the job was committed, once" |
| PasswordReset.TokenCommittedOnce | app/services/password_reset_service.py:89-177 | over all interleavings and marker expiries at most one token per job id is committed, and a marker implies a completion row |
| ResetEmails.AtMostOneEmail | app/services/password_reset_service.py:104-177 | over every run a job sends at most one e-mail if its handlers do not overlap, none dies between e-mail and commit, and none finds its hash taken |
| ResetEmails.SecondEmailWithout | app/services/password_reset_service.py:143-177 | whichever of the three is dropped, some run that keeps the other two sends two e-mails |
| ResetEmails.NoFurtherEmailIff | app/services/password_reset_service.py:110-177 | from a reachable state no further e-mail can follow if and only if the completion row is there and no handler is between its row check and its e-mail |
| ResetAlone.HandlerAlone | app/services/password_reset_service.py:104-183 | run without interference, the handler's statements give the outcome, rows, completions and markers of `CreateTokenAndSendEmail` |
| WebhookSecurity.ParseDecimal | app/core/webhook_security.py:46-47 | reading a decimal gives the number that was written |
| WebhookSecurity.ParseIntText | app/services/webhook_service.py:79-81 | a timestamp header written as an integer is read back as that integer, sign included |
| WebhookSecurity.ParseDigitsIff | app/services/webhook_service.py:79-81 | an integer text is read exactly when it is made of digits and single underscores between digits |
| WebhookSecurity.ParseIntAround | app/services/webhook_service.py:79-81 | whitespace around the number and a sign before it are read as such |
| WebhookSecurity.MessageBytes | app/core/webhook_security.py:21-22 | the signing message is the timestamp's characters, a dot and the body, byte by byte |
| WebhookSecurity.SigningMessageInjective | app/core/webhook_security.py:21-22 | no two (timestamp, body) pairs share a signing message |
| WebhookSecurity.MatchStripeExact | app/core/webhook_security.py:11-14 | the combined header matches exactly the texts of the pattern, with unique groups |
| WebhookSecurity.StripBetween | app/core/webhook_security.py:43 | stripping takes the whitespace around a header, all of it and nothing else |
| WebhookSecurity.ParseHeaderIff | app/core/webhook_security.py:42-55 | a header is read as the groups of the combined form or else as a whole, in lower case, and refused only with a timestamp and no signature |
| WebhookSecurity.AcceptedIff | app/core/webhook_security.py:72-102 | a delivery is accepted for a time exactly when a secret is set, its headers name that time, the clock is within the tolerance of it, and its signature is the digest of the message; and exactly when the comparison raises |
| WebhookSecurity.PlainHeader | app/core/webhook_security.py:42-55 | a bare digest is read as a signature without timestamp |
| WebhookSecurity.StripeHeader | app/core/webhook_security.py:42-55 | a combined header yields its timestamp and digest |
| WebhookSecurity.VerifiedMeansSigned | app/core/webhook_security.py:72-102 | acceptance means the presented signature is the digest of a message inside the window |
| WebhookSecurity.SignatureBindsMessage | app/core/webhook_security.py:72-102 | one accepted signature stands for one timestamp and one body |
| WebhookSecurity.SignThenVerify | app/core/webhook_security.py:33-102 | a sender's own signature is accepted, in both header forms, exactly while the clock is within the tolerance |
| Webhooks.Ingress.BeginIdempotentRequest | app/services/idempotency_service.py:113-127 | cached answer, lock, or refusal, and the lock taken only in the second case |
| Webhooks.Ingress.StoreResponse | app/services/idempotency_service.py:65-97 | a new record, else the stored one while unexpired, else failure |
| Webhooks.Ingress.PersistWebhookEvent | app/services/webhook_service.py:24-47 | inserted exactly when the (provider, event_id) is not on file |
| Webhooks.Ingress.InboundWebhook | app/api/routes/webhooks.py:44-111 | which reply each request gets and what it leaves in the two tables, every check and boundary written out; the locks are as before on every path |
| Webhooks.Ingress.CleanupExpiredRecords | app/services/idempotency_service.py:130-140 | exactly the records past their expiry go, so no lookup changes; the count is exact |
| Webhooks.Ingress.CleanupOldEvents | app/services/webhook_service.py:50-63 | exactly the rows more than the retention days old go; the count is exact |
| Webhooks.RetryGetsFirstAnswer | app/api/routes/webhooks.py:54-58 | until its record expires, every later request under a key gets the first answer and changes nothing |
| Webhooks.FiledEventIsDuplicate | app/api/routes/webhooks.py:72-108 | a new answer is "duplicate" exactly when the event was on file, under whatever key |
| Webhooks.FailsOverExpiredRow | app/services/idempotency_service.py:84-91 | a request past all checks fails exactly when its key has an expired row not yet cleaned up, its event filed all the same |
| WebhookRuns.BooksStep | app/services/webhook_service.py:24-63 | every step keeps: one row per event, rows deleted only after retention, a second row only after the first was deleted |
| WebhookRuns.ClaimsStep | app/api/routes/webhooks.py:72-106 | every step keeps: each "accepted" response has an event row of its own |
| WebhookRuns.AnswersStep | app/services/idempotency_service.py:52-97 | every step keeps: an unexpired answer is what the table holds, and answers under one key agree |
| WebhookRuns.AcceptedOncePerRow | app/api/routes/webhooks.py:54-111 | whatever the locks do, two "accepted" responses for one event stand for two rows, the earlier one deleted after its retention |
| WebhookRuns.AcceptedOnceWhileRetained | app/api/routes/webhooks.py:54-111 | with no row deleted, an event is accepted at most once under any keys and interleaving |
| WebhookRuns.SameAnswerUntilExpiry | app/services/idempotency_service.py:52-97 | two answers under one key, the second before the first one's row expires, are the same stored response |
| WebhookRuns.LoserGetsAnswer | app/services/idempotency_service.py:119-127 | a request that finds its key locked and then an unexpired answer gets that answer, otherwise it is refused |
| WebhookAlone.AloneIsHandled | app/api/routes/webhooks.py:44-111 | run without interference, the statements one by one give the tables, locks and answer of the whole request |
| WebhookAlone.DeadRequestBlocksKey | app/services/idempotency_service.py:36-50 | a request that dies blocks its key until the lock expires; then the next one is handled as if the first had never been |
| WebhookAlone.CleanedKeyAnswersAgain | app/services/idempotency_service.py:130-140 | the cleanup of an expired record lets its key be answered again |
| WebhookReplay.TwoRowsNeedTime | app/services/webhook_service.py:50-63 | two event rows for one signature need its window to be open longer than a row is kept |
| WebhookReplay.SignatureAcceptedOnce | app/core/webhook_security.py:72-102 | over all prompt runs no signature gets a second event row, if the window closes before the row can go |
| WebhookReplay.SignatureAnsweredOnce | app/api/routes/webhooks.py:96-108 | and no two stored "accepted" responses ever go back to one signature |
| WebhookReplay.ReplayPossible | app/services/webhook_service.py:50-63 | otherwise some prompt run accepts one delivery twice, with two stored "accepted" responses |
| WebhookReplay.AcceptedOnceIff | app/services/webhook_service.py:50-96 | once for ever, in rows and in responses, if and only if the window closes first; at one clock reading, retention > 2 * tolerance |
| LikeSearch.EscapeIsCharacterwise | app/services/user_service.py:35-40 | the three replacements in sequence equal one character-wise escape |
| LikeSearch.TokensOfEscaped | app/services/user_service.py:35-40 | an escaped text is read by LIKE as that text, literally |
| LikeSearch.PrefixSearch | app/services/user_service.py:43-49 | the prefix pattern matches exactly the texts that start with the search text, case aside |
| LikeSearch.ContainsSearch | app/services/user_service.py:43-49 | the contains pattern matches exactly the texts in which it occurs, case aside |
| UserListing.BeforeOrder | app/services/user_service.py:206-222 | (column, id) is a strict total order in either direction |
| UserListing.OrderBySorts | app/services/user_service.py:248-252 | ordering lists every row once, strictly in order |
| UserListing.AscendingUnique | app/services/user_service.py:248-252 | an ordered list is determined by its members |
| UserListing.PageWritten | app/services/user_service.py:148-274 | the cursors of other queries are refused and no others; a page is the slice of, or what follows its cursor in, the list of exactly the rows of the tenant, role and activity asked for whose e-mail address starts with or contains the search text, case aside, ordered by the column's text, number or flag and then by id; a full page names its last row |
| KeysetPaging.CursorAcceptedIffSameFilters | app/services/user_service.py:80-145 | an emitted cursor is accepted exactly by queries with the same sort, direction and filters |
| KeysetPaging.FetchIsPage | app/services/user_service.py:193-262 | a page is in order, within the limit, and skips no later row |
| KeysetPaging.WalkAscends | app/services/user_service.py:52-108 | on changing tables the rows of a walk are strictly in order |
| KeysetPaging.KeptRowAhead | app/services/user_service.py:52-73 | a row that keeps its key and membership is returned already or still ahead of the cursor |
| KeysetPaging.KeysetWalkStable | app/services/user_service.py:52-108 | under arbitrary changes between pages of any sizes a finished walk returns each kept row exactly once and no key twice |
| KeysetPaging.CursorPageIsSlice | app/services/user_service.py:206-262 | a cursor page equals the offset page at the same place |
| KeysetPaging.AnyWalkIsListing | app/services/user_service.py:206-262 | on a fixed table a finished walk with pages of any sizes returns the whole sorted listing |
| KeysetPaging.KeysetWalkIsListing | app/services/user_service.py:206-262 | on a fixed table page k is slice [kL, (k+1)L), the walk takes n / L + 1 pages and returns the whole listing |
| KeysetPaging.WalkCanBeFinished | app/services/user_service.py:206-262 | every walk over a fixed table can be carried to its last page |
| UserDirectory.Directory.GetUsers | app/services/user_service.py:148-274 | cached and unexpired or not, the page is what the committed table gives, with the rows and the order that were asked for; a new entry lives for the configured time |
| UserDirectory.Directory.InvalidateUsersListCache | app/services/user_service.py:312-313 | one tenant's version grows by one, no other tenant's changes |
| UserDirectory.Directory.FindUser | app/services/user_service.py:324-329 | the row with this id in this tenant, or proof that there is none |
| UserDirectory.Directory.CommitUserMutation | app/api/routes/users.py:57-74 | what was flushed is committed, the tenant's version bumped, and no current cache entry is wrong afterwards |
| UserDirectory.Directory.UpdateUser | app/services/user_service.py:332-357 | exactly the named row changes, in exactly the fields that are set, the version only with the role; a null or an e-mail taken in the tenant rolls back; with or without commit the cache stays coherent |
| UserDirectory.Directory.DeactivateUser | app/services/user_service.py:371-393 | the row becomes inactive with a new token version, committed and announced or only flushed, and the cache stays coherent |
| UserDirectory.Directory.ActivateUser | app/services/user_service.py:396-417 | the row becomes active with its version kept, committed and announced or only flushed, and the cache stays coherent |
| UserDirectory.Directory.IncrementUserTokenVersion | app/services/user_service.py:316-321 | one row's version grows by one, and the cache stays coherent |
| UserDirectory.Directory.DeleteUser | app/services/user_service.py:360-368 | exactly that row goes, committed and announced or only flushed, and the cache stays coherent |
| UserDirectory.OtherTenantsUnaffected | app/services/user_service.py:193 | changing a row changes no other tenant's page |
| UserDirectory.DeletionElsewhere | app/services/user_service.py:193 | deleting a row changes no other tenant's page |
| CacheCoherence.InvStep | app/services/user_service.py:164-184 | every step keeps: a cached, pending or returned page is what a committed state recent enough for its version showed to the caller who queried it, whose row was committed when loaded |
| CacheCoherence.OtherRowsAsCommitted | app/services/user_service.py:217-262 | a queried page differs from the committed one in the caller's row at most, and not at all exactly when that row is not on it or is as loaded |
| CacheCoherence.NeverOlderThanInvalidation | app/core/cache.py:12-84 | a reader whose version read follows a writer's increment gets the page of a database state no older than that writer's commit, as shown to the caller who queried it, whose own row some committed state had at authentication |
| CacheCoherence.AsCommittedIff | app/api/dependencies/auth.py:54-58 | over every run, a returned page is its state's page if and only if the row of the caller who queried it was not on it or had not changed since authentication; every other row always is |
| CacheCoherence.StaleRowOfCaller | app/api/dependencies/auth.py:54-58 | a run in which a reader authenticated after the commit and the increment gets another caller's row from before them |
| CacheCoherence.ReaderAlone | app/services/user_service.py:164-274 | a reader with no other step in between is served from the cache or by the committed state, and then the page is in the cache |
| CacheCoherence.WriterAlone | app/api/routes/users.py:57-74 | a writer with no other step in between leaves its rows committed and the version raised by one |
| RefreshTokens.AuthService.RevokeRefreshToken | app/core/redis.py:43-60 | time to live from the expiry second; zero or less refuses a claim; NX refuses a live key |
| RefreshTokens.DecodePresentedIff | app/services/auth_service.py:107-141 | a token with all its claims decodes as they do, and nothing else gets past decoding and the user id |
| RefreshTokens.AuthService.RotateRefreshToken | app/services/auth_service.py:81-99 | with separate clock readings for check, time to live, key and pair: succeeds exactly for a complete, unexpired, unrevoked refresh token of a present and active user of the same version in an active tenant, whose time to live is read before its expiry second; new keys and tokens, or the first failing check |
| RefreshTokens.AccessAcceptedIff | app/api/dependencies/auth.py:33-66 | an access token is let in exactly before its expiry second is over, for a present and active user of its tenant and version, the tenant active |
| RefreshTokens.AuthService.LogoutUser | app/services/auth_service.py:102-104 | a decodable token gets a key that lives to its expiry second, unless it has reached it |
| RefreshTokens.KeyOutlivesToken | app/core/redis.py:49-60 | a revocation key lives at least until the token's expiry second |
| RefreshTokens.SecondClaim | app/core/redis.py:49-57 | the exact condition under which a second claim could succeed; impossible within one second |
| TokenRuns.SpentClaimIff | app/services/auth_service.py:85-86 | a claim of a spent token succeeds exactly when its time to live was read before expiry and the earlier key is gone, which takes a claim that straddles the expiry second |
| TokenRuns.InvStep | app/services/auth_service.py:64-127 | spent tokens stay refused and each login keeps one head, over every step but such a claim |
| TokenRuns.RotatedOnceIff | app/services/auth_service.py:81-104 | over every run, each token rotates at most once and never after its logout if and only if no such claim is made |
| TokenRuns.RotatedOnceIffNoLag | app/core/redis.py:49-57 | with a bound on the time from a claim's clock reading to its SET, every run rotates each token at most once if and only if the bound is zero |
| TokenRuns.RotatedAtMostOnce | app/services/auth_service.py:81-104 | in particular when no claim straddles the expiry second of its token |
| TokenRuns.StraddlingClaimRotatesTwice | app/core/redis.py:49-57 | a run in which one claim whose SET comes a microsecond late rotates a token a second time |
| TokenRuns.OneUsableTokenPerLogin | app/services/auth_service.py:64-104 | under the exact condition for single rotation, each login has at most one usable refresh token at any time |
| TokenRuns.VersionsGrowOverRuns | app/services/user_service.py:316-393 | over whole runs no user's token version falls |
| TokenRuns.OlderVersionsRefusedForever | app/api/dependencies/auth.py:33-66 | tokens older than such a change are refused as access and as refresh tokens in every later state |
| TokenRuns.InactiveUserRefused | app/services/auth_service.py:145-159 | in every state in which a user is gone or inactive, or its tenant not active, no access token of that user is let in and no rotation passes the loading of the user |
| TokenRuns.ShutOutAtOnce | app/api/dependencies/auth.py:54-66 | deleting or deactivating a user, or deactivating the tenant, shuts out all of the user's access tokens at once |
| TokenRuns.InFlightMintIsStale | app/services/auth_service.py:88-97 | a rotation or login in flight across the change issues tokens that are refused at once |
| TokenAlone.RotationAlone | app/services/auth_service.py:81-99 | run without interference, the steps of a rotation have the effect of `RotateRefreshToken` |
| TokenAlone.LogoutAlone | app/services/auth_service.py:102-104 | run without interference, the steps of a logout have the effect of `LogoutUser` |
| RateLimit.RateLimiter.EnforceRateLimitCounter | app/api/dependencies/rate_limit.py:16-38 | the first call of a lifetime is let through and sets the key to expire one window after its EXPIRE, later ones are counted and let through within the limit; the calls so far are a run of the machine, so no window admits more than twice the limit |
| RateLimit.AdmittedOfOneLife | app/api/dependencies/rate_limit.py:23-38 | one lifetime of the key admits exactly the first min(limit, calls) calls |
| RateLimit.NeighbouringLives | app/api/dependencies/rate_limit.py:23-26 | calls at most a window apart are in the same lifetime of the key or in neighbouring ones |
| RateLimit.SlidingWindowBound | app/api/dependencies/rate_limit.py:16-38 | no interval of at most one window admits more than twice the limit, however late each EXPIRE comes |
| RateLimit.LivesEnd | app/api/dependencies/rate_limit.py:23-26 | a lifetime lasts from one window to one window and the lag of its EXPIRE, and a caller who waits that long is the first of a new one |

## Left out

- PasswordReset.PasswordResetService.ConfirmPasswordReset: concurrent confirmations are not modelled, the code promises nothing there.
- PasswordReset.TokenCommittedOnce: tokens committed without a job id are not limited, as in the code.
- UserDirectory.Directory.GetUsers: other processes between its steps are in `CacheCoherence`, which evicts entries at any time instead of counting their time to live.
- WorkerLoop.RunWorker: scheduled database maintenance, signal handling, metrics and the grace period at shutdown are not modelled; the interleaving with other processes is in `Leases` and `NoLoss`.
- Webhooks.Ingress.InboundWebhook: hashing of the idempotency key, the ingress rate limit and the JSON schema are parameters or come before the modelled part.
- WebhookSecurity.VerifyTimestamped: header texts are Latin-1; integers of more than 4300 digits, which Python refuses to read, are not modelled.
- Death of a process between two Redis commands of one queue function, where the code makes no promise.
- Lost updates of `token_version` by overlapping transactions: each change of a user is one serial transaction.
- Redis failures: a version read that falls back to 0, eviction of the version key, and the limiter's 503 answer.
- Database collations: text columns compare by code point; any strict total order would do.
- `requeue_job` and `list_failed_jobs`, which add nothing to the other queue functions.
- The header that selects a tenant when an access token is checked; an active tenant is a member of a set.
- bcrypt, hashing, JWT encoding, SMTP, uploads, malware scanning, object storage, permissions, tenants, audit log, metrics, middleware and settings validation.
