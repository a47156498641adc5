# Verified model of the job dispatch platform

The platform transcodes video. Clients create jobs in PostgreSQL, an outbox relay publishes a dispatch message
for each, RabbitMQ delivers the messages to workers, and a worker claims its job under a lease, renews the lease
while ffmpeg runs, and reports a result with logs. A reaper takes jobs back from workers that fell silent. No
single component guarantees that a job is run at most `max_attempts` times, that none is forgotten, or that a
stale worker cannot spoil a newer attempt: claiming ignores `max_attempts`, a late result is accepted without
looking at the worker id, the attempt in a message is never checked, and messages may come twice or late. These
guarantees are invariants over everything the parties may do together, and they are what this project proves.

## Layout

The protocol is modelled twice.

* As values: `Types`, `Transactions` (each store transaction as a function on the tables) and `System`, a
  labelled transition system over tables, open relay batches, queues, unacknowledged deliveries, leases and HTTP
  requests in flight. A label names the party that moves and every choice of the environment; a run is a sequence
  of labels. Handlers that read and then write are split, so that anything may happen in between: `createJob` is
  `Lookup` then `Insert`, `workerJobResult` is `ResultStart`, `ResultUpload`, `ResultFinish`, a relay tick is
  `Open`, one publish a row, `Commit` or `Rollback`. Workers crash, replies get lost, relays die with a batch open,
  claims arrive after their handler gave up. The state keeps which leases are open, that is, whose handler may still
  report. A worker reports once a claim; a client that sends a result repeatedly is a label of its own (`again`), which
  everything about safety allows for and everything about what can still happen leaves out.
* As the mutable objects they are: `StoreAccess` (the store and its outbox transaction), `Processes` (the relay's
  and the reaper's tick), `Handlers` (scheduler endpoints and the consumer) and `ParallelConsumer` (the slots).
  Store methods equal the transaction functions; ticks and handlers end exactly where some run of the transition
  system ends, so what is proved about runs holds for them. Apart from that, every method says column by column what it
  leaves in the tables, in terms of `Effects` and `RelayTick`, which name none of the functions above.

`Frames` and `JobMoves` reduce every step to at most one of seven moves of a single job. On these rest
`JobLifecycle`, `Fencing`, `OutboxRelay`, `NoLostDispatch`, `MessageFlow`, `Creation`, `Reaping`, `Deadlines`,
`Recovery`, `DeadLetters` and `Origins`. `Scenarios` holds the runs that show exceptions to be real, and `Renewals` decides which
settings of the worker's renewal loop are good enough, over all runs.

`Arguments` is the quote-aware argument splitter. `StorageKeys`, `JsonText`, `LineScanner`, `JobLogs` and
`LogMerge` are the path of log lines through object storage and back; `Joining` and `Sorting` serve them.

## What turned out differently from what one would hope

* A dispatch can be forgotten. If the claim for a message fails with something other than a conflict, the message goes
  to the dead-letter queue, nothing reads that queue, and the job stays DISPATCHED for ever, be it a first dispatch or
  a retry. `DeadLetters.CanEndUnlessForgotten` says exactly when a job can still end: unless it is DISPATCHED, its rows,
  messages, deliveries and claims are gone, and its last claimer will not report success any more.
  `Scenarios.ForgottenJobsExist` gives, in every deployment and after any number of attempts below the limit, a run
  that strands a job.
* Two lost renewals in a row are not always survived. The worker renews after a third of its lease, but never
  sooner than 30 seconds, while the scheduler cuts the lease to whole seconds.
  `Renewals.TwoLossesSurvivedExactly` gives the settings under which every run of such a worker keeps its job; under
  all others a run is built in which the reaper takes it. `Renewals.FirstRenewalInTimeExactly` does the same for
  workers whose every renewal gets through.
* The log check of `FinishJob` can fail, but only for a result that comes after a later attempt completed the job
  (`Fencing.LogCheckFailsExactly`); an accepted result never trips it. `Scenarios.LogCheckDoesFail` is a run in which
  it does.
* Rows of the outbox are published by `created_at`, which is when their transaction began, so a later id may go first
  (`Scenarios.LaterIdComesFirst`).
* Upload accepts log lines of any length, reading them back gives up at 1 MiB. `LogMerge.LogsRoundTrip` holds for
  all logs with that case spelled out, and `LogMerge.LongLineSpoilsJob` shows that one such line makes all logs of
  its job unreadable. Logs with only empty lines are refused, so such a result never reaches `FinishJob`.
* `splitArgs` drops empty arguments, so it undoes quoting if and only if no argument is empty.
* `LogObjectKey` is injective for all ids, not only for ids without a slash.

## Model

| member | source | states |
|---|---|---|
| `JobMoves.StepMovesJob` | internal/store/claim.go:13-41 | any step of any party changes a job by one of seven moves at most, and only claiming issues a generation |
| `JobMoves.FinishJobMoves` | internal/store/jobs.go:51-141 | a success completes its own job, a failure returns or exhausts it, or the result changes no job; every other job is left alone |
| `JobMoves.ReapMoves` | internal/store/reaper.go:82-112 | reaping returns or fails each listed job once and touches no other |
| `JobLifecycle.AttemptBudget` | internal/store/claim.go:19-30 | in every reachable state attempt equals generation and stays within max_attempts by status, though claiming never checks it |
| `JobLifecycle.RowsAreConsistent` | db/migrations/000001_init.up.sql:17-31 | lease, worker, start and end columns of every reachable row agree with its status and attempt |
| `JobLifecycle.OutboxConservation` | internal/store/outbox.go:27-34 | the rows of a job carry attempts 0, 1, 2 … once each in order, main for 0 and retry after, and their number follows from the job row |
| `JobLifecycle.TerminalIsFinal` | internal/store/jobs.go:79-96 | after COMPLETED or FAILED no run changes the row or adds an outbox row |
| `JobLifecycle.LeftoverMessageConflicts` | internal/worker/consumer.go:41-48 | a message for an ended or missing job is decided as a conflict, changes no table and may be acknowledged |
| `JobLifecycle.JobsGrow` | internal/store/jobs.go:98-134 | over any run jobs are never deleted, attempts, generations and outbox histories only grow, the request and the first start never change |
| `JobLifecycle.ChangesArePaid` | internal/store/reaper.go:82-112 | every status change is paid for out of a potential that never goes below zero |
| `JobLifecycle.StatusChangesBounded` | internal/store/store.go:93-115 | a job changes status at most 2 * max_attempts + 1 times in any run |
| `Fencing.ClaimIssuesNextGeneration` | internal/store/claim.go:19-30 | a claim either changes nothing or issues a generation nobody had |
| `Fencing.GenerationIssuedOnce` | internal/store/claim.go:25-25 | a generation keeps its one worker over every further run |
| `Fencing.IssuedGenerations` | internal/store/claim.go:25-29 | the generations issued for a job are exactly 1 up to the current one |
| `Fencing.StaleLeaseIsFenced` | internal/store/jobs.go:26-34 | after a re-claim no renewal or result with an older generation changes jobs or outbox, whatever happens in between |
| `Fencing.OnlyLastClaimerFinishes` | internal/store/jobs.go:86-96 | an accepted result, late or not, comes from the worker that got the current generation |
| `Fencing.AcceptedResultPassesLogCheck` | internal/api/server.go:503-528 | the attempt read before the upload is the one FinishJob sees whenever it accepts |
| `Fencing.LogCheckFailsExactly` | internal/store/jobs.go:178-184 | the attempt check fails exactly for uploads of an older attempt of a completed job |
| `Fencing.RefusedRenewalIsFinal` | internal/worker/worker.go:133-153 | once a renewal is refused, in no continuation is a renewal of that lease by its holder accepted, or a failing result under it from any worker effective |
| `Fencing.FailingFinishOnce` | internal/store/jobs.go:109-134 | a failing result takes effect at most once per generation, however often it is sent |
| `Fencing.JoinLosesNoOrphan` | internal/store/reaper.go:34-43 | every RUNNING job has a lease and a registered worker, so the reaper's inner join drops none |
| `Fencing.ArtifactsNameStoredObjects` | internal/store/jobs.go:178-195 | every artifact row names an object that was stored for that job and an attempt that was made |
| `OutboxRelay.PublishedRowsWereSent` | internal/outbox/relay.go:101-128 | a row counts as published only after its own message was accepted on its own route |
| `OutboxRelay.OpenBatchesAreDisjoint` | internal/store/outbox.go:62-68 | no row is in two open batches, and no row of an open batch is published |
| `OutboxRelay.BatchIsOldestPrefix` | internal/store/outbox.go:62-68 | a batch is in order of created_at and then id, and omits a free unpublished row only when it is full of rows before it in that order |
| `Scenarios.LaterIdComesFirst` | db/migrations/000005_rabbit_dispatch.up.sql:8-17 | created_at is the beginning of the transaction, so some run gives a later id an earlier place in the order |
| `NoLostDispatch.NoDispatchIsLost` | internal/queue/rabbit.go:125-162 | every DISPATCHED job has a pending row, a message in main or retry, an undecided delivery, or a dead letter for its attempt |
| `NoLostDispatch.OnlyFailedClaimsStrand` | internal/worker/consumer.go:41-48 | unless a claim for that message failed with no conflict, the dead-letter case does not occur |
| `MessageFlow.MessagesAreConserved` | internal/queue/rabbit.go:252-291 | copies sent equal copies in main, retry, with consumers, dead-lettered and acknowledged; no worker has more than its prefetch |
| `MessageFlow.QueueStepMoves` | internal/queue/rabbit.go:128-165 | expiry takes a message from retry to main, a nack takes it to the dead letters, an ack out, a lost consumer back to main |
| `Creation.OneJobPerKey` | db/migrations/000004_job_exec_safety.up.sql:8-8 | at most one job ever has a given idempotency key, however lookups and inserts interleave |
| `Creation.RepliesAgree` | internal/api/server.go:248-287 | all successful responses for one key name the same job, at any two points of a run |
| `Creation.RaceLoserIsRefused` | internal/api/server.go:264-280 | of two requests past the lookup with one key, the second insert is refused and writes nothing |
| `Creation.KnownKeyIsAnswered` | internal/api/server.go:243-254 | a request under a key that some job carries is answered with that job and never inserts |
| `Creation.InsertEffect` | internal/store/outbox.go:190-226 | the insert of a split creation leaves a job as asked for with its dispatch row and perhaps a reply, or nothing if id or key is taken |
| `Creation.SubmitUploadEffect` | internal/store/store.go:82-117 | a NEW job is dispatched with its row, any other is left alone |
| `Origins.JobsHoldWhatWasAsked` | internal/store/outbox.go:190-226 | in every reachable state each job holds the paths, preset, arguments, storage, duration, key and attempt limit of the very request that made it, with 3 attempts if none were asked for |
| `Origins.ClaimReturnsWhatWasAsked` | internal/store/claim.go:13-41 | whoever wins a claim, after any run, gets the job as its request asked for it |
| `Origins.LogRowsAreUploads` | internal/store/jobs.go:178-194 | in every reachable state the log rows are exactly those recorded by accepted results, each with the key, bytes and lines of that result's own upload, and no others |
| `Reaping.ReapIsSetUpdate` | internal/store/reaper.go:81-112 | the loop equals one set-level update of jobs plus one retry row for each retried job |
| `Reaping.RetryRowsCount` | internal/store/reaper.go:98-111 | the retry rows number the jobs with budget left |
| `Reaping.SecondReapFindsNothing` | internal/store/reaper.go:34-43 | after a reap no orphan is left under the same now |
| `Reaping.ReapOrderIrrelevant` | internal/store/reaper.go:34-43 | the jobs, and the number of rows, do not depend on the order the select lists them in |
| `Deadlines.OnTimeWorkerKeepsJob` | internal/reaper/reaper.go:98-110 | a worker whose last renewal and heartbeat are recent enough whenever a reaper acts keeps its job RUNNING under its lease in any run |
| `Deadlines.PromptWorkerKeepsJob` | internal/worker/worker.go:92-154 | so does, in every run, a worker whose renewals are never more than the lease apart and its heartbeats never more than WorkerTimeout |
| `Deadlines.ClaimStartsWork` | internal/store/claim.go:19-30 | a claim by an ACTIVE worker starts such work, the lease counted from the claim |
| `Deadlines.DeadWorkerClaimsInVain` | internal/store/claim.go:19-30 | a DEAD worker may claim, but the job is an orphan at once under any now |
| `Deadlines.SilentWorkerLosesJob` | internal/reaper/reaper.go:97-117 | a worker not heard for longer than WorkerTimeout holds no lease after the next reaper tick, whatever is left of the lease and whatever happens between the two steps of the tick |
| `Renewals.SurvivesExactly` | internal/worker/worker.go:133-154 | a worker that renews at the ticks of its interval and loses at most so many renewals in a row keeps its job in all runs if and only if the tick after that is within the lease |
| `Renewals.TwoLossesSurvivedExactly` | internal/worker/worker.go:55-60 | in all runs two lost renewals in a row cost no job, if and only if the lease is under a second, or at least 90 s with its sub-second rest no more than its rest modulo 3 ns |
| `Renewals.FirstRenewalInTimeExactly` | internal/worker/worker.go:55-60 | in all runs a worker that loses no renewal keeps its job, if and only if the lease is under one second or at least 30 |
| `Recovery.FaultFreeTick` | internal/outbox/relay.go:101-128 | a tick without a fault enqueues every message of its batch, marks exactly its rows and leaves no batch open |
| `Recovery.LiveJobsCanBeFinished` | internal/store/reaper.go:33-118 | from every reachable state a live job is ended by one fresh worker, relay and reaper tick, in a number of steps bounded by the state |
| `DeadLetters.ForgottenForEver` | internal/queue/rabbit.go:138-147 | a forgotten job stays as it is in every run in which no old result is sent again |
| `Scenarios.ForgottenJobsExist` | internal/worker/consumer.go:43-48 | in every deployment and for every number of attempts below the limit, some run strands a job after so many attempts |
| `Scenarios.LogCheckDoesFail` | internal/store/jobs.go:178-184 | some run answers an old result with the attempt mismatch |
| `DeadLetters.CanEndUnlessForgotten` | internal/worker/consumer.go:41-58 | in every reachable state a job can still end, each handler reporting at most once, if and only if it is not forgotten |
| `StoreAccess.Store.ClaimJob` | internal/store/claim.go:13-41 | claimable jobs go RUNNING to the worker, with next attempt and generation and the lease in whole seconds; the two refusals change nothing |
| `StoreAccess.Store.RenewLease` | internal/store/jobs.go:20-45 | only the lease end moves, under job, worker, status and generation, else the lease is lost |
| `StoreAccess.Store.FinishJob` | internal/store/jobs.go:51-141 | who may finish; a success completes the job, a failure fails it on the last attempt and else dispatches it with one retry row; the log row has the key, bytes and lines it was given; a refusal changes nothing |
| `StoreAccess.Store.CreateJob` | internal/store/store.go:57-79 | one more row, which holds spec, key, limit and time as given, under a new id and key, or a uniqueness violation and no change |
| `StoreAccess.Store.CreateAndDispatch` | internal/store/outbox.go:190-226 | such a job and its first outbox row together or not at all |
| `StoreAccess.Store.QueueJob` | internal/store/store.go:82-117 | a NEW job becomes DISPATCHED with its row, any other is refused |
| `StoreAccess.Store.RegisterWorker` | internal/store/store.go:133-155 | the worker is ACTIVE and heard just now, no other changes |
| `StoreAccess.Store.Heartbeat` | internal/store/store.go:158-175 | a known worker, dead or not, is ACTIVE and heard just now; an unknown one is refused |
| `StoreAccess.Store.MarkStaleWorkersDead` | internal/store/reaper.go:17-29 | a worker is DEAD afterwards if and only if it was, or was last heard before the cutoff; heartbeats stay, and the result counts the changed rows |
| `StoreAccess.Store.SelectOrphans` | internal/store/reaper.go:34-79 | every orphan once, in some order, with its current attempt numbers |
| `StoreAccess.Store.ReapOrphanJobs` | internal/store/reaper.go:33-118 | every job with a dead worker or a lease that has run out is given up and no other row changes; retried plus failed is their number, the outbox grows by the retry rows, and no orphan is left |
| `StoreAccess.Store.ClaimOutboxBatch` | internal/store/outbox.go:53-93 | the batch is the first unlocked unpublished rows by created_at and id, and exactly these get locked |
| `StoreAccess.Store.MarkOutboxPublishedTx` | internal/store/outbox.go:96-110 | an existing row is marked inside the transaction, a missing one reported |
| `StoreAccess.Store.MarkOutboxPublishError` | internal/store/outbox.go:161-165 | only the error column of the row changes |
| `StoreAccess.OutboxTx.Commit` | internal/store/outbox.go:45-50 | the marks become visible and the locks go |
| `StoreAccess.OutboxTx.Rollback` | internal/store/outbox.go:45-50 | the locks go, the marks with them |
| `Processes.Rabbit.Publish` | internal/queue/rabbit.go:180-207 | a message goes to the queue of its target unless the publish is refused; an error may still have enqueued it |
| `Processes.Relay.PublishAll` | internal/outbox/relay.go:111-123 | after the loop tables, broker and batch are where a run of the system is; only a failing mark ends it early, and the error is nil if and only if every entry went well |
| `Processes.Relay.Tick` | internal/outbox/relay.go:100-128 | a row of the batch is published if and only if its own publish was accepted, no mark failed and the commit took effect; refused and ambiguous rows keep an error; all other rows stay; the queues gain exactly the messages tried and not refused; it is a run of the system, leaves no lock, and returns nil if and only if all is confirmed |
| `RelayTick.TickOutcome` | internal/outbox/relay.go:111-126 | notes, marks and commit together leave each row and queue so, for every combination of faults |
| `Processes.Reaper.Tick` | internal/reaper/reaper.go:97-117 | two steps of the system under one now: workers silent since the timeout are DEAD, the jobs of dead workers and of leases run out are given up, no RUNNING job is left with a silent worker, nothing else changes |
| `Handlers.Server.CreateJob` | internal/api/server.go:216-288 | bad input, a failing lookup, a known key, a failed insert, a failing read after the insert and a created job, each with its status; the new row holds what was asked, 3 attempts by default, and has its dispatch row |
| `Handlers.Server.WorkerClaimJob` | internal/api/server.go:437-447 | 200 with the claimed row, 409 if the job is not claimable, 500 for an unknown worker |
| `Handlers.Server.WorkerRenewLease` | internal/api/server.go:450-480 | generations below 1 are refused unseen, a lost lease is a conflict, else only the lease end moves |
| `Handlers.Server.WorkerJobResult` | internal/api/server.go:482-538 | the status of each case, from the row and the request; only an accepted result touches the tables, while logs are stored before the fence |
| `Handlers.ResultIsARun` | internal/api/server.go:503-537 | an undisturbed result request is a run of the three steps it is split into, and the lease is closed by it |
| `Handlers.Consumer.HandleDelivery` | internal/worker/consumer.go:41-58 | by course: no claim sent, lost or refused leaves the tables as they were or just claimed; a reported run leaves the job COMPLETED if and only if it succeeded, else FAILED or DISPATCHED with one retry row; acked if and only if the claim met a conflict or the result was confirmed; settled once, by a run of the system |
| `ParallelConsumer.SettleOne` | internal/queue/rabbit.go:280-288 | a settlement takes one running delivery out and accounts for all others |
| `ParallelConsumer.LogIsTold` | internal/queue/rabbit.go:280-288 | a log of all returns of running handlers, and of nothing else, settles each delivery by its own handler's return |
| `ParallelConsumer.ArrivalsAreTaken` | internal/queue/rabbit.go:266-279 | every delivery that comes in while none waits is taken, and one waits only while all slots are in use |
| `ParallelConsumer.Session.Return` | internal/queue/rabbit.go:280-288 | a handler's return settles its delivery and hands its slot on |
| `ParallelConsumer.Session.Consume` | internal/queue/rabbit.go:252-291 | at every event and at every return during the final wait at most as many handlers run as there are slots, and those that should; every delivery that comes in while none waits is taken and settled exactly once, by what its own handler returned while it ran |
| `Arguments.SplitArgs` | internal/ffmpeg/runner.go:65-101 | the loop equals a two-state automaton, returns no empty argument, and drops only unquoted blanks and delimiters |
| `Arguments.BuildArgs` | internal/ffmpeg/runner.go:45-50 | the input is named third and the output last; what is in between holds the characters of the option string less its delimiters, and no empty option |
| `Arguments.OnlyDelimitersAreDropped` | internal/ffmpeg/runner.go:83-99 | the arguments put together are the text less its delimiters, even with a quote left open |
| `Arguments.NoArgumentIsEmpty` | internal/ffmpeg/runner.go:76-81 | no argument is empty |
| `Arguments.SplitUndoesPrinting` | internal/ffmpeg/runner.go:65-101 | arguments written as any mix of plain, single- and double-quoted runs, with any gaps of blanks and tabs and any padding, are read back, less empty ones |
| `Arguments.SplitUndoesQuoting` | internal/ffmpeg/runner.go:65-101 | every list over any characters can be quoted, and comes back if and only if no argument is empty |
| `StorageKeys.LogObjectKeyInjective` | internal/storage/keys.go:21-24 | equal log keys mean equal job and attempt, for all ids |
| `StorageKeys.KeysNeverCollide` | internal/storage/keys.go:9-24 | for ids without a slash the three kinds of keys, and the keys of different jobs, never coincide |
| `JsonText.UnquoteUndoesQuote` | internal/joblogs/joblogs.go:102-102 | reading a JSON string gives back the text that was escaped, and what follows it |
| `JsonText.QuotedIsPrintable` | internal/joblogs/joblogs.go:106-107 | an escaped text holds no control character, so no raw newline |
| `LineScanner.ScanLines` | internal/joblogs/joblogs.go:124-128 | lines are cut at newlines up to the first that does not fit 1 MiB with its newline |
| `LineScanner.ScanUndoesUnlines` | internal/joblogs/joblogs.go:124-142 | lines written one by one are scanned back, up to the first too long |
| `LineScanner.FitsExactly` | internal/joblogs/joblogs.go:124-125 | a line fits if and only if it has at most 1,048,576 bytes with its newline |
| `LineScanner.ScanDropsCR` | internal/joblogs/joblogs.go:126-128 | a carriage return before the newline is no part of the line |
| `JobLogs.EncodeJSONL` | internal/joblogs/joblogs.go:89-114 | one record for each non-empty line, their number, and an error if there is none |
| `JobLogs.KeptInPlace` | internal/joblogs/joblogs.go:93-110 | each non-empty line is kept once, in order, with its stream and the time of storing |
| `JobLogs.RecordIsJson` | internal/joblogs/joblogs.go:20-24 | the text of a record, up to escapes |
| `JobLogs.DecodeUndoesRecord` | internal/joblogs/joblogs.go:131-134 | a record decodes to what was encoded |
| `JobLogs.LoadObject` | internal/joblogs/joblogs.go:116-144 | empty lines are skipped, a record without a time gets that of reading, a bad line or a line too long fails the object |
| `JobLogs.ObjectRoundTrip` | internal/joblogs/joblogs.go:89-144 | a stored object is read back if and only if all its records fit, and fails for their length otherwise |
| `JobLogs.SizeOfRecord` | internal/joblogs/joblogs.go:97-107 | bounds on a record's bytes in terms of its texts |
| `LogMerge.Upload` | internal/joblogs/joblogs.go:26-50 | each error in its order, else the object under its key, its size in UTF-8 and the number of its lines; sizes are not checked |
| `LogMerge.LoadAll` | internal/joblogs/joblogs.go:53-87 | rows sorted by attempt and id, objects read in turn, lines numbered across all of them, the first error wins |
| `LogMerge.UploadsDoNotCollide` | internal/storage/keys.go:21-24 | uploads of distinct attempts leave one another's objects intact, in any order |
| `LogMerge.RowsSortByAttempt` | internal/joblogs/joblogs.go:61-67 | however the rows are listed, sorting puts them in attempt order |
| `LogMerge.RowsAreOrdered` | internal/joblogs/joblogs.go:61-67 | rows are read by attempt, then id |
| `LogMerge.LogsRoundTrip` | internal/joblogs/joblogs.go:52-87 | for any uploads of distinct attempts and any listing, merging returns the non-empty lines intact in attempt order, or fails exactly when a record does not fit |
| `LogMerge.EveryLineIsMerged` | internal/joblogs/joblogs.go:69-86 | each non-empty line stands in the merged logs after all lines of earlier attempts and all earlier lines of its own, with its stream, text, time and number |
| `LogMerge.IdsCountLines` | internal/joblogs/joblogs.go:69-86 | ids run from 1 to the sum of the rows' line counts |
| `LogMerge.LongLineSpoilsJob` | internal/joblogs/joblogs.go:124-142 | a logged line of 1 MiB, which Upload accepts, makes the job's logs unreadable |
| `Sorting.SortIgnoresOrder` | internal/joblogs/joblogs.go:61-67 | without ties, sorting two permutations gives one list |

## Left out

- SQL, HTTP, AMQP and JSON plumbing: a store transaction is one atomic step under the database's row locks, a queue is a multiset with the declared dead-letter rules, and message bodies always decode. A refused FinishJob or QueueJob keeps its row locked until the request's context ends; that delay is not modelled.
- Delivery order: queues are multisets, so everything is proved for any order, and nothing about fairness.
- Publisher confirms: the comment on `Publish` promises them, the channel is never put in confirm mode. The model takes a nil error to mean that the message is enqueued.
- Error classification by text: the worker recognises conflicts by "409" in an error message. The model has a structured verdict; an unrelated error that contains "409" would be acknowledged and break `NoLostDispatch.NoDispatchIsLost`.
- Processes.Relay.Tick: `MarkOutboxPublishError` updates, on another connection, a row that the open batch holds locked, which may block the tick. The model lets the update through and has it touch only `publish_error`.
- Clocks: one monotone clock for database, scheduler, reaper and the intervals of workers. `created_at` of an outbox row is when its transaction began; other time columns carry the instant of the step, and but for leases and heartbeats nothing depends on them.
- OutboxRelay.BatchIsOldestPrefix: the id of a row is its place in the order of commits, while the database draws ids at the insert; the two can differ in the query only between rows with equal `created_at`.
- Integer widths: attempts, generations, ids and byte counts are unbounded, and `lease.Seconds()` is exact where Go converts to a float first.
- Deadlines.OnTimeWorkerKeepsJob: network delay between sending a renewal and its acceptance counts as part of the interval.
- Recovery.LiveJobsCanBeFinished: states that a finishing schedule exists; whether tickers ever run it is a matter of fairness.
- Renewals.SurvivesExactly: a renewal is accepted at its tick or lost, with no delay in between, and scheduler and worker are given the same lease; a WorkerTimeout below one nanosecond, under which no worker can beat in time, is left out.
- The loops of `leaseRenewalLoop` and `heartbeatLoop` as programs, and the tickers of relay and reaper: each round is a step of the transition system (`Renew`, `Beat`, a tick), in any number and order; `Renewals` states what the ticks of the renewal loop look like in a run.
- DeadLetters.ForgottenForEver: clients other than the platform's workers, which could send the result of an old claim once more.
- Handlers.Consumer.HandleDelivery: one handler undisturbed and in no time; interference and time that passes are covered by the split steps of the transition system.
- Running ffmpeg and ffprobe, temporary files and output checks: a job run is a success flag and log lines. Two workers may transcode one job at once; exclusive is the acceptance of results.
- Log contents against artifact rows: logs are uploaded before the fence, so sizes and line counts of an artifact row may belong to an earlier upload of the same attempt.
- JobLogs.LoadObject: the decoder reads what `json.Marshal` writes for a record, and calls anything else malformed: white space, other orders of members, unknown members and surrogate escapes, which Go would read. Objects under log keys are written by `Upload` alone. Strings are Unicode scalar values; Go replaces invalid UTF-8 before it gets here. Timestamps are kept as text.
- LineScanner.ScanLines: read errors in the middle of an object, and reading line by line instead of all at once.
- `normalizeExt`, presets, extension sanitising, authentication, admin pages, presigned URLs, uploads by multipart form, object existence checks before `QueueJob`, health and metrics: finite tables or single checks that would add easy members only.
- Migrations and rows from before them: every run starts from empty tables.
- Entry points used by tests alone: `InsertOutbox`, `MarkOutboxPublished`, `DecodeJSONL`, the in-memory queue and storage.
