/**
 Each store transaction as one function on the tables. A transaction that fails hands back the
 tables it started from, which is what the rollback does.
 */
module Transactions {
  import opened Types

  /**
   `began` is NOW() in the transaction that is applied next: the instant at which it began, which other
   transactions may have overtaken since. Only the outbox is ordered by it.
   */
  datatype Tables = Tables(
    clock: Time,
    began: Time,
    jobs: map<JobId, Job>,
    outbox: seq<OutboxRow>,
    workers: map<WorkerId, Worker>,
    artifacts: map<LogKey, Artifact>)

  datatype Outcome<+T> = Outcome(db: Tables, result: Result<T, StoreError>)

  function Refuse<T>(t: Tables, error: StoreError): Outcome<T> {
    Outcome(t, Failure(error))
  }

  // ---- creation and dispatch ----

  datatype CreateParams = CreateParams(spec: JobSpec, attempt: int, maxAttempts: int, idempotencyKey: string)

  function NullString(s: string): Option<string> {
    if s == "" then None else Some(s)
  }

  /** max_attempts as the handlers pass it on: absent or non-positive means 3. */
  function NormalizedMaxAttempts(requested: int): int {
    if requested <= 0 then 3 else requested
  }

  predicate KeyTaken(t: Tables, key: Option<string>) {
    key.Some? && exists id :: id in t.jobs && t.jobs[id].idempotencyKey == key
  }

  function FreshJob(t: Tables, p: CreateParams, status: JobStatus): Job {
    Job(p.spec, status, None, p.attempt, p.maxAttempts, None, 0, NullString(p.idempotencyKey),
        t.clock, None, None, t.clock)
  }

  function InsertJob(t: Tables, id: JobId, job: Job): Outcome<()> {
    if id in t.jobs || KeyTaken(t, job.idempotencyKey) then Refuse(t, UniqueViolation)
    else Outcome(t.(jobs := t.jobs[id := job]), Success(()))
  }

  function WithOutboxRow(t: Tables, id: JobId, target: Target, attempt: int): Tables {
    t.(outbox := t.outbox + [OutboxRow(id, target, attempt, t.began, None, false)])
  }

  function CreateJob(t: Tables, id: JobId, p: CreateParams, status: JobStatus): Outcome<()> {
    InsertJob(t, id, FreshJob(t, p, status))
  }

  function CreateAndDispatch(t: Tables, id: JobId, p: CreateParams): Outcome<()> {
    var inserted := InsertJob(t, id, FreshJob(t, p, Dispatched));
    if inserted.result.Failure? then inserted
    else Outcome(WithOutboxRow(inserted.db, id, Main, p.attempt), Success(()))
  }

  function QueueJob(t: Tables, id: JobId): Outcome<()> {
    if id !in t.jobs || t.jobs[id].status != New then Refuse(t, NoRows)
    else
      var job := t.jobs[id];
      var moved := t.(jobs := t.jobs[id := job.(status := Dispatched, updatedAt := t.clock)]);
      Outcome(WithOutboxRow(moved, id, Main, job.attempt), Success(()))
  }

  // ---- workers ----

  function RegisterWorker(t: Tables, w: WorkerId): Tables {
    t.(workers := t.workers[w := Worker(Active, Some(t.clock))])
  }

  function Heartbeat(t: Tables, w: WorkerId): Outcome<()> {
    if w !in t.workers then Refuse(t, NoRows)
    else Outcome(t.(workers := t.workers[w := Worker(Active, Some(t.clock))]), Success(()))
  }

  predicate Stale(w: Worker, cutoff: Time) {
    w.status.Active? && w.lastHeartbeatAt.Some? && w.lastHeartbeatAt.value < cutoff
  }

  function MarkStaleWorkersDead(t: Tables, cutoff: Time): Tables {
    t.(workers := map w | w in t.workers ::
      if Stale(t.workers[w], cutoff) then t.workers[w].(status := Dead) else t.workers[w])
  }

  // ---- leases ----

  const DEFAULT_LEASE_SECONDS := 1800

  /** Whole seconds of a lease; Go truncates, and a result that is not positive means 30 minutes. */
  function LeaseSeconds(lease: Time): int {
    if lease < SECOND then DEFAULT_LEASE_SECONDS else lease / SECOND
  }

  function LeaseEnd(t: Tables, lease: Time): Time {
    t.clock + LeaseSeconds(lease) * SECOND
  }

  function ClaimedRow(t: Tables, job: Job, w: WorkerId, lease: Time): Job {
    job.(status := Running, assignee := Some(w), attempt := job.attempt + 1,
         leaseExpiresAt := Some(LeaseEnd(t, lease)), leaseGeneration := job.leaseGeneration + 1,
         startedAt := if job.startedAt.Some? then job.startedAt else Some(t.clock), updatedAt := t.clock)
  }

  function ClaimJob(t: Tables, id: JobId, w: WorkerId, lease: Time): Outcome<Job> {
    if id !in t.jobs || t.jobs[id].status != Dispatched then Refuse(t, JobNotClaimable)
    else if w !in t.workers then Refuse(t, ForeignKeyViolation)
    else
      var job := ClaimedRow(t, t.jobs[id], w, lease);
      Outcome(t.(jobs := t.jobs[id := job]), Success(job))
  }

  predicate HoldsLease(job: Job, w: WorkerId, generation: int) {
    job.status == Running && job.assignee == Some(w) && job.leaseGeneration == generation
  }

  function RenewLease(t: Tables, id: JobId, w: WorkerId, generation: int, lease: Time): Outcome<Job> {
    if id in t.jobs && HoldsLease(t.jobs[id], w, generation) then
      var job := t.jobs[id].(leaseExpiresAt := Some(LeaseEnd(t, lease)), updatedAt := t.clock);
      Outcome(t.(jobs := t.jobs[id := job]), Success(job))
    else Refuse(t, LeaseLost)
  }

  // ---- finishing ----

  predicate LateFinish(job: Job, generation: int, success: bool) {
    success && job.status == Dispatched && job.assignee.None? && job.leaseGeneration == generation
  }

  predicate FinishAccepted(job: Job, w: WorkerId, generation: int, success: bool) {
    HoldsLease(job, w, generation) || LateFinish(job, generation, success)
  }

  function FailedRow(t: Tables, job: Job): Job {
    job.(status := Failed, finishedAt := Some(t.clock), leaseExpiresAt := None, updatedAt := t.clock)
  }

  function CompletedRow(t: Tables, job: Job): Job {
    job.(status := Completed, finishedAt := Some(t.clock), leaseExpiresAt := None, updatedAt := t.clock)
  }

  function RetriedRow(t: Tables, job: Job): Job {
    job.(status := Dispatched, assignee := None, leaseExpiresAt := None, updatedAt := t.clock)
  }

  /** Gives an attempt up: the job fails when its budget is spent, else goes back through the retry queue. */
  function GiveUpAttempt(t: Tables, id: JobId): Tables
    requires id in t.jobs
  {
    var job := t.jobs[id];
    if job.attempt >= job.maxAttempts then t.(jobs := t.jobs[id := FailedRow(t, job)])
    else WithOutboxRow(t.(jobs := t.jobs[id := RetriedRow(t, job)]), id, Retry, job.attempt)
  }

  function Conclude(t: Tables, id: JobId, success: bool): Tables
    requires id in t.jobs
  {
    if success then t.(jobs := t.jobs[id := CompletedRow(t, t.jobs[id])]) else GiveUpAttempt(t, id)
  }

  predicate ArtifactFits(artifact: Option<ArtifactInput>, attempt: int) {
    artifact.Some? ==> artifact.value.attempt == attempt
  }

  /** insertLogArtifactTx: an upsert on (job, attempt). */
  function WithArtifact(t: Tables, id: JobId, attempt: int, artifact: Option<ArtifactInput>): Tables {
    if artifact.None? then t
    else
      var a := artifact.value;
      t.(artifacts := t.artifacts[LogKey(id, attempt) := Artifact(a.objectKey, a.bytes, a.lines, t.clock)])
  }

  function FinishJob(t: Tables, id: JobId, w: WorkerId, generation: int, success: bool,
                     artifact: Option<ArtifactInput>): Outcome<()>
  {
    if id !in t.jobs then Refuse(t, JobNotAssigned)
    else
      var job := t.jobs[id];
      if job.status != Completed && !FinishAccepted(job, w, generation, success) then Refuse(t, JobNotAssigned)
      else if !ArtifactFits(artifact, job.attempt) then Refuse(t, AttemptMismatch)
      else
        var concluded := if job.status == Completed then t else Conclude(t, id, success);
        Outcome(WithArtifact(concluded, id, job.attempt, artifact), Success(()))
  }

  // ---- reaping ----

  /** The WHERE clause of the reaper's select; the inner join drops jobs without a worker row. */
  predicate Orphan(t: Tables, id: JobId, now: Time) {
    && id in t.jobs
    && t.jobs[id].assignee.Some?
    && t.jobs[id].assignee.value in t.workers
    && t.jobs[id].status == Running
    && (|| (t.jobs[id].leaseExpiresAt.Some? && t.jobs[id].leaseExpiresAt.value < now)
        || t.workers[t.jobs[id].assignee.value].status.Dead?)
  }

  function Orphans(t: Tables, now: Time): set<JobId> {
    set id | id in t.jobs && Orphan(t, id, now)
  }

  predicate NoRepeats(order: seq<JobId>) {
    forall i, k :: 0 <= i < k < |order| ==> order[i] != order[k]
  }

  /** The select has no ORDER BY, so any listing of the orphans may come back. */
  ghost predicate ListsOrphans(t: Tables, now: Time, order: seq<JobId>) {
    NoRepeats(order) && forall id :: id in order <==> Orphan(t, id, now)
  }

  function ReapInOrder(t: Tables, order: seq<JobId>): Tables
    requires forall id :: id in order ==> id in t.jobs
    ensures ReapInOrder(t, order).jobs.Keys == t.jobs.Keys
  {
    if order == [] then t else GiveUpAttempt(ReapInOrder(t, order[..|order| - 1]), order[|order| - 1])
  }

  // ---- outbox ----

  const DEFAULT_BATCH := 50

  function BatchLimit(limit: int): nat {
    if limit <= 0 then DEFAULT_BATCH else limit
  }

  predicate Free(outbox: seq<OutboxRow>, locked: set<nat>, row: nat) {
    row < |outbox| && row !in locked && outbox[row].publishedAt.None?
  }

  /** ORDER BY created_at, id; the id of a row is its index. */
  predicate Older(outbox: seq<OutboxRow>, i: nat, k: nat)
    requires i < |outbox| && k < |outbox|
  {
    outbox[i].createdAt < outbox[k].createdAt || (outbox[i].createdAt == outbox[k].createdAt && i < k)
  }

  /** The first free row in that order among those from `from` on. */
  function OldestFree(outbox: seq<OutboxRow>, locked: set<nat>, from: nat): (row: Option<nat>)
    requires from <= |outbox|
    ensures row.Some? ==> from <= row.value && Free(outbox, locked, row.value)
    ensures row.None? ==> forall i: nat :: from <= i ==> !Free(outbox, locked, i)
    ensures row.Some? ==>
              forall i: nat :: from <= i && Free(outbox, locked, i) && i != row.value ==> Older(outbox, row.value, i)
    decreases |outbox| - from
  {
    if from == |outbox| then None
    else
      var rest := OldestFree(outbox, locked, from + 1);
      if !Free(outbox, locked, from) || (rest.Some? && Older(outbox, rest.value, from)) then rest else Some(from)
  }

  /** ORDER BY created_at, id ... LIMIT ... FOR UPDATE SKIP LOCKED. */
  function OldestUnpublished(outbox: seq<OutboxRow>, locked: set<nat>, limit: nat): (rows: seq<nat>)
    ensures |rows| <= limit
    ensures forall i :: 0 <= i < |rows| ==> Free(outbox, locked, rows[i])
    ensures forall i, k :: 0 <= i < k < |rows| ==> rows[i] != rows[k]
    decreases limit
  {
    if limit == 0 then []
    else
      match OldestFree(outbox, locked, 0)
      case None => []
      case Some(row) => [row] + OldestUnpublished(outbox, locked + {row}, limit - 1)
  }

  function RowSet(rows: seq<nat>): set<nat> {
    set row | row in rows
  }

  /** `at` is NOW() of the marking transaction, which is the instant it began. */
  function MarkPublished(t: Tables, rows: set<nat>, at: Time): Tables {
    t.(outbox := seq(|t.outbox|, i requires 0 <= i < |t.outbox| =>
      if i in rows then t.outbox[i].(publishedAt := Some(at), publishError := false) else t.outbox[i]))
  }

  function MarkPublishError(t: Tables, row: nat): Tables {
    if row < |t.outbox| then t.(outbox := t.outbox[row := t.outbox[row].(publishError := true)]) else t
  }
}
