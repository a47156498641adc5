/** What operations do to the tables, field by field and apart from the functions that compute it. */
module Effects {
  import opened Types

  // ---- jobs ----

  predicate SameRequest(j: Job, j': Job) {
    && j'.spec == j.spec && j'.maxAttempts == j.maxAttempts
    && j'.idempotencyKey == j.idempotencyKey && j'.createdAt == j.createdAt
  }

  /** No row but that of `id` differs, and that row still holds the same request. */
  ghost predicate OnlyJob(jobs: map<JobId, Job>, jobs': map<JobId, Job>, id: JobId) {
    && id in jobs && jobs'.Keys == jobs.Keys && SameRequest(jobs[id], jobs'[id])
    && forall k :: k in jobs && k != id ==> jobs'[k] == jobs[k]
  }

  /** A lease is cut to whole seconds; below one second it counts as half an hour. */
  predicate RunsOut(j: Job, clock: Time, lease: Time) {
    && j.leaseExpiresAt.Some?
    && var length := j.leaseExpiresAt.value - clock;
       if lease < 1_000_000_000 then length == 1_800_000_000_000
       else length % 1_000_000_000 == 0 && lease - 1_000_000_000 < length <= lease
  }

  predicate Claimable(jobs: map<JobId, Job>, id: JobId) {
    id in jobs && jobs[id].status.Dispatched?
  }

  /** The worker has the job under the next generation, for the next attempt. */
  ghost predicate Claims(jobs: map<JobId, Job>, jobs': map<JobId, Job>, id: JobId, w: WorkerId, lease: Time,
                         clock: Time)
  {
    && OnlyJob(jobs, jobs', id)
    && var (j, j') := (jobs[id], jobs'[id]);
    && j'.status.Running? && j'.assignee == Some(w) && RunsOut(j', clock, lease) && j'.updatedAt == clock
    && j'.attempt == j.attempt + 1 && j'.leaseGeneration == j.leaseGeneration + 1
    && j'.startedAt == (if j.startedAt.Some? then j.startedAt else Some(clock)) && j'.finishedAt == j.finishedAt
  }

  predicate Held(jobs: map<JobId, Job>, id: JobId, w: WorkerId, generation: int) {
    id in jobs && jobs[id].status.Running? && jobs[id].assignee == Some(w) && jobs[id].leaseGeneration == generation
  }

  /** The lease counts from now on, and nothing else has changed. */
  ghost predicate Renews(jobs: map<JobId, Job>, jobs': map<JobId, Job>, id: JobId, lease: Time, clock: Time) {
    && OnlyJob(jobs, jobs', id)
    && var (j, j') := (jobs[id], jobs'[id]);
    && RunsOut(j', clock, lease) && j'.updatedAt == clock
    && j' == j.(leaseExpiresAt := j'.leaseExpiresAt, updatedAt := j'.updatedAt)
  }

  /** In time, or late: a success for a job that waits for its next claim. */
  predicate Accepts(jobs: map<JobId, Job>, id: JobId, w: WorkerId, generation: int, success: bool) {
    || Held(jobs, id, w, generation)
    || (success && Claimable(jobs, id) && jobs[id].assignee.None? && jobs[id].leaseGeneration == generation)
  }

  /** One more row at the end, unpublished. */
  predicate Appended(outbox: seq<OutboxRow>, outbox': seq<OutboxRow>, id: JobId, target: Target, attempt: int,
                     began: Time)
  {
    && |outbox'| == |outbox| + 1 && outbox'[..|outbox|] == outbox
    && var row := outbox'[|outbox|];
    && row.job == id && row.target == target && row.attempt == attempt && row.createdAt == began
    && row.publishedAt.None? && !row.publishError
  }

  /** The row `j'` is the job `j` given up for its attempt: for good, or until it is claimed again. */
  predicate GivenUp(j: Job, j': Job, clock: Time) {
    && SameRequest(j, j') && j'.attempt == j.attempt && j'.leaseGeneration == j.leaseGeneration
    && j'.startedAt == j.startedAt && j'.leaseExpiresAt.None? && j'.updatedAt == clock
    && if j.attempt >= j.maxAttempts then
         j'.status.Failed? && j'.assignee == j.assignee && j'.finishedAt == Some(clock)
       else
         j'.status.Dispatched? && j'.assignee.None? && j'.finishedAt == j.finishedAt
  }

  /** A success completes the job; a failure fails it after its last attempt, else sends it through the retry queue. */
  ghost predicate Concludes(jobs: map<JobId, Job>, outbox: seq<OutboxRow>, jobs': map<JobId, Job>,
                            outbox': seq<OutboxRow>,
                            id: JobId, success: bool, clock: Time, began: Time)
  {
    && OnlyJob(jobs, jobs', id)
    && var (j, j') := (jobs[id], jobs'[id]);
    && (success ==>
          && j'.status.Completed? && j'.finishedAt == Some(clock) && j'.leaseExpiresAt.None? && j'.updatedAt == clock
          && j'.attempt == j.attempt && j'.leaseGeneration == j.leaseGeneration
          && j'.assignee == j.assignee && j'.startedAt == j.startedAt)
    && (!success ==> GivenUp(j, j', clock))
    && if success || j.attempt >= j.maxAttempts then outbox' == outbox
       else Appended(outbox, outbox', id, Retry, j.attempt, began)
  }

  // ---- creation ----

  predicate Taken(jobs: map<JobId, Job>, key: string) {
    key != "" && exists id :: id in jobs && jobs[id].idempotencyKey == Some(key)
  }

  /** One more job, which holds what was asked for and has not been worked on. */
  ghost predicate Creates(jobs: map<JobId, Job>, jobs': map<JobId, Job>, id: JobId, spec: JobSpec, key: string,
                          attempt: int, maxAttempts: int, status: JobStatus, clock: Time)
  {
    && id !in jobs && jobs'.Keys == jobs.Keys + {id} && (forall k :: k in jobs ==> jobs'[k] == jobs[k])
    && var j := jobs'[id];
    && j.spec.inputPath == spec.inputPath && j.spec.outputPath == spec.outputPath && j.spec == spec
    && j.idempotencyKey == (if key == "" then None else Some(key))
    && j.status == status && j.attempt == attempt && j.maxAttempts == maxAttempts && j.leaseGeneration == 0
    && j.assignee.None? && j.leaseExpiresAt.None? && j.startedAt.None? && j.finishedAt.None?
    && j.createdAt == clock && j.updatedAt == clock
  }

  // ---- artifacts ----

  /** The row of the attempt holds what was uploaded, and no other row differs; without an artifact none does. */
  ghost predicate Records(artifacts: map<LogKey, Artifact>, artifacts': map<LogKey, Artifact>, id: JobId, attempt: int,
                          artifact: Option<ArtifactInput>, clock: Time)
  {
    if artifact.None? then artifacts' == artifacts
    else
      var (k, a) := (LogKey(id, attempt), artifact.value);
      && artifacts'.Keys == artifacts.Keys + {k}
      && (forall l :: l in artifacts && l != k ==> artifacts'[l] == artifacts[l])
      && artifacts'[k].objectKey == a.objectKey && artifacts'[k].bytes == a.bytes && artifacts'[k].lines == a.lines
      && artifacts'[k].createdAt == clock
  }

  // ---- workers ----

  /** The worker is ACTIVE and was heard just now; no other worker differs. */
  ghost predicate Alive(workers: map<WorkerId, Worker>, workers': map<WorkerId, Worker>, w: WorkerId, clock: Time) {
    && workers'.Keys == workers.Keys + {w} && (forall v :: v in workers && v != w ==> workers'[v] == workers[v])
    && workers'[w].status.Active? && workers'[w].lastHeartbeatAt == Some(clock)
  }

  predicate HeardBefore(w: Worker, cutoff: Time) {
    w.lastHeartbeatAt.Some? && w.lastHeartbeatAt.value < cutoff
  }

  /** Exactly the workers last heard before the cutoff have become DEAD, besides those that were. */
  ghost predicate Buries(workers: map<WorkerId, Worker>, workers': map<WorkerId, Worker>, cutoff: Time) {
    && workers'.Keys == workers.Keys
    && forall w :: w in workers ==>
         && workers'[w].lastHeartbeatAt == workers[w].lastHeartbeatAt
         && (workers'[w].status.Dead? <==> workers[w].status.Dead? || HeardBefore(workers[w], cutoff))
  }

  // ---- orphans ----

  /** RUNNING under a lease that has run out or a worker that is DEAD. */
  predicate Orphaned(jobs: map<JobId, Job>, workers: map<WorkerId, Worker>, id: JobId, now: Time) {
    && id in jobs && jobs[id].status.Running? && jobs[id].assignee.Some? && jobs[id].assignee.value in workers
    && (|| (jobs[id].leaseExpiresAt.Some? && jobs[id].leaseExpiresAt.value < now)
        || workers[jobs[id].assignee.value].status.Dead?)
  }

  /** Every orphan is given up and no other row differs. */
  ghost predicate Reaps(jobs: map<JobId, Job>, workers: map<WorkerId, Worker>, jobs': map<JobId, Job>, now: Time,
                        clock: Time)
  {
    && jobs'.Keys == jobs.Keys
    && forall id :: id in jobs ==>
         if Orphaned(jobs, workers, id, now) then GivenUp(jobs[id], jobs'[id], clock) else jobs'[id] == jobs[id]
  }

  // ---- the outbox ----

  predicate SameDispatch(row: OutboxRow, row': OutboxRow) {
    row'.job == row.job && row'.target == row.target && row'.attempt == row.attempt && row'.createdAt == row.createdAt
  }

  /** Exactly the rows given are published, at `at` and without an error. */
  ghost predicate Publishes(outbox: seq<OutboxRow>, outbox': seq<OutboxRow>, rows: set<nat>, at: Time) {
    && |outbox'| == |outbox|
    && forall i :: 0 <= i < |outbox| ==>
         if i in rows then
           SameDispatch(outbox[i], outbox'[i]) && outbox'[i].publishedAt == Some(at) && !outbox'[i].publishError
         else outbox'[i] == outbox[i]
  }

  /** The row is unpublished and not taken. */
  predicate Available(outbox: seq<OutboxRow>, taken: set<nat>, row: nat) {
    row < |outbox| && row !in taken && outbox[row].publishedAt.None?
  }

  /** By created_at, then by id. */
  predicate Before(outbox: seq<OutboxRow>, i: nat, k: nat)
    requires i < |outbox| && k < |outbox|
  {
    outbox[i].createdAt < outbox[k].createdAt || (outbox[i].createdAt == outbox[k].createdAt && i < k)
  }

  /** The rows are the first available ones, in order and up to the limit. */
  ghost predicate FirstAvailable(outbox: seq<OutboxRow>, taken: set<nat>, limit: nat, rows: seq<nat>) {
    && |rows| <= limit
    && (forall i :: 0 <= i < |rows| ==> Available(outbox, taken, rows[i]))
    && (forall i, k :: 0 <= i < k < |rows| ==> Before(outbox, rows[i], rows[k]))
    && (forall row: nat :: Available(outbox, taken, row) && row !in rows ==>
          |rows| == limit && forall i :: 0 <= i < |rows| ==> Before(outbox, rows[i], row))
  }
}
