/** Rows, messages and identifiers shared by every part of the model. */
module Types {

  datatype Option<+T> = None | Some(value: T)

  datatype Result<+T, +E> = Success(value: T) | Failure(error: E)

  /** Rows are keyed by UUIDs, which are 128-bit numbers. */
  datatype JobId = JobId(uuid: nat)
  datatype WorkerId = WorkerId(uuid: nat)

  /** Nanoseconds, as in Go's time.Duration; instants and durations share the unit. */
  type Time = int

  const SECOND: Time := 1_000_000_000

  datatype JobStatus = New | Dispatched | Running | Completed | Failed
  {
    predicate Terminal() { Completed? || Failed? }
  }

  datatype WorkerStatus = Active | Dead

  datatype StorageMode = Local | R2

  /** What the caller asked for; no store transaction after creation touches it. */
  datatype JobSpec = JobSpec(inputPath: string, outputPath: string, preset: string, ffmpegArgs: string,
                             storage: StorageMode, maxDurationSeconds: int)

  datatype Job = Job(
    spec: JobSpec,
    status: JobStatus,
    assignee: Option<WorkerId>,
    attempt: int,
    maxAttempts: int,
    leaseExpiresAt: Option<Time>,
    leaseGeneration: nat,
    idempotencyKey: Option<string>,
    createdAt: Time,
    startedAt: Option<Time>,
    finishedAt: Option<Time>,
    updatedAt: Time)

  datatype Worker = Worker(status: WorkerStatus, lastHeartbeatAt: Option<Time>)

  /** Routing destinations of the dispatch exchange. */
  datatype Target = Main | Retry

  datatype OutboxRow = OutboxRow(job: JobId, target: Target, attempt: int, createdAt: Time,
                                 publishedAt: Option<Time>, publishError: bool)

  datatype Message = Message(job: JobId, attempt: int)

  /** Names the log object of one job attempt; StorageKeys proves that the printed key is injective. */
  datatype LogKey = LogKey(job: JobId, attempt: int)

  datatype ArtifactInput = ArtifactInput(attempt: int, objectKey: LogKey, bytes: nat, lines: nat)

  datatype Artifact = Artifact(objectKey: LogKey, bytes: nat, lines: nat, createdAt: Time)

  /** One grant of a job to a worker; workerJobResult and workerRenewLease refuse generations below 1. */
  type Generation = g: int | 1 <= g witness 1

  datatype Lease = Lease(job: JobId, generation: Generation)

  datatype StoreError =
    | JobNotClaimable
    | LeaseLost
    | JobNotAssigned
    | NoRows
    | UniqueViolation
    | ForeignKeyViolation
    | AttemptMismatch
}
