/**
 What one step of the system can do to one job. Every label, whoever takes it, moves the job's row and
 its outbox rows by at most one of the moves below; the run-level results about jobs rest on this alone.
 */
module JobMoves {
  import opened Types
  import opened Transactions
  import opened System
  import opened Frames

  datatype Dispatch = Dispatch(target: Target, attempt: int)

  /** The outbox rows of one job in insertion order. */
  function Dispatches(outbox: seq<OutboxRow>, id: JobId): seq<Dispatch> {
    if outbox == [] then []
    else
      var last := outbox[|outbox| - 1];
      Dispatches(outbox[..|outbox| - 1], id)
      + if last.job == id then [Dispatch(last.target, last.attempt)] else []
  }

  /** One job's row, if it has one, with its outbox rows. */
  datatype JobView = JobView(job: Option<Job>, dispatches: seq<Dispatch>)

  function View(t: Tables, id: JobId): JobView {
    JobView(if id in t.jobs then Some(t.jobs[id]) else None, Dispatches(t.outbox, id))
  }

  // ---- the moves ----

  predicate Born(v: JobView, v': JobView) {
    && v.job.None? && v'.job.Some?
    && var j := v'.job.value;
    && j.attempt == 0 && j.leaseGeneration == 0 && 1 <= j.maxAttempts
    && j.assignee.None? && j.leaseExpiresAt.None? && j.startedAt.None? && j.finishedAt.None?
    && (|| (j.status.New? && v'.dispatches == v.dispatches)
        || (j.status.Dispatched? && v'.dispatches == v.dispatches + [Dispatch(Main, 0)]))
  }

  predicate Queued(v: JobView, v': JobView) {
    && v.job.Some? && v'.job.Some? && v.job.value.status.New?
    && v'.job.value == v.job.value.(status := Dispatched, updatedAt := v'.job.value.updatedAt)
    && v'.dispatches == v.dispatches + [Dispatch(Main, v.job.value.attempt)]
  }

  predicate Claimed(v: JobView, v': JobView) {
    && v.job.Some? && v'.job.Some? && v.job.value.status.Dispatched?
    && var (j, j') := (v.job.value, v'.job.value);
    && j'.assignee.Some? && j'.leaseExpiresAt.Some?
    && j'.startedAt.Some? && (j.startedAt.Some? ==> j'.startedAt == j.startedAt)
    && j' == j.(status := Running, assignee := j'.assignee, attempt := j.attempt + 1,
                leaseExpiresAt := j'.leaseExpiresAt, leaseGeneration := j.leaseGeneration + 1,
                startedAt := j'.startedAt, updatedAt := j'.updatedAt)
    && v'.dispatches == v.dispatches
  }

  predicate Renewed(v: JobView, v': JobView) {
    && v.job.Some? && v'.job.Some? && v.job.value.status.Running?
    && var (j, j') := (v.job.value, v'.job.value);
    && j'.leaseExpiresAt.Some?
    && j' == j.(leaseExpiresAt := j'.leaseExpiresAt, updatedAt := j'.updatedAt)
    && v'.dispatches == v.dispatches
  }

  predicate Returned(v: JobView, v': JobView) {
    && v.job.Some? && v'.job.Some? && v.job.value.status.Running?
    && var (j, j') := (v.job.value, v'.job.value);
    && j.attempt < j.maxAttempts
    && j' == j.(status := Dispatched, assignee := None, leaseExpiresAt := None, updatedAt := j'.updatedAt)
    && v'.dispatches == v.dispatches + [Dispatch(Retry, j.attempt)]
  }

  predicate Exhausted(v: JobView, v': JobView) {
    && v.job.Some? && v'.job.Some? && v.job.value.status.Running?
    && var (j, j') := (v.job.value, v'.job.value);
    && j.attempt >= j.maxAttempts && j'.finishedAt.Some?
    && j' == j.(status := Failed, finishedAt := j'.finishedAt, leaseExpiresAt := None, updatedAt := j'.updatedAt)
    && v'.dispatches == v.dispatches
  }

  /** By the lease holder while RUNNING, or late while DISPATCHED by the holder of the last lease. */
  predicate Finished(v: JobView, v': JobView) {
    && v.job.Some? && v'.job.Some?
    && var (j, j') := (v.job.value, v'.job.value);
    && (j.status.Running? || (j.status.Dispatched? && 1 <= j.leaseGeneration)) && j'.finishedAt.Some?
    && j' == j.(status := Completed, finishedAt := j'.finishedAt, leaseExpiresAt := None, updatedAt := j'.updatedAt)
    && v'.dispatches == v.dispatches
  }

  /** Every move except a claim: no generation is issued. */
  predicate Quiet(v: JobView, v': JobView) {
    v' == v || Born(v, v') || Queued(v, v') || Renewed(v, v') || Returned(v, v') || Exhausted(v, v') || Finished(v, v')
  }

  predicate Move(v: JobView, v': JobView) {
    Quiet(v, v') || Claimed(v, v')
  }

  // ---- how the transactions act on a view ----

  lemma DispatchesOfAppend(outbox: seq<OutboxRow>, row: OutboxRow, id: JobId)
    ensures Dispatches(outbox + [row], id)
            == Dispatches(outbox, id) + if row.job == id then [Dispatch(row.target, row.attempt)] else []
  {
    assert (outbox + [row])[..|outbox|] == outbox;
  }

  /** Publishing marks and errors leave the job, target and attempt of every row alone. */
  lemma {:induction false} DispatchesIgnoreMarks(a: seq<OutboxRow>, b: seq<OutboxRow>, id: JobId)
    requires |a| == |b|
    requires forall i :: 0 <= i < |a| ==>
               a[i].job == b[i].job && a[i].target == b[i].target && a[i].attempt == b[i].attempt
    ensures Dispatches(a, id) == Dispatches(b, id)
  {
    if a != [] {
      DispatchesIgnoreMarks(a[..|a| - 1], b[..|b| - 1], id);
    }
  }

  lemma ViewOfAppend(t: Tables, row: JobId, target: Target, attempt: int, id: JobId)
    ensures View(WithOutboxRow(t, row, target, attempt), id)
            == View(t, id).(dispatches :=
                 View(t, id).dispatches + if row == id then [Dispatch(target, attempt)] else [])
  {
    DispatchesOfAppend(t.outbox, OutboxRow(row, target, attempt, t.began, None, false), id);
  }

  lemma CreateAndDispatchMoves(t: Tables, id: JobId, p: CreateParams, k: JobId)
    requires p.attempt == 0 && 1 <= p.maxAttempts
    ensures Quiet(View(t, k), View(CreateAndDispatch(t, id, p).db, k))
  {
    var inserted := InsertJob(t, id, FreshJob(t, p, Dispatched));
    if inserted.result.Success? {
      ViewOfAppend(inserted.db, id, Main, p.attempt, k);
    }
  }

  lemma QueueJobMoves(t: Tables, id: JobId, k: JobId)
    ensures Quiet(View(t, k), View(QueueJob(t, id).db, k))
  {
    if id in t.jobs && t.jobs[id].status == New {
      var job := t.jobs[id];
      var queued := job.(status := Dispatched, updatedAt := t.clock);
      ViewOfAppend(t.(jobs := t.jobs[id := queued]), id, Main, job.attempt, k);
    }
  }

  lemma GiveUpAttemptMoves(t: Tables, id: JobId, k: JobId)
    requires id in t.jobs && t.jobs[id].status == Running
    ensures k != id ==> View(GiveUpAttempt(t, id), k) == View(t, k)
    ensures Returned(View(t, id), View(GiveUpAttempt(t, id), id))
            || Exhausted(View(t, id), View(GiveUpAttempt(t, id), id))
  {
    var job := t.jobs[id];
    if job.attempt < job.maxAttempts {
      var returned := t.(jobs := t.jobs[id := RetriedRow(t, job)]);
      ViewOfAppend(returned, id, Retry, job.attempt, k);
      ViewOfAppend(returned, id, Retry, job.attempt, id);
    }
  }

  lemma ConcludeMoves(t: Tables, id: JobId, success: bool, k: JobId)
    requires id in t.jobs
    requires var j := t.jobs[id]; j.status.Running? || (j.status.Dispatched? && success && 1 <= j.leaseGeneration)
    ensures k != id ==> View(Conclude(t, id, success), k) == View(t, k)
    ensures var (v, v') := (View(t, id), View(Conclude(t, id, success), id));
            if success then Finished(v, v') else Returned(v, v') || Exhausted(v, v')
  {
    if !success {
      GiveUpAttemptMoves(t, id, k);
    }
  }

  /** A result concludes its own job or changes no job; every other job is left alone. */
  lemma FinishJobMoves(t: Tables, id: JobId, w: WorkerId, generation: Generation, success: bool,
                       artifact: Option<ArtifactInput>, k: JobId)
    ensures var (v, v') := (View(t, k), View(FinishJob(t, id, w, generation, success, artifact).db, k));
            v' == v || (k == id && if success then Finished(v, v') else Returned(v, v') || Exhausted(v, v'))
  {
    if id in t.jobs && t.jobs[id].status != Completed && FinishAccepted(t.jobs[id], w, generation, success) {
      ConcludeMoves(t, id, success, k);
    }
  }

  /** Reaping moves exactly the listed jobs, each once. */
  lemma {:induction false} ReapMoves(t: Tables, order: seq<JobId>, k: JobId)
    requires NoRepeats(order)
    requires forall id :: id in order ==> id in t.jobs && t.jobs[id].status == Running
    ensures k !in order ==> View(ReapInOrder(t, order), k) == View(t, k)
    ensures k in order ==>
              var (v, v') := (View(t, k), View(ReapInOrder(t, order), k));
              Returned(v, v') || Exhausted(v, v')
  {
    if order != [] {
      var n := |order| - 1;
      var (init, last) := (order[..n], order[n]);
      assert forall id :: id in order <==> id in init || id == last;
      assert last !in init;
      ReapMoves(t, init, k);
      ReapMoves(t, init, last);
      GiveUpAttemptMoves(ReapInOrder(t, init), last, k);
    }
  }

  // ---- the hub ----

  lemma ClientMoves(s: State, c: ClientStep, k: JobId)
    requires ClientEnabled(s, c)
    ensures Quiet(View(s.db, k), View(ClientApply(s, c).db, k))
  {
    match c
    case Insert(req, id, _) =>
      var r := s.creates[req];
      CreateAndDispatchMoves(s.db, id, Params(r.spec, r.maxAttempts, r.key), k);
    case SubmitUpload(id) => QueueJobMoves(s.db, id, k);
    case _ =>
  }

  lemma RelayMoves(s: State, r: RelayStep, k: JobId)
    requires RelayEnabled(s, r)
    ensures View(RelayApply(s, r).db, k) == View(s.db, k)
  {
    RelayFrame(s, r);
    DispatchesIgnoreMarks(s.db.outbox, RelayApply(s, r).db.outbox, k);
  }

  lemma ReaperMoves(s: State, r: ReaperStep, k: JobId)
    requires ReaperEnabled(s, r)
    ensures Quiet(View(s.db, k), View(ReaperApply(s, r).db, k))
  {
    match r
    case MarkDead(_, _) =>
    case Reap(_, order) => ReapMoves(s.db, order, k);
  }

  lemma ClaimMoves(s: State, c: ClaimStep, k: JobId)
    requires ClaimEnabled(s, c)
    ensures Move(View(s.db, k), View(ClaimApply(s, c).db, k))
  {
    ClaimFrame(s, c);
  }

  lemma HolderMoves(s: State, h: HolderStep, k: JobId)
    requires HolderEnabled(s, h)
    ensures Quiet(View(s.db, k), View(HolderApply(s, h).db, k))
  {
    match h
    case ResultFinish(req) =>
      var r := s.results[req];
      FinishJobMoves(s.db, r.lease.job, r.worker, r.lease.generation, r.success, ArtifactOf(r), k);
    case _ =>
  }

  /** Every step moves every job by at most one move, and only claims issue generations. */
  lemma StepMovesJob(s: State, l: Label, k: JobId)
    requires Enabled(s, l)
    ensures Move(View(s.db, k), View(Apply(s, l).db, k))
    ensures !l.Claiming? ==> Quiet(View(s.db, k), View(Apply(s, l).db, k))
  {
    match l
    case Tick(_, _) =>
    case Client(c) => ClientMoves(s, c, k);
    case Registry(r) => RegistryFrame(s, r);
    case Reaper(r) => ReaperMoves(s, r, k);
    case Relay(r) => RelayMoves(s, r, k);
    case Queue(q) => QueueFrame(s, q);
    case Claiming(c) => ClaimMoves(s, c, k);
    case Holder(h) => HolderMoves(s, h, k);
  }
}
