/** Lease generations: who holds them, what a stale one can still do, and what log rows refer to. */
module Fencing {
  import opened Types
  import opened Transactions
  import opened System
  import opened Frames
  import opened JobMoves
  import opened JobLifecycle

  // ---- the invariant ----

  /** An issued generation is not ahead of its job, and its worker is registered. */
  ghost predicate LeaseOk(s: State, l: Lease) {
    && l in s.leases
    && l.job in s.db.jobs && l.generation <= s.db.jobs[l.job].leaseGeneration
    && s.leases[l] in s.db.workers
  }

  ghost predicate LeasesOk(s: State) {
    forall l :: l in s.leases ==> LeaseOk(s, l)
  }

  /** Every generation up to the current one was issued; a RUNNING job belongs to the worker that got the last. */
  ghost predicate RunnerOk(s: State, id: JobId)
    requires id in s.db.jobs
  {
    var j := s.db.jobs[id];
    && (forall g: Generation :: g <= j.leaseGeneration ==> Lease(id, g) in s.leases)
    && (j.status.Running? ==> 1 <= j.leaseGeneration && j.assignee == Some(s.leases[Lease(id, j.leaseGeneration)]))
  }

  ghost predicate RunnersOk(s: State) {
    forall id :: id in s.db.jobs ==> RunnerOk(s, id)
  }

  /** The attempt a result handler read, if it read one. */
  function AttemptSeen(r: ResultRequest): Option<int> {
    match r.logs
    case NoLogs => None
    case AttemptRead(a) => Some(a)
    case Uploaded(artifact) => Some(artifact.attempt)
  }

  ghost predicate ResultOk(s: State, r: ResultRequest) {
    && r.lease in s.leases && s.leases[r.lease] == r.worker
    && r.lease.job in s.db.jobs
    && (AttemptSeen(r).Some? ==> r.lease.generation <= AttemptSeen(r).value <= s.db.jobs[r.lease.job].attempt)
    && (r.logs.Uploaded? ==>
          var a := r.logs.artifact; a.objectKey == LogKey(r.lease.job, a.attempt) && a.objectKey in s.objects)
  }

  ghost predicate ResultsOk(s: State) {
    forall q :: q in s.results ==> ResultOk(s, s.results[q])
  }

  /** Artifact rows name an object that was stored, for an attempt that was started. */
  ghost predicate ArtifactsOk(s: State) {
    forall k :: k in s.db.artifacts ==>
      && s.db.artifacts[k].objectKey == k && k in s.objects
      && k.job in s.db.jobs && 1 <= k.attempt <= s.db.jobs[k.job].attempt
  }

  ghost predicate FencingOk(s: State) {
    JobsOk(s.db) && LeasesOk(s) && RunnersOk(s) && ResultsOk(s) && ArtifactsOk(s)
  }

  // ---- preservation ----

  /** A successful claim issues the next generation, which nobody has had before. */
  lemma ClaimIssuesNextGeneration(s: State, id: JobId, w: WorkerId, heard: bool)
    requires LeasesOk(s)
    ensures var s' := ServeClaim(s, id, w, heard);
            s' == s
            || (&& id in s.db.jobs && s.db.jobs[id].status.Dispatched? && w in s.db.workers
                && var next := Lease(id, s.db.jobs[id].leaseGeneration + 1);
                && next !in s.leases
                && s'.leases == s.leases[next := w]
                && s'.db == s.db.(jobs := s.db.jobs[id := ClaimedRow(s.db, s.db.jobs[id], w, s.cfg.lease)]))
  {
    assert forall l :: l in s.leases ==> LeaseOk(s, l);
  }

  ghost predicate KeepsHolders(s: State, s': State) {
    forall k :: k in s.leases ==> k in s'.leases && s'.leases[k] == s.leases[k]
  }

  lemma ServingKeepsRunner(s: State, id: JobId, w: WorkerId, heard: bool, k: JobId)
    requires LeasesOk(s) && k in s.db.jobs && RunnerOk(s, k)
    ensures k in ServeClaim(s, id, w, heard).db.jobs && RunnerOk(ServeClaim(s, id, w, heard), k)
  {
    ClaimIssuesNextGeneration(s, id, w, heard);
  }

  lemma ServingKeepsLease(s: State, id: JobId, w: WorkerId, heard: bool, l: Lease)
    requires LeasesOk(s) && l in ServeClaim(s, id, w, heard).leases
    ensures LeaseOk(ServeClaim(s, id, w, heard), l)
  {
    ClaimIssuesNextGeneration(s, id, w, heard);
    assert l in s.leases ==> LeaseOk(s, l);
  }

  lemma ServingKeepsLeases(s: State, id: JobId, w: WorkerId, heard: bool)
    requires LeasesOk(s) && RunnersOk(s)
    ensures LeasesOk(ServeClaim(s, id, w, heard)) && RunnersOk(ServeClaim(s, id, w, heard))
            && KeepsHolders(s, ServeClaim(s, id, w, heard))
  {
    ClaimIssuesNextGeneration(s, id, w, heard);
    forall l | l in ServeClaim(s, id, w, heard).leases ensures LeaseOk(ServeClaim(s, id, w, heard), l) {
      ServingKeepsLease(s, id, w, heard, l);
    }
    forall k | k in s.db.jobs ensures RunnerOk(ServeClaim(s, id, w, heard), k) {
      ServingKeepsRunner(s, id, w, heard, k);
    }
  }

  lemma ClaimKeepsLeases(s: State, c: ClaimStep)
    requires LeasesOk(s) && RunnersOk(s) && ClaimEnabled(s, c)
    ensures LeasesOk(ClaimApply(s, c)) && RunnersOk(ClaimApply(s, c)) && KeepsHolders(s, ClaimApply(s, c))
  {
    var (id, w, heard) := (Claimant(s, c).job, Claimant(s, c).worker, Heard(c));
    ServingKeepsLeases(s, id, w, heard);
    var (t, s') := (ServeClaim(s, id, w, heard), ClaimApply(s, c));
    assert s'.db == t.db && s'.leases == t.leases;
    forall l | l in s'.leases ensures LeaseOk(s', l) {
      assert LeaseOk(t, l);
    }
    forall k | k in s'.db.jobs ensures RunnerOk(s', k) {
      assert RunnerOk(t, k);
    }
  }

  /** A step that issues no generation and moves a job quietly keeps what is known about that job's lease. */
  lemma QuietKeepsRunner(s: State, s': State, id: JobId)
    requires s'.leases == s.leases && Quiet(View(s.db, id), View(s'.db, id))
    requires id in s.db.jobs ==> RunnerOk(s, id)
    requires id in s'.db.jobs
    ensures RunnerOk(s', id)
  {
  }

  lemma QuietKeepsLease(s: State, s': State, l: Lease)
    requires s'.leases == s.leases && Quiet(View(s.db, l.job), View(s'.db, l.job))
    requires s.db.workers.Keys <= s'.db.workers.Keys
    requires LeaseOk(s, l)
    ensures LeaseOk(s', l)
  {
  }

  lemma QuietStepKeepsLeases(s: State, l: Label)
    requires LeasesOk(s) && RunnersOk(s) && Enabled(s, l) && !l.Claiming?
    ensures LeasesOk(Apply(s, l)) && RunnersOk(Apply(s, l))
  {
    Frame(s, l);
    var s' := Apply(s, l);
    forall k | k in s'.leases ensures LeaseOk(s', k) {
      StepMovesJob(s, l, k.job);
      QuietKeepsLease(s, s', k);
    }
    forall id | id in s'.db.jobs ensures RunnerOk(s', id) {
      StepMovesJob(s, l, id);
      QuietKeepsRunner(s, s', id);
    }
  }

  lemma StepKeepsLeases(s: State, l: Label)
    requires LeasesOk(s) && RunnersOk(s) && Enabled(s, l)
    ensures LeasesOk(Apply(s, l)) && RunnersOk(Apply(s, l)) && KeepsHolders(s, Apply(s, l))
  {
    if l.Claiming? {
      ClaimKeepsLeases(s, l.claiming);
    } else {
      Frame(s, l);
      QuietStepKeepsLeases(s, l);
    }
  }

  /** Leases, attempts and stored objects only grow, so what a waiting handler knows stays true. */
  ghost predicate Onward(s: State, s': State) {
    && KeepsHolders(s, s')
    && s.objects <= s'.objects
    && forall id :: id in s.db.jobs ==> id in s'.db.jobs && s.db.jobs[id].attempt <= s'.db.jobs[id].attempt
  }

  lemma StepIsOnward(s: State, l: Label)
    requires LeasesOk(s) && RunnersOk(s) && Enabled(s, l)
    ensures Onward(s, Apply(s, l))
  {
    StepKeepsLeases(s, l);
    Frame(s, l);
    forall id | id in s.db.jobs
      ensures id in Apply(s, l).db.jobs && s.db.jobs[id].attempt <= Apply(s, l).db.jobs[id].attempt
    {
      StepGrows(s, l, id);
    }
  }

  lemma ResultOkCarriesOver(s: State, s': State, r: ResultRequest)
    requires ResultOk(s, r) && Onward(s, s')
    ensures ResultOk(s', r)
  {
  }

  /** Requests that start now read the attempt of a lease already issued; uploads keep what was read. */
  lemma HolderKeepsResults(s: State, h: HolderStep, q: nat)
    requires FencingOk(s) && HolderEnabled(s, h) && q in HolderApply(s, h).results
    requires Onward(s, HolderApply(s, h))
    ensures ResultOk(HolderApply(s, h), HolderApply(s, h).results[q])
  {
    var s' := HolderApply(s, h);
    if q in s.results && s'.results[q] == s.results[q] {
      ResultOkCarriesOver(s, s', s.results[q]);
    } else if h.ResultStart? {
      assert LeaseOk(s, h.lease);
      assert JobOk(View(s.db, h.lease.job));
    } else {
      assert ResultOk(s, s.results[q]);
    }
  }

  lemma StepKeepsResults(s: State, l: Label)
    requires FencingOk(s) && Enabled(s, l)
    ensures ResultsOk(Apply(s, l))
  {
    StepIsOnward(s, l);
    Frame(s, l);
    var s' := Apply(s, l);
    forall q | q in s'.results ensures ResultOk(s', s'.results[q]) {
      if l.Holder? {
        HolderKeepsResults(s, l.holder, q);
      } else {
        ResultOkCarriesOver(s, s', s.results[q]);
      }
    }
  }

  /** Only FinishJob writes artifact rows, and only under the attempt it sees in the job row. */
  lemma FinishWritesArtifacts(s: State, h: HolderStep, k: LogKey)
    requires HolderEnabled(s, h) && k in HolderApply(s, h).db.artifacts
    requires !(k in s.db.artifacts && HolderApply(s, h).db.artifacts[k] == s.db.artifacts[k])
    ensures h.ResultFinish?
    ensures var r := s.results[h.req];
            && r.lease.job in s.db.jobs && k == LogKey(r.lease.job, s.db.jobs[r.lease.job].attempt)
            && r.logs.Uploaded? && r.logs.artifact.attempt == k.attempt
            && HolderApply(s, h).db.artifacts[k].objectKey == r.logs.artifact.objectKey
            && (|| s.db.jobs[r.lease.job].status.Completed?
                || FinishAccepted(s.db.jobs[r.lease.job], r.worker, r.lease.generation, r.success))
  {
  }

  lemma StepKeepsArtifacts(s: State, l: Label)
    requires FencingOk(s) && Enabled(s, l)
    ensures ArtifactsOk(Apply(s, l))
  {
    StepIsOnward(s, l);
    Frame(s, l);
    var s' := Apply(s, l);
    forall k | k in s'.db.artifacts
      ensures && s'.db.artifacts[k].objectKey == k && k in s'.objects
              && k.job in s'.db.jobs && 1 <= k.attempt <= s'.db.jobs[k.job].attempt
    {
      if !(k in s.db.artifacts && s'.db.artifacts[k] == s.db.artifacts[k]) {
        FinishWritesArtifacts(s, l.holder, k);
        assert ResultOk(s, s.results[l.holder.req]);
        assert JobOk(View(s.db, k.job));
      }
    }
  }

  lemma StepKeepsFencing(s: State, l: Label)
    requires FencingOk(s) && Enabled(s, l)
    ensures FencingOk(Apply(s, l))
  {
    StepKeepsJobsOk(s, l);
    StepKeepsLeases(s, l);
    StepKeepsResults(s, l);
    StepKeepsArtifacts(s, l);
  }

  lemma {:induction false} RunKeepsFencing(s: State, ls: seq<Label>)
    requires FencingOk(s) && Runs(s, ls)
    ensures FencingOk(Exec(s, ls))
  {
    if ls != [] {
      RunKeepsFencing(s, ls[..|ls| - 1]);
      StepKeepsFencing(Exec(s, ls[..|ls| - 1]), ls[|ls| - 1]);
    }
  }

  lemma ReachableFencing(cfg: Config, ls: seq<Label>)
    requires Runs(Init(cfg), ls)
    ensures FencingOk(Exec(Init(cfg), ls))
  {
    RunKeepsFencing(Init(cfg), ls);
  }

  // ---- fencing theorems ----

  /** A generation keeps the one worker it was issued to, over any further run. */
  lemma {:induction false} GenerationIssuedOnce(s: State, ls: seq<Label>, lease: Lease)
    requires FencingOk(s) && Runs(s, ls) && lease in s.leases
    ensures lease in Exec(s, ls).leases && Exec(s, ls).leases[lease] == s.leases[lease]
  {
    if ls != [] {
      var init := ls[..|ls| - 1];
      GenerationIssuedOnce(s, init, lease);
      RunKeepsFencing(s, init);
      StepKeepsLeases(Exec(s, init), ls[|ls| - 1]);
    }
  }

  /** The generations issued for a job are exactly 1 .. lease_generation. */
  lemma IssuedGenerations(cfg: Config, ls: seq<Label>, id: JobId, g: Generation)
    requires Runs(Init(cfg), ls)
    ensures var s := Exec(Init(cfg), ls);
            Lease(id, g) in s.leases <==> id in s.db.jobs && g <= s.db.jobs[id].leaseGeneration
  {
    ReachableFencing(cfg, ls);
    var s := Exec(Init(cfg), ls);
    if Lease(id, g) in s.leases {
      assert LeaseOk(s, Lease(id, g));
    }
    if id in s.db.jobs {
      assert RunnerOk(s, id);
    }
  }

  /** The lease a step presents to the store, if it presents one. */
  function Presented(s: State, h: HolderStep): Option<Lease> {
    match h
    case Renew(lease, _) => Some(lease)
    case ResultFinish(req) => if req in s.results then Some(s.results[req].lease) else None
    case _ => None
  }

  /** A lease that is not the current generation of its job cannot touch the job table or the outbox. */
  lemma OldGenerationIsInert(s: State, h: HolderStep, lease: Lease)
    requires HolderEnabled(s, h) && Presented(s, h) == Some(lease)
    requires lease.job !in s.db.jobs || lease.generation != s.db.jobs[lease.job].leaseGeneration
    ensures HolderApply(s, h).db.jobs == s.db.jobs && HolderApply(s, h).db.outbox == s.db.outbox
  {
  }

  /** After a re-claim, no renewal or result carrying the older generation ever takes effect again. */
  lemma StaleLeaseIsFenced(s: State, ls: seq<Label>, h: HolderStep, lease: Lease)
    requires Runs(s, ls) && HolderEnabled(Exec(s, ls), h)
    requires lease.job in s.db.jobs && lease.generation < s.db.jobs[lease.job].leaseGeneration
    requires Presented(Exec(s, ls), h) == Some(lease)
    ensures var before := Exec(s, ls).db;
            var after := HolderApply(Exec(s, ls), h).db;
            after.jobs == before.jobs && after.outbox == before.outbox
  {
    JobsGrow(s, ls, lease.job);
    OldGenerationIsInert(Exec(s, ls), h, lease);
  }

  /** FinishJob's late path never compares worker ids, yet only the last claimer can pass either path. */
  lemma OnlyLastClaimerFinishes(cfg: Config, ls: seq<Label>, req: nat)
    requires Runs(Init(cfg), ls) && HolderEnabled(Exec(Init(cfg), ls), ResultFinish(req))
    requires var s := Exec(Init(cfg), ls);
             var r := s.results[req];
             r.lease.job in s.db.jobs && FinishAccepted(s.db.jobs[r.lease.job], r.worker, r.lease.generation, r.success)
    ensures var s := Exec(Init(cfg), ls);
            var r := s.results[req];
            && r.lease.generation == s.db.jobs[r.lease.job].leaseGeneration
            && r.lease in s.leases && s.leases[r.lease] == r.worker
  {
    ReachableFencing(cfg, ls);
    assert ResultOk(Exec(Init(cfg), ls), Exec(Init(cfg), ls).results[req]);
  }

  /** The attempt read before the upload, without a lock, is the one FinishJob sees when it accepts. */
  lemma AcceptedResultPassesLogCheck(cfg: Config, ls: seq<Label>, req: nat)
    requires Runs(Init(cfg), ls) && HolderEnabled(Exec(Init(cfg), ls), ResultFinish(req))
    requires var s := Exec(Init(cfg), ls);
             var r := s.results[req];
             r.lease.job in s.db.jobs && FinishAccepted(s.db.jobs[r.lease.job], r.worker, r.lease.generation, r.success)
    ensures FinishOutcome(Exec(Init(cfg), ls), Exec(Init(cfg), ls).results[req]).result.Success?
  {
    var s := Exec(Init(cfg), ls);
    ReachableFencing(cfg, ls);
    assert ResultOk(s, s.results[req]);
    assert JobOk(View(s.db, s.results[req].lease.job));
  }

  /** When the log check does fail: exactly for a result that arrives after a later attempt completed the job. */
  lemma LogCheckFailsExactly(cfg: Config, ls: seq<Label>, req: nat)
    requires Runs(Init(cfg), ls) && HolderEnabled(Exec(Init(cfg), ls), ResultFinish(req))
    ensures var s := Exec(Init(cfg), ls);
            var r := s.results[req];
            FinishOutcome(s, r).result == Failure(AttemptMismatch) <==>
              && r.lease.job in s.db.jobs && s.db.jobs[r.lease.job].status.Completed?
              && r.logs.Uploaded? && r.logs.artifact.attempt < s.db.jobs[r.lease.job].attempt
  {
    var s := Exec(Init(cfg), ls);
    ReachableFencing(cfg, ls);
    assert ResultOk(s, s.results[req]);
    assert JobOk(View(s.db, s.results[req].lease.job));
  }

  /** A result request that breaks off changes no table and cannot finish any more; an object it stored stays. */
  lemma DroppedResultNeverFinishes(s: State, req: nat)
    ensures var s' := HolderApply(s, ResultDrop(req));
            && s'.db == s.db && s'.objects == s.objects && !HolderEnabled(s', ResultFinish(req))
            && forall other :: other != req ==> (other in s'.results <==> other in s.results)
  {
  }

  /** The lease is used up: the job moved past it or is no longer running under it. */
  predicate Spent(v: JobView, g: Generation) {
    && v.job.Some?
    && g <= v.job.value.leaseGeneration
    && (g == v.job.value.leaseGeneration ==> !v.job.value.status.Running?)
  }

  lemma {:induction false} SpentStaysSpent(s: State, ls: seq<Label>, lease: Lease)
    requires Runs(s, ls) && Spent(View(s.db, lease.job), lease.generation)
    ensures Spent(View(Exec(s, ls).db, lease.job), lease.generation)
  {
    if ls != [] {
      var init := ls[..|ls| - 1];
      SpentStaysSpent(s, init, lease);
      StepMovesJob(Exec(s, init), ls[|ls| - 1], lease.job);
    }
  }

  /** A worker told that its lease is lost may stop: in no continuation is the lease ever good again. */
  lemma RefusedRenewalIsFinal(cfg: Config, before: seq<Label>, lease: Lease, ls: seq<Label>)
    requires Runs(Init(cfg), before) && lease in Exec(Init(cfg), before).leases
    requires var s := Exec(Init(cfg), before);
             && RenewLease(s.db, lease.job, s.leases[lease], lease.generation, cfg.lease).result.Failure?
             && Runs(s, ls)
    ensures var s := Exec(Init(cfg), before);
            var t := Exec(s, ls);
            && RenewLease(t.db, lease.job, s.leases[lease], lease.generation, cfg.lease).result == Failure(LeaseLost)
            && forall w, artifact ::
                 var o := FinishJob(t.db, lease.job, w, lease.generation, false, artifact);
                 o.db.jobs == t.db.jobs && o.db.outbox == t.db.outbox
  {
    var s := Exec(Init(cfg), before);
    ReachableFencing(cfg, before);
    assert LeaseOk(s, lease);
    assert RunnerOk(s, lease.job);
    SpentStaysSpent(s, ls, lease);
  }

  lemma AcceptedFailureSpendsLease(s: State, r: ResultRequest)
    requires r.lease.job in s.db.jobs && !r.success
    requires FinishAccepted(s.db.jobs[r.lease.job], r.worker, r.lease.generation, r.success)
    requires FinishOutcome(s, r).result.Success?
    ensures Spent(View(FinishOutcome(s, r).db, r.lease.job), r.lease.generation)
  {
  }

  lemma SpentLeaseCannotFail(s: State, r: ResultRequest)
    requires Spent(View(s.db, r.lease.job), r.lease.generation) && !r.success
    ensures FinishOutcome(s, r).db.jobs == s.db.jobs && FinishOutcome(s, r).db.outbox == s.db.outbox
  {
  }

  /** A failing result takes effect at most once per generation, however often it is sent. */
  lemma FailingFinishOnce(s: State, first: nat, ls: seq<Label>, again: nat)
    requires HolderEnabled(s, ResultFinish(first))
    requires var r := s.results[first];
             !r.success && r.lease.job in s.db.jobs
             && FinishAccepted(s.db.jobs[r.lease.job], r.worker, r.lease.generation, r.success)
             && FinishOutcome(s, r).result.Success?
    requires Runs(HolderApply(s, ResultFinish(first)), ls)
    requires var later := Exec(HolderApply(s, ResultFinish(first)), ls);
             && HolderEnabled(later, ResultFinish(again))
             && later.results[again].lease == s.results[first].lease && !later.results[again].success
    ensures var later := Exec(HolderApply(s, ResultFinish(first)), ls);
            var after := HolderApply(later, ResultFinish(again));
            after.db.jobs == later.db.jobs && after.db.outbox == later.db.outbox
  {
    var r := s.results[first];
    AcceptedFailureSpendsLease(s, r);
    SpentStaysSpent(HolderApply(s, ResultFinish(first)), ls, r.lease);
    var later := Exec(HolderApply(s, ResultFinish(first)), ls);
    SpentLeaseCannotFail(later, later.results[again]);
  }

  /** The reaper's inner join drops nothing: every RUNNING row has a worker row and a lease. */
  lemma JoinLosesNoOrphan(cfg: Config, ls: seq<Label>, id: JobId)
    requires Runs(Init(cfg), ls)
    requires id in Exec(Init(cfg), ls).db.jobs && Exec(Init(cfg), ls).db.jobs[id].status.Running?
    ensures var t := Exec(Init(cfg), ls).db;
            t.jobs[id].assignee.Some? && t.jobs[id].assignee.value in t.workers && t.jobs[id].leaseExpiresAt.Some?
  {
    ReachableFencing(cfg, ls);
    assert JobOk(View(Exec(Init(cfg), ls).db, id));
  }

  lemma ArtifactsNameStoredObjects(cfg: Config, ls: seq<Label>, k: LogKey)
    requires Runs(Init(cfg), ls) && k in Exec(Init(cfg), ls).db.artifacts
    ensures var s := Exec(Init(cfg), ls);
            && s.db.artifacts[k].objectKey == k && k in s.objects
            && k.job in s.db.jobs && 1 <= k.attempt <= s.db.jobs[k.job].attempt
  {
    ReachableFencing(cfg, ls);
  }
}
