/** The life of one job over whole runs: its attempt budget, its outbox rows, termination and finality. */
module JobLifecycle {
  import opened Types
  import opened Transactions
  import opened System
  import opened JobMoves

  // ---- the invariant of one job ----

  /** Attempts 0, 1, 2, ... once each in insertion order; the first goes to main, the others to retry. */
  ghost predicate InSequence(ds: seq<Dispatch>) {
    forall i :: 0 <= i < |ds| ==> ds[i] == Dispatch(if i == 0 then Main else Retry, i)
  }

  ghost predicate Budgeted(j: Job) {
    && j.attempt == j.leaseGeneration
    && 1 <= j.maxAttempts
    && match j.status
       case New => j.attempt == 0
       case Dispatched => 0 <= j.attempt < j.maxAttempts
       case Running => 1 <= j.attempt <= j.maxAttempts
       case Completed => 1 <= j.attempt <= j.maxAttempts
       case Failed => j.attempt == j.maxAttempts
  }

  /** A late finish leaves the assignee empty; every other way into COMPLETED keeps it. */
  predicate CompletedLate(j: Job) {
    j.status.Completed? && j.assignee.None?
  }

  /** Who holds the row: only RUNNING rows have a lease, and a worker exactly when one was claiming. */
  ghost predicate Tenured(j: Job) {
    && (j.leaseExpiresAt.Some? <==> j.status.Running?)
    && (j.status.Running? || j.status.Failed? ==> j.assignee.Some?)
    && (j.status.New? || j.status.Dispatched? ==> j.assignee.None?)
    && (CompletedLate(j) ==> j.attempt < j.maxAttempts)
  }

  /** A row was started when it was first claimed, and finished when it ended. */
  predicate Stamped(j: Job) {
    && (j.startedAt.Some? <==> 1 <= j.attempt)
    && (j.finishedAt.Some? <==> j.status.Terminal())
  }

  function RowsOwed(j: Job): int {
    if j.status.Dispatched? || CompletedLate(j) then j.attempt + 1 else j.attempt
  }

  ghost predicate JobOk(v: JobView) {
    && InSequence(v.dispatches)
    && match v.job
       case None => v.dispatches == []
       case Some(j) => Budgeted(j) && Tenured(j) && Stamped(j) && |v.dispatches| == RowsOwed(j)
  }

  lemma MoveKeepsJobOk(v: JobView, v': JobView)
    requires JobOk(v) && Move(v, v')
    ensures JobOk(v')
  {
  }

  ghost predicate JobsOk(t: Tables) {
    forall id :: JobOk(View(t, id))
  }

  lemma StepKeepsJobsOk(s: State, l: Label)
    requires JobsOk(s.db) && Enabled(s, l)
    ensures JobsOk(Apply(s, l).db)
  {
    forall id ensures JobOk(View(Apply(s, l).db, id)) {
      StepMovesJob(s, l, id);
      MoveKeepsJobOk(View(s.db, id), View(Apply(s, l).db, id));
    }
  }

  lemma {:induction false} RunKeepsJobsOk(s: State, ls: seq<Label>)
    requires JobsOk(s.db) && Runs(s, ls)
    ensures JobsOk(Exec(s, ls).db)
  {
    if ls != [] {
      RunKeepsJobsOk(s, ls[..|ls| - 1]);
      StepKeepsJobsOk(Exec(s, ls[..|ls| - 1]), ls[|ls| - 1]);
    }
  }

  lemma ReachableJobsOk(cfg: Config, ls: seq<Label>)
    requires Runs(Init(cfg), ls)
    ensures JobsOk(Exec(Init(cfg), ls).db)
  {
    RunKeepsJobsOk(Init(cfg), ls);
  }

  // ---- what it says in every reachable state ----

  /** Nothing checks max_attempts at claim time, yet no job is ever claimed beyond its budget. */
  lemma AttemptBudget(cfg: Config, ls: seq<Label>, id: JobId)
    requires Runs(Init(cfg), ls)
    requires id in Exec(Init(cfg), ls).db.jobs
    ensures var j := Exec(Init(cfg), ls).db.jobs[id];
            && j.attempt == j.leaseGeneration
            && (j.status.New? || j.status.Dispatched? ==> 0 <= j.attempt < j.maxAttempts)
            && (j.status.Running? || j.status.Completed? ==> 1 <= j.attempt <= j.maxAttempts)
            && (j.status.Failed? ==> j.attempt == j.maxAttempts)
  {
    ReachableJobsOk(cfg, ls);
    assert JobOk(View(Exec(Init(cfg), ls).db, id));
  }

  /** The columns of a row agree with its status: lease, worker, start and end. */
  lemma RowsAreConsistent(cfg: Config, ls: seq<Label>, id: JobId)
    requires Runs(Init(cfg), ls)
    requires id in Exec(Init(cfg), ls).db.jobs
    ensures var j := Exec(Init(cfg), ls).db.jobs[id];
            && (j.leaseExpiresAt.Some? <==> j.status.Running?)
            && (j.status.Running? || j.status.Failed? ==> j.assignee.Some?)
            && (j.status.New? || j.status.Dispatched? ==> j.assignee.None?)
            && (j.startedAt.Some? <==> 1 <= j.attempt)
            && (j.finishedAt.Some? <==> j.status.Completed? || j.status.Failed?)
  {
    ReachableJobsOk(cfg, ls);
    assert JobOk(View(Exec(Init(cfg), ls).db, id));
  }

  lemma OutboxConservation(cfg: Config, ls: seq<Label>, id: JobId)
    requires Runs(Init(cfg), ls)
    ensures var v := View(Exec(Init(cfg), ls).db, id);
            && (forall i :: 0 <= i < |v.dispatches| ==> v.dispatches[i] == Dispatch(if i == 0 then Main else Retry, i))
            && (v.job.None? ==> v.dispatches == [])
            && (v.job.Some? ==>
                  var j := v.job.value;
                  && |v.dispatches| == j.attempt + (if j.status.Dispatched? || CompletedLate(j) then 1 else 0)
                  && |v.dispatches| <= j.maxAttempts)
  {
    ReachableJobsOk(cfg, ls);
    assert JobOk(View(Exec(Init(cfg), ls).db, id));
  }

  // ---- finality ----

  predicate Ended(v: JobView) {
    v.job.Some? && v.job.value.status.Terminal()
  }

  /** Once COMPLETED or FAILED, nothing any party does changes the row or adds an outbox row. */
  lemma {:induction false} TerminalIsFinal(s: State, ls: seq<Label>, id: JobId)
    requires Runs(s, ls) && Ended(View(s.db, id))
    ensures View(Exec(s, ls).db, id) == View(s.db, id)
  {
    if ls != [] {
      var init := ls[..|ls| - 1];
      TerminalIsFinal(s, init, id);
      StepMovesJob(Exec(s, init), ls[|ls| - 1], id);
    }
  }

  /** A message left over for an ended job is acknowledged as a claim conflict and changes nothing else. */
  lemma LeftoverMessageConflicts(s: State, i: nat)
    requires ClaimEnabled(s, Claim(i))
    requires var v := View(s.db, s.broker.unacked[i].msg.job); Ended(v) || v.job.None?
    ensures ClaimApply(s, Claim(i))
            == s.(broker := s.broker.(unacked := s.broker.unacked[i := s.broker.unacked[i].(verdict := Conflict)]))
    ensures QueueEnabled(ClaimApply(s, Claim(i)), Settle(i, true))
  {
  }

  // ---- monotonicity ----

  predicate Grows(v: JobView, v': JobView) {
    && v.dispatches <= v'.dispatches
    && (v.job.Some? ==>
          && v'.job.Some?
          && v.job.value.attempt <= v'.job.value.attempt
          && v.job.value.leaseGeneration <= v'.job.value.leaseGeneration
          && v.job.value.maxAttempts == v'.job.value.maxAttempts
          && v.job.value.spec == v'.job.value.spec
          && v.job.value.createdAt == v'.job.value.createdAt
          && (v.job.value.startedAt.Some? ==> v'.job.value.startedAt == v.job.value.startedAt)
          && v.job.value.idempotencyKey == v'.job.value.idempotencyKey)
  }

  lemma MoveGrows(v: JobView, v': JobView)
    requires Move(v, v')
    ensures Grows(v, v')
  {
  }

  lemma StepGrows(s: State, l: Label, id: JobId)
    requires Enabled(s, l)
    ensures Grows(View(s.db, id), View(Apply(s, l).db, id))
  {
    StepMovesJob(s, l, id);
    MoveGrows(View(s.db, id), View(Apply(s, l).db, id));
  }

  lemma GrowsTransitive(u: JobView, v: JobView, w: JobView)
    requires Grows(u, v) && Grows(v, w)
    ensures Grows(u, w)
  {
  }

  /** Jobs are never deleted, generations and outbox histories only grow, the request and the first start stay. */
  lemma {:induction false} JobsGrow(s: State, ls: seq<Label>, id: JobId)
    requires Runs(s, ls)
    ensures Grows(View(s.db, id), View(Exec(s, ls).db, id))
  {
    if ls != [] {
      var init := ls[..|ls| - 1];
      JobsGrow(s, init, id);
      StepGrows(Exec(s, init), ls[|ls| - 1], id);
      GrowsTransitive(View(s.db, id), View(Exec(s, init).db, id), View(Exec(s, ls).db, id));
    }
  }

  // ---- termination ----

  /** Status changes still possible: two per attempt left, one to leave NEW or RUNNING, none once ended. */
  function Potential(j: Job): int {
    if j.status.Terminal() then 0
    else 2 * (j.maxAttempts - j.attempt) + if j.status.Dispatched? then 0 else 1
  }

  predicate Changes(v: JobView, v': JobView) {
    v.job.Some? && v'.job.Some? && v.job.value.status != v'.job.value.status
  }

  lemma MoveSpendsPotential(v: JobView, v': JobView)
    requires JobOk(v) && Move(v, v') && v.job.Some?
    ensures 0 <= Potential(v'.job.value)
    ensures Potential(v'.job.value) + (if Changes(v, v') then 1 else 0) <= Potential(v.job.value)
  {
  }

  ghost function StatusChanges(s: State, ls: seq<Label>, id: JobId): nat
    requires Runs(s, ls)
  {
    if ls == [] then 0
    else
      var init := ls[..|ls| - 1];
      StatusChanges(s, init, id)
      + if Changes(View(Exec(s, init).db, id), View(Exec(s, ls).db, id)) then 1 else 0
  }

  lemma StepSpendsPotential(s: State, l: Label, id: JobId)
    requires JobsOk(s.db) && Enabled(s, l)
    ensures id in s.db.jobs ==> id in Apply(s, l).db.jobs
    ensures id in Apply(s, l).db.jobs ==>
              var (v, v') := (View(s.db, id), View(Apply(s, l).db, id));
              && 0 <= Potential(v'.job.value)
              && (if v.job.Some?
                  then v'.job.value.maxAttempts == v.job.value.maxAttempts
                       && Potential(v'.job.value) + (if Changes(v, v') then 1 else 0) <= Potential(v.job.value)
                  else Potential(v'.job.value) <= 2 * v'.job.value.maxAttempts + 1)
  {
    StepMovesJob(s, l, id);
    assert JobOk(View(s.db, id));
    if id in s.db.jobs {
      MoveKeepsJob(View(s.db, id), View(Apply(s, l).db, id));
      MoveSpendsPotential(View(s.db, id), View(Apply(s, l).db, id));
    } else if id in Apply(s, l).db.jobs {
      BirthGrantsPotential(View(s.db, id), View(Apply(s, l).db, id));
    }
  }

  lemma MoveKeepsJob(v: JobView, v': JobView)
    requires Move(v, v') && v.job.Some?
    ensures v'.job.Some? && v'.job.value.maxAttempts == v.job.value.maxAttempts
  {
  }

  lemma BirthGrantsPotential(v: JobView, v': JobView)
    requires JobOk(v) && Move(v, v') && v.job.None? && v'.job.Some?
    ensures 0 <= Potential(v'.job.value) <= 2 * v'.job.value.maxAttempts + 1
  {
  }

  /** From any state, the changes a run makes are paid for out of the potential. */
  lemma {:induction false} ChangesArePaid(s: State, ls: seq<Label>, id: JobId)
    requires JobsOk(s.db) && Runs(s, ls) && id in s.db.jobs
    ensures id in Exec(s, ls).db.jobs
    ensures StatusChanges(s, ls, id) + Potential(Exec(s, ls).db.jobs[id]) <= Potential(s.db.jobs[id])
  {
    if ls != [] {
      var init := ls[..|ls| - 1];
      ChangesArePaid(s, init, id);
      RunKeepsJobsOk(s, init);
      StepSpendsPotential(Exec(s, init), ls[|ls| - 1], id);
    }
  }

  /** A job born in a run has changed status at most 2 * max_attempts + 1 times, minus what it can still do. */
  lemma {:induction false} StatusChangesBounded(cfg: Config, ls: seq<Label>, id: JobId)
    requires Runs(Init(cfg), ls)
    ensures id !in Exec(Init(cfg), ls).db.jobs ==> StatusChanges(Init(cfg), ls, id) == 0
    ensures id in Exec(Init(cfg), ls).db.jobs ==>
              var j := Exec(Init(cfg), ls).db.jobs[id];
              0 <= Potential(j) && StatusChanges(Init(cfg), ls, id) + Potential(j) <= 2 * j.maxAttempts + 1
  {
    if ls != [] {
      var init := ls[..|ls| - 1];
      StatusChangesBounded(cfg, init, id);
      ReachableJobsOk(cfg, init);
      StepSpendsPotential(Exec(Init(cfg), init), ls[|ls| - 1], id);
    }
  }
}
