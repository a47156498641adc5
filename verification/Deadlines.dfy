/** Workers that renew and beat in time keep their jobs, and workers that fall silent lose theirs. */
module Deadlines {
  import opened Types
  import opened Transactions
  import opened System
  import opened Frames
  import opened JobMoves
  import Effects
  import Reaping

  // ---- what the labels say about one worker and one lease ----

  /** When the lease was last claimed or renewed, read off the steps of the run; `since` is the time before it. */
  ghost function LastRenewal(s: State, ls: seq<Label>, lease: Lease, w: WorkerId, since: Time): Time
    requires Runs(s, ls)
  {
    if ls == [] then since
    else if ls[|ls| - 1] == Holder(Renew(lease, w)) then Exec(s, ls[..|ls| - 1]).db.clock
    else LastRenewal(s, ls[..|ls| - 1], lease, w, since)
  }

  ghost function LastBeat(s: State, ls: seq<Label>, w: WorkerId, since: Time): Time
    requires Runs(s, ls)
  {
    if ls == [] then since
    else if ls[|ls| - 1] in [Registry(Register(w)), Registry(Beat(w))] then Exec(s, ls[..|ls| - 1]).db.clock
    else LastBeat(s, ls[..|ls| - 1], w, since)
  }

  predicate FinishesLease(s: State, l: Label, lease: Lease) {
    l.Holder? && l.holder.ResultFinish? && l.holder.req in s.results && s.results[l.holder.req].lease == lease
  }

  /** The lease one claim or renewal buys. */
  function LeaseLength(cfg: Config): Time {
    LeaseSeconds(cfg.lease) * SECOND
  }

  /**
   Whenever a reaper acts, the last renewal is at most the lease behind its `now` and the last heartbeat at
   most WorkerTimeout; no result for the lease is submitted.
   */
  ghost predicate OnTime(s: State, ls: seq<Label>, lease: Lease, w: WorkerId, renewed: Time, beat: Time)
    requires Runs(s, ls)
  {
    ls == [] ||
    var (init, l) := (ls[..|ls| - 1], ls[|ls| - 1]);
    var before := Exec(s, init);
    && OnTime(s, init, lease, w, renewed, beat)
    && (l.Reaper? && l.reap.Reap? ==>
          before.reapers[l.reap.reaper] <= LastRenewal(s, init, lease, w, renewed) + LeaseLength(s.cfg))
    && (l.Reaper? && l.reap.MarkDead? ==> l.reap.now - s.cfg.workerTimeout <= LastBeat(s, init, w, beat))
    && !FinishesLease(before, l, lease)
  }

  // ---- the job table keeps the same times ----

  /** The worker runs the job under the lease, renewed at `renewed`, and last beat at `beat`. */
  ghost predicate Working(s: State, lease: Lease, w: WorkerId, renewed: Time, beat: Time) {
    && lease.job in s.db.jobs
    && HoldsLease(s.db.jobs[lease.job], w, lease.generation)
    && s.db.jobs[lease.job].leaseExpiresAt == Some(renewed + LeaseLength(s.cfg))
    && w in s.db.workers && s.db.workers[w] == Worker(Active, Some(beat))
  }

  lemma RegistryKeepsWorking(s: State, r: RegistryStep, lease: Lease, w: WorkerId, renewed: Time, beat: Time)
    requires Working(s, lease, w, renewed, beat)
    ensures Working(RegistryApply(s, r), lease, w, renewed, if r in [Register(w), Beat(w)] then s.db.clock else beat)
  {
  }

  lemma ReaperKeepsWorking(s: State, r: ReaperStep, lease: Lease, w: WorkerId, renewed: Time, beat: Time)
    requires ReaperEnabled(s, r) && Working(s, lease, w, renewed, beat)
    requires r.Reap? ==> s.reapers[r.reaper] <= renewed + LeaseLength(s.cfg)
    requires r.MarkDead? ==> r.now - s.cfg.workerTimeout <= beat
    ensures Working(ReaperApply(s, r), lease, w, renewed, beat)
  {
    if r.Reap? {
      assert !Orphan(s.db, lease.job, s.reapers[r.reaper]);
      assert lease.job !in r.order;
      ReapMoves(s.db, r.order, lease.job);
      ReapFrame(s.db, r.order);
      assert View(ReaperApply(s, r).db, lease.job) == View(s.db, lease.job);
    }
  }

  lemma HolderKeepsWorking(s: State, h: HolderStep, lease: Lease, w: WorkerId, renewed: Time, beat: Time)
    requires HolderEnabled(s, h) && Working(s, lease, w, renewed, beat) && !FinishesLease(s, Holder(h), lease)
    ensures Working(HolderApply(s, h), lease, w, if h == Renew(lease, w) then s.db.clock else renewed, beat)
  {
    if h.ResultFinish? {
      var r := s.results[h.req];
      if r.lease.job == lease.job {
        assert r.lease.generation != lease.generation;
      }
      FinishElsewhere(s.db, r, lease);
      HolderFrame(s, h);
    }
  }

  /** A result for another lease leaves this lease's RUNNING row as it is. */
  lemma FinishElsewhere(t: Tables, r: ResultRequest, lease: Lease)
    requires lease.job in t.jobs && t.jobs[lease.job].status.Running?
             && t.jobs[lease.job].leaseGeneration == lease.generation
    requires r.lease != lease
    ensures var t' := FinishJob(t, r.lease.job, r.worker, r.lease.generation, r.success, ArtifactOf(r)).db;
            lease.job in t'.jobs && t'.jobs[lease.job] == t.jobs[lease.job]
  {
  }

  lemma ClientKeepsWorking(s: State, c: ClientStep, lease: Lease, w: WorkerId, renewed: Time, beat: Time)
    requires ClientEnabled(s, c) && Working(s, lease, w, renewed, beat)
    ensures Working(ClientApply(s, c), lease, w, renewed, beat)
  {
    ClientFrame(s, c);
    ClientMoves(s, c, lease.job);
    assert View(ClientApply(s, c).db, lease.job).job == View(s.db, lease.job).job;
  }

  lemma ClaimKeepsWorking(s: State, c: ClaimStep, lease: Lease, w: WorkerId, renewed: Time, beat: Time)
    requires ClaimEnabled(s, c) && Working(s, lease, w, renewed, beat)
    ensures Working(ClaimApply(s, c), lease, w, renewed, beat)
  {
    ClaimFrame(s, c);
  }

  lemma StepKeepsWorking(s: State, l: Label, lease: Lease, w: WorkerId, renewed: Time, beat: Time)
    requires Enabled(s, l) && Working(s, lease, w, renewed, beat) && !FinishesLease(s, l, lease)
    requires l.Reaper? && l.reap.Reap? ==> s.reapers[l.reap.reaper] <= renewed + LeaseLength(s.cfg)
    requires l.Reaper? && l.reap.MarkDead? ==> l.reap.now - s.cfg.workerTimeout <= beat
    ensures Working(Apply(s, l), lease, w,
                    if l == Holder(Renew(lease, w)) then s.db.clock else renewed,
                    if l in [Registry(Register(w)), Registry(Beat(w))] then s.db.clock else beat)
  {
    match l
    case Tick(_, _) =>
    case Client(c) => ClientKeepsWorking(s, c, lease, w, renewed, beat);
    case Registry(r) => RegistryKeepsWorking(s, r, lease, w, renewed, beat);
    case Reaper(r) => ReaperKeepsWorking(s, r, lease, w, renewed, beat);
    case Relay(r) => RelayFrame(s, r);
    case Queue(q) => QueueFrame(s, q);
    case Claiming(c) => ClaimKeepsWorking(s, c, lease, w, renewed, beat);
    case Holder(h) => HolderKeepsWorking(s, h, lease, w, renewed, beat);
  }

  /** An on-time worker is never reaped: until it submits a result, the job stays RUNNING under its lease. */
  lemma {:induction false} OnTimeWorkerKeepsJob(s: State, ls: seq<Label>, lease: Lease, w: WorkerId,
                                                renewed: Time, beat: Time)
    requires Runs(s, ls) && Working(s, lease, w, renewed, beat)
    requires OnTime(s, ls, lease, w, renewed, beat)
    ensures lease.job in Exec(s, ls).db.jobs && HoldsLease(Exec(s, ls).db.jobs[lease.job], w, lease.generation)
    ensures Working(Exec(s, ls), lease, w, LastRenewal(s, ls, lease, w, renewed), LastBeat(s, ls, w, beat))
    ensures Exec(s, ls).cfg == s.cfg
  {
    if ls != [] {
      var (init, l) := (ls[..|ls| - 1], ls[|ls| - 1]);
      OnTimeWorkerKeepsJob(s, init, lease, w, renewed, beat);
      StepKeepsWorking(Exec(s, init), l, lease, w, LastRenewal(s, init, lease, w, renewed), LastBeat(s, init, w, beat));
      Frame(Exec(s, init), l);
    }
  }

  /** A claim by an ACTIVE worker starts such work, its lease counted from the claim. */
  lemma ClaimStartsWork(s: State, c: ClaimStep, beat: Time)
    requires ClaimEnabled(s, c)
    requires var r := Claimant(s, c);
             && r.job in s.db.jobs && s.db.jobs[r.job].status.Dispatched?
             && r.worker in s.db.workers && s.db.workers[r.worker] == Worker(Active, Some(beat))
    ensures var (r, s') := (Claimant(s, c), ClaimApply(s, c));
            && r.job in s'.db.jobs && 1 <= s'.db.jobs[r.job].leaseGeneration == s.db.jobs[r.job].leaseGeneration + 1
            && Working(s', Lease(r.job, s'.db.jobs[r.job].leaseGeneration), r.worker, s.db.clock, beat)
  {
  }

  /** Claims are not refused to DEAD workers, but what such a worker claims may be reaped at once. */
  lemma DeadWorkerClaimsInVain(s: State, c: ClaimStep, now: Time)
    requires ClaimEnabled(s, c)
    requires var r := Claimant(s, c);
             && r.job in s.db.jobs && s.db.jobs[r.job].status.Dispatched?
             && r.worker in s.db.workers && s.db.workers[r.worker].status.Dead?
    ensures Orphan(ClaimApply(s, c).db, Claimant(s, c).job, now)
  {
  }

  // ---- workers that keep their own clock ----

  /** At every point of the run the last renewal is at most `period` ago. */
  ghost predicate Prompt(s: State, ls: seq<Label>, lease: Lease, w: WorkerId, renewed: Time, period: Time)
    requires Runs(s, ls)
  {
    && Exec(s, ls).db.clock <= LastRenewal(s, ls, lease, w, renewed) + period
    && (ls == [] || Prompt(s, ls[..|ls| - 1], lease, w, renewed, period))
  }

  /** At every point of the run the last heartbeat is at most WorkerTimeout ago. */
  ghost predicate Beating(s: State, ls: seq<Label>, w: WorkerId, beat: Time)
    requires Runs(s, ls)
  {
    && Exec(s, ls).db.clock <= LastBeat(s, ls, w, beat) + s.cfg.workerTimeout
    && (ls == [] || Beating(s, ls[..|ls| - 1], w, beat))
  }

  /** No result for the lease reaches FinishJob. */
  ghost predicate Unreported(s: State, ls: seq<Label>, lease: Lease)
    requires Runs(s, ls)
  {
    ls == []
    || (Unreported(s, ls[..|ls| - 1], lease) && !FinishesLease(Exec(s, ls[..|ls| - 1]), ls[|ls| - 1], lease))
  }

  /** A reaper reads the clock when its tick begins. */
  ghost predicate ReapersOk(s: State) {
    forall p :: p in s.reapers ==> s.reapers[p] <= s.db.clock
  }

  lemma StepKeepsReapers(s: State, l: Label)
    requires ReapersOk(s) && Enabled(s, l)
    ensures ReapersOk(Apply(s, l)) && Apply(s, l).cfg == s.cfg
  {
    Frame(s, l);
    if !l.Reaper? {
      ReapersUntouched(s, l);
    }
  }

  lemma ReapersUntouched(s: State, l: Label)
    requires Enabled(s, l) && !l.Reaper?
    ensures Apply(s, l).reapers == s.reapers
  {
    match l
    case Tick(_, _) =>
    case Client(c) => ClientFrame(s, c);
    case Registry(r) => RegistryFrame(s, r);
    case Relay(r) => RelayFrame(s, r);
    case Queue(q) => QueueFrame(s, q);
    case Claiming(c) => ClaimFrame(s, c);
    case Holder(h) => HolderFrame(s, h);
  }

  lemma {:induction false} RunKeepsReapers(s: State, ls: seq<Label>)
    requires ReapersOk(s) && Runs(s, ls)
    ensures ReapersOk(Exec(s, ls)) && Exec(s, ls).cfg == s.cfg
  {
    if ls != [] {
      RunKeepsReapers(s, ls[..|ls| - 1]);
      StepKeepsReapers(Exec(s, ls[..|ls| - 1]), ls[|ls| - 1]);
    }
  }

  /** What the worker sees to on its own is enough for every reaper to find it on time. */
  lemma {:induction false} PromptIsOnTime(s: State, ls: seq<Label>, lease: Lease, w: WorkerId, renewed: Time,
                                          beat: Time)
    requires Runs(s, ls) && ReapersOk(s)
    requires Prompt(s, ls, lease, w, renewed, LeaseLength(s.cfg)) && Beating(s, ls, w, beat) && Unreported(s, ls, lease)
    ensures OnTime(s, ls, lease, w, renewed, beat)
  {
    if ls != [] {
      var init := ls[..|ls| - 1];
      PromptIsOnTime(s, init, lease, w, renewed, beat);
      RunKeepsReapers(s, init);
    }
  }

  /** A worker whose renewals are at most the lease apart and its heartbeats at most WorkerTimeout keeps its job. */
  lemma PromptWorkerKeepsJob(cfg: Config, before: seq<Label>, ls: seq<Label>, lease: Lease, w: WorkerId,
                             renewed: Time, beat: Time)
    requires Runs(Init(cfg), before)
    requires var s := Exec(Init(cfg), before);
             && Working(s, lease, w, renewed, beat) && Runs(s, ls)
             && Prompt(s, ls, lease, w, renewed, LeaseLength(cfg)) && Beating(s, ls, w, beat)
             && Unreported(s, ls, lease)
    ensures var t := Exec(Exec(Init(cfg), before), ls);
            lease.job in t.db.jobs && HoldsLease(t.db.jobs[lease.job], w, lease.generation)
  {
    RunKeepsReapers(Init(cfg), before);
    PromptIsOnTime(Exec(Init(cfg), before), ls, lease, w, renewed, beat);
    OnTimeWorkerKeepsJob(Exec(Init(cfg), before), ls, lease, w, renewed, beat);
  }

  // ---- workers that fall silent ----

  predicate SilentIn(ls: seq<Label>, w: WorkerId) {
    forall i :: 0 <= i < |ls| ==> ls[i] != Registry(Register(w)) && ls[i] != Registry(Beat(w))
  }

  predicate IsDead(t: Tables, w: WorkerId) {
    w in t.workers && t.workers[w].status.Dead?
  }

  lemma StepKeepsDead(s: State, l: Label, w: WorkerId)
    requires Enabled(s, l) && IsDead(s.db, w) && l != Registry(Register(w)) && l != Registry(Beat(w))
    ensures IsDead(Apply(s, l).db, w)
  {
    match l
    case Tick(_, _) =>
    case Client(c) => ClientFrame(s, c);
    case Registry(r) =>
    case Reaper(r) => if r.Reap? { ReapFrame(s.db, r.order); }
    case Relay(r) => RelayFrame(s, r);
    case Queue(q) => QueueFrame(s, q);
    case Claiming(c) => ClaimFrame(s, c);
    case Holder(h) => HolderFrame(s, h);
  }

  /** The dead stay dead until they are heard. */
  lemma {:induction false} SilenceKeepsDead(s: State, ls: seq<Label>, w: WorkerId)
    requires Runs(s, ls) && IsDead(s.db, w) && SilentIn(ls, w)
    ensures IsDead(Exec(s, ls).db, w)
  {
    if ls != [] {
      SilenceKeepsDead(s, ls[..|ls| - 1], w);
      StepKeepsDead(Exec(s, ls[..|ls| - 1]), ls[|ls| - 1], w);
    }
  }

  /** A reap takes from a DEAD worker every job it has, whatever is left of the lease. */
  lemma ReapTakesFromDead(t: Tables, now: Time, order: seq<JobId>, w: WorkerId, id: JobId)
    requires ListsOrphans(t, now, order) && IsDead(t, w) && id in t.jobs
    ensures var t' := ReapInOrder(t, order);
            && id in t'.jobs && (t'.jobs[id].assignee == Some(w) ==> !t'.jobs[id].status.Running?)
            && (t.jobs[id].status.Running? && t.jobs[id].assignee == Some(w) ==>
                  Effects.GivenUp(t.jobs[id], t'.jobs[id], t.clock))
  {
    Reaping.ReapIsSetUpdate(t, order);
    if t.jobs[id].status.Running? && t.jobs[id].assignee == Some(w) {
      assert Orphan(t, id, now);
    }
  }

  /**
   A worker not heard for longer than WorkerTimeout when a reaper's tick begins, nor during the tick, holds no lease
   once the tick is over: each job it was running is given up, also under a lease that has not run out, and whatever
   other parties do between the two steps of the tick.
   */
  lemma SilentWorkerLosesJob(s: State, p: nat, ls: seq<Label>, order: seq<JobId>, w: WorkerId, id: JobId)
    requires w in s.db.workers && Effects.HeardBefore(s.db.workers[w], s.db.clock - s.cfg.workerTimeout)
    requires var first := Apply(s, Reaper(MarkDead(p, s.db.clock)));
             Runs(first, ls) && SilentIn(ls, w) && Enabled(Exec(first, ls), Reaper(Reap(p, order)))
    ensures var t := Exec(Apply(s, Reaper(MarkDead(p, s.db.clock))), ls);
            var u := Apply(t, Reaper(Reap(p, order)));
            && (id in u.db.jobs ==> forall g :: !HoldsLease(u.db.jobs[id], w, g))
            && (id in t.db.jobs && t.db.jobs[id].status.Running? && t.db.jobs[id].assignee == Some(w) ==>
                  id in u.db.jobs && Effects.GivenUp(t.db.jobs[id], u.db.jobs[id], t.db.clock))
  {
    var first := Apply(s, Reaper(MarkDead(p, s.db.clock)));
    SilenceKeepsDead(first, ls, w);
    var t := Exec(first, ls);
    ReapFrame(t.db, order);
    if id in t.db.jobs {
      ReapTakesFromDead(t.db, t.reapers[p], order, w, id);
    }
  }
}
