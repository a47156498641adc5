/** What the worker's default renewal interval is good for: which settings survive lost renewals, over all runs. */
module Renewals {
  import opened Types
  import opened Transactions
  import opened System
  import opened Frames
  import opened Deadlines
  import opened Recovery
  import opened Scenarios

  const DEFAULT_JOB_LEASE: Time := 1800 * SECOND
  const MIN_RENEW_INTERVAL: Time := 30 * SECOND

  /** worker.New: an unset lease means 30 minutes, an unset interval a third of the lease, but at least 30 seconds. */
  function RenewInterval(jobLease: Time, configured: Time): (interval: Time)
    ensures interval >= 1
  {
    if configured > 0 then configured
    else
      var lease := if jobLease <= 0 then DEFAULT_JOB_LEASE else jobLease;
      if lease / 3 < MIN_RENEW_INTERVAL then MIN_RENEW_INTERVAL else lease / 3
  }

  // ---- the renewal loop in a run ----

  /** The ticker fires every `step` from one accepted renewal on; `lost` renewals may fail before the next. */
  predicate AtTick(waited: Time, step: Time, lost: nat) {
    exists k :: 1 <= k <= lost + 1 && waited == k * step
  }

  /**
   Every renewal comes at a tick of the loop, and at most `lost` in a row fail: the time of the tick after that does
   not pass without a renewal.
   */
  ghost predicate Paced(s: State, ls: seq<Label>, lease: Lease, w: WorkerId, renewed: Time, step: Time, lost: nat)
    requires Runs(s, ls)
  {
    Prompt(s, ls, lease, w, renewed, (lost + 1) * step) && OnTicks(s, ls, lease, w, renewed, step, lost)
  }

  ghost predicate OnTicks(s: State, ls: seq<Label>, lease: Lease, w: WorkerId, renewed: Time, step: Time, lost: nat)
    requires Runs(s, ls)
  {
    ls == [] ||
    var init := ls[..|ls| - 1];
    && OnTicks(s, init, lease, w, renewed, step, lost)
    && (ls[|ls| - 1] == Holder(Renew(lease, w)) ==>
          AtTick(Exec(s, init).db.clock - LastRenewal(s, init, lease, w, renewed), step, lost))
  }

  /** From a claim or renewal on, the worker renews at the default interval, beats in time and has not reported. */
  ghost predicate Episode(cfg: Config, lost: nat, before: seq<Label>, ls: seq<Label>, lease: Lease, w: WorkerId,
                          beat: Time)
  {
    && Runs(Init(cfg), before)
    && var s := Exec(Init(cfg), before);
    && Working(s, lease, w, s.db.clock, beat) && Runs(s, ls)
    && Paced(s, ls, lease, w, s.db.clock, RenewInterval(cfg.lease, 0), lost)
    && Beating(s, ls, w, beat) && Unreported(s, ls, lease)
  }

  predicate Holds(s: State, lease: Lease, w: WorkerId) {
    lease.job in s.db.jobs && HoldsLease(s.db.jobs[lease.job], w, lease.generation)
  }

  /** Whatever else happens, a worker that loses at most `lost` renewals in a row still holds its job. */
  ghost predicate Survives(cfg: Config, lost: nat) {
    forall before, ls, lease, w, beat :: Episode(cfg, lost, before, ls, lease, w, beat) ==>
      Holds(Exec(Exec(Init(cfg), before), ls), lease, w)
  }

  // ---- long enough leases ----

  lemma {:induction false} PromptWithin(s: State, ls: seq<Label>, lease: Lease, w: WorkerId, renewed: Time,
                                        period: Time, longer: Time)
    requires Runs(s, ls) && Prompt(s, ls, lease, w, renewed, period) && period <= longer
    ensures Prompt(s, ls, lease, w, renewed, longer)
  {
    if ls != [] {
      PromptWithin(s, ls[..|ls| - 1], lease, w, renewed, period, longer);
    }
  }

  lemma LongLeaseSurvives(cfg: Config, lost: nat)
    requires (lost + 1) * RenewInterval(cfg.lease, 0) <= LeaseLength(cfg)
    ensures Survives(cfg, lost)
  {
    forall before, ls, lease, w, beat | Episode(cfg, lost, before, ls, lease, w, beat)
      ensures Holds(Exec(Exec(Init(cfg), before), ls), lease, w)
    {
      var s := Exec(Init(cfg), before);
      PromptWithin(s, ls, lease, w, s.db.clock, (lost + 1) * RenewInterval(cfg.lease, 0), LeaseLength(cfg));
      PromptWorkerKeepsJob(cfg, before, ls, lease, w, s.db.clock, beat);
    }
  }

  // ---- leases that are too short ----

  /** The worker does nothing but beat, once a nanosecond. */
  function Beats(clock: Time, w: WorkerId, d: nat): seq<Label> {
    if d == 0 then [] else Beats(clock, w, d - 1) + [Tick(1, clock)] + [Registry(Beat(w))]
  }

  /** The worker sends neither renewals nor results. */
  ghost predicate Silent(ls: seq<Label>) {
    forall i :: 0 <= i < |ls| ==> !ls[i].Holder?
  }

  lemma {:induction false} SilentPast(s: State, ls: seq<Label>, lease: Lease, w: WorkerId, renewed: Time, step: Time,
                                      lost: nat)
    requires Runs(s, ls) && Silent(ls)
    ensures LastRenewal(s, ls, lease, w, renewed) == renewed
    ensures OnTicks(s, ls, lease, w, renewed, step, lost) && Unreported(s, ls, lease)
  {
    if ls != [] {
      SilentPast(s, ls[..|ls| - 1], lease, w, renewed, step, lost);
    }
  }

  lemma {:induction false} SilentIsPrompt(s: State, ls: seq<Label>, lease: Lease, w: WorkerId, renewed: Time,
                                          period: Time)
    requires Runs(s, ls) && Silent(ls) && Exec(s, ls).db.clock <= renewed + period
    ensures Prompt(s, ls, lease, w, renewed, period)
  {
    SilentPast(s, ls, lease, w, renewed, 1, 0);
    if ls != [] {
      Frame(Exec(s, ls[..|ls| - 1]), ls[|ls| - 1]);
      SilentIsPrompt(s, ls[..|ls| - 1], lease, w, renewed, period);
    }
  }

  /** One more label after a run in which the worker beat in time. */
  lemma BeatingOneMore(s: State, ls: seq<Label>, l: Label, t: State, w: WorkerId, beat: Time)
    requires Runs(s, ls) && Beating(s, ls, w, beat) && Enabled(Exec(s, ls), l) && Apply(Exec(s, ls), l) == t
    requires !l.Registry? && t.db.clock <= LastBeat(s, ls, w, beat) + s.cfg.workerTimeout
    ensures Runs(s, ls + [l]) && Exec(s, ls + [l]) == t && Beating(s, ls + [l], w, beat)
    ensures LastBeat(s, ls + [l], w, beat) == LastBeat(s, ls, w, beat)
  {
    RunOneMore(s, ls, l);
    assert (ls + [l])[..|ls|] == ls;
  }

  lemma BeatIsLast(s: State, ls: seq<Label>, w: WorkerId, beat: Time)
    requires Runs(s, ls) && Runs(s, ls + [Registry(Beat(w))])
    ensures LastBeat(s, ls + [Registry(Beat(w))], w, beat) == Exec(s, ls).db.clock
  {
    assert (ls + [Registry(Beat(w))])[..|ls|] == ls;
  }

  lemma BeatingBeats(s: State, ls: seq<Label>, t: State, w: WorkerId, beat: Time)
    requires Runs(s, ls) && Beating(s, ls, w, beat) && Apply(Exec(s, ls), Registry(Beat(w))) == t
    requires t.db.clock == Exec(s, ls).db.clock && 0 <= s.cfg.workerTimeout
    ensures Runs(s, ls + [Registry(Beat(w))]) && Exec(s, ls + [Registry(Beat(w))]) == t
    ensures Beating(s, ls + [Registry(Beat(w))], w, beat)
            && LastBeat(s, ls + [Registry(Beat(w))], w, beat) == t.db.clock
  {
    var ks := ls + [Registry(Beat(w))];
    RunOneMore(s, ls, Registry(Beat(w)));
    BeatIsLast(s, ls, w, beat);
    assert ks[..|ks| - 1] == ls;
  }

  /** After the run the worker has just beaten, `d` nanoseconds on, and no job has changed. */
  ghost predicate BeatenTo(s: State, ls: seq<Label>, w: WorkerId, d: nat) {
    && Runs(s, ls) && Silent(ls) && Beating(s, ls, w, s.db.clock) && LastBeat(s, ls, w, s.db.clock) == s.db.clock + d
    && var t := Exec(s, ls);
    && t.cfg == s.cfg && t.db.jobs == s.db.jobs && t.db.clock == s.db.clock + d
    && w in t.db.workers && t.db.workers[w] == Worker(Active, Some(t.db.clock))
  }

  lemma BeatOnce(s: State, ls: seq<Label>, w: WorkerId, d: nat)
    requires BeatenTo(s, ls, w, d) && 1 <= s.cfg.workerTimeout
    ensures BeatenTo(s, ls + [Tick(1, s.db.clock)] + [Registry(Beat(w))], w, d + 1)
  {
    var t := Exec(s, ls);
    var u := t.(db := t.db.(clock := t.db.clock + 1, began := s.db.clock));
    BeatingOneMore(s, ls, Tick(1, s.db.clock), u, w, s.db.clock);
    var v := u.(db := Heartbeat(u.db, w).db);
    BeatingBeats(s, ls + [Tick(1, s.db.clock)], v, w, s.db.clock);
  }

  lemma {:induction false} BeatsRun(s: State, w: WorkerId, d: nat)
    requires w in s.db.workers && s.db.workers[w] == Worker(Active, Some(s.db.clock)) && 1 <= s.cfg.workerTimeout
    ensures BeatenTo(s, Beats(s.db.clock, w, d), w, d)
  {
    if d > 0 {
      BeatsRun(s, w, d - 1);
      BeatOnce(s, Beats(s.db.clock, w, d - 1), w, d - 1);
    }
  }

  lemma SingleStep(s: State, l: Label)
    requires Runs(s, [l])
    ensures Enabled(s, l) && Apply(s, l) == Exec(s, [l])
  {
    assert [l][..|[l]| - 1] == [];
  }

  /** A reaper tick begins after the lease has run out: the job is an orphan, though its worker beats. */
  lemma LeaseHasRunOut(s: State, lease: Lease, w: WorkerId, renewed: Time)
    requires Working(s, lease, w, renewed, s.db.clock) && renewed + LeaseLength(s.cfg) < s.db.clock
    ensures var u := Apply(s, Reaper(MarkDead(0, s.db.clock)));
            && u.db.clock == s.db.clock && 0 in u.reapers && Orphan(u.db, lease.job, u.reapers[0])
  {
  }

  lemma OrphanIsTaken(s: State, lease: Lease, w: WorkerId) returns (l: Label)
    requires Sound(s) && 0 in s.reapers && Orphan(s.db, lease.job, s.reapers[0])
    ensures l.Reaper? && Enabled(s, l) && Apply(s, l).db.clock == s.db.clock && !Holds(Apply(s, l), lease, w)
  {
    l := ReaperFreesOrphan(s, lease.job, Crew(w, 0, 0, 0));
    SingleStep(s, l);
    Frame(s, l);
  }

  lemma ReaperTickBegins(s: State, ls: seq<Label>, lease: Lease, w: WorkerId, renewed: Time) returns (ks: seq<Label>)
    requires Sound(s) && Runs(s, ls) && Silent(ls) && Beating(s, ls, w, s.db.clock) && 0 <= s.cfg.workerTimeout
    requires var t := Exec(s, ls);
             && LastBeat(s, ls, w, s.db.clock) == t.db.clock
             && Working(t, lease, w, renewed, t.db.clock) && renewed + LeaseLength(t.cfg) < t.db.clock
    ensures Runs(s, ks) && Silent(ks) && Beating(s, ks, w, s.db.clock)
    ensures var u := Exec(s, ks);
            && u.db.clock == Exec(s, ls).db.clock == LastBeat(s, ks, w, s.db.clock)
            && Sound(u) && 0 in u.reapers && Orphan(u.db, lease.job, u.reapers[0])
  {
    var t := Exec(s, ls);
    var mark := Reaper(MarkDead(0, t.db.clock));
    LeaseHasRunOut(t, lease, w, renewed);
    BeatingOneMore(s, ls, mark, Apply(t, mark), w, s.db.clock);
    ks := ls + [mark];
    RunKeepsSound(s, ks);
  }

  /** A run may end with a reaper tick if the lease has run out by then, which takes the job away. */
  lemma ReaperTickTakes(s: State, ls: seq<Label>, lease: Lease, w: WorkerId, renewed: Time) returns (ks: seq<Label>)
    requires Sound(s) && Runs(s, ls) && Silent(ls) && Beating(s, ls, w, s.db.clock) && 0 <= s.cfg.workerTimeout
    requires var t := Exec(s, ls);
             && LastBeat(s, ls, w, s.db.clock) == t.db.clock
             && Working(t, lease, w, renewed, t.db.clock) && renewed + LeaseLength(t.cfg) < t.db.clock
    ensures Runs(s, ks) && Silent(ks) && Beating(s, ks, w, s.db.clock)
    ensures Exec(s, ks).db.clock == Exec(s, ls).db.clock && !Holds(Exec(s, ks), lease, w)
  {
    var begun := ReaperTickBegins(s, ls, lease, w, renewed);
    var u := Exec(s, begun);
    var reap := OrphanIsTaken(u, lease, w);
    BeatingOneMore(s, begun, reap, Apply(u, reap), w, s.db.clock);
    ks := begun + [reap];
  }

  /** The lease runs out while the worker only beats; a reaper tick takes the job away. */
  lemma SilentWorkerIsReaped(s: State, lease: Lease, w: WorkerId) returns (ls: seq<Label>)
    requires Sound(s) && Working(s, lease, w, s.db.clock, s.db.clock) && 1 <= s.cfg.workerTimeout
    ensures Runs(s, ls) && Silent(ls) && Beating(s, ls, w, s.db.clock)
    ensures Exec(s, ls).db.clock == s.db.clock + LeaseLength(s.cfg) + 1 && !Holds(Exec(s, ls), lease, w)
  {
    var d := LeaseLength(s.cfg) + 1;
    BeatsRun(s, w, d);
    ls := ReaperTickTakes(s, Beats(s.db.clock, w, d), lease, w, s.db.clock);
  }

  /** A worker that has just claimed the only job of a deployment. */
  lemma JobIsClaimed(cfg: Config) returns (before: seq<Label>, s: State, lease: Lease, w: WorkerId)
    ensures Leads(Init(cfg), before, s) && s.cfg == cfg && Working(s, lease, w, s.db.clock, s.db.clock)
  {
    w := WorkerId(0);
    var m := Message(JobId(0), 0);
    var first, s0 := AttemptsFail(cfg, m.job, w, JobSpec("", "", "", "", Local, 0), 1, 0);
    var claim;
    claim, s, lease := WorkerClaims(s0, w, m);
    Then(Init(cfg), first, s0, claim, s);
    before := first + claim;
    RunKeepsReapers(Init(cfg), before);
  }

  lemma ShortLeaseFails(cfg: Config, lost: nat)
    requires 1 <= cfg.workerTimeout && LeaseLength(cfg) < (lost + 1) * RenewInterval(cfg.lease, 0)
    ensures !Survives(cfg, lost)
  {
    var before, s, lease, w := JobIsClaimed(cfg);
    ReachableSound(cfg, before);
    var ls := SilentWorkerIsReaped(s, lease, w);
    var step := RenewInterval(cfg.lease, 0);
    SilentPast(s, ls, lease, w, s.db.clock, step, lost);
    SilentIsPrompt(s, ls, lease, w, s.db.clock, (lost + 1) * step);
    assert Episode(cfg, lost, before, ls, lease, w, s.db.clock);
  }

  // ---- the settings ----

  /** A worker survives `lost` lost renewals in a row, in every run, if and only if the next still meets the lease. */
  lemma SurvivesExactly(cfg: Config, lost: nat)
    requires 1 <= cfg.workerTimeout
    ensures Survives(cfg, lost) <==> (lost + 1) * RenewInterval(cfg.lease, 0) <= LeaseLength(cfg)
  {
    if (lost + 1) * RenewInterval(cfg.lease, 0) <= LeaseLength(cfg) {
      LongLeaseSurvives(cfg, lost);
    } else {
      ShortLeaseFails(cfg, lost);
    }
  }

  /** Go truncates the lease to whole seconds, and divides it by three in nanoseconds. */
  lemma LeaseParts(lease: Time)
    ensures lease == 3 * (lease / 3) + lease % 3
    ensures lease == SECOND * (lease / SECOND) + lease % SECOND
  {
  }

  lemma TwoIntervalsLate(lease: Time)
    ensures 3 * RenewInterval(lease, 0) <= LeaseSeconds(lease) * SECOND <==>
              lease < SECOND || (90 * SECOND <= lease && lease % SECOND <= lease % 3)
  {
    LeaseParts(lease);
  }

  lemma OneInterval(lease: Time)
    ensures 1 * RenewInterval(lease, 0) <= LeaseSeconds(lease) * SECOND <==> lease < SECOND || 30 * SECOND <= lease
  {
    LeaseParts(lease);
  }

  /**
   Two lost renewals in a row are survived exactly by these settings: the scheduler cuts the lease to whole seconds.
   */
  lemma TwoLossesSurvivedExactly(cfg: Config)
    requires 1 <= cfg.workerTimeout
    ensures Survives(cfg, 2) <==>
              cfg.lease < SECOND || (90 * SECOND <= cfg.lease && cfg.lease % SECOND <= cfg.lease % 3)
  {
    SurvivesExactly(cfg, 2);
    TwoIntervalsLate(cfg.lease);
  }

  /** With a lease between one and thirty seconds the first renewal already comes too late. */
  lemma FirstRenewalInTimeExactly(cfg: Config)
    requires 1 <= cfg.workerTimeout
    ensures Survives(cfg, 0) <==> cfg.lease < SECOND || 30 * SECOND <= cfg.lease
  {
    SurvivesExactly(cfg, 0);
    OneInterval(cfg.lease);
  }
}
