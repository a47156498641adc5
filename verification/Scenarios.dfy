/** Runs that show the exceptions in the theorems to be real: each of them happens in every deployment. */
module Scenarios {
  import opened Types
  import opened Transactions
  import opened System
  import opened Frames
  import opened JobMoves
  import opened JobLifecycle
  import opened Fencing
  import opened NoLostDispatch
  import opened Recovery
  import opened DeadLetters

  // ---- putting runs together ----

  /** The run leads from `s` to `t`, and every handler in it reports at most once. */
  ghost predicate Leads(s: State, ls: seq<Label>, t: State) {
    Runs(s, ls) && Exec(s, ls) == t && NoneRepeats(ls)
  }

  lemma Step(s: State, l: Label, t: State)
    requires Enabled(s, l) && Apply(s, l) == t && !Repeats(l)
    ensures Leads(s, [l], t)
  {
    OneStep(s, l);
  }

  lemma Then(s: State, ls: seq<Label>, t: State, ks: seq<Label>, u: State)
    requires Leads(s, ls, t) && Leads(t, ks, u)
    ensures Leads(s, ls + ks, u)
  {
    RunsConcat(s, ls, ks);
  }

  // ---- one job, one worker ----

  /** One created job, one registered worker, and nothing published yet. */
  function OneJobState(cfg: Config, id: JobId, w: WorkerId, spec: JobSpec, limit: int): State {
    var t := Tables(0, 0, map[], [], map[w := Worker(Active, Some(0))], map[]);
    Init(cfg).(db := CreateAndDispatch(t, id, Params(spec, limit, "")).db, replies := {Reply("", id)})
  }

  lemma OneJobIsReachable(cfg: Config, id: JobId, w: WorkerId, spec: JobSpec, limit: int) returns (ls: seq<Label>)
    ensures Leads(Init(cfg), ls, OneJobState(cfg, id, w, spec, limit))
  {
    var (a, b, c) := (Registry(Register(w)), Client(Lookup(0, "", spec, limit)), Client(Insert(0, id, true)));
    TwoSteps(Init(cfg), a, b);
    var s := Exec(Init(cfg), [a, b]);
    assert Leads(Init(cfg), [a, b], s);
    assert Apply(s, c).creates == map[];
    Step(s, c, OneJobState(cfg, id, w, spec, limit));
    Then(Init(cfg), [a, b], s, [c], OneJobState(cfg, id, w, spec, limit));
    ls := [a, b] + [c];
  }

  // ---- a relay tick on a single row ----

  ghost predicate OnlyUnpublished(s: State, row: nat) {
    && row < |s.db.outbox| && s.relays == map[]
    && forall i :: 0 <= i < |s.db.outbox| ==> (s.db.outbox[i].publishedAt.None? <==> i == row)
  }

  function Publishing(s: State, row: nat, next: nat, marked: set<nat>): State {
    s.(relays := map[0 := Batch([row], next, marked, s.db.clock)])
  }

  lemma OnlyRowIsBatch(outbox: seq<OutboxRow>, row: nat, limit: nat)
    requires row < |outbox| && 1 <= limit
    requires forall i :: 0 <= i < |outbox| ==> (outbox[i].publishedAt.None? <==> i == row)
    ensures OldestUnpublished(outbox, {}, limit) == [row]
  {
    assert Free(outbox, {}, row);
    assert OldestFree(outbox, {}, 0) == Some(row);
    assert OldestUnpublished(outbox, {} + {row}, limit - 1) == [];
  }

  lemma OpensOnlyRow(s: State, row: nat)
    requires OnlyUnpublished(s, row)
    ensures Leads(s, [Relay(Open(0))], Publishing(s, row, 0, {}))
  {
    assert Locked(s.relays) == {};
    OnlyRowIsBatch(s.db.outbox, row, BatchLimit(s.cfg.batch));
    Step(s, Relay(Open(0)), Publishing(s, row, 0, {}));
  }

  function Enqueued(s: State, row: nat): State
    requires row < |s.db.outbox|
  {
    s.(broker := Enqueue(s.broker, s.db.outbox[row]))
  }

  lemma PublishesOnlyRow(s: State, row: nat)
    requires row < |s.db.outbox|
    ensures Leads(Publishing(s, row, 0, {}), [Relay(PublishOk(0))], Publishing(Enqueued(s, row), row, 1, {row}))
  {
    var (s1, s2) := (Publishing(s, row, 0, {}), Publishing(Enqueued(s, row), row, 1, {row}));
    assert {} + {row} == {row};
    assert RelayApply(s1, PublishOk(0)).relays == s2.relays;
    Step(s1, Relay(PublishOk(0)), s2);
  }

  lemma CommitsOnlyRow(s: State, row: nat)
    requires s.relays == map[]
    ensures Leads(Publishing(s, row, 1, {row}), [Relay(Commit(0))], s.(db := MarkPublished(s.db, {row}, s.db.clock)))
  {
    var s2 := Publishing(s, row, 1, {row});
    assert s2.relays - {0} == map[];
    Step(s2, Relay(Commit(0)), s.(db := MarkPublished(s.db, {row}, s.db.clock)));
  }

  function TickOn(s: State, row: nat): State
    requires row < |s.db.outbox|
  {
    Enqueued(s, row).(db := MarkPublished(s.db, {row}, s.db.clock))
  }

  lemma RelayPublishesOnlyRow(s: State, row: nat) returns (ls: seq<Label>)
    requires OnlyUnpublished(s, row)
    ensures Leads(s, ls, TickOn(s, row))
  {
    var s1 := Enqueued(s, row);
    OpensOnlyRow(s, row);
    PublishesOnlyRow(s, row);
    CommitsOnlyRow(s1, row);
    Then(s, [Relay(Open(0))], Publishing(s, row, 0, {}), [Relay(PublishOk(0))], Publishing(s1, row, 1, {row}));
    ls := [Relay(Open(0))] + [Relay(PublishOk(0))];
    Then(s, ls, Publishing(s1, row, 1, {row}), [Relay(Commit(0))], TickOn(s, row));
    ls := ls + [Relay(Commit(0))];
  }

  // ---- attempts that fail ----

  ghost predicate AllPublished(outbox: seq<OutboxRow>) {
    forall i :: 0 <= i < |outbox| ==> outbox[i].publishedAt.Some?
  }

  /** All that is going on is one message in main for a DISPATCHED job. */
  ghost predicate Calm(s: State, m: Message) {
    && DispatchedAs(s.db, m) && s.relays == map[] && s.lateClaims == multiset{} && s.open == {} && s.results == map[]
    && s.broker.main == multiset{m} && s.broker.retry == multiset{} && s.broker.unacked == []
    && AllPublished(s.db.outbox)
  }

  function Received(s: State, w: WorkerId, m: Message): State {
    s.(broker := s.broker.(main := s.broker.main - multiset{m}, unacked := [Delivery(w, m, Undecided)]))
  }

  lemma WorkerTakesOnlyMessage(s: State, w: WorkerId, m: Message)
    requires Calm(s, m) && w in s.db.workers
    ensures Leads(s, [Queue(Deliver(w, m))], Received(s, w, m))
  {
    assert [] + [Delivery(w, m, Undecided)] == [Delivery(w, m, Undecided)];
    Step(s, Queue(Deliver(w, m)), Received(s, w, m));
  }

  /** The worker's claim fails with something other than a conflict. */
  lemma OnlyMessageIsStranded(s: State, w: WorkerId, m: Message) returns (ls: seq<Label>)
    requires Calm(s, m) && w in s.db.workers
    ensures Runs(s, ls) && NoneRepeats(ls) && Forgotten(Exec(s, ls), m.job) && Exec(s, ls).db == s.db
  {
    WorkerTakesOnlyMessage(s, w, m);
    var s1 := Received(s, w, m);
    var s2 := Apply(s1, Queue(GiveUp(0, false)));
    assert s2.broker.unacked == [] && s1.lateClaims + multiset{} == multiset{};
    Step(s1, Queue(GiveUp(0, false)), s2);
    Then(s, [Queue(Deliver(w, m))], s1, [Queue(GiveUp(0, false))], s2);
    ls := [Queue(Deliver(w, m))] + [Queue(GiveUp(0, false))];
  }

  /** The worker holds the job under its current lease and has not reported. */
  ghost predicate Busy(s: State, w: WorkerId, m: Message, l: Lease) {
    && l.job == m.job && l.job in s.db.jobs && HoldsLease(s.db.jobs[l.job], w, l.generation)
    && s.db.jobs[l.job].attempt == m.attempt + 1
    && l in s.leases && s.leases[l] == w && s.open == {l} && w in s.db.workers
    && s.broker.unacked == [Delivery(w, m, Won)] && s.broker.main == multiset{} && s.broker.retry == multiset{}
    && s.relays == map[] && s.lateClaims == multiset{} && s.results == map[]
    && AllPublished(s.db.outbox)
  }

  lemma WorkerClaims(s: State, w: WorkerId, m: Message) returns (ls: seq<Label>, t: State, l: Lease)
    requires Calm(s, m) && w in s.db.workers
    ensures Leads(s, ls, t) && Busy(t, w, m, l) && t.db.jobs[m.job].maxAttempts == s.db.jobs[m.job].maxAttempts
    ensures t.db.clock == s.db.clock && t.db.workers == s.db.workers && t.cfg == s.cfg
    ensures t.db.jobs[m.job].leaseExpiresAt == Some(LeaseEnd(s.db, s.cfg.lease))
  {
    WorkerTakesOnlyMessage(s, w, m);
    var s1 := Received(s, w, m);
    t := ClaimApply(s1, Claim(0));
    l := Lease(m.job, s.db.jobs[m.job].leaseGeneration + 1);
    assert t.broker.unacked == [Delivery(w, m, Won)];
    assert {} + {l} == {l};
    Step(s1, Claiming(Claim(0)), t);
    Then(s, [Queue(Deliver(w, m))], s1, [Claiming(Claim(0))], t);
    ls := [Queue(Deliver(w, m))] + [Claiming(Claim(0))];
  }

  /** The job is given up for this attempt, and the delivery acknowledged. */
  function AfterFailure(s: State, m: Message): State
    requires m.job in s.db.jobs
  {
    s.(db := GiveUpAttempt(s.db, m.job), open := {},
       broker := s.broker.(unacked := [], acked := s.broker.acked + multiset{m}))
  }

  lemma WorkerReportsFailure(s: State, w: WorkerId, m: Message, l: Lease) returns (ls: seq<Label>)
    requires Busy(s, w, m, l)
    ensures Leads(s, ls, AfterFailure(s, m))
  {
    var a, b, c := Holder(ResultStart(0, l, w, false, false, false)), Holder(ResultFinish(0)), Queue(Settle(0, true));
    var s1 := s.(results := map[0 := ResultRequest(l, w, false, NoLogs)], open := {});
    Step(s, a, s1);
    var s2 := s.(db := GiveUpAttempt(s.db, m.job), open := {});
    assert s1.results - {0} == map[];
    Step(s1, b, s2);
    Then(s, [a], s1, [b], s2);
    assert RemoveAt(s.broker.unacked, 0) == [];
    Step(s2, c, AfterFailure(s, m));
    Then(s, [a] + [b], s2, [c], AfterFailure(s, m));
    ls := [a] + [b] + [c];
  }

  /** The retry row is published and its message expires into main. */
  lemma RetryComesBack(s: State, m: Message, row: nat) returns (ls: seq<Label>, t: State)
    requires OnlyUnpublished(s, row) && s.db.outbox[row].target.Retry? && RowMessage(s.db.outbox[row]) == m
    requires DispatchedAs(s.db, m) && s.lateClaims == multiset{} && s.open == {} && s.results == map[]
    requires s.broker.main == multiset{} && s.broker.retry == multiset{} && s.broker.unacked == []
    ensures Leads(s, ls, t) && Calm(t, m)
    ensures t.db.jobs == s.db.jobs && t.db.workers == s.db.workers && t.db.clock == s.db.clock
  {
    var tick := RelayPublishesOnlyRow(s, row);
    var s1 := TickOn(s, row);
    assert s1.broker.retry == multiset{m};
    t := QueueApply(s1, Expire(m));
    Step(s1, Queue(Expire(m)), t);
    Then(s, tick, s1, [Queue(Expire(m))], t);
    ls := tick + [Queue(Expire(m))];
  }

  /** One attempt is claimed, fails and comes back; the next message is all that is left. */
  lemma AttemptComesBack(s: State, w: WorkerId, m: Message) returns (ls: seq<Label>, t: State)
    requires Calm(s, m) && w in s.db.workers && m.attempt + 1 < s.db.jobs[m.job].maxAttempts
    ensures Leads(s, ls, t) && Calm(t, Message(m.job, m.attempt + 1))
    ensures t.db.workers == s.db.workers && t.db.clock == s.db.clock
    ensures t.db.jobs[m.job].maxAttempts == s.db.jobs[m.job].maxAttempts
  {
    var claim, s1, l := WorkerClaims(s, w, m);
    var fail := WorkerReportsFailure(s1, w, m, l);
    var s2 := AfterFailure(s1, m);
    assert s2.db.outbox == s1.db.outbox + [OutboxRow(m.job, Retry, m.attempt + 1, s1.db.began, None, false)];
    var back, s3 := RetryComesBack(s2, Message(m.job, m.attempt + 1), |s1.db.outbox|);
    Then(s, claim, s1, fail, s2);
    Then(s, claim + fail, s2, back, s3);
    ls, t := claim + fail + back, s3;
  }

  lemma {:induction false} AttemptsFail(cfg: Config, id: JobId, w: WorkerId, spec: JobSpec, limit: nat, k: nat)
    returns (ls: seq<Label>, t: State)
    requires k < limit
    ensures Leads(Init(cfg), ls, t) && Calm(t, Message(id, k)) && t.db.jobs[id].maxAttempts == limit
    ensures t.db.workers == map[w := Worker(Active, Some(0))] && t.db.clock == 0
  {
    if k == 0 {
      var create := OneJobIsReachable(cfg, id, w, spec, limit);
      var s := OneJobState(cfg, id, w, spec, limit);
      var tick := RelayPublishesOnlyRow(s, 0);
      t := TickOn(s, 0);
      Then(Init(cfg), create, s, tick, t);
      ls := create + tick;
    } else {
      var init, s := AttemptsFail(cfg, id, w, spec, limit, k - 1);
      var more, s' := AttemptComesBack(s, w, Message(id, k - 1));
      Then(Init(cfg), init, s, more, s');
      ls, t := init + more, s';
    }
  }

  /**
   In every deployment and for every number of attempts below the limit, some run forgets a job after just so
   many attempts: the exception in CanEndUnlessForgotten is real for first dispatches and for retries.
   */
  lemma ForgottenJobsExist(cfg: Config, id: JobId, w: WorkerId, spec: JobSpec, limit: nat, k: nat)
    returns (ls: seq<Label>)
    requires k < limit
    ensures Runs(Init(cfg), ls) && NoneRepeats(ls) && Forgotten(Exec(Init(cfg), ls), id)
    ensures Exec(Init(cfg), ls).db.jobs[id].attempt == k
  {
    var init, s := AttemptsFail(cfg, id, w, spec, limit, k);
    var strand := OnlyMessageIsStranded(s, w, Message(id, k));
    RunsConcat(Init(cfg), init, strand);
    ls := init + strand;
  }

  // ---- the log check fails ----

  lemma HelpLeavesResult(s: State, crew: Crew, l: Label, q: nat)
    requires Enabled(s, l) && Helpful(crew, l) && q in s.results && q != crew.request
    ensures q in Apply(s, l).results && Apply(s, l).results[q] == s.results[q]
  {
    Frame(s, l);
  }

  /** The crew of Recovery leaves other requests alone. */
  lemma {:induction false} HelpLeavesResults(s: State, crew: Crew, ls: seq<Label>, q: nat)
    requires Runs(s, ls) && AllHelpful(crew, ls) && q in s.results && q != crew.request
    ensures q in Exec(s, ls).results && Exec(s, ls).results[q] == s.results[q]
  {
    if ls != [] {
      var init := ls[..|ls| - 1];
      HelpLeavesResults(s, crew, init, q);
      HelpLeavesResult(Exec(s, init), crew, ls[|ls| - 1], q);
    }
  }

  /** A worker uploads the logs of a successful attempt; its request gets no further for the time being. */
  lemma ResultIsHeldUp(s: State, w: WorkerId, m: Message, l: Lease) returns (ls: seq<Label>, t: State)
    requires Busy(s, w, m, l)
    ensures Leads(s, ls, t) && t.db == s.db
    ensures 0 in t.results && t.results[0].lease == l
    ensures t.results[0].logs.Uploaded? && t.results[0].logs.artifact.attempt == m.attempt + 1
  {
    var a, b := Holder(ResultStart(0, l, w, true, true, false)), Holder(ResultUpload(0, 1, 1));
    var s1 := HolderApply(s, a.holder);
    t := HolderApply(s1, b.holder);
    Step(s, a, s1);
    Step(s1, b, t);
    Then(s, [a], s1, [b], t);
    ls := [a] + [b];
  }

  /** The attempt is reaped, and a new one completes the job. */
  lemma SecondAttemptCompletes(s: State, id: JobId, crew: Crew) returns (ls: seq<Label>)
    requires Sound(s) && id in s.db.jobs && s.db.jobs[id].status.Running?
    requires s.db.jobs[id].attempt < s.db.jobs[id].maxAttempts
    requires crew.worker !in s.db.workers && crew.relay !in s.relays && crew.request !in s.results
    ensures Runs(s, ls) && AllHelpful(crew, ls) && CompletedAnew(s.db, Exec(s, ls).db, id)
  {
    var free := ReaperFreesJob(s, id, crew);
    var s1 := Exec(s, free);
    RunKeepsSound(s, free);
    JobsGrow(s, free, id);
    assert JobOk(View(s1.db, id));
    var rest := LiveDispatchCompletes(s1, Message(id, s1.db.jobs[id].attempt), crew);
    RunsConcat(s, free, rest);
    ls := free + rest;
  }

  lemma ResultStaysHeldUp(s: State, id: JobId) returns (ls: seq<Label>)
    requires Sound(s) && id in s.db.jobs && s.db.jobs[id].status.Running? && 0 in s.results
    requires s.db.jobs[id].attempt < s.db.jobs[id].maxAttempts
    ensures Runs(s, ls) && NoneRepeats(ls) && CompletedAnew(s.db, Exec(s, ls).db, id)
    ensures 0 in Exec(s, ls).results && Exec(s, ls).results[0] == s.results[0]
  {
    var crew := FreshCrew(s);
    ls := SecondAttemptCompletes(s, id, crew);
    HelpLeavesResults(s, crew, ls, 0);
    HelpNeverRepeats(crew, ls);
  }

  /**
   The exception in LogCheckFailsExactly is real: the attempt is reaped while its result is held up, a second
   attempt completes the job, and the old result is answered with the mismatch.
   */
  lemma LogCheckDoesFail(cfg: Config, id: JobId, w: WorkerId, spec: JobSpec, limit: nat) returns (ls: seq<Label>)
    requires 2 <= limit
    ensures Runs(Init(cfg), ls) && NoneRepeats(ls) && HolderEnabled(Exec(Init(cfg), ls), ResultFinish(0))
    ensures FinishOutcome(Exec(Init(cfg), ls), Exec(Init(cfg), ls).results[0]).result == Failure(AttemptMismatch)
  {
    var before, s := OldResultIsHeldUp(cfg, id, w, spec, limit);
    ReachableSound(cfg, before);
    var rest := ResultStaysHeldUp(s, id);
    Then(Init(cfg), before, s, rest, Exec(s, rest));
    ls := before + rest;
    LogCheckFailsExactly(cfg, ls, 0);
  }

  lemma OldResultIsHeldUp(cfg: Config, id: JobId, w: WorkerId, spec: JobSpec, limit: nat)
    returns (ls: seq<Label>, t: State)
    requires 2 <= limit
    ensures Leads(Init(cfg), ls, t)
    ensures id in t.db.jobs && t.db.jobs[id].status.Running? && t.db.jobs[id].attempt == 1
            && t.db.jobs[id].maxAttempts == limit
    ensures 0 in t.results && t.results[0].lease.job == id
    ensures t.results[0].logs.Uploaded? && t.results[0].logs.artifact.attempt == 1
  {
    var first, s := AttemptsFail(cfg, id, w, spec, limit, 0);
    var claim, s1, l := WorkerClaims(s, w, Message(id, 0));
    var upload, s2 := ResultIsHeldUp(s1, w, Message(id, 0), l);
    Then(Init(cfg), first, s, claim, s1);
    Then(Init(cfg), first + claim, s1, upload, s2);
    ls, t := first + claim + upload, s2;
  }

  // ---- ids and creation times disagree ----

  lemma Creates(s: State, id: JobId, spec: JobSpec) returns (ls: seq<Label>, t: State)
    requires id !in s.db.jobs && s.creates == map[]
    ensures Leads(s, ls, t)
    ensures t.creates == map[] && t.db.jobs.Keys == s.db.jobs.Keys + {id} && t.db.clock == s.db.clock
    ensures t.db.outbox == s.db.outbox + [OutboxRow(id, Main, 0, s.db.began, None, false)]
  {
    var (a, b) := (Client(Lookup(0, "", spec, 1)), Client(Insert(0, id, true)));
    var s1 := ClientApply(s, a.client);
    t := ClientApply(s1, b.client);
    assert s1.creates - {0} == map[];
    Step(s, a, s1);
    Step(s1, b, t);
    Then(s, [a], s1, [b], t);
    ls := [a] + [b];
  }

  lemma Waits(s: State, elapsed: nat, began: Time) returns (t: State)
    requires began <= s.db.clock + elapsed
    ensures t == s.(db := s.db.(clock := s.db.clock + elapsed, began := began)) && Leads(s, [Tick(elapsed, began)], t)
  {
    t := s.(db := s.db.(clock := s.db.clock + elapsed, began := began));
    Step(s, Tick(elapsed, began), t);
  }

  /** Two creations overlap: the later id carries the earlier created_at, and is published first. */
  lemma LaterIdComesFirst(cfg: Config, a: JobId, b: JobId, spec: JobSpec) returns (ls: seq<Label>)
    requires a != b
    ensures Runs(Init(cfg), ls) && |Exec(Init(cfg), ls).db.outbox| == 2 && Older(Exec(Init(cfg), ls).db.outbox, 1, 0)
  {
    var s1 := Waits(Init(cfg), 2, 2);
    var one, s2 := Creates(s1, a, spec);
    var s3 := Waits(s2, 0, 1);
    var two, s4 := Creates(s3, b, spec);
    Then(Init(cfg), [Tick(2, 2)], s1, one, s2);
    Then(Init(cfg), [Tick(2, 2)] + one, s2, [Tick(0, 1)], s3);
    Then(Init(cfg), [Tick(2, 2)] + one + [Tick(0, 1)], s3, two, s4);
    ls := [Tick(2, 2)] + one + [Tick(0, 1)] + two;
  }
}
