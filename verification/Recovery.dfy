/**
 Progress after a crash of everything but the database and the broker: one fresh relay, one reaper tick and
 one fresh worker bring any live job to its end, within a number of steps bounded by the tables.
 */
module Recovery {
  import opened Types
  import opened Transactions
  import opened System
  import opened Frames
  import opened JobMoves
  import opened JobLifecycle
  import opened Fencing
  import opened OutboxRelay
  import opened NoLostDispatch

  /** The parties that do the work, none of them known to the state they start in. */
  datatype Crew = Crew(worker: WorkerId, relay: nat, reaper: nat, request: nat)

  /** Steps of the crew, the passage of time, and the clean-up the database and the broker do for lost peers. */
  predicate Helpful(crew: Crew, l: Label) {
    match l
    case Tick(_, _) => true
    case Registry(r) => r == Register(crew.worker)
    case Reaper(r) => r.reaper == crew.reaper
    case Relay(r) => r.Rollback? || (r.relay == crew.relay && !r.PublishFailed?)
    case Queue(q) => q.Expire? || (q.Redeliver? && !q.inFlight) || (q.Deliver? && q.worker == crew.worker)
    case Claiming(c) => c.Claim?
    case Holder(h) =>
      (h.ResultStart? && h.worker == crew.worker && h.success && !h.again) || h == ResultFinish(crew.request)
    case _ => false
  }

  ghost predicate AllHelpful(crew: Crew, ls: seq<Label>) {
    forall i :: 0 <= i < |ls| ==> Helpful(crew, ls[i])
  }

  ghost predicate Sound(s: State) {
    FencingOk(s) && DispatchOk(s)
  }

  lemma RunKeepsSound(s: State, ls: seq<Label>)
    requires Sound(s) && Runs(s, ls)
    ensures Sound(Exec(s, ls))
  {
    RunKeepsFencing(s, ls);
    RunKeepsDispatch(s, ls);
  }

  lemma ReachableSound(cfg: Config, ls: seq<Label>)
    requires Runs(Init(cfg), ls)
    ensures Sound(Exec(Init(cfg), ls))
  {
    RunKeepsSound(Init(cfg), ls);
  }

  // ---- small tools ----

  lemma {:induction false} FreshNumber(used: set<nat>) returns (n: nat)
    ensures forall x :: x in used ==> x < n
  {
    if used == {} {
      n := 0;
    } else {
      var x :| x in used;
      var m := FreshNumber(used - {x});
      n := if x < m then m else x + 1;
      assert used == (used - {x}) + {x};
    }
  }

  lemma FreshWorker(s: State) returns (w: WorkerId)
    ensures w !in s.db.workers
  {
    var used := set v | v in s.db.workers :: v.uuid;
    var n := FreshNumber(used);
    w := WorkerId(n);
    assert w in s.db.workers ==> w.uuid in used;
  }

  lemma FreshCrew(s: State) returns (crew: Crew)
    ensures crew.worker !in s.db.workers && crew.relay !in s.relays && crew.reaper !in s.reapers
            && crew.request !in s.results
  {
    var w := FreshWorker(s);
    var relay := FreshNumber(s.relays.Keys);
    var reaper := FreshNumber(s.reapers.Keys);
    var request := FreshNumber(s.results.Keys);
    crew := Crew(w, relay, reaper, request);
  }

  lemma {:induction false} NobodyHoldsFor(ds: seq<Delivery>, w: WorkerId)
    requires forall d :: d in ds ==> d.worker != w
    ensures Outstanding(ds, w) == 0
  {
    if ds != [] {
      NobodyHoldsFor(ds[..|ds| - 1], w);
    }
  }

  // ---- the worker's part ----

  predicate IsDispatched(t: Tables, id: JobId) {
    id in t.jobs && t.jobs[id].status.Dispatched?
  }

  /** A further attempt completed the job. */
  predicate CompletedAnew(t: Tables, t': Tables, id: JobId) {
    && id in t.jobs && id in t'.jobs
    && t'.jobs[id].status.Completed? && t'.jobs[id].attempt == t.jobs[id].attempt + 1
  }

  /** The fresh worker registers and receives the message. */
  lemma WorkerReceives(s: State, m: Message, w: WorkerId) returns (ls: seq<Label>)
    requires DeliveriesOk(s) && m in s.broker.main && w !in s.db.workers
    ensures ls == [Registry(Register(w)), Queue(Deliver(w, m))] && Runs(s, ls)
    ensures var s' := Exec(s, ls);
            && s'.db == s.db.(workers := s'.db.workers) && w in s'.db.workers
            && s'.broker.unacked == s.broker.unacked + [Delivery(w, m, Undecided)]
            && s'.results == s.results
  {
    NobodyHoldsFor(s.broker.unacked, w);
    var (a, b) := (Registry(Register(w)), Queue(Deliver(w, m)));
    TwoSteps(s, a, b);
    ls := [a, b];
  }

  /** The fresh worker registers, receives the message, claims the job and reports success. */
  lemma WorkerCompletes(s: State, m: Message, crew: Crew) returns (ls: seq<Label>)
    requires DeliveriesOk(s) && IsDispatched(s.db, m.job) && m in s.broker.main
    requires crew.worker !in s.db.workers && crew.request !in s.results
    ensures Runs(s, ls) && |ls| == 5 && AllHelpful(crew, ls)
    ensures CompletedAnew(s.db, Exec(s, ls).db, m.job)
  {
    var (w, n) := (crew.worker, |s.broker.unacked|);
    var receive := WorkerReceives(s, m, w);
    var s2 := Exec(s, receive);
    var finish := ClaimerCompletes(s2, n, m, crew);
    RunsConcat(s, receive, finish);
    ls := receive + finish;
  }

  lemma ClaimerCompletes(s: State, i: nat, m: Message, crew: Crew) returns (ls: seq<Label>)
    requires i < |s.broker.unacked| && s.broker.unacked[i] == Delivery(crew.worker, m, Undecided)
    requires IsDispatched(s.db, m.job) && crew.worker in s.db.workers && crew.request !in s.results
    ensures Runs(s, ls) && |ls| == 3 && AllHelpful(crew, ls)
    ensures CompletedAnew(s.db, Exec(s, ls).db, m.job)
  {
    var claim := Claiming(Claim(i));
    OneStep(s, claim);
    ClaimWins(s, i, crew.worker, m);
    var s1 := Apply(s, claim);
    var rest := HolderCompletes(s1, Lease(m.job, s1.db.jobs[m.job].leaseGeneration), crew.worker, crew.request);
    RunsConcat(s, [claim], rest);
    ls := [claim] + rest;
  }

  lemma ClaimWins(s: State, i: nat, w: WorkerId, m: Message)
    requires i < |s.broker.unacked| && s.broker.unacked[i] == Delivery(w, m, Undecided)
    requires IsDispatched(s.db, m.job) && w in s.db.workers
    ensures var s' := ClaimApply(s, Claim(i));
            && m.job in s'.db.jobs
            && s'.db.jobs[m.job].leaseGeneration == s.db.jobs[m.job].leaseGeneration + 1
            && HoldsLease(s'.db.jobs[m.job], w, s'.db.jobs[m.job].leaseGeneration)
            && s'.db.jobs[m.job].attempt == s.db.jobs[m.job].attempt + 1
            && var lease := Lease(m.job, s'.db.jobs[m.job].leaseGeneration);
            && s'.leases == s.leases[lease := w] && lease in s'.open
            && s'.results == s.results
  {
  }

  /** A worker whose lease FinishJob still honours completes the job in two steps. */
  lemma HolderCompletes(s: State, lease: Lease, w: WorkerId, req: nat) returns (ls: seq<Label>)
    requires lease in s.leases && s.leases[lease] == w && lease in s.open && req !in s.results
    requires lease.job in s.db.jobs && FinishAccepted(s.db.jobs[lease.job], w, lease.generation, true)
    ensures ls == [Holder(ResultStart(req, lease, w, true, false, false)), Holder(ResultFinish(req))]
    ensures Runs(s, ls)
    ensures lease.job in Exec(s, ls).db.jobs && Exec(s, ls).db.jobs[lease.job].status.Completed?
    ensures Exec(s, ls).db.jobs[lease.job].attempt == s.db.jobs[lease.job].attempt
  {
    var (a, b) := (Holder(ResultStart(req, lease, w, true, false, false)), Holder(ResultFinish(req)));
    assert Apply(s, a).results[req] == ResultRequest(lease, w, true, NoLogs);
    TwoSteps(s, a, b);
    ls := [a, b];
  }

  // ---- the broker's part ----

  /** Whoever had the message lost it or let it expire: it is back in main. */
  lemma MessageReturnsToMain(s: State, m: Message, crew: Crew) returns (ls: seq<Label>)
    requires InTransit(s.broker, m)
    ensures Runs(s, ls) && |ls| <= 1 && AllHelpful(crew, ls)
    ensures var s' := Exec(s, ls); m in s'.broker.main && s' == s.(broker := s'.broker)
    ensures forall d :: d in Exec(s, ls).broker.unacked ==> d in s.broker.unacked
  {
    if m in s.broker.main {
      ls := [];
    } else if m in s.broker.retry {
      ls := [Queue(Expire(m))];
      OneStep(s, ls[0]);
    } else {
      var w :| HeldBy(s.broker, w, m);
      var i :| 0 <= i < |s.broker.unacked| && s.broker.unacked[i] == Delivery(w, m, Undecided);
      ls := [Queue(Redeliver(i, false))];
      OneStep(s, ls[0]);
      assert s.lateClaims + multiset{} == s.lateClaims;
      forall d | d in Exec(s, ls).broker.unacked ensures d in s.broker.unacked {
        RemovalKeepsOthers(s.broker.unacked, i, d);
      }
    }
  }

  // ---- the relay's part ----

  function Unpublished(outbox: seq<OutboxRow>): set<nat> {
    set i | 0 <= i < |outbox| && outbox[i].publishedAt.None?
  }

  predicate Waiting(b: Broker, m: Message) {
    m in b.main || m in b.retry
  }

  /** Queues gained messages and lost none. */
  ghost predicate Fuller(b: Broker, b': Broker) {
    b.main <= b'.main && b.retry <= b'.retry && b'.unacked == b.unacked
  }

  /** `t` is `s` with the rest of relay r's batch published and marked, and every message of it waiting. */
  ghost predicate RestPublished(s: State, r: nat, t: State)
    requires r in s.relays && s.relays[r].next <= |s.relays[r].rows|
  {
    var b := s.relays[r];
    && t == s.(broker := t.broker, relays := t.relays)
    && t.relays == s.relays[r := b.(next := |b.rows|, marked := b.marked + RowSet(b.rows[b.next..]))]
    && Fuller(s.broker, t.broker)
    && forall i :: b.next <= i < |b.rows| && b.rows[i] < |s.db.outbox| ==>
         Waiting(t.broker, RowMessage(s.db.outbox[b.rows[i]]))
  }

  lemma RestIsEmpty(s: State, r: nat)
    requires r in s.relays && s.relays[r].next == |s.relays[r].rows|
    ensures RestPublished(s, r, s)
  {
    var b := s.relays[r];
    assert RowSet(b.rows[b.next..]) == {};
    assert b.(next := |b.rows|, marked := b.marked + RowSet(b.rows[b.next..])) == b;
  }

  /** `t` is `s` after relay `r` published the next row of its batch. */
  ghost predicate OnePublished(s: State, r: nat, t: State)
    requires CanPublish(s, r)
  {
    var b := s.relays[r];
    && t == s.(broker := t.broker, relays := t.relays)
    && t.relays == s.relays[r := b.(next := b.next + 1, marked := b.marked + {b.rows[b.next]})]
    && Fuller(s.broker, t.broker)
    && Waiting(t.broker, RowMessage(s.db.outbox[b.rows[b.next]]))
  }

  lemma RestAfterOne(s: State, r: nat, u: State, t: State)
    requires CanPublish(s, r) && OnePublished(s, r, u) && RestPublished(u, r, t)
    ensures RestPublished(s, r, t)
  {
    var b := s.relays[r];
    assert RowSet(b.rows[b.next..]) == {b.rows[b.next]} + RowSet(b.rows[b.next + 1..]);
    assert b.marked + RowSet(b.rows[b.next..]) == b.marked + {b.rows[b.next]} + RowSet(b.rows[b.next + 1..]);
  }

  lemma PublishOne(s: State, r: nat)
    requires CanPublish(s, r)
    ensures Runs(s, [Relay(PublishOk(r))]) && OnePublished(s, r, Exec(s, [Relay(PublishOk(r))]))
  {
    OneStep(s, Relay(PublishOk(r)));
  }

  /** Relay `r` has an open batch of stored rows. */
  predicate HasBatch(s: State, r: nat) {
    && r in s.relays && s.relays[r].next <= |s.relays[r].rows|
    && forall i :: 0 <= i < |s.relays[r].rows| ==> s.relays[r].rows[i] < |s.db.outbox|
  }

  function Left(s: State, r: nat): nat
    requires HasBatch(s, r)
  {
    |s.relays[r].rows| - s.relays[r].next
  }

  lemma StillHasBatch(s: State, r: nat, t: State)
    requires HasBatch(s, r) && CanPublish(s, r) && OnePublished(s, r, t)
    ensures HasBatch(t, r) && Left(t, r) == Left(s, r) - 1
  {
  }

  /** A fault-free pass over `n` entries. */
  function Publishes(r: nat, n: nat): (ls: seq<Label>)
    ensures |ls| == n
  {
    if n == 0 then [] else [Relay(PublishOk(r))] + Publishes(r, n - 1)
  }

  /** Publishing the rest of a batch without a fault enqueues each of its messages. */
  lemma {:induction false} PublishRest(s: State, r: nat)
    requires HasBatch(s, r)
    ensures Runs(s, Publishes(r, Left(s, r))) && RestPublished(s, r, Exec(s, Publishes(r, Left(s, r))))
    decreases Left(s, r)
  {
    if Left(s, r) == 0 {
      RestIsEmpty(s, r);
    } else {
      var first := [Relay(PublishOk(r))];
      PublishOne(s, r);
      StillHasBatch(s, r, Exec(s, first));
      PublishRest(Exec(s, first), r);
      PublishMore(s, r, first, Publishes(r, Left(s, r) - 1));
    }
  }

  lemma PublishMore(s: State, r: nat, first: seq<Label>, rest: seq<Label>)
    requires CanPublish(s, r) && Runs(s, first) && OnePublished(s, r, Exec(s, first)) && Runs(Exec(s, first), rest)
    requires RestPublished(Exec(s, first), r, Exec(Exec(s, first), rest))
    ensures Runs(s, first + rest) && RestPublished(s, r, Exec(s, first + rest))
  {
    RunsConcat(s, first, rest);
    RestAfterOne(s, r, Exec(s, first), Exec(s, first + rest));
  }

  ghost predicate TickOf(r: nat, ls: seq<Label>) {
    forall i :: 0 <= i < |ls| ==> ls[i] in [Relay(Open(r)), Relay(PublishOk(r)), Relay(Commit(r))]
  }

  /** `t` is `s` after a tick that published the whole batch. */
  ghost predicate TickDone(s: State, rows: seq<nat>, t: State) {
    && t == s.(db := MarkPublished(s.db, RowSet(rows), s.db.clock), broker := t.broker)
    && Fuller(s.broker, t.broker)
    && forall i :: 0 <= i < |rows| && rows[i] < |s.db.outbox| ==> Waiting(t.broker, RowMessage(s.db.outbox[rows[i]]))
  }

  function WithBatch(s: State, r: nat, rows: seq<nat>): State {
    s.(relays := s.relays[r := Batch(rows, 0, {}, s.db.clock)])
  }

  lemma CommitEndsTick(s: State, r: nat, rows: seq<nat>, t: State)
    requires r !in s.relays && RestPublished(WithBatch(s, r, rows), r, t)
    ensures RelayEnabled(t, Commit(r)) && TickDone(s, rows, RelayApply(t, Commit(r)))
  {
    assert rows[0..] == rows && {} + RowSet(rows) == RowSet(rows);
    assert t.relays == s.relays[r := Batch(rows, |rows|, RowSet(rows), s.db.clock)];
    assert t.relays - {r} == s.relays;
  }

  lemma OpenStep(s: State, r: nat, rows: seq<nat>)
    requires r !in s.relays
    requires rows == OldestUnpublished(s.db.outbox, Locked(s.relays), BatchLimit(s.cfg.batch)) && rows != []
    ensures Runs(s, [Relay(Open(r))]) && Exec(s, [Relay(Open(r))]) == WithBatch(s, r, rows)
    ensures forall i :: 0 <= i < |rows| ==> rows[i] < |s.db.outbox|
  {
    OneStep(s, Relay(Open(r)));
  }

  lemma {:induction false} PublishesOnly(r: nat, n: nat)
    ensures TickOf(r, Publishes(r, n))
  {
    if n > 0 {
      PublishesOnly(r, n - 1);
    }
  }

  lemma OpenAndPublish(s: State, r: nat, rows: seq<nat>) returns (ls: seq<Label>)
    requires Runs(s, [Relay(Open(r))]) && Exec(s, [Relay(Open(r))]) == WithBatch(s, r, rows)
    requires forall i :: 0 <= i < |rows| ==> rows[i] < |s.db.outbox|
    ensures Runs(s, ls) && |ls| == |rows| + 1 && TickOf(r, ls)
    ensures RestPublished(WithBatch(s, r, rows), r, Exec(s, ls))
  {
    var rest := Publishes(r, |rows|);
    PublishRest(WithBatch(s, r, rows), r);
    PublishesOnly(r, |rows|);
    RunsConcat(s, [Relay(Open(r))], rest);
    ls := [Relay(Open(r))] + rest;
  }

  /** One fault-free relay tick: the batch it opens is published, enqueued and gone. */
  lemma FaultFreeTick(s: State, r: nat, rows: seq<nat>) returns (ls: seq<Label>)
    requires r !in s.relays
    requires rows == OldestUnpublished(s.db.outbox, Locked(s.relays), BatchLimit(s.cfg.batch)) && rows != []
    ensures Runs(s, ls) && |ls| == |rows| + 2 && TickOf(r, ls) && TickDone(s, rows, Exec(s, ls))
  {
    OpenStep(s, r, rows);
    var publish := OpenAndPublish(s, r, rows);
    var t := Exec(s, publish);
    CommitEndsTick(s, r, rows, t);
    OneStep(t, Relay(Commit(r)));
    RunsConcat(s, publish, [Relay(Commit(r))]);
    ls := publish + [Relay(Commit(r))];
  }

  lemma {:induction false} DistinctRowsCount(rows: seq<nat>)
    requires forall i, k :: 0 <= i < k < |rows| ==> rows[i] != rows[k]
    ensures |RowSet(rows)| == |rows|
  {
    if rows != [] {
      var (init, last) := (rows[..|rows| - 1], rows[|rows| - 1]);
      DistinctRowsCount(init);
      assert RowSet(rows) == RowSet(init) + {last};
      assert last !in RowSet(init);
    }
  }

  lemma PublishingShrinks(t: Tables, rows: seq<nat>, at: Time)
    requires forall i, k :: 0 <= i < k < |rows| ==> rows[i] != rows[k]
    requires forall i :: 0 <= i < |rows| ==> rows[i] < |t.outbox| && t.outbox[rows[i]].publishedAt.None?
    ensures var marked := RowSet(rows);
            |Unpublished(MarkPublished(t, marked, at).outbox)| == |Unpublished(t.outbox)| - |rows|
  {
    var marked := RowSet(rows);
    DistinctRowsCount(rows);
    assert marked <= Unpublished(t.outbox);
    assert Unpublished(MarkPublished(t, marked, at).outbox) == Unpublished(t.outbox) - marked;
  }

  /** A tick while `row` is free takes some rows out of the unpublished set, this one or others first. */
  lemma DrainOneBatch(s: State, r: nat, row: nat) returns (ls: seq<Label>, rows: seq<nat>)
    requires r !in s.relays && RelaysOk(s) && Free(s.db.outbox, Locked(s.relays), row)
    ensures Runs(s, ls) && TickOf(r, ls) && |ls| == |rows| + 2 && rows != [] && TickDone(s, rows, Exec(s, ls))
    ensures |Unpublished(Exec(s, ls).db.outbox)| == |Unpublished(s.db.outbox)| - |rows|
  {
    rows := OldestUnpublished(s.db.outbox, Locked(s.relays), BatchLimit(s.cfg.batch));
    BatchIsOldestPrefix(s.db.outbox, Locked(s.relays), BatchLimit(s.cfg.batch), row);
    ls := FaultFreeTick(s, r, rows);
    PublishingShrinks(s.db, rows, s.db.clock);
  }

  lemma RowAfterTick(s: State, rows: seq<nat>, t: State, row: nat)
    requires TickDone(s, rows, t) && Free(s.db.outbox, Locked(s.relays), row)
    ensures row in rows ==> Waiting(t.broker, RowMessage(s.db.outbox[row]))
    ensures row !in rows ==> Free(t.db.outbox, Locked(t.relays), row) && t.db.outbox[row] == s.db.outbox[row]
  {
    if row in rows {
      var i :| 0 <= i < |rows| && rows[i] == row;
    }
  }

  /** Ticks of one relay drain the outbox, oldest rows first, until the row has been published. */
  lemma {:induction false} TicksReachRow(s: State, r: nat, row: nat, m: Message) returns (ls: seq<Label>)
    requires r !in s.relays && RelaysOk(s)
    requires Free(s.db.outbox, Locked(s.relays), row) && RowMessage(s.db.outbox[row]) == m
    ensures Runs(s, ls) && |ls| <= 3 * |Unpublished(s.db.outbox)|
    ensures TickOf(r, ls)
    ensures var s' := Exec(s, ls);
            && s' == s.(db := s.db.(outbox := s'.db.outbox), broker := s'.broker)
            && Waiting(s'.broker, m) && s'.broker.unacked == s.broker.unacked
    decreases |Unpublished(s.db.outbox)|
  {
    var tick, rows := DrainOneBatch(s, r, row);
    var s1 := Exec(s, tick);
    RowAfterTick(s, rows, s1, row);
    if row in rows {
      ls := tick;
    } else {
      RunKeepsRelays(s, tick);
      var rest := TicksReachRow(s1, r, row, m);
      RunsConcat(s, tick, rest);
      ls := tick + rest;
    }
  }

  ghost predicate UnpublishedRowFor(s: State, row: nat, m: Message) {
    row < |s.db.outbox| && RowMessage(s.db.outbox[row]) == m && s.db.outbox[row].publishedAt.None?
  }

  /** The database rolls back the transaction of a lost relay, which frees its rows. */
  lemma LockIsReleased(s: State, row: nat) returns (q: nat)
    requires RelaysOk(s) && row in Locked(s.relays)
    ensures q in s.relays && RelayApply(s, Rollback(q)) == s.(relays := s.relays - {q})
    ensures row !in Locked(s.relays - {q}) && RelaysOk(s.(relays := s.relays - {q}))
  {
    q :| q in s.relays && row in s.relays[q].rows;
    StepKeepsRelays(s, Relay(Rollback(q)));
  }

  /** The lock of a lost relay is released, then the fresh relay publishes the row. */
  lemma PendingRowIsPublished(s: State, row: nat, m: Message, crew: Crew) returns (ls: seq<Label>)
    requires RelaysOk(s) && crew.relay !in s.relays && UnpublishedRowFor(s, row, m)
    ensures Runs(s, ls) && |ls| <= 1 + 3 * |Unpublished(s.db.outbox)| && AllHelpful(crew, ls)
    ensures var t := Exec(s, ls);
            && t == s.(db := s.db.(outbox := t.db.outbox), broker := t.broker, relays := t.relays)
            && Waiting(t.broker, m) && t.broker.unacked == s.broker.unacked
  {
    if row in Locked(s.relays) {
      var q := LockIsReleased(s, row);
      OneStep(s, Relay(Rollback(q)));
      var rest := TicksReachRow(s.(relays := s.relays - {q}), crew.relay, row, m);
      RunsConcat(s, [Relay(Rollback(q))], rest);
      ls := [Relay(Rollback(q))] + rest;
    } else {
      ls := TicksReachRow(s, crew.relay, row, m);
    }
  }

  // ---- from DISPATCHED to the end ----

  lemma QueuedMessageCompletes(s: State, m: Message, crew: Crew) returns (ls: seq<Label>)
    requires DeliveriesOk(s) && IsDispatched(s.db, m.job) && InTransit(s.broker, m)
    requires crew.worker !in s.db.workers && crew.request !in s.results
    ensures Runs(s, ls) && |ls| <= 6 && AllHelpful(crew, ls)
    ensures CompletedAnew(s.db, Exec(s, ls).db, m.job)
  {
    var back := MessageReturnsToMain(s, m, crew);
    var work := WorkerCompletes(Exec(s, back), m, crew);
    RunsConcat(s, back, work);
    ls := back + work;
  }

  lemma RowCompletes(s: State, row: nat, m: Message, crew: Crew) returns (ls: seq<Label>)
    requires DeliveriesOk(s) && RelaysOk(s) && IsDispatched(s.db, m.job)
    requires UnpublishedRowFor(s, row, m)
    requires crew.worker !in s.db.workers && crew.request !in s.results && crew.relay !in s.relays
    ensures Runs(s, ls) && |ls| <= 7 + 3 * |Unpublished(s.db.outbox)| && AllHelpful(crew, ls)
    ensures CompletedAnew(s.db, Exec(s, ls).db, m.job)
  {
    var publish := PendingRowIsPublished(s, row, m, crew);
    var work := QueuedMessageCompletes(Exec(s, publish), m, crew);
    RunsConcat(s, publish, work);
    ls := publish + work;
  }

  lemma LiveDispatchCompletes(s: State, m: Message, crew: Crew) returns (ls: seq<Label>)
    requires DeliveriesOk(s) && RelaysOk(s) && IsDispatched(s.db, m.job) && Live(s, m)
    requires crew.worker !in s.db.workers && crew.request !in s.results && crew.relay !in s.relays
    ensures Runs(s, ls) && |ls| <= 7 + 3 * |Unpublished(s.db.outbox)| && AllHelpful(crew, ls)
    ensures CompletedAnew(s.db, Exec(s, ls).db, m.job)
  {
    if InTransit(s.broker, m) {
      ls := QueuedMessageCompletes(s, m, crew);
    } else {
      var row :| PendingRow(s, row, m);
      ls := RowCompletes(s, row, m, crew);
    }
  }

  // ---- the reaper's part ----

  lemma {:induction false} ListSet(ids: set<JobId>) returns (order: seq<JobId>)
    ensures NoRepeats(order) && |order| == |ids| && forall id :: id in order <==> id in ids
  {
    if ids == {} {
      order := [];
    } else {
      var id :| id in ids;
      var rest := ListSet(ids - {id});
      order := rest + [id];
    }
  }

  lemma {:induction false} ReapGrowth(t: Tables, order: seq<JobId>)
    requires forall id :: id in order ==> id in t.jobs
    ensures |t.outbox| <= |ReapInOrder(t, order).outbox| <= |t.outbox| + |order|
    ensures |Unpublished(ReapInOrder(t, order).outbox)| <= |Unpublished(t.outbox)| + |order|
  {
    if order != [] {
      var init := order[..|order| - 1];
      ReapGrowth(t, init);
      var (a, b) := (ReapInOrder(t, init).outbox, ReapInOrder(t, order).outbox);
      assert Unpublished(b) <= Unpublished(a) + {|a|};
      SubsetIsSmaller(Unpublished(b), Unpublished(a) + {|a|});
    }
  }

  lemma WaitThenMark(s: State, elapsed: nat, reaper: nat) returns (ls: seq<Label>)
    ensures |ls| == 2 && ls[0] == Tick(elapsed, s.db.clock) && ls[1] == Reaper(MarkDead(reaper, s.db.clock + elapsed))
    ensures Runs(s, ls)
    ensures var t := Exec(s, ls);
            && t == s.(db := s.db.(clock := t.db.clock, began := s.db.clock, workers := t.db.workers),
                       reapers := t.reapers)
            && t.db.workers.Keys == s.db.workers.Keys
            && reaper in t.reapers && t.reapers[reaper] == s.db.clock + elapsed
  {
    ls := [Tick(elapsed, s.db.clock), Reaper(MarkDead(reaper, s.db.clock + elapsed))];
    TwoSteps(s, ls[0], ls[1]);
  }

  /** Time passes the lease and the reaper starts its tick: the job is an orphan. */
  lemma ReaperFindsJob(s: State, id: JobId, crew: Crew) returns (ls: seq<Label>)
    requires id in s.db.jobs && s.db.jobs[id].status.Running? && s.db.jobs[id].leaseExpiresAt.Some?
    requires s.db.jobs[id].assignee.Some? && s.db.jobs[id].assignee.value in s.db.workers
    ensures Runs(s, ls) && |ls| == 2 && AllHelpful(crew, ls)
    ensures var t := Exec(s, ls);
            && t.relays == s.relays && t.results == s.results
            && t.db.jobs == s.db.jobs && t.db.outbox == s.db.outbox && t.db.workers.Keys == s.db.workers.Keys
            && crew.reaper in t.reapers && Orphan(t.db, id, t.reapers[crew.reaper])
  {
    var expiry := s.db.jobs[id].leaseExpiresAt.value;
    ls := WaitThenMark(s, if expiry >= s.db.clock then expiry - s.db.clock + 1 else 0, crew.reaper);
  }

  lemma ReaperFreesOrphan(s: State, id: JobId, crew: Crew) returns (l: Label)
    requires Sound(s) && crew.reaper in s.reapers && Orphan(s.db, id, s.reapers[crew.reaper])
    ensures l.Reaper? && l.reap.Reap? && l.reap.reaper == crew.reaper && Runs(s, [l])
    ensures var s' := Exec(s, [l]);
            && s'.relays == s.relays && s'.results == s.results
            && s'.db.workers == s.db.workers
            && Freed(s', id) && s'.db.jobs[id].attempt == s.db.jobs[id].attempt
            && |Unpublished(s'.db.outbox)| <= |Unpublished(s.db.outbox)| + |s.db.jobs|
  {
    var now := s.reapers[crew.reaper];
    var order := ListSet(Orphans(s.db, now));
    l := Reaper(Reap(crew.reaper, order));
    ReapedJobIsFreed(s, l, order, id);
    OrphansAreFew(s.db, now);
    ReapGrowth(s.db, order);
    ReapFrame(s.db, order);
    OneStep(s, l);
  }

  /** The job failed for good, or waits for a new worker under a row that will be published. */
  ghost predicate Freed(s: State, id: JobId) {
    id in s.db.jobs
    && (s.db.jobs[id].status.Failed?
        || (DispatchedAs(s.db, Message(id, s.db.jobs[id].attempt)) && Pending(s, Message(id, s.db.jobs[id].attempt))))
  }

  /** Time passes the lease; one reaper tick then ends the job or dispatches it again. */
  lemma ReaperFreesJob(s: State, id: JobId, crew: Crew) returns (ls: seq<Label>)
    requires Sound(s) && id in s.db.jobs && s.db.jobs[id].status.Running?
    ensures Runs(s, ls) && |ls| == 3 && AllHelpful(crew, ls)
    ensures var s' := Exec(s, ls);
            && Freed(s', id) && s'.db.jobs[id].attempt == s.db.jobs[id].attempt
            && s'.relays == s.relays && s'.results == s.results
            && s'.db.workers.Keys == s.db.workers.Keys
            && |Unpublished(s'.db.outbox)| <= |Unpublished(s.db.outbox)| + |s.db.jobs|
  {
    RunningIsHeld(s, id);
    var find := ReaperFindsJob(s, id, crew);
    var l := ReaperFreesFound(s, find, id, crew);
    ls := find + [l];
  }

  lemma ReaperFreesFound(s: State, find: seq<Label>, id: JobId, crew: Crew) returns (l: Label)
    requires Sound(s) && Runs(s, find)
    requires var t := Exec(s, find); crew.reaper in t.reapers && Orphan(t.db, id, t.reapers[crew.reaper])
    ensures l.Reaper? && l.reap.Reap? && l.reap.reaper == crew.reaper && Runs(s, find + [l])
    ensures var (t, s') := (Exec(s, find), Exec(s, find + [l]));
            && s'.relays == t.relays && s'.results == t.results && s'.db.workers == t.db.workers
            && Freed(s', id) && s'.db.jobs[id].attempt == t.db.jobs[id].attempt
            && |Unpublished(s'.db.outbox)| <= |Unpublished(t.db.outbox)| + |t.db.jobs|
  {
    RunKeepsSound(s, find);
    l := ReaperFreesOrphan(Exec(s, find), id, crew);
    RunsConcat(s, find, [l]);
  }

  lemma RunningIsHeld(s: State, id: JobId)
    requires Sound(s) && id in s.db.jobs && s.db.jobs[id].status.Running?
    ensures s.db.jobs[id].leaseExpiresAt.Some?
    ensures s.db.jobs[id].assignee.Some? && s.db.jobs[id].assignee.value in s.db.workers
  {
    assert JobOk(View(s.db, id));
    assert RunnerOk(s, id);
    assert LeaseOk(s, Lease(id, s.db.jobs[id].leaseGeneration));
  }

  lemma OrphansAreFew(t: Tables, now: Time)
    ensures |Orphans(t, now)| <= |t.jobs|
  {
    assert Orphans(t, now) <= t.jobs.Keys;
    SubsetIsSmaller(Orphans(t, now), t.jobs.Keys);
  }

  lemma SubsetIsSmaller<T>(a: set<T>, b: set<T>)
    requires a <= b
    ensures |a| <= |b|
  {
    assert b == a + (b - a);
  }

  lemma ReapedJobIsFreed(s: State, l: Label, order: seq<JobId>, id: JobId)
    requires Sound(s) && l.Reaper? && l.reap.Reap? && l.reap.order == order && Enabled(s, l) && id in order
    ensures Freed(Apply(s, l), id) && Apply(s, l).db.jobs[id].attempt == s.db.jobs[id].attempt
  {
    var s' := Apply(s, l);
    ReapMoves(s.db, order, id);
    if s'.db.jobs[id].status.Dispatched? {
      NewDispatchIsPending(s, l, Message(id, s'.db.jobs[id].attempt));
    }
  }

  // ---- the theorem ----

  ghost predicate StillLive(s: State, id: JobId) {
    id in s.db.jobs
    && (s.db.jobs[id].status.Running?
        || (s.db.jobs[id].status.Dispatched? && Live(s, Message(id, s.db.jobs[id].attempt))))
  }

  function RecoveryBound(s: State): nat {
    10 + 3 * (|Unpublished(s.db.outbox)| + |s.db.jobs|)
  }

  /**
   From every reachable state, a RUNNING job, or a DISPATCHED one whose token is not dead-lettered, is taken
   to COMPLETED or FAILED by a fresh relay, one reaper tick and a single fresh worker; all other relays and
   workers may be gone. The schedule is bounded by the unpublished rows and the number of jobs.
   */
  lemma LiveJobsCanBeFinished(cfg: Config, before: seq<Label>, id: JobId) returns (crew: Crew, ls: seq<Label>)
    requires Runs(Init(cfg), before) && StillLive(Exec(Init(cfg), before), id)
    ensures var s := Exec(Init(cfg), before);
            && crew.worker !in s.db.workers && crew.relay !in s.relays && crew.reaper !in s.reapers
            && Runs(s, ls) && AllHelpful(crew, ls) && |ls| <= RecoveryBound(s)
            && Ended(View(Exec(s, ls).db, id))
  {
    var s := Exec(Init(cfg), before);
    ReachableSound(cfg, before);
    crew := FreshCrew(s);
    ls := SoundJobsCanBeFinished(s, id, crew);
  }

  lemma SoundJobsCanBeFinished(s: State, id: JobId, crew: Crew) returns (ls: seq<Label>)
    requires Sound(s) && StillLive(s, id)
    requires crew.worker !in s.db.workers && crew.relay !in s.relays && crew.request !in s.results
    ensures Runs(s, ls) && AllHelpful(crew, ls) && |ls| <= RecoveryBound(s)
    ensures Ended(View(Exec(s, ls).db, id))
  {
    if s.db.jobs[id].status.Dispatched? {
      ls := LiveDispatchCompletes(s, Message(id, s.db.jobs[id].attempt), crew);
    } else {
      var free := ReaperFreesJob(s, id, crew);
      var s1 := Exec(s, free);
      if s1.db.jobs[id].status.Failed? {
        ls := free;
      } else {
        RunKeepsSound(s, free);
        var rest := LiveDispatchCompletes(s1, Message(id, s1.db.jobs[id].attempt), crew);
        RunsConcat(s, free, rest);
        ls := free + rest;
      }
    }
  }
}
