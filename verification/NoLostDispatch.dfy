/**
 No dispatched job is forgotten. Each DISPATCHED job is carried by a token for its current attempt: an
 unpublished outbox row, or the message made from it, in a queue or with a consumer still deciding.
 */
module NoLostDispatch {
  import opened Types
  import opened Transactions
  import opened System
  import opened Frames
  import opened JobMoves
  import opened JobLifecycle
  import opened OutboxRelay

  // ---- tokens ----

  ghost predicate MarkedIn(relays: map<nat, Batch>, row: nat) {
    exists r :: r in relays && row in relays[r].marked
  }

  /** Row `row` will be published again whatever becomes of the open batches. */
  ghost predicate PendingRow(s: State, row: nat, m: Message) {
    row < |s.db.outbox| && RowMessage(s.db.outbox[row]) == m && s.db.outbox[row].publishedAt.None?
    && !MarkedIn(s.relays, row)
  }

  ghost predicate Pending(s: State, m: Message) {
    exists row: nat :: PendingRow(s, row, m)
  }

  predicate HeldBy(b: Broker, w: WorkerId, m: Message) {
    Delivery(w, m, Undecided) in b.unacked
  }

  ghost predicate InTransit(b: Broker, m: Message) {
    m in b.main || m in b.retry || exists w :: HeldBy(b, w, m)
  }

  ghost predicate Live(s: State, m: Message) {
    Pending(s, m) || InTransit(s.broker, m)
  }

  /** Consumers register before they consume, so no claim runs into the foreign key. */
  ghost predicate DeliveriesOk(s: State) {
    && (forall d :: d in s.broker.unacked ==> d.worker in s.db.workers && !d.verdict.Errored?)
    && (forall c :: c in s.lateClaims ==> c.worker in s.db.workers)
  }

  predicate DispatchedAs(t: Tables, m: Message) {
    m.job in t.jobs && t.jobs[m.job].status.Dispatched? && t.jobs[m.job].attempt == m.attempt
  }

  ghost predicate Carried(s: State, m: Message) {
    Live(s, m) || m in s.broker.dlq
  }

  ghost predicate DispatchOk(s: State) {
    && RelaysOk(s) && DeliveriesOk(s) && JobsOk(s.db)
    && forall m :: DispatchedAs(s.db, m) ==> Carried(s, m)
  }

  // ---- deliveries ----

  lemma RemovalKeepsOthers<T>(xs: seq<T>, i: nat, x: T)
    requires i < |xs|
    ensures x in RemoveAt(xs, i) ==> x in xs
    ensures x in xs && x != xs[i] ==> x in RemoveAt(xs, i)
  {
    if x in xs && x != xs[i] {
      var k :| 0 <= k < |xs| && xs[k] == x;
      assert if k < i then xs[..i][k] == x else xs[i + 1..][k - i - 1] == x;
    }
  }

  lemma UpdateKeepsOthers<T>(xs: seq<T>, i: nat, y: T, x: T)
    requires i < |xs| && x in xs && x != xs[i]
    ensures x in xs[i := y]
  {
    var k :| 0 <= k < |xs| && xs[k] == x;
    assert xs[i := y][k] == x;
  }

  /** A delivery is fresh and for a registered worker, or decided now, or was there before. */
  lemma QueueKeepsDeliveries(s: State, q: QueueStep)
    requires DeliveriesOk(s) && QueueEnabled(s, q)
    ensures DeliveriesOk(QueueApply(s, q))
  {
    forall d | d in QueueApply(s, q).broker.unacked
      ensures d.worker in QueueApply(s, q).db.workers && !d.verdict.Errored?
    {
      if q.Settle? || q.GiveUp? || q.Redeliver? {
        RemovalKeepsOthers(s.broker.unacked, q.delivery, d);
      }
    }
  }

  lemma ClaimKeepsDeliveries(s: State, c: ClaimStep)
    requires DeliveriesOk(s) && ClaimEnabled(s, c)
    ensures DeliveriesOk(ClaimApply(s, c))
  {
    ClaimFrame(s, c);
  }

  lemma StepKeepsDeliveries(s: State, l: Label)
    requires DeliveriesOk(s) && Enabled(s, l)
    ensures DeliveriesOk(Apply(s, l))
  {
    Frame(s, l);
    if l.Queue? {
      QueueKeepsDeliveries(s, l.queue);
    } else if l.Claiming? {
      ClaimKeepsDeliveries(s, l.claiming);
    } else {
      OthersKeepLateClaims(s, l);
      if l.Relay? {
        RelayFrame(s, l.rel);
      }
    }
  }

  lemma OthersKeepLateClaims(s: State, l: Label)
    requires Enabled(s, l) && !l.Queue? && !l.Claiming?
    ensures Apply(s, l).lateClaims == s.lateClaims
  {
    match l
    case Client(c) => ClientFrame(s, c);
    case Registry(r) => RegistryFrame(s, r);
    case Reaper(r) => ReaperFrame(s, r);
    case Relay(r) => RelayFrame(s, r);
    case Holder(h) => HolderFrame(s, h);
    case _ =>
  }

  // ---- tokens survive ----

  lemma AppendKeepsPending(s: State, s': State, m: Message)
    requires Pending(s, m) && s'.relays == s.relays && s.db.outbox <= s'.db.outbox
    ensures Pending(s', m)
  {
    var row :| PendingRow(s, row, m);
    assert PendingRow(s', row, m);
  }

  /** The relay turns a row's token into a message, gives it back on rollback, and loses neither on the way. */
  lemma RelayKeepsLive(s: State, r: RelayStep, m: Message)
    requires RelaysOk(s) && RelayEnabled(s, r) && Live(s, m)
    ensures Live(RelayApply(s, r), m)
  {
    var s' := RelayApply(s, r);
    if InTransit(s.broker, m) {
      RelayFrame(s, r);
      if w :| HeldBy(s.broker, w, m) {
        assert HeldBy(s'.broker, w, m);
      }
    } else {
      var row :| PendingRow(s, row, m);
      if r.PublishOk? && NextRow(s, r.relay) == row {
        assert m in s'.broker.main || m in s'.broker.retry;
      } else {
        RelayKeepsPendingRow(s, r, row, m);
        assert PendingRow(s', row, m);
      }
    }
  }

  lemma RelayKeepsPendingRow(s: State, r: RelayStep, row: nat, m: Message)
    requires RelaysOk(s) && RelayEnabled(s, r) && PendingRow(s, row, m)
    requires r.PublishOk? ==> NextRow(s, r.relay) != row
    ensures PendingRow(RelayApply(s, r), row, m)
  {
    var s' := RelayApply(s, r);
    forall q | q in s'.relays && row in s'.relays[q].marked ensures q in s.relays && row in s.relays[q].marked {
    }
    if r.Commit? {
      assert row !in s.relays[r.relay].marked;
    }
  }

  /** The broker moves a message along; only giving up on an undecided claim parks it in the DLQ. */
  lemma QueueKeepsTransit(s: State, q: QueueStep, m: Message)
    requires QueueEnabled(s, q) && InTransit(s.broker, m)
    ensures InTransit(QueueApply(s, q).broker, m)
            || (q.GiveUp? && s.broker.unacked[q.delivery].msg == m && m in QueueApply(s, q).broker.dlq)
  {
    var b' := QueueApply(s, q).broker;
    if m in s.broker.main || m in s.broker.retry {
      if q.Deliver? && q.msg == m {
        assert b'.unacked[|s.broker.unacked|] == Delivery(q.worker, m, Undecided);
        assert HeldBy(b', q.worker, m);
      }
    } else {
      var w :| HeldBy(s.broker, w, m);
      if q.Settle? || q.GiveUp? || q.Redeliver? {
        RemovalKeepsOthers(s.broker.unacked, q.delivery, Delivery(w, m, Undecided));
      }
      assert HeldBy(b', w, m) || m in b'.main || (q.GiveUp? && m in b'.dlq);
    }
  }

  /** A claim for the message's own job would have moved the job on. */
  lemma ClaimKeepsTransit(s: State, c: ClaimStep, m: Message)
    requires ClaimEnabled(s, c) && InTransit(s.broker, m) && DeliveriesOk(s)
    requires DispatchedAs(s.db, m) && DispatchedAs(ClaimApply(s, c).db, m)
    ensures InTransit(ClaimApply(s, c).broker, m)
  {
    ClaimFrame(s, c);
    if w :| HeldBy(s.broker, w, m) {
      if c.Claim? {
        assert s.broker.unacked[c.delivery].worker in s.db.workers;
        assert s.broker.unacked[c.delivery] != Delivery(w, m, Undecided);
        var decided := ClaimApply(s, c).broker.unacked[c.delivery];
        UpdateKeepsOthers(s.broker.unacked, c.delivery, decided, Delivery(w, m, Undecided));
      }
      assert HeldBy(ClaimApply(s, c).broker, w, m);
    }
  }

  /** Step `l` is a consumer giving up on the undecided claim of message `m`. */
  predicate GivesUpOn(s: State, l: Label, m: Message) {
    l.Queue? && l.queue.GiveUp? && l.queue.delivery < |s.broker.unacked| && s.broker.unacked[l.queue.delivery].msg == m
  }

  lemma StepKeepsLive(s: State, l: Label, m: Message)
    requires RelaysOk(s) && DeliveriesOk(s) && Enabled(s, l) && Live(s, m)
    requires DispatchedAs(s.db, m) && DispatchedAs(Apply(s, l).db, m)
    ensures Live(Apply(s, l), m) || (GivesUpOn(s, l, m) && m in Apply(s, l).broker.dlq)
  {
    if l.Relay? {
      RelayKeepsLive(s, l.rel, m);
    } else {
      Frame(s, l);
      if Pending(s, m) {
        AppendKeepsPending(s, Apply(s, l), m);
      } else if l.Queue? {
        QueueKeepsTransit(s, l.queue, m);
      } else if l.Claiming? {
        ClaimKeepsTransit(s, l.claiming, m);
      }
    }
  }

  // ---- tokens are created with the dispatch ----

  /** A dispatch that was not there before is a row of the appended part. */
  lemma {:induction false} NewDispatchHasRow(before: seq<OutboxRow>, after: seq<OutboxRow>, id: JobId, d: Dispatch)
    returns (row: nat)
    requires before <= after
    requires Dispatches(after, id) == Dispatches(before, id) + [d]
    ensures |before| <= row < |after| && after[row].job == id && after[row].attempt == d.attempt
  {
    var n := |after| - 1;
    assert |after| == |before| ==> after == before;
    if after[n].job == id {
      row := n;
      assert Dispatches(after, id)[|Dispatches(after, id)| - 1] == Dispatch(after[n].target, after[n].attempt);
    } else {
      row := NewDispatchHasRow(before, after[..n], id, d);
    }
  }

  /** Whatever makes a job DISPATCHED appends a row for the attempt in the same step. */
  lemma DispatchingAppends(v: JobView, v': JobView)
    requires JobOk(v) && Move(v, v') && v'.job.Some? && v'.job.value.status.Dispatched?
    requires !(v.job.Some? && v.job.value.status.Dispatched? && v.job.value.attempt == v'.job.value.attempt)
    ensures exists d :: v'.dispatches == v.dispatches + [d] && d.attempt == v'.job.value.attempt
  {
    assert v'.dispatches == v.dispatches + [v'.dispatches[|v.dispatches|]];
  }

  lemma StepDispatches(s: State, l: Label, m: Message) returns (d: Dispatch)
    requires JobsOk(s.db) && Enabled(s, l)
    requires DispatchedAs(Apply(s, l).db, m) && !DispatchedAs(s.db, m)
    ensures Dispatches(Apply(s, l).db.outbox, m.job) == Dispatches(s.db.outbox, m.job) + [d] && d.attempt == m.attempt
  {
    var (v, v') := (View(s.db, m.job), View(Apply(s, l).db, m.job));
    StepMovesJob(s, l, m.job);
    assert JobOk(v);
    DispatchingAppends(v, v');
    d :| v'.dispatches == v.dispatches + [d] && d.attempt == m.attempt;
  }

  lemma NewDispatchIsPending(s: State, l: Label, m: Message)
    requires RelaysOk(s) && JobsOk(s.db) && Enabled(s, l)
    requires DispatchedAs(Apply(s, l).db, m) && !DispatchedAs(s.db, m)
    ensures Pending(Apply(s, l), m)
  {
    var d := StepDispatches(s, l, m);
    if l.Relay? {
      RelayMoves(s, l.rel, m.job);
    } else {
      Frame(s, l);
      var row := NewDispatchHasRow(s.db.outbox, Apply(s, l).db.outbox, m.job, d);
      NewRowIsPending(s, Apply(s, l), row, m);
    }
  }

  lemma NewRowIsPending(s: State, s': State, row: nat, m: Message)
    requires RelaysOk(s) && s'.relays == s.relays
    requires Appends(s.db.outbox, s'.db.outbox) && |s.db.outbox| <= row < |s'.db.outbox|
    requires RowMessage(s'.db.outbox[row]) == m
    ensures Pending(s', m)
  {
    forall r | r in s.relays ensures row !in s.relays[r].marked {
      assert BatchOk(s.db.outbox, s.broker, s.relays[r]);
    }
    assert PendingRow(s', row, m);
  }

  // ---- the invariant over runs ----

  lemma StepKeepsDispatch(s: State, l: Label)
    requires DispatchOk(s) && Enabled(s, l)
    ensures DispatchOk(Apply(s, l))
  {
    StepKeepsRelays(s, l);
    StepKeepsDeliveries(s, l);
    StepKeepsJobsOk(s, l);
    forall m | DispatchedAs(Apply(s, l).db, m) ensures Carried(Apply(s, l), m) {
      if !DispatchedAs(s.db, m) {
        NewDispatchIsPending(s, l, m);
      } else if m in s.broker.dlq {
        Frame(s, l);
      } else {
        StepKeepsLive(s, l, m);
      }
    }
  }

  lemma {:induction false} RunKeepsDispatch(s: State, ls: seq<Label>)
    requires DispatchOk(s) && Runs(s, ls)
    ensures DispatchOk(Exec(s, ls))
  {
    if ls != [] {
      RunKeepsDispatch(s, ls[..|ls| - 1]);
      StepKeepsDispatch(Exec(s, ls[..|ls| - 1]), ls[|ls| - 1]);
    }
  }

  /**
   In every reachable state a DISPATCHED job has, for its current attempt, an unpublished row no open batch
   can retire, or a message in main or retry, or a consumer that has not decided its claim, or a dead letter.
   */
  lemma NoDispatchIsLost(cfg: Config, ls: seq<Label>, id: JobId)
    requires Runs(Init(cfg), ls)
    requires id in Exec(Init(cfg), ls).db.jobs && Exec(Init(cfg), ls).db.jobs[id].status.Dispatched?
    ensures var s := Exec(Init(cfg), ls);
            var m := Message(id, s.db.jobs[id].attempt);
            Pending(s, m) || InTransit(s.broker, m) || m in s.broker.dlq
  {
    RunKeepsDispatch(Init(cfg), ls);
    var s := Exec(Init(cfg), ls);
    assert DispatchedAs(s.db, Message(id, s.db.jobs[id].attempt));
  }

  /** Somewhere in the run a consumer gave up on this message before its claim was decided. */
  ghost predicate GaveUpOn(s: State, ls: seq<Label>, m: Message)
    requires Runs(s, ls)
  {
    ls != [] && var (init, l) := (ls[..|ls| - 1], ls[|ls| - 1]);
      GaveUpOn(s, init, m) || GivesUpOn(Exec(s, init), l, m)
  }

  /** The dead-letter case is there only for claims that failed with something other than a conflict. */
  lemma {:induction false} OnlyFailedClaimsStrand(cfg: Config, ls: seq<Label>, m: Message)
    requires Runs(Init(cfg), ls) && DispatchedAs(Exec(Init(cfg), ls).db, m)
    requires !GaveUpOn(Init(cfg), ls, m)
    ensures Live(Exec(Init(cfg), ls), m)
  {
    if ls != [] {
      var (init, l) := (ls[..|ls| - 1], ls[|ls| - 1]);
      var s := Exec(Init(cfg), init);
      RunKeepsDispatch(Init(cfg), init);
      if DispatchedAs(s.db, m) {
        OnlyFailedClaimsStrand(cfg, init, m);
        StepKeepsLive(s, l, m);
      } else {
        NewDispatchIsPending(s, l, m);
      }
    }
  }
}
