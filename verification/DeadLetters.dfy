/** Exactly which jobs can no longer end: those DISPATCHED with nothing left that could move them. */
module DeadLetters {
  import opened Types
  import opened Transactions
  import opened System
  import opened Frames
  import opened JobMoves
  import opened JobLifecycle
  import opened Fencing
  import opened OutboxRelay
  import opened NoLostDispatch
  import opened Recovery

  /** The lease is the last one granted for the job. */
  predicate Current(t: Tables, l: Lease, id: JobId) {
    l.job == id && id in t.jobs && l.generation == t.jobs[id].leaseGeneration
  }

  /** No message, delivery or claim is for the job. */
  ghost predicate NothingUnderWay(b: Broker, claims: multiset<ClaimRequest>, id: JobId) {
    && (forall m :: m in b.main || m in b.retry ==> m.job != id)
    && (forall d :: d in b.unacked ==> d.msg.job != id)
    && (forall c :: c in claims ==> c.job != id)
  }

  /**
   Nothing is left that could make a worker claim the job, and its last claimer, if it had one, will not report
   success any more. No queue consumer reads the DLQ.
   */
  ghost predicate Forgotten(s: State, id: JobId) {
    && IsDispatched(s.db, id)
    && (forall i :: 0 <= i < |s.db.outbox| && s.db.outbox[i].job == id ==> s.db.outbox[i].publishedAt.Some?)
    && NothingUnderWay(s.broker, s.lateClaims, id)
    && (forall l :: l in s.open ==> !Current(s.db, l, id))
    && (forall q :: q in s.results && s.results[q].success ==> !Current(s.db, s.results[q].lease, id))
  }

  /** A client that sends a result a second time, which no worker of the platform does. */
  predicate Repeats(l: Label) {
    l.Holder? && l.holder.ResultStart? && l.holder.again
  }

  ghost predicate NoneRepeats(ls: seq<Label>) {
    forall i :: 0 <= i < |ls| ==> !Repeats(ls[i])
  }

  // ---- forgotten jobs stay forgotten ----

  /** A quiet step other than a result leaves a DISPATCHED job alone; only its status could tell otherwise. */
  lemma StillDispatched(v: JobView, v': JobView)
    requires Quiet(v, v') && v.job.Some? && v.job.value.status.Dispatched? && v'.job.Some?
             && v'.job.value.status.Dispatched?
    ensures v' == v
  {
  }

  lemma ClientLeavesDispatched(s: State, c: ClientStep, id: JobId)
    requires ClientEnabled(s, c) && IsDispatched(s.db, id)
    ensures View(ClientApply(s, c).db, id) == View(s.db, id)
  {
    ClientMoves(s, c, id);
    assert IsDispatched(ClientApply(s, c).db, id);
    StillDispatched(View(s.db, id), View(ClientApply(s, c).db, id));
  }

  lemma ReaperLeavesDispatched(s: State, r: ReaperStep, id: JobId)
    requires ReaperEnabled(s, r) && IsDispatched(s.db, id)
    ensures View(ReaperApply(s, r).db, id) == View(s.db, id)
  {
    if r.Reap? {
      assert !Orphan(s.db, id, s.reapers[r.reaper]);
      ReapMoves(s.db, r.order, id);
    }
  }

  /** A result for a DISPATCHED job takes effect only if it is a success of the last claimer. */
  lemma HolderLeavesForgotten(s: State, h: HolderStep, id: JobId)
    requires Forgotten(s, id) && HolderEnabled(s, h)
    ensures View(HolderApply(s, h).db, id) == View(s.db, id)
  {
    HolderMoves(s, h, id);
    if h.ResultFinish? {
      var r := s.results[h.req];
      FinishJobMoves(s.db, r.lease.job, r.worker, r.lease.generation, r.success, ArtifactOf(r), id);
    }
    assert IsDispatched(HolderApply(s, h).db, id);
    StillDispatched(View(s.db, id), View(HolderApply(s, h).db, id));
  }

  lemma ClaimLeavesForgotten(s: State, c: ClaimStep, id: JobId)
    requires Forgotten(s, id) && ClaimEnabled(s, c)
    ensures Claimant(s, c).job != id
    ensures View(ClaimApply(s, c).db, id) == View(s.db, id)
  {
    ClaimFrame(s, c);
    if c.Claim? {
      assert s.broker.unacked[c.delivery] in s.broker.unacked;
    }
    assert ClaimApply(s, c).db.outbox == s.db.outbox;
  }

  lemma SameRowsSameView(t: Tables, t': Tables, id: JobId)
    requires t'.jobs == t.jobs && t'.outbox == t.outbox
    ensures View(t', id) == View(t, id)
  {
  }

  lemma OthersLeaveJobs(s: State, l: Label, id: JobId)
    requires Enabled(s, l) && (l.Tick? || l.Registry? || l.Queue?)
    ensures View(Apply(s, l).db, id) == View(s.db, id)
  {
    if l.Registry? {
      RegistryFrame(s, l.registry);
    } else if l.Queue? {
      QueueFrame(s, l.queue);
    }
    SameRowsSameView(s.db, Apply(s, l).db, id);
  }

  lemma ForgottenJobIsLeftAlone(s: State, l: Label, id: JobId)
    requires Forgotten(s, id) && Enabled(s, l)
    ensures View(Apply(s, l).db, id) == View(s.db, id)
  {
    if l.Claiming? {
      ClaimLeavesForgotten(s, l.claiming, id);
    } else if l.Holder? {
      HolderLeavesForgotten(s, l.holder, id);
    } else if l.Client? {
      ClientLeavesDispatched(s, l.client, id);
    } else if l.Reaper? {
      ReaperLeavesDispatched(s, l.reap, id);
    } else if l.Relay? {
      RelayMoves(s, l.rel, id);
    } else {
      OthersLeaveJobs(s, l, id);
    }
  }

  /** No row of the job was appended, and published rows stay published. */
  lemma {:induction false} NoNewRows(before: seq<OutboxRow>, after: seq<OutboxRow>, id: JobId, i: nat)
    requires before <= after && Dispatches(after, id) == Dispatches(before, id)
    requires |before| <= i < |after|
    ensures after[i].job != id
  {
    var n := |after| - 1;
    DispatchesOnlyGrow(before, after[..n], id);
    if i < n {
      assert Dispatches(after[..n], id) == Dispatches(before, id);
      NoNewRows(before, after[..n], id, i);
    }
  }

  lemma {:induction false} DispatchesOnlyGrow(before: seq<OutboxRow>, after: seq<OutboxRow>, id: JobId)
    requires before <= after
    ensures Dispatches(before, id) <= Dispatches(after, id)
  {
    if |before| < |after| {
      DispatchesOnlyGrow(before, after[..|after| - 1], id);
    } else {
      assert before == after;
    }
  }

  /** Rows in open batches are unpublished, so none of them belongs to the job. */
  lemma BatchIsForOthers(s: State, relay: nat, id: JobId)
    requires RelaysOk(s) && Forgotten(s, id) && CanPublish(s, relay)
    ensures s.db.outbox[NextRow(s, relay)].job != id
  {
    assert BatchOk(s.db.outbox, s.broker, s.relays[relay]);
  }

  lemma EnqueueAddsOne(b: Broker, row: OutboxRow)
    ensures var b' := Enqueue(b, row);
            && b'.unacked == b.unacked
            && forall m :: m in b'.main || m in b'.retry ==> m == RowMessage(row) || m in b.main || m in b.retry
  {
  }

  lemma PublishForgets(s: State, r: RelayStep, id: JobId)
    requires RelaysOk(s) && Forgotten(s, id) && RelayEnabled(s, r) && (r.PublishOk? || r.PublishFailed?)
    ensures Forgotten(RelayApply(s, r), id)
  {
    BatchIsForOthers(s, r.relay, id);
    EnqueueAddsOne(s.broker, s.db.outbox[NextRow(s, r.relay)]);
  }

  lemma RelayForgets(s: State, r: RelayStep, id: JobId)
    requires RelaysOk(s) && Forgotten(s, id) && RelayEnabled(s, r)
    ensures Forgotten(RelayApply(s, r), id)
  {
    if r.PublishOk? || r.PublishFailed? {
      PublishForgets(s, r, id);
    }
  }

  lemma DeliveryLeaves(s: State, q: QueueStep, id: JobId)
    requires NothingUnderWay(s.broker, s.lateClaims, id) && QueueEnabled(s, q)
             && (q.Settle? || q.GiveUp? || q.Redeliver?)
    ensures NothingUnderWay(QueueApply(s, q).broker, QueueApply(s, q).lateClaims, id)
  {
    var s' := QueueApply(s, q);
    assert s.broker.unacked[q.delivery] in s.broker.unacked;
    forall d | d in s'.broker.unacked ensures d.msg.job != id {
      RemovalKeepsOthers(s.broker.unacked, q.delivery, d);
    }
  }

  lemma QueueBringsNothing(s: State, q: QueueStep, id: JobId)
    requires NothingUnderWay(s.broker, s.lateClaims, id) && QueueEnabled(s, q)
    ensures NothingUnderWay(QueueApply(s, q).broker, QueueApply(s, q).lateClaims, id)
  {
    if q.Settle? || q.GiveUp? || q.Redeliver? {
      DeliveryLeaves(s, q, id);
    }
  }

  lemma QueueForgets(s: State, q: QueueStep, id: JobId)
    requires Forgotten(s, id) && QueueEnabled(s, q)
    ensures Forgotten(QueueApply(s, q), id)
  {
    QueueFrame(s, q);
    QueueBringsNothing(s, q, id);
  }

  lemma ClaimForgets(s: State, c: ClaimStep, id: JobId)
    requires Forgotten(s, id) && ClaimEnabled(s, c)
    ensures Forgotten(ClaimApply(s, c), id)
  {
    ClaimLeavesForgotten(s, c, id);
    ClaimFrame(s, c);
    if c.Claim? {
      assert s.broker.unacked[c.delivery] in s.broker.unacked;
    }
  }

  /** No new result comes in for the last lease, and those under way keep their verdict. */
  lemma HolderAwaitsNothing(s: State, h: HolderStep, id: JobId)
    requires Forgotten(s, id) && HolderEnabled(s, h) && !Repeats(Holder(h))
    ensures var s' := HolderApply(s, h);
            && (forall l :: l in s'.open ==> !Current(s.db, l, id))
            && (forall q :: q in s'.results && s'.results[q].success ==> !Current(s.db, s'.results[q].lease, id))
  {
  }

  lemma StepForgets(s: State, l: Label, id: JobId)
    requires RelaysOk(s) && Forgotten(s, id) && Enabled(s, l) && !Repeats(l)
    ensures Forgotten(Apply(s, l), id)
  {
    if l.Relay? {
      RelayForgets(s, l.rel, id);
    } else if l.Queue? {
      QueueForgets(s, l.queue, id);
    } else if l.Claiming? {
      ClaimForgets(s, l.claiming, id);
    } else {
      Frame(s, l);
      OthersKeepLateClaims(s, l);
      if l.Holder? {
        HolderAwaitsNothing(s, l.holder, id);
      }
      ForgottenJobIsLeftAlone(s, l, id);
      OtherStepsForget(s, Apply(s, l), id);
    }
  }

  lemma OtherStepsForget(s: State, s': State, id: JobId)
    requires Forgotten(s, id) && View(s'.db, id) == View(s.db, id)
    requires Appends(s.db.outbox, s'.db.outbox) && s'.broker == s.broker && s'.lateClaims == s.lateClaims
    requires forall l :: l in s'.open ==> !Current(s.db, l, id)
    requires forall q :: q in s'.results && s'.results[q].success ==> !Current(s.db, s'.results[q].lease, id)
    ensures Forgotten(s', id)
  {
    NoRowAppended(s.db.outbox, s'.db.outbox, id);
    assert s'.db.jobs[id] == s.db.jobs[id];
  }

  lemma NoRowAppended(before: seq<OutboxRow>, after: seq<OutboxRow>, id: JobId)
    requires before <= after && Dispatches(after, id) == Dispatches(before, id)
    ensures forall i :: |before| <= i < |after| ==> after[i].job != id
  {
    forall i | |before| <= i < |after| ensures after[i].job != id {
      NoNewRows(before, after, id, i);
    }
  }

  /** A forgotten job stays DISPATCHED for ever, whatever anybody does that does not send an old result again. */
  lemma {:induction false} ForgottenForEver(s: State, ls: seq<Label>, id: JobId)
    requires RelaysOk(s) && Forgotten(s, id) && Runs(s, ls) && NoneRepeats(ls)
    ensures Forgotten(Exec(s, ls), id) && View(Exec(s, ls).db, id) == View(s.db, id)
  {
    if ls != [] {
      var init := ls[..|ls| - 1];
      ForgottenForEver(s, init, id);
      RunKeepsRelays(s, init);
      StepForgets(Exec(s, init), ls[|ls| - 1], id);
      ForgottenJobIsLeftAlone(Exec(s, init), ls[|ls| - 1], id);
    }
  }

  // ---- everything else can still end ----

  ghost predicate EndsBy(s: State, ls: seq<Label>, id: JobId) {
    Runs(s, ls) && NoneRepeats(ls) && Ended(View(Exec(s, ls).db, id))
  }

  /** Some run brings the job to its end, in which each handler reports at most once. */
  ghost predicate CanEnd(s: State, id: JobId) {
    exists ls :: EndsBy(s, ls, id)
  }

  lemma EndsAfter(s: State, l: Label, ls: seq<Label>, id: JobId)
    requires Enabled(s, l) && !Repeats(l) && EndsBy(Apply(s, l), ls, id)
    ensures CanEnd(s, id)
  {
    OneStep(s, l);
    RunsConcat(s, [l], ls);
    assert EndsBy(s, [l] + ls, id);
  }

  lemma HelpNeverRepeats(crew: Crew, ls: seq<Label>)
    requires AllHelpful(crew, ls)
    ensures NoneRepeats(ls)
  {
    forall i | 0 <= i < |ls| ensures !Repeats(ls[i]) {
      assert Helpful(crew, ls[i]);
    }
  }

  lemma LiveJobEnds(s: State, id: JobId)
    requires Sound(s) && StillLive(s, id)
    ensures CanEnd(s, id)
  {
    var crew := FreshCrew(s);
    var ls := SoundJobsCanBeFinished(s, id, crew);
    HelpNeverRepeats(crew, ls);
    assert EndsBy(s, ls, id);
  }

  /** The last claimer has yet to report, and reports success. */
  lemma OpenLeaseEnds(s: State, l: Lease, id: JobId)
    requires FencingOk(s) && IsDispatched(s.db, id) && l in s.open && Current(s.db, l, id)
    ensures CanEnd(s, id)
  {
    var crew := FreshCrew(s);
    assert RunnerOk(s, id);
    assert JobOk(View(s.db, id));
    var ls := HolderCompletes(s, l, s.leases[l], crew.request);
    assert EndsBy(s, ls, id);
  }

  /** A result of the last claimer that is ready for FinishJob completes the job. */
  lemma ReadyResultEnds(s: State, q: nat, id: JobId)
    requires FencingOk(s) && IsDispatched(s.db, id) && q in s.results && !s.results[q].logs.AttemptRead?
    requires s.results[q].success && Current(s.db, s.results[q].lease, id)
    ensures CanEnd(s, id)
  {
    var l := Holder(ResultFinish(q));
    assert ResultOk(s, s.results[q]);
    assert JobOk(View(s.db, id));
    assert LateFinish(s.db.jobs[id], s.results[q].lease.generation, true);
    assert Apply(s, l).db.jobs[id].status.Completed?;
    assert EndsBy(Apply(s, l), [], id);
    EndsAfter(s, l, [], id);
  }

  lemma PendingResultEnds(s: State, q: nat, id: JobId)
    requires FencingOk(s) && IsDispatched(s.db, id) && q in s.results
    requires s.results[q].success && Current(s.db, s.results[q].lease, id)
    ensures CanEnd(s, id)
  {
    if s.results[q].logs.AttemptRead? {
      var l := Holder(ResultUpload(q, 0, 0));
      StepKeepsFencing(s, l);
      ReadyResultEnds(Apply(s, l), q, id);
      var ls :| EndsBy(Apply(s, l), ls, id);
      EndsAfter(s, l, ls, id);
    } else {
      ReadyResultEnds(s, q, id);
    }
  }

  lemma DeliveredMessageEnds(s: State, d: Delivery)
    requires Sound(s) && IsDispatched(s.db, d.msg.job) && d in s.broker.unacked
    ensures CanEnd(s, d.msg.job)
  {
    var i :| 0 <= i < |s.broker.unacked| && s.broker.unacked[i] == d;
    var l := Queue(Redeliver(i, false));
    StepKeepsDispatch(s, l);
    QueuedMessageEnds(Apply(s, l), d.msg);
    var ls :| EndsBy(Apply(s, l), ls, d.msg.job);
    EndsAfter(s, l, ls, d.msg.job);
  }

  lemma QueuedMessageEnds(s: State, m: Message)
    requires DeliveriesOk(s) && IsDispatched(s.db, m.job) && InTransit(s.broker, m)
    ensures CanEnd(s, m.job)
  {
    var crew := FreshCrew(s);
    var ls := QueuedMessageCompletes(s, m, crew);
    HelpNeverRepeats(crew, ls);
    assert EndsBy(s, ls, m.job);
  }

  lemma UnpublishedRowEnds(s: State, row: nat, id: JobId)
    requires Sound(s) && IsDispatched(s.db, id)
    requires row < |s.db.outbox| && s.db.outbox[row].job == id && s.db.outbox[row].publishedAt.None?
    ensures CanEnd(s, id)
  {
    var crew := FreshCrew(s);
    var ls := RowCompletes(s, row, RowMessage(s.db.outbox[row]), crew);
    HelpNeverRepeats(crew, ls);
    assert EndsBy(s, ls, id);
  }

  /** A claim under way makes the job RUNNING; that its answer is not heard is left to the reaper. */
  lemma LateClaimEnds(s: State, c: ClaimRequest)
    requires Sound(s) && IsDispatched(s.db, c.job) && c in s.lateClaims
    ensures CanEnd(s, c.job)
  {
    var l := Claiming(LateClaim(c, false));
    StepKeepsFencing(s, l);
    StepKeepsDispatch(s, l);
    assert Apply(s, l).db.jobs[c.job].status.Running?;
    LiveJobEnds(Apply(s, l), c.job);
    var ls :| EndsBy(Apply(s, l), ls, c.job);
    EndsAfter(s, l, ls, c.job);
  }

  lemma RememberedDispatchEnds(s: State, id: JobId)
    requires Sound(s) && IsDispatched(s.db, id) && !Forgotten(s, id)
    ensures CanEnd(s, id)
  {
    if i: nat :| i < |s.db.outbox| && s.db.outbox[i].job == id && s.db.outbox[i].publishedAt.None? {
      UnpublishedRowEnds(s, i, id);
    } else if m :| (m in s.broker.main || m in s.broker.retry) && m.job == id {
      QueuedMessageEnds(s, m);
    } else if d :| d in s.broker.unacked && d.msg.job == id {
      DeliveredMessageEnds(s, d);
    } else if c :| c in s.lateClaims && c.job == id {
      LateClaimEnds(s, c);
    } else if l :| l in s.open && Current(s.db, l, id) {
      OpenLeaseEnds(s, l, id);
    } else {
      var q :| q in s.results && s.results[q].success && Current(s.db, s.results[q].lease, id);
      PendingResultEnds(s, q, id);
    }
  }

  lemma SubmittedJobEnds(s: State, id: JobId)
    requires Sound(s) && id in s.db.jobs && s.db.jobs[id].status.New?
    ensures CanEnd(s, id)
  {
    var l := Client(SubmitUpload(id));
    var s' := Apply(s, l);
    StepKeepsDispatch(s, l);
    StepKeepsFencing(s, l);
    NewDispatchIsPending(s, l, Message(id, s'.db.jobs[id].attempt));
    LiveJobEnds(s', id);
    var ls :| EndsBy(s', ls, id);
    EndsAfter(s, l, ls, id);
  }

  /**
   In every reachable state a job can still reach COMPLETED or FAILED if and only if it is not forgotten: DISPATCHED,
   its rows, messages, deliveries and claims all gone, and no report of its last claimer to come.
   */
  lemma CanEndUnlessForgotten(cfg: Config, before: seq<Label>, id: JobId)
    requires Runs(Init(cfg), before) && id in Exec(Init(cfg), before).db.jobs
    ensures CanEnd(Exec(Init(cfg), before), id) <==> !Forgotten(Exec(Init(cfg), before), id)
  {
    ReachableSound(cfg, before);
    SoundJobEndsUnlessForgotten(Exec(Init(cfg), before), id);
  }

  lemma SoundJobEndsUnlessForgotten(s: State, id: JobId)
    requires Sound(s) && id in s.db.jobs
    ensures CanEnd(s, id) <==> !Forgotten(s, id)
  {
    if Forgotten(s, id) {
      forall ls | Runs(s, ls) && NoneRepeats(ls) ensures !EndsBy(s, ls, id) {
        ForgottenForEver(s, ls, id);
      }
    } else {
      var j := s.db.jobs[id];
      if j.status.Terminal() {
        assert EndsBy(s, [], id);
      } else if j.status.New? {
        SubmittedJobEnds(s, id);
      } else if j.status.Running? {
        LiveJobEnds(s, id);
      } else {
        RememberedDispatchEnds(s, id);
      }
    }
  }
}
