/** What the steps of each party leave alone. */
module Frames {
  import opened Types
  import opened Transactions
  import opened System

  /** Everything but the relay's marks appends rows, unpublished, and leaves the old ones as they were. */
  ghost predicate Appends(before: seq<OutboxRow>, after: seq<OutboxRow>) {
    before <= after && forall i :: |before| <= i < |after| ==> after[i].publishedAt.None?
  }

  lemma ClientFrame(s: State, c: ClientStep)
    requires ClientEnabled(s, c)
    ensures var s' := ClientApply(s, c);
            && s' == s.(db := s'.db, creates := s'.creates, replies := s'.replies)
            && s'.db == s.db.(jobs := s'.db.jobs, outbox := s'.db.outbox)
            && Appends(s.db.outbox, s'.db.outbox)
  {
  }

  lemma RegistryFrame(s: State, r: RegistryStep)
    ensures var s' := RegistryApply(s, r);
            s' == s.(db := s.db.(workers := s'.db.workers)) && s.db.workers.Keys <= s'.db.workers.Keys
  {
  }

  lemma {:induction false} ReapFrame(t: Tables, order: seq<JobId>)
    requires forall id :: id in order ==> id in t.jobs
    ensures var t' := ReapInOrder(t, order);
            && t' == t.(jobs := t'.jobs, outbox := t'.outbox)
            && t'.jobs.Keys == t.jobs.Keys
            && Appends(t.outbox, t'.outbox)
  {
    if order != [] {
      ReapFrame(t, order[..|order| - 1]);
    }
  }

  lemma ReaperFrame(s: State, r: ReaperStep)
    requires ReaperEnabled(s, r)
    ensures var s' := ReaperApply(s, r);
            && s' == s.(db := s'.db, reapers := s'.reapers)
            && s'.db == s.db.(jobs := s'.db.jobs, outbox := s'.db.outbox, workers := s'.db.workers)
            && s'.db.jobs.Keys == s.db.jobs.Keys
            && s.db.workers.Keys <= s'.db.workers.Keys
            && Appends(s.db.outbox, s'.db.outbox)
            && (r.MarkDead? ==> s'.db.jobs == s.db.jobs && s'.db.outbox == s.db.outbox)
  {
    if r.Reap? {
      ReapFrame(s.db, r.order);
    }
  }

  /** No step rewrites what a row dispatches. */
  ghost predicate SameRows(before: seq<OutboxRow>, after: seq<OutboxRow>) {
    && |before| <= |after|
    && forall i :: 0 <= i < |before| ==>
         && after[i].job == before[i].job && after[i].attempt == before[i].attempt
         && after[i].target == before[i].target && after[i].createdAt == before[i].createdAt
  }

  lemma EnqueueFrame(b: Broker, row: OutboxRow)
    ensures var b' := Enqueue(b, row);
            && b' == b.(main := b'.main, retry := b'.retry, sentMain := b'.sentMain, sentRetry := b'.sentRetry)
            && b.main <= b'.main && b.retry <= b'.retry && b.sentMain <= b'.sentMain && b.sentRetry <= b'.sentRetry
  {
  }

  lemma RelayFrame(s: State, r: RelayStep)
    requires RelayEnabled(s, r)
    ensures var s' := RelayApply(s, r);
            && s' == s.(db := s.db.(outbox := s'.db.outbox), relays := s'.relays, broker := s'.broker)
            && s'.broker == s.broker.(main := s'.broker.main, retry := s'.broker.retry,
                                      sentMain := s'.broker.sentMain, sentRetry := s'.broker.sentRetry)
            && SameRows(s.db.outbox, s'.db.outbox) && |s'.db.outbox| == |s.db.outbox|
            && s.broker.main <= s'.broker.main && s.broker.retry <= s'.broker.retry
            && s.broker.sentMain <= s'.broker.sentMain && s.broker.sentRetry <= s'.broker.sentRetry
  {
    if r.PublishOk? || r.PublishFailed? {
      EnqueueFrame(s.broker, s.db.outbox[NextRow(s, r.relay)]);
    }
  }

  lemma QueueFrame(s: State, q: QueueStep)
    requires QueueEnabled(s, q)
    ensures var s' := QueueApply(s, q);
            && s' == s.(broker := s'.broker, lateClaims := s'.lateClaims)
            && s'.broker.sentMain == s.broker.sentMain && s'.broker.sentRetry == s.broker.sentRetry
            && s.broker.dlq <= s'.broker.dlq
  {
  }

  lemma ClaimFrame(s: State, c: ClaimStep)
    requires ClaimEnabled(s, c)
    ensures var s' := ClaimApply(s, c);
            var served := ServeClaim(s, Claimant(s, c).job, Claimant(s, c).worker, Heard(c));
            && s' == s.(db := served.db, leases := served.leases, open := served.open,
                        broker := s'.broker, lateClaims := s'.lateClaims)
            && s'.db == s.db.(jobs := s'.db.jobs)
            && s'.db.jobs.Keys == s.db.jobs.Keys
            && s'.broker == s.broker.(unacked := s'.broker.unacked)
  {
  }

  lemma FinishFrame(t: Tables, id: JobId, w: WorkerId, generation: int, success: bool, artifact: Option<ArtifactInput>)
    ensures var t' := FinishJob(t, id, w, generation, success, artifact).db;
            && t' == t.(jobs := t'.jobs, outbox := t'.outbox, artifacts := t'.artifacts)
            && t'.jobs.Keys == t.jobs.Keys
            && Appends(t.outbox, t'.outbox)
  {
  }

  lemma HolderFrame(s: State, h: HolderStep)
    requires HolderEnabled(s, h)
    ensures var s' := HolderApply(s, h);
            && s' == s.(db := s'.db, open := s'.open, results := s'.results, objects := s'.objects)
            && s'.db == s.db.(jobs := s'.db.jobs, outbox := s'.db.outbox, artifacts := s'.db.artifacts)
            && s'.db.jobs.Keys == s.db.jobs.Keys
            && Appends(s.db.outbox, s'.db.outbox)
            && s.objects <= s'.objects
  {
    match h
    case ResultFinish(req) =>
      var r := s.results[req];
      FinishFrame(s.db, r.lease.job, r.worker, r.lease.generation, r.success, ArtifactOf(r));
    case _ =>
  }

  /** One call for all of the above. */
  lemma Frame(s: State, l: Label)
    requires Enabled(s, l)
    ensures var s' := Apply(s, l);
            && s'.cfg == s.cfg
            && s'.db.clock == s.db.clock + (if l.Tick? then l.elapsed else 0)
            && s.db.workers.Keys <= s'.db.workers.Keys
            && (!l.Client? ==> s'.db.jobs.Keys == s.db.jobs.Keys)
            && SameRows(s.db.outbox, s'.db.outbox)
            && (!l.Relay? ==> s'.relays == s.relays && Appends(s.db.outbox, s'.db.outbox)
                              && s'.broker.sentMain == s.broker.sentMain && s'.broker.sentRetry == s.broker.sentRetry)
            && (!l.Claiming? ==> s'.leases == s.leases && (!l.Holder? ==> s'.open == s.open))
            && (!l.Holder? ==> s'.results == s.results && s'.db.artifacts == s.db.artifacts)
            && s.objects <= s'.objects
            && s.broker.dlq <= s'.broker.dlq
            && (!l.Relay? && !l.Queue? && !l.Claiming? ==> s'.broker == s.broker)
  {
    match l
    case Tick(_, _) =>
    case Client(c) => ClientFrame(s, c);
    case Registry(r) => RegistryFrame(s, r);
    case Reaper(r) => ReaperFrame(s, r);
    case Relay(r) => RelayFrame(s, r);
    case Queue(q) => QueueFrame(s, q);
    case Claiming(c) => ClaimFrame(s, c);
    case Holder(h) => HolderFrame(s, h);
  }
}
