/** The store as the processes use it: one method a transaction, tables updated in place. */
module StoreAccess {
  import opened Types
  import opened Effects
  import opened Joining
  import OutboxRelay
  import Tx = Transactions
  import R = Reaping

  datatype OutboxEntry = OutboxEntry(id: nat, job: JobId, target: Target, attempt: int)

  datatype ReapResult = ReapResult(retried: nat, failed: nat)

  predicate Describes(e: OutboxEntry, row: nat, outbox: seq<OutboxRow>) {
    row < |outbox| && e == OutboxEntry(row, outbox[row].job, outbox[row].target, outbox[row].attempt)
  }

  /** What the reaper's select returns for one job. */
  datatype OrphanRow = OrphanRow(id: JobId, attempt: int, maxAttempts: int)

  class Store {
    var clock: Time
    /** NOW() of the transaction that runs: the instant it began. */
    var began: Time
    var jobs: map<JobId, Job>
    var outbox: seq<OutboxRow>
    var workers: map<WorkerId, Worker>
    var artifacts: map<LogKey, Artifact>
    /** Outbox rows held FOR UPDATE by open transactions. */
    var locked: set<nat>

    function Tables(): Tx.Tables
      reads this
    {
      Tx.Tables(clock, began, jobs, outbox, workers, artifacts)
    }

    constructor ()
      ensures Tables() == Tx.Tables(0, 0, map[], [], map[], map[]) && locked == {}
    {
      clock, began, jobs, outbox, workers, artifacts, locked := 0, 0, map[], [], map[], map[], {};
    }

    // ---- claim.go ----

    method ClaimJob(id: JobId, w: WorkerId, lease: Time) returns (r: Result<Job, StoreError>)
      modifies this`jobs
      ensures Tx.Outcome(Tables(), r) == Tx.ClaimJob(old(Tables()), id, w, lease)
      ensures r.Success? <==> Claimable(old(jobs), id) && w in workers
      ensures r.Success? ==> Claims(old(jobs), jobs, id, w, lease, clock) && r.value == jobs[id]
      ensures r.Failure? ==> jobs == old(jobs)
      ensures r == Failure(JobNotClaimable) <==> !Claimable(old(jobs), id)
    {
      if id !in jobs || jobs[id].status != Dispatched {
        return Failure(JobNotClaimable);
      }
      if w !in workers {
        return Failure(ForeignKeyViolation);
      }
      var job := jobs[id];
      var seconds := if lease < SECOND then Tx.DEFAULT_LEASE_SECONDS else lease / SECOND;
      job := job.(status := Running, assignee := Some(w), updatedAt := clock);
      job := job.(attempt := job.attempt + 1, leaseGeneration := job.leaseGeneration + 1);
      job := job.(leaseExpiresAt := Some(clock + seconds * SECOND));
      if job.startedAt.None? {
        job := job.(startedAt := Some(clock));
      }
      jobs := jobs[id := job];
      return Success(job);
    }

    // ---- jobs.go ----

    method RenewLease(id: JobId, w: WorkerId, generation: int, lease: Time) returns (r: Result<Job, StoreError>)
      modifies this`jobs
      ensures Tx.Outcome(Tables(), r) == Tx.RenewLease(old(Tables()), id, w, generation, lease)
      ensures r.Success? <==> Held(old(jobs), id, w, generation)
      ensures r.Success? ==> Renews(old(jobs), jobs, id, lease, clock) && r.value == jobs[id]
      ensures r.Failure? ==> jobs == old(jobs) && r.error == LeaseLost
    {
      if id !in jobs {
        return Failure(LeaseLost);
      }
      var job := jobs[id];
      if job.assignee != Some(w) || job.status != Running || job.leaseGeneration != generation {
        return Failure(LeaseLost);
      }
      var seconds := if lease < SECOND then Tx.DEFAULT_LEASE_SECONDS else lease / SECOND;
      job := job.(leaseExpiresAt := Some(clock + seconds * SECOND), updatedAt := clock);
      jobs := jobs[id := job];
      return Success(job);
    }

    /** The writes go to local copies first; a failed log check returns before they are stored, as the rollback does. */
    method FinishJob(id: JobId, w: WorkerId, generation: int, success: bool, artifact: Option<ArtifactInput>)
      returns (r: Result<(), StoreError>)
      modifies this`jobs, this`outbox, this`artifacts
      ensures Tx.Outcome(Tables(), r) == Tx.FinishJob(old(Tables()), id, w, generation, success, artifact)
      ensures var admitted := id in old(jobs)
                && (old(jobs)[id].status.Completed? || Accepts(old(jobs), id, w, generation, success));
              && (r == Failure(JobNotAssigned) <==> !admitted)
              && (r.Success? <==> admitted && (artifact.Some? ==> artifact.value.attempt == old(jobs)[id].attempt))
              && (r.Failure? && admitted ==> r.error == AttemptMismatch)
      ensures r.Failure? ==> jobs == old(jobs) && outbox == old(outbox) && artifacts == old(artifacts)
      ensures r.Success? ==>
                && (if old(jobs)[id].status.Completed? then jobs == old(jobs) && outbox == old(outbox)
                    else Concludes(old(jobs), old(outbox), jobs, outbox, id, success, clock, began))
                && Records(old(artifacts), artifacts, id, old(jobs)[id].attempt, artifact, clock)
    {
      if id !in jobs {
        return Failure(JobNotAssigned);
      }
      var job := jobs[id];
      var (jobs', outbox') := (jobs, outbox);
      if job.status != Completed {
        var activeFinish := job.status == Running && job.assignee == Some(w) && job.leaseGeneration == generation;
        var lateFinish := success && job.status == Dispatched && job.assignee.None?
                          && job.leaseGeneration == generation;
        if !activeFinish && !lateFinish {
          return Failure(JobNotAssigned);
        }
        if success {
          jobs' := jobs[id :=
            job.(status := Completed, finishedAt := Some(clock), leaseExpiresAt := None, updatedAt := clock)];
        } else if job.attempt >= job.maxAttempts {
          jobs' := jobs[id :=
            job.(status := Failed, finishedAt := Some(clock), leaseExpiresAt := None, updatedAt := clock)];
        } else {
          jobs' := jobs[id := job.(status := Dispatched, assignee := None, leaseExpiresAt := None, updatedAt := clock)];
          outbox' := outbox + [OutboxRow(id, Retry, job.attempt, began, None, false)];
        }
      }
      if artifact.Some? {
        var a := artifact.value;
        if a.attempt != job.attempt {
          return Failure(AttemptMismatch);
        }
        artifacts := artifacts[LogKey(id, job.attempt) := Artifact(a.objectKey, a.bytes, a.lines, clock)];
      }
      jobs, outbox := jobs', outbox';
      return Success(());
    }

    // ---- store.go and outbox.go: creation ----

    /** The insert; the unique index on keys does not apply to jobs without one. */
    method CreateJob(id: JobId, p: Tx.CreateParams, status: JobStatus) returns (r: Result<(), StoreError>)
      modifies this`jobs
      ensures Tx.Outcome(Tables(), r) == Tx.CreateJob(old(Tables()), id, p, status)
      ensures r.Success? <==> id !in old(jobs) && !Taken(old(jobs), p.idempotencyKey)
      ensures r.Success? ==>
                Creates(old(jobs), jobs, id, p.spec, p.idempotencyKey, p.attempt, p.maxAttempts, status, clock)
      ensures r.Failure? ==> jobs == old(jobs) && r.error == UniqueViolation
    {
      var key := if p.idempotencyKey == "" then None else Some(p.idempotencyKey);
      var taken := WithKey(jobs, key);
      KeyIsTaken(Tables(), p.idempotencyKey);
      if id in jobs || (key.Some? && taken != {}) {
        return Failure(UniqueViolation);
      }
      jobs := jobs[id := Job(p.spec, status, None, p.attempt, p.maxAttempts, None, 0, key, clock, None, None, clock)];
      return Success(());
    }

    method CreateAndDispatch(id: JobId, p: Tx.CreateParams) returns (r: Result<(), StoreError>)
      modifies this`jobs, this`outbox
      ensures Tx.Outcome(Tables(), r) == Tx.CreateAndDispatch(old(Tables()), id, p)
      ensures r.Success? <==> id !in old(jobs) && !Taken(old(jobs), p.idempotencyKey)
      ensures r.Success? ==>
                && Creates(old(jobs), jobs, id, p.spec, p.idempotencyKey, p.attempt, p.maxAttempts, Dispatched, clock)
                && Appended(old(outbox), outbox, id, Main, p.attempt, began)
      ensures r.Failure? ==> jobs == old(jobs) && outbox == old(outbox) && r.error == UniqueViolation
    {
      r := CreateJob(id, p, Dispatched);
      if r.Success? {
        outbox := outbox + [OutboxRow(id, Main, p.attempt, began, None, false)];
      }
    }

    method QueueJob(id: JobId) returns (r: Result<(), StoreError>)
      modifies this`jobs, this`outbox
      ensures Tx.Outcome(Tables(), r) == Tx.QueueJob(old(Tables()), id)
      ensures r.Success? <==> id in old(jobs) && old(jobs)[id].status.New?
      ensures r.Success? ==>
                && OnlyJob(old(jobs), jobs, id)
                && jobs[id] == old(jobs)[id].(status := Dispatched, updatedAt := clock)
                && Appended(old(outbox), outbox, id, Main, jobs[id].attempt, began)
      ensures r.Failure? ==> jobs == old(jobs) && outbox == old(outbox) && r.error == NoRows
    {
      if id !in jobs || jobs[id].status != New {
        return Failure(NoRows);
      }
      jobs := jobs[id := jobs[id].(status := Dispatched, updatedAt := clock)];
      var attempt := jobs[id].attempt;
      outbox := outbox + [OutboxRow(id, Main, attempt, began, None, false)];
      return Success(());
    }

    // ---- store.go: workers ----

    method RegisterWorker(w: WorkerId)
      modifies this`workers
      ensures Tables() == Tx.RegisterWorker(old(Tables()), w)
      ensures Alive(old(workers), workers, w, clock)
    {
      workers := workers[w := Worker(Active, Some(clock))];
    }

    method Heartbeat(w: WorkerId) returns (r: Result<(), StoreError>)
      modifies this`workers
      ensures Tx.Outcome(Tables(), r) == Tx.Heartbeat(old(Tables()), w)
      ensures r.Success? <==> w in old(workers)
      ensures r.Success? ==> Alive(old(workers), workers, w, clock)
      ensures r.Failure? ==> workers == old(workers) && r.error == NoRows
    {
      if w !in workers {
        return Failure(NoRows);
      }
      workers := workers[w := Worker(Active, Some(clock))];
      return Success(());
    }

    // ---- reaper.go ----

    method MarkStaleWorkersDead(cutoff: Time) returns (n: nat)
      modifies this`workers
      ensures Tables() == Tx.MarkStaleWorkersDead(old(Tables()), cutoff)
      ensures Buries(old(workers), workers, cutoff)
      ensures n == |set w | w in old(workers) && workers[w].status != old(workers)[w].status|
    {
      var stale := set w | w in workers && Tx.Stale(workers[w], cutoff);
      workers := map w | w in workers :: if w in stale then workers[w].(status := Dead) else workers[w];
      n := |stale|;
      assert stale == set w | w in old(workers) && workers[w].status != old(workers)[w].status;
    }

    /** The join and the filter of the select; the rows come back in an arbitrary order. */
    method SelectOrphans(now: Time) returns (orphans: seq<OrphanRow>)
      ensures Tx.ListsOrphans(Tables(), now, Ids(orphans))
      ensures Current(Tables(), orphans)
      ensures forall id :: id in Ids(orphans) <==> Orphaned(jobs, workers, id, now)
    {
      orphans := [];
      var rest := jobs.Keys;
      while rest != {}
        invariant rest <= jobs.Keys
        invariant Tx.NoRepeats(Ids(orphans)) && Current(Tables(), orphans)
        invariant forall id :: id in Ids(orphans) <==> Tx.Orphan(Tables(), id, now) && id !in rest
        decreases |rest|
      {
        var id :| id in rest;
        rest := rest - {id};
        var job := jobs[id];
        if job.status == Running && job.assignee.Some? && job.assignee.value in workers {
          var expired := job.leaseExpiresAt.Some? && job.leaseExpiresAt.value < now;
          if expired || workers[job.assignee.value].status.Dead? {
            var row := OrphanRow(id, job.attempt, job.maxAttempts);
            assert Ids(orphans + [row]) == Ids(orphans) + [id];
            orphans := orphans + [row];
          }
        }
      }
    }

    /** One round of the reaper's loop: the attempt numbers are those the select returned. */
    method GiveUpOrphan(o: OrphanRow) returns (exhausted: bool)
      requires o.id in jobs && o.attempt == jobs[o.id].attempt && o.maxAttempts == jobs[o.id].maxAttempts
      modifies this`jobs, this`outbox
      ensures Tables() == Tx.GiveUpAttempt(old(Tables()), o.id)
      ensures Concludes(old(jobs), old(outbox), jobs, outbox, o.id, false, clock, began)
      ensures exhausted <==> o.attempt >= o.maxAttempts
    {
      var job := jobs[o.id];
      exhausted := o.attempt >= o.maxAttempts;
      if exhausted {
        jobs := jobs[o.id :=
          job.(status := Failed, finishedAt := Some(clock), leaseExpiresAt := None, updatedAt := clock)];
      } else {
        jobs := jobs[o.id := job.(status := Dispatched, assignee := None, leaseExpiresAt := None, updatedAt := clock)];
        outbox := outbox + [OutboxRow(o.id, Retry, o.attempt, began, None, false)];
      }
    }

    /**
     Moves every orphan out of RUNNING and counts what it did. `order` is the listing the database chose;
     what is left in the tables is the set-level update, and nothing is left to reap under the same `now`.
     */
    method ReapOrphanJobs(now: Time) returns (result: ReapResult, ghost order: seq<JobId>)
      modifies this`jobs, this`outbox
      ensures Tx.ListsOrphans(old(Tables()), now, order)
      ensures Tables() == Tx.ReapInOrder(old(Tables()), order)
      ensures result.retried + result.failed == |order|
      ensures |outbox| == |old(outbox)| + result.retried
      ensures Reaps(old(jobs), workers, jobs, now, clock)
      ensures forall id :: !Orphaned(jobs, workers, id, now)
      ensures outbox == old(outbox) + R.RetryRows(old(Tables()), order)
    {
      ghost var before := Tables();
      var orphans := SelectOrphans(now);
      order := Ids(orphans);
      var retried: nat, failed: nat := 0, 0;
      for i := 0 to |orphans|
        invariant Tables() == Tx.ReapInOrder(before, order[..i])
        invariant retried + failed == i && |outbox| == |before.outbox| + retried
        invariant forall k :: i <= k < |orphans| ==> order[k] in jobs && jobs[order[k]] == before.jobs[order[k]]
      {
        assert order[..i + 1] == order[..i] + [order[i]];
        var exhausted := GiveUpOrphan(orphans[i]);
        if exhausted {
          failed := failed + 1;
        } else {
          retried := retried + 1;
        }
      }
      assert order[..|orphans|] == order;
      result := ReapResult(retried, failed);
      ReapedAll(before, now, order);
      NoOrphanIsLeft(before.jobs, workers, jobs, now, clock);
    }

    // ---- outbox.go: relay access ----

    /** The first row in (created_at, id) order that is unpublished and not taken. */
    method OldestFreeRow(taken: set<nat>) returns (row: Option<nat>)
      ensures row == Tx.OldestFree(outbox, taken, 0)
    {
      row := None;
      var i := |outbox|;
      while i > 0
        invariant 0 <= i <= |outbox| && row == Tx.OldestFree(outbox, taken, i)
      {
        i := i - 1;
        if i !in taken && outbox[i].publishedAt.None?
            && (row.None? || outbox[i].createdAt <= outbox[row.value].createdAt) {
          row := Some(i);
        }
      }
    }

    /** The select of the batch, oldest free rows first. */
    method SelectOldest(limit: nat) returns (rows: seq<nat>)
      ensures rows == Tx.OldestUnpublished(outbox, locked, limit) && FirstAvailable(outbox, locked, limit, rows)
    {
      rows := [];
      var taken := locked;
      var next := OldestFreeRow(taken);
      while |rows| < limit && next.Some?
        invariant |rows| <= limit && next == Tx.OldestFree(outbox, taken, 0)
        invariant rows + Tx.OldestUnpublished(outbox, taken, limit - |rows|)
            == Tx.OldestUnpublished(outbox, locked, limit)
        decreases limit - |rows|
      {
        var row := next.value;
        Regroup(rows, [row], Tx.OldestUnpublished(outbox, taken + {row}, limit - |rows| - 1));
        rows := rows + [row];
        taken := taken + {row};
        next := OldestFreeRow(taken);
      }
      assert Tx.OldestUnpublished(outbox, taken, limit - |rows|) == [];
      assert rows + [] == rows;
      SelectsFirst(outbox, locked, limit);
    }

    /** Locks the rows it takes; rows of other open transactions are skipped, not waited for. */
    method ClaimOutboxBatch(limit: int) returns (entries: seq<OutboxEntry>, tx: OutboxTx)
      modifies this`locked
      ensures fresh(tx) && tx.store == this && tx.marked == {} && tx.openedAt == clock
      ensures tx.rows == Tx.OldestUnpublished(outbox, old(locked), Tx.BatchLimit(limit))
      ensures FirstAvailable(outbox, old(locked), if limit <= 0 then 50 else limit, tx.rows)
      ensures |entries| == |tx.rows|
      ensures forall i :: 0 <= i < |entries| ==> Describes(entries[i], tx.rows[i], outbox)
      ensures locked == old(locked) + Tx.RowSet(tx.rows)
    {
      var rows := SelectOldest(if limit <= 0 then Tx.DEFAULT_BATCH else limit);
      entries := [];
      for i := 0 to |rows|
        invariant |entries| == i && forall k :: 0 <= k < i ==> Describes(entries[k], rows[k], outbox)
      {
        var row := outbox[rows[i]];
        entries := entries + [OutboxEntry(rows[i], row.job, row.target, row.attempt)];
      }
      tx := new OutboxTx(this, rows, clock);
      locked := locked + Tx.RowSet(tx.rows);
    }

    method MarkOutboxPublishedTx(tx: OutboxTx, row: nat) returns (r: Result<(), StoreError>)
      requires tx.store == this
      modifies tx`marked
      ensures r == if row < |outbox| then Success(()) else Failure(NoRows)
      ensures tx.marked == if row < |outbox| then old(tx.marked) + {row} else old(tx.marked)
    {
      if row >= |outbox| {
        return Failure(NoRows);
      }
      tx.marked := tx.marked + {row};
      return Success(());
    }

    method MarkOutboxPublishError(row: nat)
      modifies this`outbox
      ensures Tables() == Tx.MarkPublishError(old(Tables()), row)
      ensures outbox == if row < |old(outbox)|
                        then old(outbox)[row := old(outbox)[row].(publishError := true)] else old(outbox)
    {
      if row < |outbox| {
        outbox := outbox[row := outbox[row].(publishError := true)];
      }
    }
  }

  function WithKey(jobs: map<JobId, Job>, key: Option<string>): set<JobId> {
    set id | id in jobs && jobs[id].idempotencyKey == key
  }

  lemma KeyIsTaken(t: Tx.Tables, key: string)
    ensures var k := if key == "" then None else Some(key);
            && (Tx.KeyTaken(t, k) <==> k.Some? && WithKey(t.jobs, k) != {})
            && (Taken(t.jobs, key) <==> k.Some? && WithKey(t.jobs, k) != {})
  {
    var k := if key == "" then None else Some(key);
    if k.Some? && WithKey(t.jobs, k) != {} {
      var id :| id in WithKey(t.jobs, k);
    }
    if id :| id in t.jobs && t.jobs[id].idempotencyKey == k {
      assert id in WithKey(t.jobs, k);
    }
  }

  lemma SelectsFirst(outbox: seq<OutboxRow>, locked: set<nat>, limit: nat)
    ensures FirstAvailable(outbox, locked, limit, Tx.OldestUnpublished(outbox, locked, limit))
  {
    var rows := Tx.OldestUnpublished(outbox, locked, limit);
    if rows != [] {
      OutboxRelay.BatchIsOldestPrefix(outbox, locked, limit, rows[0]);
    }
    forall row: nat | Available(outbox, locked, row) && row !in rows
      ensures |rows| == limit && forall i :: 0 <= i < |rows| ==> Before(outbox, rows[i], row)
    {
      OutboxRelay.BatchIsOldestPrefix(outbox, locked, limit, row);
    }
  }

  lemma ReapedAll(t: Tx.Tables, now: Time, order: seq<JobId>)
    requires Tx.ListsOrphans(t, now, order)
    ensures var t' := Tx.ReapInOrder(t, order);
            && Reaps(t.jobs, t.workers, t'.jobs, now, t.clock) && t'.outbox == t.outbox + R.RetryRows(t, order)
            && t'.workers == t.workers
  {
    R.ReapIsSetUpdate(t, order);
  }

  /** Whoever was an orphan is given up, and nobody else becomes one. */
  lemma NoOrphanIsLeft(jobs: map<JobId, Job>, workers: map<WorkerId, Worker>, jobs': map<JobId, Job>, now: Time,
                       clock: Time)
    requires Reaps(jobs, workers, jobs', now, clock)
    ensures forall id :: !Orphaned(jobs', workers, id, now)
  {
  }

  function Ids(orphans: seq<OrphanRow>): seq<JobId> {
    seq(|orphans|, i requires 0 <= i < |orphans| => orphans[i].id)
  }

  /** The rows carry the attempt numbers the table holds. */
  ghost predicate Current(t: Tx.Tables, orphans: seq<OrphanRow>) {
    forall i :: 0 <= i < |orphans| ==>
      && orphans[i].id in t.jobs
      && orphans[i].attempt == t.jobs[orphans[i].id].attempt
      && orphans[i].maxAttempts == t.jobs[orphans[i].id].maxAttempts
  }

  /** An open relay transaction: the rows it locks and the marks it will make visible on commit. */
  class OutboxTx {
    const store: Store
    const rows: seq<nat>
    const openedAt: Time
    var marked: set<nat>

    constructor (store: Store, rows: seq<nat>, openedAt: Time)
      ensures this.store == store && this.rows == rows && this.openedAt == openedAt && marked == {}
    {
      this.store, this.rows, this.openedAt, marked := store, rows, openedAt, {};
    }

    method Commit()
      modifies store`outbox, store`locked
      ensures store.Tables() == Tx.MarkPublished(old(store.Tables()), marked, openedAt)
      ensures Publishes(old(store.outbox), store.outbox, marked, openedAt)
      ensures store.locked == old(store.locked) - Tx.RowSet(rows)
    {
      var (before, published) := (store.outbox, marked);
      store.outbox := seq(|before|, i requires 0 <= i < |before| =>
        if i in published then before[i].(publishedAt := Some(openedAt), publishError := false) else before[i]);
      store.locked := store.locked - Tx.RowSet(rows);
    }

    method Rollback()
      modifies store`locked
      ensures store.locked == old(store.locked) - Tx.RowSet(rows)
    {
      store.locked := store.locked - Tx.RowSet(rows);
    }
  }
}
