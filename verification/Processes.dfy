/**
 The relay and the reaper as the running processes they are, on the mutable store and broker. Each tick is
 shown to be a run of the transition system, so everything proved about runs holds for them.
 */
module Processes {
  import opened Types
  import opened StoreAccess
  import opened System
  import opened Effects
  import opened RelayTick
  import Tx = Transactions
  import Frames

  /** The publishing side of the broker. */
  class Rabbit {
    var main: multiset<Message>
    var retry: multiset<Message>
    var sentMain: multiset<Message>
    var sentRetry: multiset<Message>

    constructor ()
      ensures Mirrors(EmptyBroker())
    {
      main, retry, sentMain, sentRetry := multiset{}, multiset{}, multiset{}, multiset{};
    }

    ghost predicate Mirrors(b: Broker)
      reads this
    {
      main == b.main && retry == b.retry && sentMain == b.sentMain && sentRetry == b.sentRetry
    }

    method Publish(target: Target, msg: Message, outcome: PublishOutcome) returns (ok: bool)
      modifies this
      ensures ok <==> outcome == Accepted
      ensures var here := outcome != Refused && target == Main;
              && main == (if here then old(main) + multiset{msg} else old(main))
              && sentMain == (if here then old(sentMain) + multiset{msg} else old(sentMain))
      ensures var here := outcome != Refused && target == Retry;
              && retry == (if here then old(retry) + multiset{msg} else old(retry))
              && sentRetry == (if here then old(sentRetry) + multiset{msg} else old(sentRetry))
    {
      if outcome != Refused {
        match target {
          case Main => main, sentMain := main + multiset{msg}, sentMain + multiset{msg};
          case Retry => retry, sentRetry := retry + multiset{msg}, sentRetry + multiset{msg};
        }
      }
      ok := outcome == Accepted;
    }
  }

  class Relay {
    const store: Store
    const rabbit: Rabbit
    const batch: int

    constructor (store: Store, rabbit: Rabbit, batch: int)
      ensures this.store == store && this.rabbit == rabbit && this.batch == batch
    {
      this.store, this.rabbit, this.batch := store, rabbit, batch;
    }

    /** The relay's surroundings are in state `s`, where no relay is called `r`. */
    ghost predicate In(s: State)
      reads store, rabbit
    {
      && s.db == store.Tables() && rabbit.Mirrors(s.broker)
      && store.locked == Locked(s.relays) && s.cfg.batch == batch
    }

    /** Tables and broker are in state `t`, and relay `r`'s batch is all that is open beyond `s`. */
    ghost predicate Inside(s: State, r: nat, t: State, tx: OutboxTx)
      reads store, rabbit
    {
      && t.cfg == s.cfg && t.db == store.Tables() && rabbit.Mirrors(t.broker)
      && r in t.relays && t.relays - {r} == s.relays
      && store.locked == Locked(s.relays) + Tx.RowSet(tx.rows)
    }

    /** Between two rounds of the loop: `i` entries of the batch are behind, the marks are in the transaction. */
    ghost predicate Midway(s: State, r: nat, t: State, tx: OutboxTx, i: nat)
      reads store, rabbit, tx
    {
      Inside(s, r, t, tx) && t.relays[r] == Batch(tx.rows, i, tx.marked, tx.openedAt)
    }

    function Seen(): Picture
      reads store, rabbit
    {
      Picture(store.outbox, rabbit.main, rabbit.retry)
    }

    /** One round of the loop: publish, then mark inside the transaction or note the error on the row. */
    method PublishEntry(e: OutboxEntry, tx: OutboxTx, outcome: PublishOutcome, markFails: bool,
                        ghost s: State, ghost r: nat, ghost trace: Trace, ghost i: nat)
      returns (err: Option<TickError>, ghost trace': Trace)
      requires Follows(s, r, trace) && Midway(s, r, trace.state, tx, i) && tx.store == store
      requires i < |tx.rows| && Describes(e, tx.rows[i], store.outbox)
      modifies store`outbox, rabbit, tx`marked
      ensures err == if outcome != Accepted then Some(PublishError) else if markFails then Some(MarkError) else None
      ensures Follows(s, r, trace') && Inside(s, r, trace'.state, tx)
      ensures err != Some(MarkError) ==> Midway(s, r, trace'.state, tx, i + 1)
      ensures Seen() == AfterEntry(old(Seen()), e.id, outcome)
      ensures tx.marked == if outcome == Accepted && !markFails then old(tx.marked) + {e.id} else old(tx.marked)
    {
      trace' := PublishTrace(s, r, trace, outcome);
      var ok := rabbit.Publish(e.target, Message(e.job, e.attempt), outcome);
      assert rabbit.Mirrors(trace'.state.broker);
      if !ok {
        NoteError(e, tx, s, r, trace.state, trace'.state, i);
        err := Some(PublishError);
      } else if markFails {
        err := Some(MarkError);
      } else {
        MarkEntry(e, tx, s, r, trace.state, trace'.state, i);
        err := None;
      }
      EntrySeen(old(Seen()), Seen(), e.id, outcome);
    }

    method NoteError(e: OutboxEntry, tx: OutboxTx, ghost s: State, ghost r: nat, ghost t: State, ghost t': State,
                     ghost i: nat)
      requires tx.store == store && t.db == store.Tables() && rabbit.Mirrors(t'.broker)
      requires i < |tx.rows| && e.id == tx.rows[i]
      requires t'.cfg == s.cfg && r in t'.relays && t'.relays - {r} == s.relays
               && store.locked == Locked(s.relays) + Tx.RowSet(tx.rows)
      requires t'.db == Tx.MarkPublishError(t.db, e.id) && t'.relays[r] == Batch(tx.rows, i + 1, tx.marked, tx.openedAt)
      modifies store`outbox
      ensures Midway(s, r, t', tx, i + 1) && store.outbox == Noted(old(store.outbox), e.id)
    {
      store.MarkOutboxPublishError(e.id);
    }

    method MarkEntry(e: OutboxEntry, tx: OutboxTx, ghost s: State, ghost r: nat, ghost t: State, ghost t': State,
                     ghost i: nat)
      requires tx.store == store && t.db == store.Tables() && rabbit.Mirrors(t'.broker)
      requires i < |tx.rows| && e.id == tx.rows[i] && e.id < |store.outbox|
      requires t'.cfg == s.cfg && r in t'.relays && t'.relays - {r} == s.relays
               && store.locked == Locked(s.relays) + Tx.RowSet(tx.rows)
      requires t'.db == t.db && t'.relays[r] == Batch(tx.rows, i + 1, tx.marked + {e.id}, tx.openedAt)
      modifies tx`marked
      ensures Midway(s, r, t', tx, i + 1) && tx.marked == old(tx.marked) + {e.id}
    {
      var _ := store.MarkOutboxPublishedTx(tx, e.id);
    }

    /** Gives the batch up: its locks go, its marks with them. */
    method Abort(tx: OutboxTx, ghost s: State, ghost r: nat, ghost trace: Trace) returns (ghost trace': Trace)
      requires Follows(s, r, trace) && Inside(s, r, trace.state, tx)
      requires tx.store == store && FreeOf(tx.rows, s) && s.cfg.batch == batch
      modifies store`locked
      ensures Follows(s, r, trace') && In(trace'.state) && trace'.state.relays == s.relays
    {
      trace' := RollbackTrace(s, r, trace);
      tx.Rollback();
      ReleasedLocks(s, tx);
    }

    method Complete(tx: OutboxTx, ghost s: State, ghost r: nat, ghost trace: Trace) returns (ghost trace': Trace)
      requires Follows(s, r, trace) && Midway(s, r, trace.state, tx, |tx.rows|)
      requires tx.store == store && FreeOf(tx.rows, s) && s.cfg.batch == batch
      modifies store`outbox, store`locked
      ensures Follows(s, r, trace') && In(trace'.state) && trace'.state.relays == s.relays
      ensures Publishes(old(store.outbox), store.outbox, tx.marked, tx.openedAt)
    {
      trace' := CommitTrace(s, r, trace);
      tx.Commit();
      ReleasedLocks(s, tx);
    }

    /** Locks the oldest free rows and opens the batch. */
    method Begin(ghost s: State, ghost r: nat)
      returns (entries: seq<OutboxEntry>, tx: OutboxTx, ghost trace: Trace)
      requires In(s) && r !in s.relays
      modifies store`locked
      ensures fresh(tx) && tx.store == store && FreeOf(tx.rows, s)
      ensures SameEntries(entries, tx.rows, store.outbox) && InRange(tx.rows, store.outbox)
      ensures FirstAvailable(store.outbox, old(store.locked), if batch <= 0 then 50 else batch, tx.rows)
      ensures tx.marked == {} && tx.openedAt == store.clock
      ensures Follows(s, r, trace)
      ensures entries == [] ==> trace.state == s && store.locked == old(store.locked) + Tx.RowSet(tx.rows)
      ensures entries != [] ==> Midway(s, r, trace.state, tx, 0)
    {
      entries, tx := store.ClaimOutboxBatch(batch);
      trace := OpenTrace(s, r, tx.rows);
    }

    /** One round with what came before: `p` is what the tick started from. */
    method Round(e: OutboxEntry, tx: OutboxTx, faults: Faults, i: nat,
                 ghost s: State, ghost r: nat, ghost trace: Trace, ghost p: Picture)
      returns (err: Option<TickError>, ghost trace': Trace)
      requires Follows(s, r, trace) && Midway(s, r, trace.state, tx, i) && tx.store == store
      requires i < |tx.rows| && InRange(tx.rows, p.outbox) && Describes(e, tx.rows[i], p.outbox)
      requires Seen() == AfterEntries(p, tx.rows, faults, i) && tx.marked == AcceptedRows(tx.rows, faults, i)
      modifies store`outbox, rabbit, tx`marked
      ensures err == EntryError(faults, i)
      ensures Follows(s, r, trace') && Inside(s, r, trace'.state, tx)
      ensures Seen() == AfterEntries(p, tx.rows, faults, i + 1)
      ensures err != Some(MarkError) ==>
                Midway(s, r, trace'.state, tx, i + 1) && tx.marked == AcceptedRows(tx.rows, faults, i + 1)
    {
      StillDescribed(e, tx.rows[i], p, faults, tx.rows, i);
      OneMoreRow(tx.rows, faults, i);
      err, trace' := PublishEntry(e, tx, faults.publish(i), faults.markFails(i), s, r, trace, i);
    }

    /** The loop over the batch, which tries `tried` entries: only a failing mark leaves it early. */
    method PublishAll(entries: seq<OutboxEntry>, tx: OutboxTx, faults: Faults,
                      ghost s: State, ghost r: nat, ghost start: Trace)
      returns (err: Option<TickError>, ghost trace: Trace, ghost tried: nat)
      requires Follows(s, r, start) && Midway(s, r, start.state, tx, 0) && tx.store == store && tx.marked == {}
      requires InRange(tx.rows, store.outbox) && SameEntries(entries, tx.rows, store.outbox)
      modifies store`outbox, rabbit, tx`marked
      ensures Tried(faults, |entries|, tried) && (err == Some(MarkError) <==> MarkFailed(faults, tried))
      ensures err.None? <==> AllAccepted(faults, |entries|)
      ensures Follows(s, r, trace) && Inside(s, r, trace.state, tx)
      ensures err != Some(MarkError) ==>
                Midway(s, r, trace.state, tx, |entries|) && tx.marked == AcceptedRows(tx.rows, faults, tried)
      ensures Seen() == AfterEntries(old(Seen()), tx.rows, faults, tried)
    {
      ghost var before := Seen();
      var i := 0;
      err, trace := None, start;
      while i < |entries| && err != Some(MarkError)
        invariant i <= |entries| && Follows(s, r, trace) && Inside(s, r, trace.state, tx) && Goes(faults, i, err)
        invariant Seen() == AfterEntries(before, tx.rows, faults, i)
        invariant err != Some(MarkError) ==>
                    Midway(s, r, trace.state, tx, i) && tx.marked == AcceptedRows(tx.rows, faults, i)
      {
        var failed;
        failed, trace := Round(entries[i], tx, faults, i, s, r, trace, before);
        GoesOn(faults, i, err, failed);
        err := if failed.Some? then failed else err;
        i := i + 1;
      }
      tried := i;
      AllGone(faults, |entries|, tried, err);
    }

    /** The end of a tick: commit, or roll back if a mark failed. */
    method Close(tx: OutboxTx, failed: Option<TickError>, commit: CommitOutcome, ghost s: State, ghost r: nat,
                 ghost trace: Trace)
      returns (err: Option<TickError>, ghost trace': Trace)
      requires Follows(s, r, trace) && Inside(s, r, trace.state, tx)
      requires failed != Some(MarkError) ==> Midway(s, r, trace.state, tx, |tx.rows|)
      requires tx.store == store && FreeOf(tx.rows, s) && s.cfg.batch == batch
      modifies store`outbox, store`locked
      ensures Follows(s, r, trace') && In(trace'.state) && trace'.state.relays == s.relays
      ensures err == if failed == Some(MarkError) || commit == Committed then failed else Some(CommitError)
      ensures if failed != Some(MarkError) && commit != RolledBack
              then Publishes(old(store.outbox), store.outbox, tx.marked, tx.openedAt)
              else store.outbox == old(store.outbox)
    {
      err := failed;
      if failed == Some(MarkError) {
        trace' := Abort(tx, s, r, trace);
      } else if commit == RolledBack {
        trace' := Abort(tx, s, r, trace);
        err := Some(CommitError);
      } else {
        trace' := Complete(tx, s, r, trace);
        if commit == Unconfirmed {
          err := Some(CommitError);
        }
      }
    }

    /** The rest of a tick that has found rows; `p` and `taken` are what it started from. */
    method Work(entries: seq<OutboxEntry>, tx: OutboxTx, faults: Faults,
                ghost s: State, ghost r: nat, ghost start: Trace, ghost taken: set<nat>)
      returns (err: Option<TickError>, ghost ls: seq<Label>, ghost tried: nat)
      requires Follows(s, r, start) && Midway(s, r, start.state, tx, 0) && tx.store == store && tx.marked == {}
      requires FreeOf(tx.rows, s) && s.cfg.batch == batch && tx.openedAt == store.clock
      requires SameEntries(entries, tx.rows, store.outbox) && InRange(tx.rows, store.outbox)
      requires FirstAvailable(store.outbox, taken, if batch <= 0 then 50 else batch, tx.rows)
      modifies store`outbox, store`locked, rabbit, tx`marked
      ensures Runs(s, ls) && BatchOf(r, ls) && In(Exec(s, ls)) && Exec(s, ls).relays == s.relays
      ensures Tried(faults, |tx.rows|, tried) && Leaves(old(Seen()), Seen(), tx.rows, faults, tried, store.clock)
      ensures err.None? <==> faults.commit == Committed && AllAccepted(faults, |tx.rows|)
    {
      ghost var trace;
      err, trace, tried := PublishAll(entries, tx, faults, s, r, start);
      err, trace := Close(tx, err, faults.commit, s, r, trace);
      ls := trace.labels;
      TickOutcome(old(Seen()), Seen(), taken, if batch <= 0 then 50 else batch, tx.rows, faults, tried, store.clock);
    }

    /**
     One tick over the batch `rows`, of which it tries the first `tried`. Whatever fails, the tables and the broker end
     where the labels `ls` lead the transition system, no lock is left behind, and the result is nil exactly when every
     publish, mark and the commit succeeded. What each row and the broker have become is stated row by row.
     */
    method Tick(faults: Faults, ghost s: State, ghost r: nat)
      returns (err: Option<TickError>, ghost ls: seq<Label>, ghost rows: seq<nat>, ghost tried: nat)
      requires In(s) && r !in s.relays
      modifies store`outbox, store`locked, rabbit
      ensures Runs(s, ls) && BatchOf(r, ls)
      ensures In(Exec(s, ls)) && Exec(s, ls).relays == s.relays
      ensures FirstAvailable(old(store.outbox), old(store.locked), if batch <= 0 then 50 else batch, rows)
      ensures Tried(faults, |rows|, tried) && Leaves(old(Seen()), Seen(), rows, faults, tried, store.clock)
      ensures err.None? <==> rows == [] || (faults.commit == Committed && AllAccepted(faults, |rows|))
    {
      var entries, tx;
      ghost var trace;
      ghost var (before, taken) := (Seen(), store.locked);
      entries, tx, trace := Begin(s, r);
      rows := tx.rows;
      if |entries| == 0 {
        tx.Rollback();
        ReleasedLocks(s, tx);
        EmptyTick(before, faults, store.clock);
        return None, trace.labels, rows, 0;
      }
      err, ls, tried := Work(entries, tx, faults, s, r, trace, taken);
    }
  }

  lemma StillDescribed(e: OutboxEntry, row: nat, p: Picture, faults: Faults, rows: seq<nat>, n: nat)
    requires Describes(e, row, p.outbox) && n <= |rows| && InRange(rows, p.outbox)
    ensures Describes(e, row, AfterEntries(p, rows, faults, n).outbox)
  {
    NotesAre(p, rows, faults, n, row);
  }

  // ---- the steps of a relay, spelled out ----

  /** Labels taken so far and the state they lead to. */
  datatype Trace = Trace(labels: seq<Label>, state: State)

  ghost predicate Follows(s: State, r: nat, trace: Trace) {
    Runs(s, trace.labels) && Exec(s, trace.labels) == trace.state && BatchOf(r, trace.labels)
  }

  lemma FollowOn(s: State, r: nat, trace: Trace, step: RelayStep) returns (trace': Trace)
    requires Follows(s, r, trace) && step.relay == r && RelayEnabled(trace.state, step)
    ensures Follows(s, r, trace') && trace'.state == RelayApply(trace.state, step)
  {
    var l := System.Relay(step);
    RunOneMore(s, trace.labels, l);
    trace' := Trace(trace.labels + [l], Apply(trace.state, l));
  }

  lemma OpenTrace(s: State, r: nat, rows: seq<nat>) returns (trace: Trace)
    requires r !in s.relays && rows == Tx.OldestUnpublished(s.db.outbox, Locked(s.relays), Tx.BatchLimit(s.cfg.batch))
    ensures Follows(s, r, trace)
    ensures trace.state == if rows == [] then s else s.(relays := s.relays[r := Batch(rows, 0, {}, s.db.clock)])
    ensures trace.state.relays - {r} == s.relays
  {
    trace := FollowOn(s, r, Trace([], s), Open(r));
  }

  lemma PublishTrace(s: State, r: nat, trace: Trace, outcome: PublishOutcome) returns (trace': Trace)
    requires Follows(s, r, trace) && CanPublish(trace.state, r)
    ensures Follows(s, r, trace')
    ensures var (t, t') := (trace.state, trace'.state);
            var (b, row) := (t.relays[r], NextRow(t, r));
            && t'.cfg == t.cfg
            && t'.db == (if outcome == Accepted then t.db else Tx.MarkPublishError(t.db, row))
            && t'.broker == (if outcome == Refused then t.broker else Enqueue(t.broker, t.db.outbox[row]))
            && r in t'.relays && t'.relays - {r} == t.relays - {r}
            && t'.relays[r] == b.(next := b.next + 1,
                                  marked := if outcome == Accepted then b.marked + {row} else b.marked)
  {
    var step := if outcome == Accepted then PublishOk(r) else PublishFailed(r, outcome == Ambiguous);
    trace' := FollowOn(s, r, trace, step);
  }

  lemma RollbackTrace(s: State, r: nat, trace: Trace) returns (trace': Trace)
    requires Follows(s, r, trace) && r in trace.state.relays
    ensures Follows(s, r, trace') && trace'.state == trace.state.(relays := trace.state.relays - {r})
  {
    trace' := FollowOn(s, r, trace, Rollback(r));
  }

  lemma CommitTrace(s: State, r: nat, trace: Trace) returns (trace': Trace)
    requires Follows(s, r, trace) && r in trace.state.relays
    requires trace.state.relays[r].next == |trace.state.relays[r].rows|
    ensures Follows(s, r, trace')
    ensures var (t, b) := (trace.state, trace.state.relays[r]);
            trace'.state == t.(db := Tx.MarkPublished(t.db, b.marked, b.openedAt), relays := t.relays - {r})
  {
    trace' := FollowOn(s, r, trace, Commit(r));
  }

  ghost predicate BatchOf(r: nat, ls: seq<Label>) {
    forall i :: 0 <= i < |ls| ==> ls[i].Relay? && ls[i].rel.relay == r
  }

  /** None of the rows is locked in `s`. */
  ghost predicate FreeOf(rows: seq<nat>, s: State) {
    forall i :: 0 <= i < |rows| ==> rows[i] !in Locked(s.relays)
  }

  /** The entries still describe their rows; publish errors noted meanwhile do not change that. */
  ghost predicate SameEntries(entries: seq<OutboxEntry>, rows: seq<nat>, outbox: seq<OutboxRow>) {
    |entries| == |rows| && forall i :: 0 <= i < |entries| ==> Describes(entries[i], rows[i], outbox)
  }

  /** Releasing a batch that skipped locked rows gives back exactly the locks the others hold. */
  lemma ReleasedLocks(s: State, tx: OutboxTx)
    requires FreeOf(tx.rows, s)
    ensures Locked(s.relays) + Tx.RowSet(tx.rows) - Tx.RowSet(tx.rows) == Locked(s.relays)
  {
  }

  lemma MarkStep(s: State, p: nat)
    ensures Runs(s, [System.Reaper(MarkDead(p, s.db.clock))])
    ensures Exec(s, [System.Reaper(MarkDead(p, s.db.clock))])
            == s.(db := Tx.MarkStaleWorkersDead(s.db, s.db.clock - s.cfg.workerTimeout),
                  reapers := s.reapers[p := s.db.clock])
  {
    OneStep(s, System.Reaper(MarkDead(p, s.db.clock)));
  }

  lemma ReapStep(s: State, p: nat, order: seq<JobId>)
    requires p in s.reapers && Tx.ListsOrphans(s.db, s.reapers[p], order)
    ensures Runs(s, [System.Reaper(Reap(p, order))])
    ensures Exec(s, [System.Reaper(Reap(p, order))]).db == Tx.ReapInOrder(s.db, order)
  {
    OneStep(s, System.Reaper(Reap(p, order)));
  }

  /** Marking and reaping under one `now` are two steps of the transition system. */
  lemma ReaperTickIsARun(s: State, p: nat, marked: Tx.Tables, order: seq<JobId>)
    requires marked == Tx.MarkStaleWorkersDead(s.db, s.db.clock - s.cfg.workerTimeout)
    requires Tx.ListsOrphans(marked, s.db.clock, order)
    ensures var ls := [System.Reaper(MarkDead(p, s.db.clock))] + [System.Reaper(Reap(p, order))];
            Runs(s, ls) && Exec(s, ls).db == Tx.ReapInOrder(marked, order)
  {
    MarkStep(s, p);
    ReapStep(Exec(s, [System.Reaper(MarkDead(p, s.db.clock))]), p, order);
    RunsConcat(s, [System.Reaper(MarkDead(p, s.db.clock))], [System.Reaper(Reap(p, order))]);
  }

  class Reaper {
    const store: Store
    const workerTimeout: Time

    constructor (store: Store, workerTimeout: Time)
      ensures this.store == store && this.workerTimeout == workerTimeout
    {
      this.store, this.workerTimeout := store, workerTimeout;
    }

    /**
     One tick under one `now`: two steps of the transition system. The workers not heard since the timeout are DEAD
     now; every job with a DEAD worker or a lease that has run out is given up, and no such job is left.
     */
    method Tick(ghost s: State, ghost p: nat) returns (dead: nat, reaped: ReapResult, ghost ls: seq<Label>)
      requires s.db == store.Tables() && s.cfg.workerTimeout == workerTimeout
      modifies store`jobs, store`outbox, store`workers
      ensures Runs(s, ls) && |ls| == 2
      ensures ls[0] == System.Reaper(MarkDead(p, s.db.clock)) && ls[1].Reaper? && ls[1].reap.Reap?
      ensures Exec(s, ls).db == store.Tables()
      ensures Buries(old(store.workers), store.workers, store.clock - workerTimeout)
      ensures dead == |set w | w in old(store.workers) && store.workers[w].status != old(store.workers)[w].status|
      ensures Reaps(old(store.jobs), store.workers, store.jobs, store.clock, store.clock)
      ensures forall id :: !Orphaned(store.jobs, store.workers, id, store.clock)
      ensures forall id :: id in store.jobs && store.jobs[id].status.Running? ==>
                !WorkerSilent(store.jobs, store.workers, id, store.clock - workerTimeout)
      ensures |store.outbox| == |old(store.outbox)| + reaped.retried
    {
      var now := store.clock;
      var cutoff := now - workerTimeout;
      dead := store.MarkStaleWorkersDead(cutoff);
      ghost var marked := store.Tables();
      ghost var order;
      reaped, order := store.ReapOrphanJobs(now);
      ls := [System.Reaper(MarkDead(p, now))] + [System.Reaper(Reap(p, order))];
      ReaperTickIsARun(s, p, marked, order);
      NoSilentWorkerHasJob(old(store.workers), store.workers, cutoff, store.jobs, now);
    }
  }

  /** The job is assigned to a worker that was last heard before the cutoff. */
  predicate WorkerSilent(jobs: map<JobId, Job>, workers: map<WorkerId, Worker>, id: JobId, cutoff: Time) {
    && id in jobs && jobs[id].assignee.Some? && jobs[id].assignee.value in workers
    && HeardBefore(workers[jobs[id].assignee.value], cutoff)
  }

  lemma NoSilentWorkerHasJob(workers: map<WorkerId, Worker>, workers': map<WorkerId, Worker>, cutoff: Time,
                             jobs: map<JobId, Job>, now: Time)
    requires Buries(workers, workers', cutoff) && forall id :: !Orphaned(jobs, workers', id, now)
    ensures forall id :: id in jobs && jobs[id].status.Running? ==> !WorkerSilent(jobs, workers', id, cutoff)
  {
    forall id | id in jobs && jobs[id].status.Running? ensures !WorkerSilent(jobs, workers', id, cutoff) {
      assert !Orphaned(jobs, workers', id, now);
    }
  }
}
