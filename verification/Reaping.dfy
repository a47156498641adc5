/** The reaper's loop against its set-level meaning. */
module Reaping {
  import opened Types
  import opened Transactions

  predicate Exhausts(job: Job) {
    job.attempt >= job.maxAttempts
  }

  function ReapedRow(t: Tables, job: Job): Job {
    if Exhausts(job) then FailedRow(t, job) else RetriedRow(t, job)
  }

  /** The rows that go back to the retry queue, in the order they are visited. */
  function RetryRows(t: Tables, order: seq<JobId>): seq<OutboxRow>
    requires forall id :: id in order ==> id in t.jobs
  {
    if order == [] then []
    else
      var id := order[|order| - 1];
      RetryRows(t, order[..|order| - 1])
      + if Exhausts(t.jobs[id]) then [] else [OutboxRow(id, Retry, t.jobs[id].attempt, t.began, None, false)]
  }

  /** The job table after the whole set has been reaped at once. */
  function ReapedJobs(t: Tables, order: seq<JobId>): map<JobId, Job> {
    map id | id in t.jobs :: if id in order then ReapedRow(t, t.jobs[id]) else t.jobs[id]
  }

  lemma ReapOneMore(t: Tables, order: seq<JobId>, u: Tables)
    requires order != [] && NoRepeats(order) && forall id :: id in order ==> id in t.jobs
    requires var init := order[..|order| - 1];
             u == t.(jobs := ReapedJobs(t, init), outbox := t.outbox + RetryRows(t, init))
    ensures GiveUpAttempt(u, order[|order| - 1])
            == t.(jobs := ReapedJobs(t, order), outbox := t.outbox + RetryRows(t, order))
  {
    var (init, last) := (order[..|order| - 1], order[|order| - 1]);
    assert forall id :: id in order <==> id in init || id == last;
    assert last !in init;
    assert u.jobs[last] == t.jobs[last];
    var v := GiveUpAttempt(u, last);
    assert v.jobs == u.jobs[last := ReapedRow(t, t.jobs[last])];
    assert v.jobs == ReapedJobs(t, order);
    assert v.outbox == t.outbox + RetryRows(t, order);
  }

  /** Visiting jobs one by one, in whatever order, equals changing the whole set at once. */
  lemma {:induction false} ReapIsSetUpdate(t: Tables, order: seq<JobId>)
    requires NoRepeats(order) && forall id :: id in order ==> id in t.jobs
    ensures ReapInOrder(t, order) == t.(jobs := ReapedJobs(t, order), outbox := t.outbox + RetryRows(t, order))
  {
    if order == [] {
      assert t.jobs == ReapedJobs(t, []);
      assert t.outbox + [] == t.outbox;
    } else {
      ReapIsSetUpdate(t, order[..|order| - 1]);
      ReapOneMore(t, order, ReapInOrder(t, order[..|order| - 1]));
    }
  }

  /** Every orphan is either failed or retried, and the outbox grows by exactly the retried ones. */
  ghost function RetriedJobs(t: Tables, order: seq<JobId>): set<JobId>
    requires forall id :: id in order ==> id in t.jobs
  {
    set id | id in order && !Exhausts(t.jobs[id])
  }

  lemma {:induction false} RetryRowsCount(t: Tables, order: seq<JobId>)
    requires NoRepeats(order) && forall id :: id in order ==> id in t.jobs
    ensures |RetryRows(t, order)| == |RetriedJobs(t, order)|
  {
    if order != [] {
      var (init, last) := (order[..|order| - 1], order[|order| - 1]);
      RetryRowsCount(t, init);
      assert last !in RetriedJobs(t, init);
      assert RetriedJobs(t, order) == RetriedJobs(t, init) + if Exhausts(t.jobs[last]) then {} else {last};
    }
  }

  /** A second reap under the same `now` finds nothing. */
  lemma SecondReapFindsNothing(t: Tables, now: Time, order: seq<JobId>, id: JobId)
    requires ListsOrphans(t, now, order)
    ensures !Orphan(ReapInOrder(t, order), id, now)
  {
    ReapIsSetUpdate(t, order);
    assert id in order <==> Orphan(t, id, now);
  }

  /** The answer does not depend on the order in which the database lists the orphans, up to outbox order. */
  lemma ReapOrderIrrelevant(t: Tables, now: Time, a: seq<JobId>, b: seq<JobId>)
    requires ListsOrphans(t, now, a) && ListsOrphans(t, now, b)
    ensures ReapInOrder(t, a).jobs == ReapInOrder(t, b).jobs
    ensures |ReapInOrder(t, a).outbox| == |ReapInOrder(t, b).outbox|
  {
    ReapIsSetUpdate(t, a);
    ReapIsSetUpdate(t, b);
    RetryRowsCount(t, a);
    RetryRowsCount(t, b);
    assert RetriedJobs(t, a) == RetriedJobs(t, b);
  }
}
