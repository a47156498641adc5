/** What one tick of the relay leaves behind, row by row and message by message, whatever goes wrong. */
module RelayTick {
  import opened Types
  import opened Effects

  /** A publish is accepted, fails before the broker has it, or fails although the broker has it. */
  datatype PublishOutcome = Accepted | Refused | Ambiguous

  /** A commit is confirmed, fails and rolls back, or takes effect although it reports an error. */
  datatype CommitOutcome = Committed | RolledBack | Unconfirmed

  /** What goes wrong during one tick. */
  datatype Faults = Faults(publish: nat -> PublishOutcome, markFails: nat -> bool, commit: CommitOutcome)

  datatype TickError = PublishError | MarkError | CommitError

  /** The entry is published but its mark fails, which ends the loop. */
  predicate Stops(faults: Faults, k: nat) {
    faults.publish(k) == Accepted && faults.markFails(k)
  }

  /** Of `n` entries the loop tries `tried`: all, or those up to the first whose mark fails. */
  predicate Tried(faults: Faults, n: nat, tried: nat) {
    && tried <= n && (tried > 0 ==> NeverStops(faults, tried - 1))
    && (tried < n ==> MarkFailed(faults, tried))
  }

  predicate NeverStops(faults: Faults, n: nat) {
    forall k :: 0 <= k < n ==> !Stops(faults, k)
  }

  predicate MarkFailed(faults: Faults, tried: nat) {
    tried > 0 && Stops(faults, tried - 1)
  }

  function Noted(outbox: seq<OutboxRow>, row: nat): seq<OutboxRow> {
    if row < |outbox| then outbox[row := outbox[row].(publishError := true)] else outbox
  }

  /** What a tick changes before it commits: the outbox and the two queues it publishes to. */
  datatype Picture = Picture(outbox: seq<OutboxRow>, main: multiset<Message>, retry: multiset<Message>)

  function AfterEntry(p: Picture, row: nat, outcome: PublishOutcome): Picture
    requires row < |p.outbox|
  {
    var e := p.outbox[row];
    Picture(if outcome == Accepted then p.outbox else Noted(p.outbox, row),
            p.main + Copy(e.job, e.attempt, e.target, Main, outcome),
            p.retry + Copy(e.job, e.attempt, e.target, Retry, outcome))
  }

  lemma EntrySeen(p: Picture, p': Picture, row: nat, outcome: PublishOutcome)
    requires row < |p.outbox| && p'.outbox == if outcome == Accepted then p.outbox else Noted(p.outbox, row)
    requires var (e, sent) := (p.outbox[row], outcome != Refused);
             && p'.main == (if sent && e.target == Main then p.main + multiset{Message(e.job, e.attempt)} else p.main)
             && p'.retry == if sent && e.target == Retry then p.retry + multiset{Message(e.job, e.attempt)} else p.retry
    ensures p' == AfterEntry(p, row, outcome)
  {
  }

  ghost predicate InRange(rows: seq<nat>, outbox: seq<OutboxRow>) {
    forall k :: 0 <= k < |rows| ==> rows[k] < |outbox|
  }

  ghost function AfterEntries(p: Picture, rows: seq<nat>, faults: Faults, n: nat): (p': Picture)
    requires n <= |rows| && InRange(rows, p.outbox)
    ensures |p'.outbox| == |p.outbox|
  {
    if n == 0 then p else AfterEntry(AfterEntries(p, rows, faults, n - 1), rows[n - 1], faults.publish(n - 1))
  }

  function AcceptedRows(rows: seq<nat>, faults: Faults, n: nat): set<nat>
    requires n <= |rows|
  {
    set k | 0 <= k < n && faults.publish(k) == Accepted :: rows[k]
  }

  /** One copy of the entry's message, if it is bound for the target and reaches the broker. */
  function Copy(job: JobId, attempt: int, to: Target, target: Target, outcome: PublishOutcome): multiset<Message> {
    if to == target && outcome != Refused then multiset{Message(job, attempt)} else multiset{}
  }

  /** The messages the first `n` rows of a batch leave with the broker for one target. */
  ghost function Copies(outbox: seq<OutboxRow>, rows: seq<nat>, target: Target, faults: Faults, n: nat)
    : multiset<Message>
    requires n <= |rows| && InRange(rows, outbox)
  {
    if n == 0 then multiset{}
    else
      var row := outbox[rows[n - 1]];
      Copies(outbox, rows, target, faults, n - 1)
      + Copy(row.job, row.attempt, row.target, target, faults.publish(n - 1))
  }

  /**
   A row of the batch is published exactly if its own publish was accepted and the marks took effect; an error is noted
   exactly if it was tried and not accepted.
   */
  predicate RowAfterTick(row: OutboxRow, row': OutboxRow, outcome: PublishOutcome, tried: bool, took: bool, at: Time) {
    && SameDispatch(row, row')
    && row'.publishedAt == (if took && outcome == Accepted then Some(at) else None)
    && row'.publishError == if tried && outcome != Accepted then true
                            else if took && outcome == Accepted then false else row.publishError
  }

  lemma OneMoreRow(rows: seq<nat>, faults: Faults, n: nat)
    requires n < |rows|
    ensures AcceptedRows(rows, faults, n + 1)
            == AcceptedRows(rows, faults, n) + if faults.publish(n) == Accepted then {rows[n]} else {}
  {
  }

  /** One of the first `n` publishes was for row `i` and not accepted. */
  ghost predicate NotedAt(rows: seq<nat>, faults: Faults, n: nat, i: nat)
    requires n <= |rows|
  {
    exists k :: 0 <= k < n && rows[k] == i && faults.publish(k) != Accepted
  }

  lemma NotedAtOneMore(rows: seq<nat>, faults: Faults, n: nat, i: nat)
    requires n < |rows|
    ensures NotedAt(rows, faults, n + 1, i)
            <==> NotedAt(rows, faults, n, i) || (rows[n] == i && faults.publish(n) != Accepted)
  {
    if rows[n] == i && faults.publish(n) != Accepted {
      assert n < n + 1;
    }
  }

  function NotedIf(row: OutboxRow, noted: bool): OutboxRow {
    if noted then row.(publishError := true) else row
  }

  lemma EntryNotes(p: Picture, row: nat, outcome: PublishOutcome, i: nat)
    requires row < |p.outbox| && i < |p.outbox|
    ensures AfterEntry(p, row, outcome).outbox[i] == NotedIf(p.outbox[i], i == row && outcome != Accepted)
  {
  }

  /** Row by row: an error is noted where a publish was not accepted. */
  lemma {:induction false} NotesAre(p: Picture, rows: seq<nat>, faults: Faults, n: nat, i: nat)
    requires n <= |rows| && InRange(rows, p.outbox) && i < |p.outbox|
    ensures AfterEntries(p, rows, faults, n).outbox[i] == NotedIf(p.outbox[i], NotedAt(rows, faults, n, i))
    decreases n
  {
    if n > 0 {
      var m := n - 1;
      NotesAre(p, rows, faults, m, i);
      assert AfterEntries(p, rows, faults, m).outbox[i] == NotedIf(p.outbox[i], NotedAt(rows, faults, m, i));
      NotedAtOneMore(rows, faults, m, i);
      EntryNotes(AfterEntries(p, rows, faults, m), rows[m], faults.publish(m), i);
    }
  }

  lemma DispatchStays(p: Picture, rows: seq<nat>, faults: Faults, n: nat, i: nat)
    requires n <= |rows| && InRange(rows, p.outbox) && i < |p.outbox|
    ensures SameDispatch(p.outbox[i], AfterEntries(p, rows, faults, n).outbox[i])
  {
    NotesAre(p, rows, faults, n, i);
  }

  function Queue(p: Picture, target: Target): multiset<Message> {
    match target
    case Main => p.main
    case Retry => p.retry
  }

  /** The queues gain the messages of the rows as they were, since notes leave those alone. */
  lemma {:induction false} CopiesAre(p: Picture, rows: seq<nat>, faults: Faults, n: nat, target: Target)
    requires n <= |rows| && InRange(rows, p.outbox)
    ensures Queue(AfterEntries(p, rows, faults, n), target)
            == Queue(p, target) + Copies(p.outbox, rows, target, faults, n)
    decreases n
  {
    if n > 0 {
      var m := n - 1;
      CopiesAre(p, rows, faults, m, target);
      assert Queue(AfterEntries(p, rows, faults, m), target)
             == Queue(p, target) + Copies(p.outbox, rows, target, faults, m);
      CopiesOneMore(p, rows, faults, m, target);
    }
  }

  lemma CopiesOneMore(p: Picture, rows: seq<nat>, faults: Faults, n: nat, target: Target)
    requires n < |rows| && InRange(rows, p.outbox)
    requires Queue(AfterEntries(p, rows, faults, n), target)
             == Queue(p, target) + Copies(p.outbox, rows, target, faults, n)
    ensures Queue(AfterEntries(p, rows, faults, n + 1), target)
            == Queue(p, target) + Copies(p.outbox, rows, target, faults, n + 1)
  {
    DispatchStays(p, rows, faults, n, rows[n]);
    EntryCopies(AfterEntries(p, rows, faults, n), rows[n], faults.publish(n), p.outbox[rows[n]], target);
  }

  lemma EntryCopies(p: Picture, row: nat, outcome: PublishOutcome, e: OutboxRow, target: Target)
    requires row < |p.outbox| && SameDispatch(e, p.outbox[row])
    ensures Queue(AfterEntry(p, row, outcome), target)
            == Queue(p, target) + Copy(e.job, e.attempt, e.target, target, outcome)
  {
  }

  lemma AcceptedIs(rows: seq<nat>, faults: Faults, n: nat, k: nat)
    requires n <= |rows| && k < |rows| && Distinct(rows)
    ensures rows[k] in AcceptedRows(rows, faults, n) <==> k < n && faults.publish(k) == Accepted
  {
  }

  ghost predicate Distinct(rows: seq<nat>) {
    forall i, k :: 0 <= i < k < |rows| ==> rows[i] != rows[k]
  }

  lemma NoteIs(p: Picture, rows: seq<nat>, faults: Faults, n: nat, k: nat)
    requires n <= |rows| && k < |rows| && InRange(rows, p.outbox) && Distinct(rows)
    ensures AfterEntries(p, rows, faults, n).outbox[rows[k]]
            == NotedIf(p.outbox[rows[k]], k < n && faults.publish(k) != Accepted)
  {
    NotesAre(p, rows, faults, n, rows[k]);
  }

  /** The marks of the tick took effect. */
  predicate Took(faults: Faults, tried: nat) {
    !MarkFailed(faults, tried) && faults.commit != RolledBack
  }

  /**
   A tick over the batch `rows` that tries the first `tried` leaves each row of the batch as its own publish and the
   commit say, every other row as it was, and with the broker one copy of each message that was tried and not refused.
   */
  ghost predicate Leaves(before: Picture, after: Picture, rows: seq<nat>, faults: Faults, tried: nat, at: Time) {
    && InRange(rows, before.outbox) && tried <= |rows| && |after.outbox| == |before.outbox|
    && (forall i :: 0 <= i < |after.outbox| && i !in rows ==> after.outbox[i] == before.outbox[i])
    && (forall k :: 0 <= k < |rows| ==>
          RowAfterTick(before.outbox[rows[k]], after.outbox[rows[k]], faults.publish(k), k < tried,
                       Took(faults, tried), at))
    && after.main == before.main + Copies(before.outbox, rows, Main, faults, tried)
    && after.retry == before.retry + Copies(before.outbox, rows, Retry, faults, tried)
  }

  /** The notes as they were made, and the marks if they took effect. */
  ghost predicate Settles(before: Picture, after: Picture, rows: seq<nat>, faults: Faults, tried: nat, at: Time)
    requires tried <= |rows| && InRange(rows, before.outbox)
  {
    var noted := AfterEntries(before, rows, faults, tried);
    && after.main == noted.main && after.retry == noted.retry
    && if Took(faults, tried) then Publishes(noted.outbox, after.outbox, AcceptedRows(rows, faults, tried), at)
       else after.outbox == noted.outbox
  }

  /** What a batch is made of. */
  lemma BatchFacts(outbox: seq<OutboxRow>, taken: set<nat>, limit: nat, rows: seq<nat>)
    requires FirstAvailable(outbox, taken, limit, rows)
    ensures InRange(rows, outbox) && Distinct(rows)
    ensures forall k :: 0 <= k < |rows| ==> rows[k] < |outbox| && outbox[rows[k]].publishedAt.None?
  {
    forall k | 0 <= k < |rows| ensures rows[k] < |outbox| && outbox[rows[k]].publishedAt.None? {
      assert Available(outbox, taken, rows[k]);
    }
    forall i, k | 0 <= i < k < |rows| ensures rows[i] != rows[k] {
      assert Before(outbox, rows[i], rows[k]);
    }
  }

  /** From the notes and the commit to the rows. */
  lemma TickOutcome(before: Picture, after: Picture, taken: set<nat>, limit: nat, rows: seq<nat>, faults: Faults,
                    tried: nat, at: Time)
    requires FirstAvailable(before.outbox, taken, limit, rows) && InRange(rows, before.outbox)
    requires Tried(faults, |rows|, tried) && Settles(before, after, rows, faults, tried, at)
    ensures Leaves(before, after, rows, faults, tried, at)
  {
    BatchFacts(before.outbox, taken, limit, rows);
    CopiesAre(before, rows, faults, tried, Main);
    CopiesAre(before, rows, faults, tried, Retry);
    forall i | 0 <= i < |after.outbox| && i !in rows ensures after.outbox[i] == before.outbox[i] {
      NotesAre(before, rows, faults, tried, i);
    }
    forall k | 0 <= k < |rows|
      ensures RowAfterTick(before.outbox[rows[k]], after.outbox[rows[k]], faults.publish(k), k < tried,
                           Took(faults, tried), at)
    {
      NoteIs(before, rows, faults, tried, k);
      AcceptedIs(rows, faults, tried, k);
    }
  }

  /** Nothing is tried on an empty batch. */
  lemma EmptyTick(p: Picture, faults: Faults, at: Time)
    ensures Leaves(p, p, [], faults, 0, at) && Tried(faults, 0, 0)
  {
  }

  /** What the entry's round reports. */
  function EntryError(faults: Faults, k: nat): Option<TickError> {
    if faults.publish(k) != Accepted then Some(PublishError) else if faults.markFails(k) then Some(MarkError) else None
  }

  /** What the loop reports after `n` rounds: the error that stopped it, or whether anything went wrong. */
  ghost predicate Goes(faults: Faults, n: nat, err: Option<TickError>) {
    && (err.None? <==> AllAccepted(faults, n)) && (err == Some(MarkError) <==> MarkFailed(faults, n))
    && (n > 0 ==> NeverStops(faults, n - 1)) && err != Some(CommitError)
  }

  lemma GoesOn(faults: Faults, n: nat, err: Option<TickError>, failed: Option<TickError>)
    requires Goes(faults, n, err) && err != Some(MarkError) && failed == EntryError(faults, n)
    ensures Goes(faults, n + 1, if failed.Some? then failed else err)
  {
    assert n > 0 ==> !Stops(faults, n - 1);
    assert NeverStops(faults, n);
    assert AllAccepted(faults, n + 1) <==> AllAccepted(faults, n) && failed.None?;
  }

  /** A loop that was not stopped has tried every entry. */
  lemma AllGone(faults: Faults, n: nat, tried: nat, err: Option<TickError>)
    requires tried <= n && Goes(faults, tried, err) && (err != Some(MarkError) ==> tried == n)
    ensures Tried(faults, n, tried) && (err.None? <==> AllAccepted(faults, n))
    ensures err == Some(MarkError) <==> MarkFailed(faults, tried)
  {
  }

  ghost predicate AllAccepted(faults: Faults, n: nat) {
    forall i :: 0 <= i < n ==> faults.publish(i) == Accepted && !faults.markFails(i)
  }
}
