/** The transactional outbox under concurrent relays: what a batch contains, and what leaves the unpublished set. */
module OutboxRelay {
  import opened Types
  import opened Transactions
  import opened System
  import opened Frames

  // ---- batches ----

  /** The message of a row was accepted by the broker on the row's own route. */
  predicate Sent(b: Broker, row: OutboxRow) {
    match row.target
    case Main => RowMessage(row) in b.sentMain
    case Retry => RowMessage(row) in b.sentRetry
  }

  ghost predicate BatchOk(outbox: seq<OutboxRow>, broker: Broker, b: Batch) {
    && b.next <= |b.rows|
    && (forall i :: 0 <= i < |b.rows| ==> b.rows[i] < |outbox| && outbox[b.rows[i]].publishedAt.None?)
    && (forall i, k :: 0 <= i < k < |b.rows| ==> b.rows[i] != b.rows[k])
    && (forall row :: row in b.marked ==> row in b.rows[..b.next] && Sent(broker, outbox[row]))
  }

  ghost predicate Disjoint(relays: map<nat, Batch>) {
    forall r, q, row :: r in relays && q in relays && row in relays[r].rows && row in relays[q].rows ==> r == q
  }

  ghost predicate PublishedWereSent(outbox: seq<OutboxRow>, broker: Broker) {
    forall i :: 0 <= i < |outbox| && outbox[i].publishedAt.Some? ==> Sent(broker, outbox[i])
  }

  ghost predicate RelaysOk(s: State) {
    && (forall r :: r in s.relays ==> BatchOk(s.db.outbox, s.broker, s.relays[r]))
    && Disjoint(s.relays)
    && PublishedWereSent(s.db.outbox, s.broker)
  }

  lemma AppendKeepsRelays(s: State, s': State)
    requires RelaysOk(s)
    requires s'.relays == s.relays && Appends(s.db.outbox, s'.db.outbox)
    requires s'.broker.sentMain == s.broker.sentMain && s'.broker.sentRetry == s.broker.sentRetry
    ensures RelaysOk(s')
  {
    forall r | r in s'.relays ensures BatchOk(s'.db.outbox, s'.broker, s'.relays[r]) {
      assert BatchOk(s.db.outbox, s.broker, s.relays[r]);
    }
  }

  lemma OpenKeepsRelays(s: State, relay: nat)
    requires RelaysOk(s) && RelayEnabled(s, Open(relay))
    ensures RelaysOk(RelayApply(s, Open(relay)))
  {
    var rows := OldestUnpublished(s.db.outbox, Locked(s.relays), BatchLimit(s.cfg.batch));
    var s' := RelayApply(s, Open(relay));
    forall r | r in s'.relays ensures BatchOk(s'.db.outbox, s'.broker, s'.relays[r]) {
      assert r in s.relays ==> BatchOk(s.db.outbox, s.broker, s.relays[r]);
    }
    forall r, row | r in s.relays && row in rows ensures row !in s.relays[r].rows {
      assert row !in Locked(s.relays);
    }
  }

  /** Publishing changes no row but for its error, and the broker's history only grows. */
  ghost predicate OnlyPublishes(outbox: seq<OutboxRow>, b: Broker, outbox': seq<OutboxRow>, b': Broker) {
    && SameRows(outbox, outbox') && |outbox'| == |outbox|
    && (forall i :: 0 <= i < |outbox| ==> outbox'[i].publishedAt == outbox[i].publishedAt)
    && b.sentMain <= b'.sentMain && b.sentRetry <= b'.sentRetry
  }

  lemma PublishOnlyPublishes(s: State, r: RelayStep)
    requires RelayEnabled(s, r) && (r.PublishOk? || r.PublishFailed?)
    ensures OnlyPublishes(s.db.outbox, s.broker, RelayApply(s, r).db.outbox, RelayApply(s, r).broker)
  {
    RelayFrame(s, r);
  }

  lemma BatchStaysOk(outbox: seq<OutboxRow>, broker: Broker, outbox': seq<OutboxRow>, broker': Broker, b: Batch)
    requires BatchOk(outbox, broker, b) && OnlyPublishes(outbox, broker, outbox', broker')
    ensures BatchOk(outbox', broker', b)
  {
  }

  /** The publish steps touch one batch; the others keep their rows and see the broker's history grow. */
  lemma PublishKeepsOtherBatch(s: State, r: RelayStep, b: Batch)
    requires RelayEnabled(s, r) && (r.PublishOk? || r.PublishFailed?)
    requires BatchOk(s.db.outbox, s.broker, b)
    ensures BatchOk(RelayApply(s, r).db.outbox, RelayApply(s, r).broker, b)
  {
    PublishOnlyPublishes(s, r);
    BatchStaysOk(s.db.outbox, s.broker, RelayApply(s, r).db.outbox, RelayApply(s, r).broker, b);
  }

  lemma PublishKeepsOwnBatch(s: State, r: RelayStep)
    requires RelayEnabled(s, r) && (r.PublishOk? || r.PublishFailed?)
    requires BatchOk(s.db.outbox, s.broker, s.relays[r.relay])
    ensures BatchOk(RelayApply(s, r).db.outbox, RelayApply(s, r).broker, RelayApply(s, r).relays[r.relay])
  {
    PublishKeepsOtherBatch(s, r, s.relays[r.relay]);
    var (b, b') := (s.relays[r.relay], RelayApply(s, r).relays[r.relay]);
    assert b'.rows[..b'.next] == b.rows[..b.next] + [NextRow(s, r.relay)];
  }

  lemma PublishKeepsHistory(s: State, r: RelayStep)
    requires RelayEnabled(s, r) && (r.PublishOk? || r.PublishFailed?)
    requires PublishedWereSent(s.db.outbox, s.broker)
    ensures PublishedWereSent(RelayApply(s, r).db.outbox, RelayApply(s, r).broker)
  {
  }

  lemma PublishKeepsRelays(s: State, r: RelayStep)
    requires RelaysOk(s) && RelayEnabled(s, r) && (r.PublishOk? || r.PublishFailed?)
    ensures RelaysOk(RelayApply(s, r))
  {
    var s' := RelayApply(s, r);
    assert s'.relays.Keys == s.relays.Keys && forall q :: q in s.relays ==> s'.relays[q].rows == s.relays[q].rows;
    forall q | q in s'.relays ensures BatchOk(s'.db.outbox, s'.broker, s'.relays[q]) {
      if q == r.relay {
        PublishKeepsOwnBatch(s, r);
      } else {
        PublishKeepsOtherBatch(s, r, s.relays[q]);
      }
    }
    PublishKeepsHistory(s, r);
  }

  lemma CommitKeepsRelays(s: State, relay: nat)
    requires RelaysOk(s) && RelayEnabled(s, Commit(relay))
    ensures RelaysOk(RelayApply(s, Commit(relay)))
  {
    var s' := RelayApply(s, Commit(relay));
    assert BatchOk(s.db.outbox, s.broker, s.relays[relay]);
    forall r | r in s'.relays ensures BatchOk(s'.db.outbox, s'.broker, s'.relays[r]) {
      assert BatchOk(s.db.outbox, s.broker, s.relays[r]);
      forall i | 0 <= i < |s.relays[r].rows| ensures s.relays[r].rows[i] !in s.relays[relay].marked {
        assert s.relays[r].rows[i] in s.relays[r].rows;
      }
    }
  }

  lemma StepKeepsRelays(s: State, l: Label)
    requires RelaysOk(s) && Enabled(s, l)
    ensures RelaysOk(Apply(s, l))
  {
    if !l.Relay? {
      Frame(s, l);
      AppendKeepsRelays(s, Apply(s, l));
    } else {
      match l.rel
      case Open(relay) => OpenKeepsRelays(s, relay);
      case PublishOk(_) => PublishKeepsRelays(s, l.rel);
      case PublishFailed(_, _) => PublishKeepsRelays(s, l.rel);
      case Commit(relay) => CommitKeepsRelays(s, relay);
      case Rollback(_) =>
    }
  }

  lemma {:induction false} RunKeepsRelays(s: State, ls: seq<Label>)
    requires RelaysOk(s) && Runs(s, ls)
    ensures RelaysOk(Exec(s, ls))
  {
    if ls != [] {
      RunKeepsRelays(s, ls[..|ls| - 1]);
      StepKeepsRelays(Exec(s, ls[..|ls| - 1]), ls[|ls| - 1]);
    }
  }

  // ---- theorems ----

  /** A row leaves the unpublished set only after its own message was accepted on its own route. */
  lemma PublishedRowsWereSent(cfg: Config, ls: seq<Label>, row: nat)
    requires Runs(Init(cfg), ls)
    requires row < |Exec(Init(cfg), ls).db.outbox| && Exec(Init(cfg), ls).db.outbox[row].publishedAt.Some?
    ensures Sent(Exec(Init(cfg), ls).broker, Exec(Init(cfg), ls).db.outbox[row])
  {
    RunKeepsRelays(Init(cfg), ls);
  }

  /** SKIP LOCKED keeps concurrent relays apart: no row is in two open batches, and none in a batch is published. */
  lemma OpenBatchesAreDisjoint(cfg: Config, ls: seq<Label>, r: nat, q: nat, row: nat)
    requires Runs(Init(cfg), ls)
    requires var s := Exec(Init(cfg), ls); r in s.relays && q in s.relays && row in s.relays[r].rows
    ensures var s := Exec(Init(cfg), ls);
            && (row in s.relays[q].rows ==> r == q)
            && row < |s.db.outbox| && s.db.outbox[row].publishedAt.None?
  {
    RunKeepsRelays(Init(cfg), ls);
    var s := Exec(Init(cfg), ls);
    assert BatchOk(s.db.outbox, s.broker, s.relays[r]);
  }

  lemma FreeRows(outbox: seq<OutboxRow>, locked: set<nat>, row: nat, i: nat)
    ensures Free(outbox, locked + {row}, i) <==> Free(outbox, locked, i) && i != row
  {
  }

  /** A batch is in (created_at, id) order, and each of its rows comes before every free row it leaves out. */
  lemma {:induction false} BatchIsOldestPrefix(outbox: seq<OutboxRow>, locked: set<nat>, limit: nat, row: nat)
    requires Free(outbox, locked, row)
    ensures var rows := OldestUnpublished(outbox, locked, limit);
            && (forall i, k :: 0 <= i < k < |rows| ==> Older(outbox, rows[i], rows[k]))
            && (row !in rows ==> |rows| == limit && forall i :: 0 <= i < |rows| ==> Older(outbox, rows[i], row))
    decreases limit
  {
    if limit > 0 {
      var first := OldestFree(outbox, locked, 0).value;
      var rest := OldestUnpublished(outbox, locked + {first}, limit - 1);
      forall i | 0 <= i < |rest| ensures Older(outbox, first, rest[i]) {
        FreeRows(outbox, locked, first, rest[i]);
      }
      if rest != [] {
        FreeRows(outbox, locked, first, rest[0]);
        BatchIsOldestPrefix(outbox, locked + {first}, limit - 1, rest[0]);
      }
      if row != first {
        FreeRows(outbox, locked, first, row);
        BatchIsOldestPrefix(outbox, locked + {first}, limit - 1, row);
      }
    }
  }
}
