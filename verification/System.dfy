/**
 The whole platform as a labelled transition system: the tables, any number of relays and reapers,
 the broker, the workers with their leases, and the HTTP requests in flight. A label names the party
 that moves and every choice the environment makes, so that a run is a sequence of labels.
 */
module System {
  import opened Types
  import opened Transactions

  /** Settings shared by every process of one deployment. */
  datatype Config = Config(batch: int, lease: Time, workerTimeout: Time, prefetch: int)

  /** An open relay transaction: its locked rows, the next one to publish, and those marked so far. */
  datatype Batch = Batch(rows: seq<nat>, next: nat, marked: set<nat>, openedAt: Time)

  /** What a consumer knows about the claim it sent for a delivery. */
  datatype Verdict = Undecided | Won | Conflict | Errored

  datatype Delivery = Delivery(worker: WorkerId, msg: Message, verdict: Verdict)

  /** Queues and deliveries; `acked`, `sentMain` and `sentRetry` record history. */
  datatype Broker = Broker(
    main: multiset<Message>,
    retry: multiset<Message>,
    dlq: multiset<Message>,
    unacked: seq<Delivery>,
    acked: multiset<Message>,
    sentMain: multiset<Message>,
    sentRetry: multiset<Message>)

  /** A claim that outlived its delivery; `waiting` if the handler that sent it may still hear the answer. */
  datatype ClaimRequest = ClaimRequest(job: JobId, worker: WorkerId, waiting: bool)

  /** How far workerJobResult got with the logs before it calls FinishJob. */
  datatype LogProgress = NoLogs | AttemptRead(attempt: int) | Uploaded(artifact: ArtifactInput)

  datatype ResultRequest = ResultRequest(lease: Lease, worker: WorkerId, success: bool, logs: LogProgress)

  /** A createJob request that passed the idempotency lookup and has not inserted yet. */
  datatype CreateRequest = CreateRequest(key: string, spec: JobSpec, maxAttempts: int)

  /** A successful createJob response. */
  datatype Reply = Reply(key: string, job: JobId)

  /** `open` holds the leases whose handler has not reported yet: its one result may still arrive. */
  datatype State = State(
    cfg: Config,
    db: Tables,
    relays: map<nat, Batch>,
    reapers: map<nat, Time>,
    broker: Broker,
    leases: map<Lease, WorkerId>,
    open: set<Lease>,
    lateClaims: multiset<ClaimRequest>,
    results: map<nat, ResultRequest>,
    creates: map<nat, CreateRequest>,
    replies: set<Reply>,
    objects: set<LogKey>)

  /** createJob in its two halves, initR2Job and submitR2Job. */
  datatype ClientStep =
    | Lookup(req: nat, key: string, spec: JobSpec, maxAttempts: int)
    | Insert(req: nat, id: JobId, answered: bool)
    | Abort(req: nat)
    | InitUpload(id: JobId, spec: JobSpec, maxAttempts: int)
    | SubmitUpload(id: JobId)

  datatype RegistryStep = Register(worker: WorkerId) | Beat(worker: WorkerId)

  /** The two transactions of a reaper tick, under one `now`. */
  datatype ReaperStep = MarkDead(reaper: nat, now: Time) | Reap(reaper: nat, order: seq<JobId>)

  datatype RelayStep =
    | Open(relay: nat)
    | PublishOk(relay: nat)
    | PublishFailed(relay: nat, enqueued: bool)
    | Commit(relay: nat)
    | Rollback(relay: nat)

  /** Dead-lettering by TTL, delivery, acknowledgement, and what happens when a consumer gives up or dies. */
  datatype QueueStep =
    | Expire(msg: Message)
    | Deliver(worker: WorkerId, msg: Message)
    | Settle(delivery: nat, ack: bool)
    | GiveUp(delivery: nat, inFlight: bool)
    | Redeliver(delivery: nat, inFlight: bool)

  datatype ClaimStep = Claim(delivery: nat) | LateClaim(claim: ClaimRequest, heard: bool)

  /**
   Lease renewal, workerJobResult in its parts, and the end of a handler that will not report any more. A worker
   reports once a claim. `again` stands for clients that send a result repeatedly: nothing in the scheduler keeps
   them from it, so what is proved to be safe allows for them.
   */
  datatype HolderStep =
    | Renew(lease: Lease, worker: WorkerId)
    | ResultStart(req: nat, lease: Lease, worker: WorkerId, success: bool, withLogs: bool, again: bool)
    | ResultUpload(req: nat, bytes: nat, lines: nat)
    | ResultFinish(req: nat)
    | ResultDrop(req: nat)
    | Quit(lease: Lease)

  datatype Label =
    | Tick(elapsed: nat, began: Time)
    | Client(client: ClientStep)
    | Registry(registry: RegistryStep)
    | Reaper(reap: ReaperStep)
    | Relay(rel: RelayStep)
    | Queue(queue: QueueStep)
    | Claiming(claiming: ClaimStep)
    | Holder(holder: HolderStep)

  function EmptyBroker(): Broker {
    Broker(multiset{}, multiset{}, multiset{}, [], multiset{}, multiset{}, multiset{})
  }

  function Init(cfg: Config): State {
    State(cfg, Tables(0, 0, map[], [], map[], map[]), map[], map[], EmptyBroker(), map[], {}, multiset{},
          map[], map[], {}, {})
  }

  // ---- clients ----

  function Params(spec: JobSpec, maxAttempts: int, key: string): CreateParams {
    CreateParams(spec, 0, NormalizedMaxAttempts(maxAttempts), key)
  }

  function LookupKey(t: Tables, key: string): set<JobId> {
    set id | id in t.jobs && t.jobs[id].idempotencyKey == NullString(key)
  }

  function DoLookup(s: State, req: nat, key: string, spec: JobSpec, maxAttempts: int): State {
    var found := if key == "" then {} else LookupKey(s.db, key);
    if found == {} then s.(creates := s.creates[req := CreateRequest(key, spec, maxAttempts)])
    else s.(replies := s.replies + set id | id in found :: Reply(key, id))
  }

  function DoInsert(s: State, req: nat, id: JobId, answered: bool): State
    requires req in s.creates
  {
    var c := s.creates[req];
    var o := CreateAndDispatch(s.db, id, Params(c.spec, c.maxAttempts, c.key));
    s.(db := o.db, creates := s.creates - {req},
       replies := if o.result.Success? && answered then s.replies + {Reply(c.key, id)} else s.replies)
  }

  predicate ClientEnabled(s: State, c: ClientStep) {
    match c
    case Lookup(req, _, _, _) => req !in s.creates
    case Insert(req, _, _) => req in s.creates
    case _ => true
  }

  function ClientApply(s: State, c: ClientStep): State
    requires ClientEnabled(s, c)
  {
    match c
    case Lookup(req, key, spec, maxAttempts) => DoLookup(s, req, key, spec, maxAttempts)
    case Insert(req, id, answered) => DoInsert(s, req, id, answered)
    case Abort(req) => s.(creates := s.creates - {req})
    case InitUpload(id, spec, maxAttempts) => s.(db := CreateJob(s.db, id, Params(spec, maxAttempts, ""), New).db)
    case SubmitUpload(id) => s.(db := QueueJob(s.db, id).db)
  }

  // ---- registry and reaper ----

  function RegistryApply(s: State, r: RegistryStep): State {
    match r
    case Register(w) => s.(db := RegisterWorker(s.db, w))
    case Beat(w) => s.(db := Heartbeat(s.db, w).db)
  }

  ghost predicate ReaperEnabled(s: State, r: ReaperStep) {
    match r
    case MarkDead(_, now) => now <= s.db.clock
    case Reap(reaper, order) => reaper in s.reapers && ListsOrphans(s.db, s.reapers[reaper], order)
  }

  ghost function ReaperApply(s: State, r: ReaperStep): State
    requires ReaperEnabled(s, r)
  {
    match r
    case MarkDead(reaper, now) =>
      s.(db := MarkStaleWorkersDead(s.db, now - s.cfg.workerTimeout), reapers := s.reapers[reaper := now])
    case Reap(reaper, order) => s.(db := ReapInOrder(s.db, order), reapers := s.reapers - {reaper})
  }

  // ---- relay ----

  function Locked(relays: map<nat, Batch>): set<nat> {
    set r, row | r in relays && row in relays[r].rows :: row
  }

  function RowMessage(row: OutboxRow): Message {
    Message(row.job, row.attempt)
  }

  /** The direct exchange: `dispatch` leads to jobs.main, `retry` to jobs.retry. */
  function Enqueue(b: Broker, row: OutboxRow): Broker {
    var m := RowMessage(row);
    match row.target
    case Main => b.(main := b.main + multiset{m}, sentMain := b.sentMain + multiset{m})
    case Retry => b.(retry := b.retry + multiset{m}, sentRetry := b.sentRetry + multiset{m})
  }

  /** An empty batch is rolled back at once. */
  function DoOpen(s: State, relay: nat): State {
    var rows := OldestUnpublished(s.db.outbox, Locked(s.relays), BatchLimit(s.cfg.batch));
    if rows == [] then s else s.(relays := s.relays[relay := Batch(rows, 0, {}, s.db.clock)])
  }

  predicate CanPublish(s: State, relay: nat) {
    relay in s.relays && s.relays[relay].next < |s.relays[relay].rows|
    && s.relays[relay].rows[s.relays[relay].next] < |s.db.outbox|
  }

  function NextRow(s: State, relay: nat): nat
    requires CanPublish(s, relay)
  {
    s.relays[relay].rows[s.relays[relay].next]
  }

  function DoPublishOk(s: State, relay: nat): State
    requires CanPublish(s, relay)
  {
    var b := s.relays[relay];
    var row := NextRow(s, relay);
    s.(broker := Enqueue(s.broker, s.db.outbox[row]),
       relays := s.relays[relay := b.(next := b.next + 1, marked := b.marked + {row})])
  }

  /** A publish that reports an error may still have reached the broker. */
  function DoPublishFailed(s: State, relay: nat, enqueued: bool): State
    requires CanPublish(s, relay)
  {
    var b := s.relays[relay];
    var row := NextRow(s, relay);
    s.(broker := if enqueued then Enqueue(s.broker, s.db.outbox[row]) else s.broker,
       db := MarkPublishError(s.db, row),
       relays := s.relays[relay := b.(next := b.next + 1)])
  }

  predicate RelayEnabled(s: State, r: RelayStep) {
    match r
    case Open(relay) => relay !in s.relays
    case PublishOk(relay) => CanPublish(s, relay)
    case PublishFailed(relay, _) => CanPublish(s, relay)
    case Commit(relay) => relay in s.relays && s.relays[relay].next == |s.relays[relay].rows|
    case Rollback(relay) => relay in s.relays
  }

  function RelayApply(s: State, r: RelayStep): State
    requires RelayEnabled(s, r)
  {
    match r
    case Open(relay) => DoOpen(s, relay)
    case PublishOk(relay) => DoPublishOk(s, relay)
    case PublishFailed(relay, enqueued) => DoPublishFailed(s, relay, enqueued)
    case Commit(relay) =>
      s.(db := MarkPublished(s.db, s.relays[relay].marked, s.relays[relay].openedAt), relays := s.relays - {relay})
    case Rollback(relay) => s.(relays := s.relays - {relay})
  }

  // ---- broker ----

  function RemoveAt<T>(xs: seq<T>, i: nat): seq<T>
    requires i < |xs|
  {
    xs[..i] + xs[i + 1..]
  }

  function Outstanding(ds: seq<Delivery>, w: WorkerId): nat {
    if ds == [] then 0
    else Outstanding(ds[..|ds| - 1], w) + if ds[|ds| - 1].worker == w then 1 else 0
  }

  /** consumeParallel raises a non-positive worker count to 1 and uses it as the prefetch. */
  function PrefetchLimit(cfg: Config): nat {
    if cfg.prefetch <= 0 then 1 else cfg.prefetch
  }

  function AbandonedClaim(d: Delivery, inFlight: bool, waiting: bool): multiset<ClaimRequest> {
    if inFlight && d.verdict.Undecided? then multiset{ClaimRequest(d.msg.job, d.worker, waiting)} else multiset{}
  }

  /** Ack removes the message; nack without requeue sends it to the DLQ, where jobs.main dead-letters to. */
  function DoSettle(b: Broker, i: nat, ack: bool): Broker
    requires i < |b.unacked|
  {
    var m := b.unacked[i].msg;
    var rest := b.(unacked := RemoveAt(b.unacked, i));
    if ack then rest.(acked := b.acked + multiset{m}) else rest.(dlq := b.dlq + multiset{m})
  }

  function DoRedeliver(b: Broker, i: nat): Broker
    requires i < |b.unacked|
  {
    b.(unacked := RemoveAt(b.unacked, i), main := b.main + multiset{b.unacked[i].msg})
  }

  predicate QueueEnabled(s: State, q: QueueStep) {
    match q
    case Expire(m) => m in s.broker.retry
    case Deliver(w, m) =>
      m in s.broker.main && w in s.db.workers && Outstanding(s.broker.unacked, w) < PrefetchLimit(s.cfg)
    case Settle(i, ack) =>
      i < |s.broker.unacked| && !s.broker.unacked[i].verdict.Undecided?
          && (ack ==> !s.broker.unacked[i].verdict.Errored?)
    case GiveUp(i, _) => i < |s.broker.unacked| && s.broker.unacked[i].verdict.Undecided?
    case Redeliver(i, _) => i < |s.broker.unacked|
  }

  function QueueApply(s: State, q: QueueStep): State
    requires QueueEnabled(s, q)
  {
    var b := s.broker;
    match q
    case Expire(m) => s.(broker := b.(retry := b.retry - multiset{m}, main := b.main + multiset{m}))
    case Deliver(w, m) =>
      s.(broker := b.(main := b.main - multiset{m}, unacked := b.unacked + [Delivery(w, m, Undecided)]))
    case Settle(i, ack) => s.(broker := DoSettle(b, i, ack))
    case GiveUp(i, inFlight) =>
      s.(broker := DoSettle(b, i, false), lateClaims := s.lateClaims + AbandonedClaim(b.unacked[i], inFlight, false))
    case Redeliver(i, inFlight) =>
      s.(broker := DoRedeliver(b, i), lateClaims := s.lateClaims + AbandonedClaim(b.unacked[i], inFlight, true))
  }

  // ---- claims ----

  /** A claim request reaching the scheduler. Nobody works under a lease that was granted unheard. */
  function ServeClaim(s: State, id: JobId, w: WorkerId, heard: bool): State {
    var o := ClaimJob(s.db, id, w, s.cfg.lease);
    if o.result.Failure? then s
    else
      var lease := Lease(id, o.result.value.leaseGeneration);
      s.(db := o.db, leases := s.leases[lease := w], open := if heard then s.open + {lease} else s.open)
  }

  function ClaimVerdict(s: State, id: JobId, w: WorkerId): Verdict {
    var o := ClaimJob(s.db, id, w, s.cfg.lease);
    if o.result.Success? then Won
    else if o.result.error == JobNotClaimable then Conflict
    else Errored
  }

  predicate ClaimEnabled(s: State, c: ClaimStep) {
    match c
    case Claim(i) => i < |s.broker.unacked| && s.broker.unacked[i].verdict.Undecided?
    case LateClaim(claim, heard) => claim in s.lateClaims && (heard ==> claim.waiting)
  }

  /** The job a claim step names, with the worker that asks for it. */
  function Claimant(s: State, c: ClaimStep): ClaimRequest
    requires ClaimEnabled(s, c)
  {
    match c
    case Claim(i) => ClaimRequest(s.broker.unacked[i].msg.job, s.broker.unacked[i].worker, true)
    case LateClaim(claim, _) => claim
  }

  predicate Heard(c: ClaimStep) {
    c.Claim? || c.heard
  }

  function ClaimApply(s: State, c: ClaimStep): State
    requires ClaimEnabled(s, c)
  {
    var r := Claimant(s, c);
    var served := ServeClaim(s, r.job, r.worker, Heard(c));
    match c
    case Claim(i) =>
      var decided := s.broker.unacked[i].(verdict := ClaimVerdict(s, r.job, r.worker));
      served.(broker := s.broker.(unacked := s.broker.unacked[i := decided]))
    case LateClaim(claim, _) => served.(lateClaims := s.lateClaims - multiset{claim})
  }

  // ---- lease holders ----

  function ArtifactOf(r: ResultRequest): Option<ArtifactInput> {
    if r.logs.Uploaded? then Some(r.logs.artifact) else None
  }

  function FinishOutcome(s: State, r: ResultRequest): Outcome<()> {
    FinishJob(s.db, r.lease.job, r.worker, r.lease.generation, r.success, ArtifactOf(r))
  }

  function DoResultUpload(s: State, req: nat, bytes: nat, lines: nat): State
    requires req in s.results && s.results[req].logs.AttemptRead?
  {
    var r := s.results[req];
    var key := LogKey(r.lease.job, r.logs.attempt);
    s.(objects := s.objects + {key},
       results := s.results[req := r.(logs := Uploaded(ArtifactInput(r.logs.attempt, key, bytes, lines)))])
  }

  predicate HolderEnabled(s: State, h: HolderStep) {
    match h
    case Renew(lease, w) => lease in s.leases && s.leases[lease] == w
    case ResultStart(req, lease, w, _, withLogs, again) =>
      req !in s.results && lease in s.leases && s.leases[lease] == w && (withLogs ==> lease.job in s.db.jobs)
      && (lease in s.open || again)
    case ResultUpload(req, _, _) => req in s.results && s.results[req].logs.AttemptRead?
    case ResultFinish(req) => req in s.results && !s.results[req].logs.AttemptRead?
    case ResultDrop(_) => true
    case Quit(_) => true
  }

  function HolderApply(s: State, h: HolderStep): State
    requires HolderEnabled(s, h)
  {
    match h
    case Renew(lease, w) => s.(db := RenewLease(s.db, lease.job, w, lease.generation, s.cfg.lease).db)
    case ResultStart(req, lease, w, success, withLogs, _) =>
      var progress := if withLogs then AttemptRead(s.db.jobs[lease.job].attempt) else NoLogs;
      s.(results := s.results[req := ResultRequest(lease, w, success, progress)], open := s.open - {lease})
    case ResultUpload(req, bytes, lines) => DoResultUpload(s, req, bytes, lines)
    case ResultFinish(req) => s.(db := FinishOutcome(s, s.results[req]).db, results := s.results - {req})
    case ResultDrop(req) => s.(results := s.results - {req})
    case Quit(lease) => s.(open := s.open - {lease})
  }

  // ---- the transition system ----

  ghost predicate Enabled(s: State, l: Label) {
    match l
    case Tick(elapsed, began) => began <= s.db.clock + elapsed
    case Client(c) => ClientEnabled(s, c)
    case Registry(_) => true
    case Reaper(r) => ReaperEnabled(s, r)
    case Relay(r) => RelayEnabled(s, r)
    case Queue(q) => QueueEnabled(s, q)
    case Claiming(c) => ClaimEnabled(s, c)
    case Holder(h) => HolderEnabled(s, h)
  }

  ghost function Apply(s: State, l: Label): State
    requires Enabled(s, l)
  {
    match l
    case Tick(elapsed, began) => s.(db := s.db.(clock := s.db.clock + elapsed, began := began))
    case Client(c) => ClientApply(s, c)
    case Registry(r) => RegistryApply(s, r)
    case Reaper(r) => ReaperApply(s, r)
    case Relay(r) => RelayApply(s, r)
    case Queue(q) => QueueApply(s, q)
    case Claiming(c) => ClaimApply(s, c)
    case Holder(h) => HolderApply(s, h)
  }

  // ---- runs ----

  ghost predicate Runs(s: State, ls: seq<Label>)
    decreases |ls|, 0
  {
    ls == [] || (Runs(s, ls[..|ls| - 1]) && Enabled(Exec(s, ls[..|ls| - 1]), ls[|ls| - 1]))
  }

  ghost function Exec(s: State, ls: seq<Label>): State
    requires Runs(s, ls)
    decreases |ls|, 1
  {
    if ls == [] then s else Apply(Exec(s, ls[..|ls| - 1]), ls[|ls| - 1])
  }

  /** Runs compose. */
  lemma {:induction false} RunsConcat(s: State, ls: seq<Label>, ks: seq<Label>)
    requires Runs(s, ls) && Runs(Exec(s, ls), ks)
    ensures Runs(s, ls + ks) && Exec(s, ls + ks) == Exec(Exec(s, ls), ks)
  {
    if ks == [] {
      assert ls + ks == ls;
    } else {
      RunsConcat(s, ls, ks[..|ks| - 1]);
      assert (ls + ks)[..|ls + ks| - 1] == ls + ks[..|ks| - 1];
    }
  }

  lemma RunOneMore(s: State, ls: seq<Label>, l: Label)
    requires Runs(s, ls) && Enabled(Exec(s, ls), l)
    ensures Runs(s, ls + [l]) && Exec(s, ls + [l]) == Apply(Exec(s, ls), l)
  {
    assert (ls + [l])[..|ls|] == ls;
  }

  lemma OneStep(s: State, l: Label)
    requires Enabled(s, l)
    ensures Runs(s, [l]) && Exec(s, [l]) == Apply(s, l)
  {
    RunOneMore(s, [], l);
    assert [] + [l] == [l];
  }

  lemma TwoSteps(s: State, l: Label, k: Label)
    requires Enabled(s, l) && Enabled(Apply(s, l), k)
    ensures Runs(s, [l, k]) && Exec(s, [l, k]) == Apply(Apply(s, l), k)
  {
    OneStep(s, l);
    RunOneMore(s, [l], k);
    assert [l] + [k] == [l, k];
  }
}
