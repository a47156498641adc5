/** Idempotent job creation when the lookup and the insert of several requests interleave. */
module Creation {
  import opened Types
  import opened Transactions
  import opened System
  import opened Frames
  import opened JobLifecycle
  import Effects

  /** The partial unique index on idempotency_key. */
  ghost predicate UniqueKeys(t: Tables) {
    forall a, b :: a in t.jobs && b in t.jobs && t.jobs[a].idempotencyKey.Some? && a != b ==>
      t.jobs[a].idempotencyKey != t.jobs[b].idempotencyKey
  }

  ghost predicate Truthful(t: Tables, r: Reply) {
    r.job in t.jobs && t.jobs[r.job].idempotencyKey == NullString(r.key)
  }

  ghost predicate CreationOk(s: State) {
    UniqueKeys(s.db) && forall r :: r in s.replies ==> Truthful(s.db, r)
  }

  lemma InsertKeepsKeysUnique(t: Tables, id: JobId, job: Job)
    requires UniqueKeys(t)
    ensures UniqueKeys(InsertJob(t, id, job).db)
  {
  }

  lemma ClientKeepsKeysUnique(s: State, c: ClientStep)
    requires UniqueKeys(s.db) && ClientEnabled(s, c)
    ensures UniqueKeys(ClientApply(s, c).db)
  {
    match c
    case Insert(req, id, _) =>
      var r := s.creates[req];
      var p := Params(r.spec, r.maxAttempts, r.key);
      InsertKeepsKeysUnique(s.db, id, FreshJob(s.db, p, Dispatched));
    case InitUpload(id, spec, maxAttempts) =>
      InsertKeepsKeysUnique(s.db, id, FreshJob(s.db, Params(spec, maxAttempts, ""), New));
    case _ =>
  }

  /** Requests other than creations neither add jobs nor touch keys. */
  lemma OthersKeepJobIds(s: State, l: Label, id: JobId)
    requires Enabled(s, l) && !l.Client?
    ensures id in s.db.jobs <==> id in Apply(s, l).db.jobs
    ensures id in s.db.jobs ==> Apply(s, l).db.jobs[id].idempotencyKey == s.db.jobs[id].idempotencyKey
  {
    StepGrows(s, l, id);
    Frame(s, l);
  }

  lemma StepKeepsKeysUnique(s: State, l: Label)
    requires UniqueKeys(s.db) && Enabled(s, l)
    ensures UniqueKeys(Apply(s, l).db)
  {
    if l.Client? {
      ClientKeepsKeysUnique(s, l.client);
    } else {
      forall id ensures (id in s.db.jobs <==> id in Apply(s, l).db.jobs)
                        && (id in s.db.jobs ==>
                              Apply(s, l).db.jobs[id].idempotencyKey == s.db.jobs[id].idempotencyKey) {
        OthersKeepJobIds(s, l, id);
      }
    }
  }

  /** A reply answers with a job that carries the key at that moment. */
  lemma ClientRepliesTruthfully(s: State, c: ClientStep, r: Reply)
    requires ClientEnabled(s, c) && r in ClientApply(s, c).replies && r !in s.replies
    ensures Truthful(ClientApply(s, c).db, r)
  {
  }

  lemma StepKeepsCreation(s: State, l: Label)
    requires CreationOk(s) && Enabled(s, l)
    ensures CreationOk(Apply(s, l))
  {
    StepKeepsKeysUnique(s, l);
    var s' := Apply(s, l);
    forall r | r in s'.replies ensures Truthful(s'.db, r) {
      if r in s.replies {
        assert Truthful(s.db, r);
        StepGrows(s, l, r.job);
      } else {
        OthersReplyNothing(s, l);
        ClientRepliesTruthfully(s, l.client, r);
      }
    }
  }

  lemma OthersReplyNothing(s: State, l: Label)
    requires Enabled(s, l)
    ensures !l.Client? ==> Apply(s, l).replies == s.replies
  {
    match l
    case Reaper(r) => ReaperFrame(s, r);
    case Relay(r) => RelayFrame(s, r);
    case Queue(q) => QueueFrame(s, q);
    case Claiming(c) => ClaimFrame(s, c);
    case Holder(h) => HolderFrame(s, h);
    case _ =>
  }

  lemma {:induction false} RunKeepsCreation(cfg: Config, ls: seq<Label>)
    requires Runs(Init(cfg), ls)
    ensures CreationOk(Exec(Init(cfg), ls))
  {
    if ls != [] {
      RunKeepsCreation(cfg, ls[..|ls| - 1]);
      StepKeepsCreation(Exec(Init(cfg), ls[..|ls| - 1]), ls[|ls| - 1]);
    }
  }

  /** At most one job ever carries a given non-empty key, however lookups and inserts interleave. */
  lemma OneJobPerKey(cfg: Config, ls: seq<Label>, a: JobId, b: JobId)
    requires Runs(Init(cfg), ls)
    requires a in Exec(Init(cfg), ls).db.jobs && b in Exec(Init(cfg), ls).db.jobs
    requires Exec(Init(cfg), ls).db.jobs[a].idempotencyKey.Some?
    requires Exec(Init(cfg), ls).db.jobs[a].idempotencyKey == Exec(Init(cfg), ls).db.jobs[b].idempotencyKey
    ensures a == b
  {
    RunKeepsCreation(cfg, ls);
  }

  /** All successful responses for one non-empty key name the same job, at any two points of a run. */
  lemma RepliesAgree(cfg: Config, ls: seq<Label>, p: Reply, q: Reply)
    requires Runs(Init(cfg), ls)
    requires p in Exec(Init(cfg), ls).replies && q in Exec(Init(cfg), ls).replies
    requires p.key == q.key && p.key != ""
    ensures p.job == q.job
    ensures p.job in Exec(Init(cfg), ls).db.jobs && Exec(Init(cfg), ls).db.jobs[p.job].idempotencyKey == Some(p.key)
  {
    RunKeepsCreation(cfg, ls);
    assert Truthful(Exec(Init(cfg), ls).db, p) && Truthful(Exec(Init(cfg), ls).db, q);
  }

  lemma TakenKeys(t: Tables, key: string)
    ensures KeyTaken(t, NullString(key)) <==> Effects.Taken(t.jobs, key)
  {
  }

  /** The second half of createJob: a job with its dispatch row and perhaps a reply, or nothing. */
  lemma InsertEffect(s: State, req: nat, id: JobId, answered: bool)
    requires ClientEnabled(s, Insert(req, id, answered))
    ensures var (s', c) := (ClientApply(s, Insert(req, id, answered)), s.creates[req]);
            var limit := if c.maxAttempts <= 0 then 3 else c.maxAttempts;
            && s'.creates == s.creates - {req}
            && if id in s.db.jobs || Effects.Taken(s.db.jobs, c.key) then s'.db == s.db && s'.replies == s.replies
               else
                 && Effects.Creates(s.db.jobs, s'.db.jobs, id, c.spec, c.key, 0, limit, Dispatched, s.db.clock)
                 && Effects.Appended(s.db.outbox, s'.db.outbox, id, Main, 0, s.db.began)
                 && s'.replies == s.replies + if answered then {Reply(c.key, id)} else {}
  {
    TakenKeys(s.db, s.creates[req].key);
  }

  /** A request given up between its halves changes nothing and cannot insert any more. */
  lemma AbortedRequestNeverInserts(s: State, req: nat, id: JobId, answered: bool)
    ensures var s' := ClientApply(s, Abort(req));
            && s'.db == s.db && s'.replies == s.replies && !ClientEnabled(s', Insert(req, id, answered))
            && forall other :: other != req ==> (other in s'.creates <==> other in s.creates)
  {
  }

  /** A job for an upload is made NEW and without a row. */
  lemma InitUploadEffect(s: State, id: JobId, spec: JobSpec, maxAttempts: int)
    ensures var s' := ClientApply(s, InitUpload(id, spec, maxAttempts));
            && s'.db.outbox == s.db.outbox
            && if id in s.db.jobs then s'.db == s.db
               else Effects.Creates(s.db.jobs, s'.db.jobs, id, spec, "", 0, if maxAttempts <= 0 then 3 else maxAttempts,
                                    New, s.db.clock)
  {
  }

  /** It is dispatched once the upload is submitted. */
  lemma SubmitUploadEffect(s: State, id: JobId)
    ensures var s' := ClientApply(s, SubmitUpload(id));
            if id in s.db.jobs && s.db.jobs[id].status.New? then
              && Effects.OnlyJob(s.db.jobs, s'.db.jobs, id) && s'.db.jobs[id].status.Dispatched?
              && Effects.Appended(s.db.outbox, s'.db.outbox, id, Main, s.db.jobs[id].attempt, s.db.began)
            else s'.db == s.db
  {
  }

  /** A request with a key that some job carries is answered with that job and never gets to insert. */
  lemma KnownKeyIsAnswered(s: State, req: nat, key: string, spec: JobSpec, maxAttempts: int, id: JobId)
    requires key != "" && id in s.db.jobs && s.db.jobs[id].idempotencyKey == Some(key)
    requires ClientEnabled(s, Lookup(req, key, spec, maxAttempts))
    ensures var s' := ClientApply(s, Lookup(req, key, spec, maxAttempts));
            Reply(key, id) in s'.replies && req !in s'.creates && s'.db == s.db
  {
    assert id in LookupKey(s.db, key);
  }

  /** Of two requests that both passed the lookup with one key, the second insert is refused and writes nothing. */
  lemma RaceLoserIsRefused(s: State, first: nat, second: nat, a: JobId, b: JobId, answered: bool)
    requires first in s.creates && second in s.creates && first != second
    requires s.creates[first].key == s.creates[second].key && s.creates[first].key != ""
    requires var c := s.creates[first];
             CreateAndDispatch(s.db, a, Params(c.spec, c.maxAttempts, c.key)).result.Success?
    ensures var won := ClientApply(s, Insert(first, a, answered));
            var after := ClientApply(won, Insert(second, b, true));
            second in won.creates && after.db == won.db && after.replies == won.replies
  {
    var won := ClientApply(s, Insert(first, a, answered));
    assert won.db.jobs[a].idempotencyKey == NullString(s.creates[second].key);
  }
}
