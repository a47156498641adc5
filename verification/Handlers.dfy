/**
 Endpoints of the scheduler, and the consumer that calls those for workers. Handling one delivery is shown to be
 a run of the transition system in which that delivery is settled once: acknowledged after a claim conflict or
 an accepted result, dead-lettered otherwise.
 */
module Handlers {
  import opened Types
  import opened StoreAccess
  import opened System
  import opened Effects
  import Tx = Transactions

  datatype Status = Ok | Created | BadRequest | NotFound | ClaimOrLeaseConflict | Internal | Unavailable

  /** The log lines sent with a result: none, or lines whose upload fails or yields a size and a line count. */
  datatype LogsSent = NoLines | Lines(stored: Option<(nat, nat)>)

  datatype ResultEffect = ResultEffect(db: Tx.Tables, objects: set<LogKey>, status: Status)

  function FinishStatus(r: Result<(), StoreError>): Status {
    if r.Success? then Ok else if r.error == JobNotAssigned then ClaimOrLeaseConflict else Internal
  }

  /** workerJobResult when nobody else moves between its three steps. */
  function JobResultEffect(t: Tx.Tables, objects: set<LogKey>, storage: bool, id: JobId, w: WorkerId,
                           generation: int, success: bool, logs: LogsSent): ResultEffect
  {
    if generation <= 0 then ResultEffect(t, objects, BadRequest)
    else if logs.NoLines? then
      var o := Tx.FinishJob(t, id, w, generation, success, None);
      ResultEffect(o.db, objects, FinishStatus(o.result))
    else if !storage then ResultEffect(t, objects, Unavailable)
    else if id !in t.jobs then ResultEffect(t, objects, NotFound)
    else if logs.stored.None? then ResultEffect(t, objects, Internal)
    else
      var key := LogKey(id, t.jobs[id].attempt);
      var artifact := ArtifactInput(t.jobs[id].attempt, key, logs.stored.value.0, logs.stored.value.1);
      var o := Tx.FinishJob(t, id, w, generation, success, Some(artifact));
      ResultEffect(o.db, objects + {key}, FinishStatus(o.result))
  }

  // ---- what the requests do, case by case ----

  predicate LogsLand(storage: bool, logs: LogsSent) {
    logs.NoLines? || (storage && logs.stored.Some?)
  }

  function ArtifactSent(attempt: int, id: JobId, logs: LogsSent): Option<ArtifactInput> {
    if logs.Lines? && logs.stored.Some?
    then Some(ArtifactInput(attempt, LogKey(id, attempt), logs.stored.value.0, logs.stored.value.1))
    else None
  }

  predicate MayFinish(jobs: map<JobId, Job>, id: JobId, w: WorkerId, generation: int, success: bool) {
    id in jobs && (jobs[id].status.Completed? || Accepts(jobs, id, w, generation, success))
  }

  /** The answer to a result, from the row and the request. */
  predicate ResultAnswer(jobs: map<JobId, Job>, storage: bool, id: JobId, w: WorkerId, generation: int, success: bool,
                         logs: LogsSent, status: Status)
  {
    && (generation <= 0 ==> status == BadRequest)
    && (generation > 0 && logs.Lines? && !storage ==> status == Unavailable)
    && (generation > 0 && logs.Lines? && storage && id !in jobs ==> status == NotFound)
    && (generation > 0 && logs == Lines(None) && storage && id in jobs ==> status == Internal)
    && (generation > 0 && LogsLand(storage, logs) && (logs.Lines? ==> id in jobs) ==>
          status == if MayFinish(jobs, id, w, generation, success) then Ok else ClaimOrLeaseConflict)
  }

  /** Only an accepted result touches the tables; the logs are stored even for a refused one. */
  ghost predicate ResultLeaves(t: Tx.Tables, t': Tx.Tables, objects: set<LogKey>, objects': set<LogKey>, storage: bool,
                               id: JobId, w: WorkerId, generation: int, success: bool, logs: LogsSent)
  {
    && t'.clock == t.clock && t'.began == t.began && t'.workers == t.workers
    && objects' == (if generation > 0 && storage && id in t.jobs && logs.Lines? && logs.stored.Some?
                    then objects + {LogKey(id, t.jobs[id].attempt)} else objects)
    && if generation > 0 && LogsLand(storage, logs) && MayFinish(t.jobs, id, w, generation, success) then
         && (if t.jobs[id].status.Completed? then t'.jobs == t.jobs && t'.outbox == t.outbox
             else Concludes(t.jobs, t.outbox, t'.jobs, t'.outbox, id, success, t.clock, t.began))
         && Records(t.artifacts, t'.artifacts, id, t.jobs[id].attempt, ArtifactSent(t.jobs[id].attempt, id, logs),
                    t.clock)
       else t' == t
  }

  /** Where a job is after a worker has claimed it, run it once and reported. */
  ghost predicate Worked(t: Tx.Tables, t': Tx.Tables, id: JobId, w: WorkerId, success: bool, logs: LogsSent) {
    && OnlyJob(t.jobs, t'.jobs, id)
    && var (j, j') := (t.jobs[id], t'.jobs[id]);
       var last := j.attempt + 1 >= j.maxAttempts;
    && j'.attempt == j.attempt + 1 && j'.leaseGeneration == j.leaseGeneration + 1
    && j'.leaseExpiresAt.None? && j'.updatedAt == t.clock
    && j'.startedAt == (if j.startedAt.Some? then j.startedAt else Some(t.clock))
    && j'.status == (if success then Completed else if last then Failed else Dispatched)
    && j'.assignee == (if success || last then Some(w) else None)
    && j'.finishedAt == (if success || last then Some(t.clock) else j.finishedAt)
    && (if success || last then t'.outbox == t.outbox
        else Appended(t.outbox, t'.outbox, id, Retry, j.attempt + 1, t.began))
    && Records(t.artifacts, t'.artifacts, id, j.attempt + 1, ArtifactSent(j.attempt + 1, id, logs), t.clock)
  }

  predicate WinsClaim(t: Tx.Tables, id: JobId, w: WorkerId) {
    Claimable(t.jobs, id) && w in t.workers
  }

  /** The tables and objects a delivery leaves: untouched, just claimed, or worked on once. */
  ghost predicate DeliveryLeaves(t: Tx.Tables, t': Tx.Tables, objects: set<LogKey>, objects': set<LogKey>,
                                 storage: bool, lease: Time, id: JobId, w: WorkerId, course: Course)
  {
    && t'.clock == t.clock && t'.began == t.began && t'.workers == t.workers
    && if course.claim == NotSent || !WinsClaim(t, id, w) then t' == t && objects' == objects
       else if Reported(storage, course) then
         && Worked(t, t', id, w, course.success, course.logs)
         && objects' == if course.logs.NoLines? then objects else objects + {LogKey(id, t.jobs[id].attempt + 1)}
       else
         && Claims(t.jobs, t'.jobs, id, w, lease, t.clock)
         && t'.outbox == t.outbox && t'.artifacts == t.artifacts && objects' == objects
  }

  /** The result reaches the scheduler and passes the upload. */
  predicate Reported(storage: bool, course: Course) {
    course.claim == Answered && course.result != NotSent && LogsLand(storage, course.logs)
  }

  /** When handleMessage returns nil: after a claim conflict, or once the result is confirmed. */
  predicate Acknowledged(t: Tx.Tables, storage: bool, id: JobId, w: WorkerId, course: Course) {
    && course.claim == Answered
    && (Claimable(t.jobs, id) ==> w in t.workers && course.result == Answered && LogsLand(storage, course.logs))
  }

  class Server {
    const store: Store
    const lease: Time
    const storage: bool
    var objects: set<LogKey>

    constructor (store: Store, lease: Time, storage: bool)
      ensures this.store == store && this.lease == lease && this.storage == storage && objects == {}
    {
      this.store, this.lease, this.storage, objects := store, lease, storage, {};
    }

    /**
     createJob when nobody else moves between its steps. `key` is trimmed; `newId` is the new UUID; the lookup and
     the read after the insert may fail. A known key answers with the job that has it and writes nothing. When the
     read fails the client is told so, although the job is there.
     */
    method CreateJob(key: string, spec: JobSpec, maxAttempts: int, newId: JobId, lookupFails: bool, readFails: bool)
      returns (status: Status, id: Option<JobId>)
      modifies store`jobs, store`outbox
      ensures var (jobs, bad) := (old(store.jobs), spec.inputPath == "" || spec.outputPath == "");
              && (bad ==> status == BadRequest)
              && (!bad && key != "" && lookupFails ==> status == Internal)
              && (!bad && !(key != "" && lookupFails) && Taken(jobs, key) ==>
                    status == Ok && id.Some? && id.value in jobs && jobs[id.value].idempotencyKey == Some(key))
              && (bad || (key != "" && lookupFails) || Taken(jobs, key) || newId in jobs ==>
                    store.Tables() == old(store.Tables()))
      ensures var asked := spec.inputPath != "" && spec.outputPath != "" && !(key != "" && lookupFails)
                           && !Taken(old(store.jobs), key);
              asked ==>
                && status == (if newId !in old(store.jobs) && !readFails then Created else Internal)
                && (newId !in old(store.jobs) ==>
                      && Creates(old(store.jobs), store.jobs, newId, spec, key, 0,
                                 if maxAttempts <= 0 then 3 else maxAttempts, Dispatched, store.clock)
                      && Appended(old(store.outbox), store.outbox, newId, Main, 0, store.began))
                && store.Tables() == Tx.CreateAndDispatch(old(store.Tables()), newId, Params(spec, maxAttempts, key)).db
      ensures id.Some? <==> status == Ok || status == Created
      ensures status == Created ==> id == Some(newId)
    {
      if spec.inputPath == "" || spec.outputPath == "" {
        return BadRequest, None;
      }
      var limit := if maxAttempts <= 0 then 3 else maxAttempts;
      if key != "" {
        if lookupFails {
          return Internal, None;
        }
        var found := WithKey(store.jobs, Some(key));
        KeyIsTaken(store.Tables(), key);
        if found != {} {
          var known :| known in found;
          return Ok, Some(known);
        }
      }
      var r := store.CreateAndDispatch(newId, Tx.CreateParams(spec, 0, limit, key));
      if r.Failure? || readFails {
        return Internal, None;
      }
      return Created, Some(newId);
    }

    method WorkerClaimJob(id: JobId, w: WorkerId) returns (status: Status, job: Option<Job>)
      modifies store`jobs
      ensures var o := Tx.ClaimJob(old(store.Tables()), id, w, lease);
              && store.Tables() == o.db
              && job == (if o.result.Success? then Some(o.result.value) else None)
      ensures status == if !Claimable(old(store.jobs), id) then ClaimOrLeaseConflict
                        else if w in store.workers then Ok else Internal
      ensures if status == Ok
              then Claims(old(store.jobs), store.jobs, id, w, lease, store.clock) && job == Some(store.jobs[id])
              else store.jobs == old(store.jobs) && job.None?
    {
      var r := store.ClaimJob(id, w, lease);
      match r {
        case Success(j) => return Ok, Some(j);
        case Failure(e) =>
          if e == JobNotClaimable {
            return ClaimOrLeaseConflict, None;
          }
          return Internal, None;
      }
    }

    method WorkerRenewLease(id: JobId, w: WorkerId, generation: int) returns (status: Status)
      modifies store`jobs
      ensures status == if generation <= 0 then BadRequest
                        else if Held(old(store.jobs), id, w, generation) then Ok else ClaimOrLeaseConflict
      ensures if status == Ok then Renews(old(store.jobs), store.jobs, id, lease, store.clock)
              else store.jobs == old(store.jobs)
      ensures generation > 0 ==> store.Tables() == Tx.RenewLease(old(store.Tables()), id, w, generation, lease).db
    {
      if generation <= 0 {
        return BadRequest;
      }
      var r := store.RenewLease(id, w, generation, lease);
      return if r.Success? then Ok else ClaimOrLeaseConflict;
    }

    /** Reads the attempt, stores the logs under it, finishes the job: the upload comes before the fence. */
    method WorkerJobResult(id: JobId, w: WorkerId, generation: int, success: bool, logs: LogsSent)
      returns (status: Status)
      modifies store`jobs, store`outbox, store`artifacts, this`objects
      ensures ResultEffect(store.Tables(), objects, status)
              == JobResultEffect(old(store.Tables()), old(objects), storage, id, w, generation, success, logs)
      ensures ResultAnswer(old(store.jobs), storage, id, w, generation, success, logs, status)
      ensures ResultLeaves(old(store.Tables()), store.Tables(), old(objects), objects, storage,
                           id, w, generation, success, logs)
    {
      if generation <= 0 {
        return BadRequest;
      }
      var artifact: Option<ArtifactInput> := None;
      if logs.Lines? {
        if !storage {
          return Unavailable;
        }
        if id !in store.jobs {
          return NotFound;
        }
        var attempt := store.jobs[id].attempt;
        if logs.stored.None? {
          return Internal;
        }
        objects := objects + {LogKey(id, attempt)};
        artifact := Some(ArtifactInput(attempt, LogKey(id, attempt), logs.stored.value.0, logs.stored.value.1));
      }
      var r := store.FinishJob(id, w, generation, success, artifact);
      if r.Failure? {
        return if r.error == JobNotAssigned then ClaimOrLeaseConflict else Internal;
      }
      return Ok;
    }
  }

  // ---- the consumer ----

  /** What the network does to a request. */
  datatype Exchange = Answered | ReplyLost | NotSent

  /** One run of the handler: the two exchanges, and what executing the job comes to. */
  datatype Course = Course(claim: Exchange, success: bool, logs: LogsSent, result: Exchange)

  class Consumer {
    const server: Server
    const id: WorkerId

    constructor (server: Server, id: WorkerId)
      ensures this.server == server && this.id == id
    {
      this.server, this.id := server, id;
    }

    /** The tables and objects are those of `s`, under the same settings. */
    ghost predicate In(s: State)
      reads server, server.store
    {
      s.db == server.store.Tables() && s.objects == server.objects && s.cfg.lease == server.lease
    }

    /** Submits a result for a lease this worker holds. */
    method Submit(job: JobId, generation: Generation, course: Course, ghost s: State, ghost req: nat)
      returns (ok: bool, ghost ls: seq<Label>)
      requires In(s) && req !in s.results
      requires var l := Lease(job, generation); l in s.leases && s.leases[l] == id && l in s.open
      requires Held(server.store.jobs, job, id, generation)
      modifies server.store`jobs, server.store`outbox, server.store`artifacts, server`objects
      ensures Runs(s, ls) && In(Exec(s, ls)) && Exec(s, ls).broker == s.broker
      ensures Exec(s, ls).open == s.open - {Lease(job, generation)}
      ensures ok <==> course.result == Answered && LogsLand(server.storage, course.logs)
      ensures if course.result == NotSent
              then server.store.Tables() == old(server.store.Tables()) && server.objects == old(server.objects)
              else ResultLeaves(old(server.store.Tables()), server.store.Tables(), old(server.objects), server.objects,
                                server.storage, job, id, generation, course.success, course.logs)
    {
      if course.result == NotSent {
        ls := HandlerQuits(s, Lease(job, generation));
        return false, ls;
      }
      var status := server.WorkerJobResult(job, id, generation, course.success, course.logs);
      ls := ResultIsARun(s, req, server.storage, Lease(job, generation), id, course.success, course.logs);
      return course.result == Answered && status == Ok, ls;
    }

    /** The rest of handling a delivery whose claim was won: run the job, submit the result, settle. */
    method RunJob(msg: Message, generation: Generation, course: Course, ghost s: State, ghost i: nat, ghost req: nat)
      returns (ack: bool, ghost ls: seq<Label>)
      requires req !in s.results && s.objects == server.objects && s.cfg.lease == server.lease
      requires i < |s.broker.unacked| && s.broker.unacked[i] == Delivery(id, msg, Undecided)
      requires var o := Tx.ClaimJob(s.db, msg.job, id, s.cfg.lease);
               o.result.Success? && o.result.value.leaseGeneration == generation && server.store.Tables() == o.db
      requires Held(server.store.jobs, msg.job, id, generation)
      modifies server.store`jobs, server.store`outbox, server.store`artifacts, server`objects
      ensures Runs(s, ls) && In(Exec(s, ls))
      ensures Exec(s, ls).broker == DoSettle(s.broker, i, ack) && Exec(s, ls).open <= s.open
      ensures ack <==> course.result == Answered && LogsLand(server.storage, course.logs)
      ensures if course.result == NotSent
              then server.store.Tables() == old(server.store.Tables()) && server.objects == old(server.objects)
              else ResultLeaves(old(server.store.Tables()), server.store.Tables(), old(server.objects), server.objects,
                                server.storage, msg.job, id, generation, course.success, course.logs)
    {
      ghost var claimed := ClaimedRun(s, i);
      ghost var more;
      ack, more := Submit(msg.job, generation, course, Exec(s, claimed), req);
      RunsConcat(s, claimed, more);
      ls := Settled(s, claimed + more, s.broker, i, ack);
    }

    /**
     handleMessage, with the ack or nack its result leads to. Delivery `i` is settled once and everything done
     is a run of the system. The message is acknowledged exactly when the claim was answered with a conflict,
     or was won and the result accepted. No report is left to come.
     */
    method HandleDelivery(msg: Message, course: Course, ghost s: State, ghost i: nat, ghost req: nat)
      returns (ack: bool, ghost ls: seq<Label>)
      requires In(s) && req !in s.results
      requires i < |s.broker.unacked| && s.broker.unacked[i] == Delivery(id, msg, Undecided)
      modifies server.store`jobs, server.store`outbox, server.store`artifacts, server`objects
      ensures Runs(s, ls) && In(Exec(s, ls))
      ensures Exec(s, ls).broker == DoSettle(s.broker, i, ack) && Exec(s, ls).open <= s.open
      ensures ack <==> Acknowledged(s.db, server.storage, msg.job, id, course)
      ensures DeliveryLeaves(old(server.store.Tables()), server.store.Tables(), old(server.objects), server.objects,
                             server.storage, server.lease, msg.job, id, course)
    {
      ghost var (before, objects) := (server.store.Tables(), server.objects);
      if course.claim == NotSent {
        ls := Abandoned(s, i, false);
        return false, ls;
      }
      var status, job := server.WorkerClaimJob(msg.job, id);
      ghost var claimed := server.store.Tables();
      if course.claim == Answered && status == Ok {
        ack, ls := RunJob(msg, job.value.leaseGeneration, course, s, i, req);
        ClaimThenResult(before, claimed, server.store.Tables(), objects, server.objects, server.storage, server.lease,
                        msg.job, id, course);
      } else {
        ack, ls := Settle(status, course, s, i);
        NotWorked(before, claimed, objects, server.storage, server.lease, msg.job, id, course);
      }
    }

    /** No lease is known to be held: a conflict drops the message, anything else dead-letters it. */
    method Settle(status: Status, course: Course, ghost s: State, ghost i: nat)
      returns (ack: bool, ghost ls: seq<Label>)
      requires i < |s.broker.unacked| && s.broker.unacked[i].verdict.Undecided? && s.broker.unacked[i].worker == id
      requires s.objects == server.objects && s.cfg.lease == server.lease && course.claim != NotSent
      requires var o := Tx.ClaimJob(s.db, s.broker.unacked[i].msg.job, id, s.cfg.lease);
               && server.store.Tables() == o.db && (status == Ok <==> o.result.Success?)
               && (status == ClaimOrLeaseConflict <==> o.result == Failure(JobNotClaimable))
      requires course.claim == ReplyLost || status != Ok
      ensures Runs(s, ls) && In(Exec(s, ls))
      ensures Exec(s, ls).broker == DoSettle(s.broker, i, ack) && Exec(s, ls).open <= s.open
      ensures ack <==> course.claim == Answered && status == ClaimOrLeaseConflict
    {
      if course.claim == ReplyLost {
        ls := Abandoned(s, i, true);
        return false, ls;
      }
      ls := ClaimedRun(s, i);
      ack := status == ClaimOrLeaseConflict;
      ls := Settled(s, ls, s.broker, i, ack);
    }
  }

  /** No claim was made, or it was refused, or its answer was lost. */
  lemma NotWorked(t: Tx.Tables, t': Tx.Tables, objects: set<LogKey>, storage: bool, lease: Time, id: JobId, w: WorkerId,
                  course: Course)
    requires t' == t.(jobs := t'.jobs) && course.claim != NotSent
    requires if WinsClaim(t, id, w) then Claims(t.jobs, t'.jobs, id, w, lease, t.clock) && course.claim == ReplyLost
             else t'.jobs == t.jobs
    ensures DeliveryLeaves(t, t', objects, objects, storage, lease, id, w, course)
  {
  }

  /** A claim followed by the result of the run it started. */
  lemma ClaimThenResult(t: Tx.Tables, m: Tx.Tables, t': Tx.Tables, objects: set<LogKey>, objects': set<LogKey>,
                        storage: bool, lease: Time, id: JobId, w: WorkerId, course: Course)
    requires WinsClaim(t, id, w) && Claims(t.jobs, m.jobs, id, w, lease, t.clock)
    requires m == t.(jobs := m.jobs) && course.claim == Answered
    requires if course.result == NotSent then t' == m && objects' == objects
             else ResultLeaves(m, t', objects, objects', storage, id, w, m.jobs[id].leaseGeneration,
                               course.success, course.logs)
    ensures DeliveryLeaves(t, t', objects, objects', storage, lease, id, w, course)
  {
    assert Held(m.jobs, id, w, m.jobs[id].leaseGeneration);
  }

  // ---- the steps of the handlers, spelled out ----

  /** An undisturbed result request is a run: of the steps it is split into, or of the handler's end. */
  lemma ResultIsARun(s: State, req: nat, storage: bool, lease: Lease, w: WorkerId, success: bool, logs: LogsSent)
    returns (ls: seq<Label>)
    requires req !in s.results && lease in s.leases && s.leases[lease] == w && lease in s.open && lease.job in s.db.jobs
    ensures Runs(s, ls) && Exec(s, ls).open == s.open - {lease}
    ensures var e := JobResultEffect(s.db, s.objects, storage, lease.job, w, lease.generation, success, logs);
            var t := Exec(s, ls);
            t.db == e.db && t.objects == e.objects && t.cfg == s.cfg && t.broker == s.broker
  {
    if logs.NoLines? {
      var began := Began(s, req, lease, w, success, false);
      ls := Finishes(s, began, req);
    } else if storage && logs.stored.Some? {
      var began := Began(s, req, lease, w, success, true);
      var upload := Uploads(s, began, req, logs.stored.value.0, logs.stored.value.1);
      ls := Finishes(s, upload, req);
    } else {
      ls := HandlerQuits(s, lease);
    }
  }

  lemma Finishes(s: State, before: seq<Label>, req: nat) returns (ls: seq<Label>)
    requires Runs(s, before) && req in Exec(s, before).results && !Exec(s, before).results[req].logs.AttemptRead?
    ensures Runs(s, ls)
    ensures var (t, u) := (Exec(s, before), Exec(s, ls));
            && u.db == FinishOutcome(t, t.results[req]).db
            && u.open == t.open && u.objects == t.objects && u.cfg == t.cfg && u.broker == t.broker
  {
    RunOneMore(s, before, Holder(ResultFinish(req)));
    ls := before + [Holder(ResultFinish(req))];
  }

  lemma Uploads(s: State, before: seq<Label>, req: nat, bytes: nat, lines: nat) returns (ls: seq<Label>)
    requires Runs(s, before) && req in Exec(s, before).results && Exec(s, before).results[req].logs.AttemptRead?
    ensures Runs(s, ls) && Exec(s, ls) == DoResultUpload(Exec(s, before), req, bytes, lines)
  {
    RunOneMore(s, before, Holder(ResultUpload(req, bytes, lines)));
    ls := before + [Holder(ResultUpload(req, bytes, lines))];
  }

  /** Nothing reaches the scheduler that would change a table, and nothing more will come. */
  lemma HandlerQuits(s: State, lease: Lease) returns (ls: seq<Label>)
    ensures Runs(s, ls) && Exec(s, ls) == s.(open := s.open - {lease})
  {
    ls := [Holder(Quit(lease))];
    OneStep(s, ls[0]);
  }

  lemma Began(s: State, req: nat, lease: Lease, w: WorkerId, success: bool, withLogs: bool) returns (ls: seq<Label>)
    requires req !in s.results && lease in s.leases && s.leases[lease] == w && lease in s.open && lease.job in s.db.jobs
    ensures ls == [Holder(ResultStart(req, lease, w, success, withLogs, false))] && Runs(s, ls)
    ensures Exec(s, ls) == s.(open := s.open - {lease}, results := s.results[req := ResultRequest(lease, w, success,
              if withLogs then AttemptRead(s.db.jobs[lease.job].attempt) else NoLogs)])
  {
    ls := [Holder(ResultStart(req, lease, w, success, withLogs, false))];
    OneStep(s, ls[0]);
  }

  lemma Nacked(s: State, i: nat, sent: bool)
    requires i < |s.broker.unacked| && s.broker.unacked[i].verdict.Undecided?
    ensures var d := s.broker.unacked[i];
            && Runs(s, [Queue(GiveUp(i, sent))])
            && Exec(s, [Queue(GiveUp(i, sent))])
               == s.(broker := DoSettle(s.broker, i, false),
                     lateClaims := s.lateClaims
                                   + if sent then multiset{ClaimRequest(d.msg.job, d.worker, false)} else multiset{})
  {
    RunOneMore(s, [], Queue(GiveUp(i, sent)));
    assert [] + [Queue(GiveUp(i, sent))] == [Queue(GiveUp(i, sent))];
  }

  lemma ServedLate(s: State, before: seq<Label>, c: ClaimRequest) returns (ls: seq<Label>)
    requires Runs(s, before) && c in Exec(s, before).lateClaims
    ensures Runs(s, ls)
    ensures var (t, u) := (Exec(s, before), Exec(s, ls));
            && u.cfg == t.cfg && u.objects == t.objects && u.broker == t.broker && u.open == t.open
            && u.db == Tx.ClaimJob(t.db, c.job, c.worker, t.cfg.lease).db
  {
    RunOneMore(s, before, Claiming(LateClaim(c, false)));
    ls := before + [Claiming(LateClaim(c, false))];
  }

  lemma Abandoned(s: State, i: nat, sent: bool) returns (ls: seq<Label>)
    requires i < |s.broker.unacked| && s.broker.unacked[i].verdict.Undecided?
    ensures Runs(s, ls)
    ensures var t := Exec(s, ls);
            var d := s.broker.unacked[i];
            && t.cfg == s.cfg && t.objects == s.objects && t.broker == DoSettle(s.broker, i, false) && t.open == s.open
            && t.db == if sent then Tx.ClaimJob(s.db, d.msg.job, d.worker, s.cfg.lease).db else s.db
  {
    var d := s.broker.unacked[i];
    Nacked(s, i, sent);
    ls := [Queue(GiveUp(i, sent))];
    if sent {
      ls := ServedLate(s, ls, ClaimRequest(d.msg.job, d.worker, false));
    }
  }

  lemma ClaimedRun(s: State, i: nat) returns (ls: seq<Label>)
    requires i < |s.broker.unacked| && s.broker.unacked[i].verdict.Undecided?
    ensures Runs(s, ls)
    ensures var t := Exec(s, ls);
            var d := s.broker.unacked[i];
            var o := Tx.ClaimJob(s.db, d.msg.job, d.worker, s.cfg.lease);
            && t.cfg == s.cfg && t.objects == s.objects && t.results == s.results && t.db == o.db
            && t.broker == s.broker.(unacked :=
                 s.broker.unacked[i := d.(verdict := ClaimVerdict(s, d.msg.job, d.worker))])
            && (o.result.Success? ==>
                  var l := Lease(d.msg.job, o.result.value.leaseGeneration);
                  l in t.leases && t.leases[l] == d.worker && t.open == s.open + {l})
            && (o.result.Failure? ==> t.open == s.open)
  {
    RunOneMore(s, [], Claiming(Claim(i)));
    ls := [] + [Claiming(Claim(i))];
  }

  lemma Settled(s: State, before: seq<Label>, b: Broker, i: nat, ack: bool) returns (ls: seq<Label>)
    requires Runs(s, before) && i < |b.unacked|
    requires var t := Exec(s, before);
             && t.broker == b.(unacked := t.broker.unacked) && |t.broker.unacked| == |b.unacked|
             && t.broker.unacked == b.unacked[i := b.unacked[i].(verdict := t.broker.unacked[i].verdict)]
             && !t.broker.unacked[i].verdict.Undecided? && (ack ==> !t.broker.unacked[i].verdict.Errored?)
    ensures Runs(s, ls)
    ensures Exec(s, ls) == Exec(s, before).(broker := DoSettle(b, i, ack))
  {
    var t := Exec(s, before);
    RunOneMore(s, before, Queue(Settle(i, ack)));
    ls := before + [Queue(Settle(i, ack))];
    assert RemoveAt(t.broker.unacked, i) == RemoveAt(b.unacked, i);
  }
}
