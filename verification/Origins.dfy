/**
 Where the contents of the tables come from, read off the steps of a run: every job from a request, every log row from
 an upload.
 */
module Origins {
  import opened Types
  import opened Transactions
  import opened System
  import opened Frames
  import opened JobMoves
  import opened JobLifecycle

  // ---- jobs ----

  /** The lookup step that the request went through last. */
  function LatestLookup(ls: seq<Label>, req: nat): Option<CreateRequest> {
    if ls == [] then None
    else
      var l := ls[|ls| - 1];
      if l.Client? && l.client.Lookup? && l.client.req == req
      then Some(CreateRequest(l.client.key, l.client.spec, l.client.maxAttempts))
      else LatestLookup(ls[..|ls| - 1], req)
  }

  /** What the step `l`, taken after `ls`, asks to be stored as the job. */
  function Asked(ls: seq<Label>, l: Label, id: JobId): Option<CreateRequest> {
    if l.Client? && l.client.InitUpload? && l.client.id == id then
      Some(CreateRequest("", l.client.spec, l.client.maxAttempts))
    else if l.Client? && l.client.Insert? && l.client.id == id then LatestLookup(ls, l.client.req)
    else None
  }

  /** The request behind the step that made the job. */
  ghost function Origin(s: State, ls: seq<Label>, id: JobId): Option<CreateRequest>
    requires Runs(s, ls)
  {
    if ls == [] then None
    else
      var init := ls[..|ls| - 1];
      if id in Exec(s, init).db.jobs then Origin(s, init, id) else Asked(init, ls[|ls| - 1], id)
  }

  /** The job holds what was asked for; without a positive limit it has three attempts. */
  predicate Holds(j: Job, c: CreateRequest) {
    && j.spec.inputPath == c.spec.inputPath && j.spec.outputPath == c.spec.outputPath
    && j.spec.preset == c.spec.preset && j.spec.ffmpegArgs == c.spec.ffmpegArgs
    && j.spec.storage == c.spec.storage && j.spec.maxDurationSeconds == c.spec.maxDurationSeconds
    && j.maxAttempts == (if c.maxAttempts <= 0 then 3 else c.maxAttempts)
    && j.idempotencyKey == (if c.key == "" then None else Some(c.key))
  }

  lemma OthersKeepRequests(s: State, l: Label)
    requires Enabled(s, l) && !l.Client?
    ensures Apply(s, l).creates == s.creates
  {
    match l
    case Tick(_, _) =>
    case Registry(r) => RegistryFrame(s, r);
    case Reaper(r) => ReaperFrame(s, r);
    case Relay(r) => RelayFrame(s, r);
    case Queue(q) => QueueFrame(s, q);
    case Claiming(c) => ClaimFrame(s, c);
    case Holder(h) => HolderFrame(s, h);
  }

  lemma ClientRequests(s: State, c: ClientStep, req: nat)
    requires ClientEnabled(s, c) && req in ClientApply(s, c).creates
    ensures if c.Lookup? && c.req == req
            then ClientApply(s, c).creates[req] == CreateRequest(c.key, c.spec, c.maxAttempts)
            else req in s.creates && ClientApply(s, c).creates[req] == s.creates[req]
  {
  }

  /** A request waiting to insert holds what its lookup brought. */
  lemma {:induction false} RequestsAreRemembered(cfg: Config, ls: seq<Label>, req: nat)
    requires Runs(Init(cfg), ls) && req in Exec(Init(cfg), ls).creates
    ensures LatestLookup(ls, req) == Some(Exec(Init(cfg), ls).creates[req])
  {
    if ls != [] {
      var (init, l) := (ls[..|ls| - 1], ls[|ls| - 1]);
      var s := Exec(Init(cfg), init);
      if l.Client? {
        ClientRequests(s, l.client, req);
      } else {
        OthersKeepRequests(s, l);
      }
      if !(l.Client? && l.client.Lookup? && l.client.req == req) {
        RequestsAreRemembered(cfg, init, req);
      }
    }
  }

  /** Only inserts make jobs, from what was asked. */
  lemma ClientMakesJob(s: State, c: ClientStep, id: JobId)
    requires ClientEnabled(s, c) && id !in s.db.jobs && id in ClientApply(s, c).db.jobs
    ensures c.InitUpload? || c.Insert?
    ensures c.id == id
    ensures Holds(ClientApply(s, c).db.jobs[id],
                  if c.InitUpload? then CreateRequest("", c.spec, c.maxAttempts) else s.creates[c.req])
  {
  }

  lemma KeptByGrowth(v: JobView, v': JobView, c: CreateRequest)
    requires Grows(v, v') && v.job.Some? && Holds(v.job.value, c)
    ensures v'.job.Some? && Holds(v'.job.value, c)
  {
  }

  /** Every job holds, as long as it lives, what the request that made it asked for. */
  lemma {:induction false} JobsHoldWhatWasAsked(cfg: Config, ls: seq<Label>, id: JobId)
    requires Runs(Init(cfg), ls) && id in Exec(Init(cfg), ls).db.jobs
    ensures Origin(Init(cfg), ls, id).Some? && Holds(Exec(Init(cfg), ls).db.jobs[id], Origin(Init(cfg), ls, id).value)
  {
    if ls != [] {
      var (init, l) := (ls[..|ls| - 1], ls[|ls| - 1]);
      var s := Exec(Init(cfg), init);
      if id in s.db.jobs {
        JobsHoldWhatWasAsked(cfg, init, id);
        StepGrows(s, l, id);
        KeptByGrowth(View(s.db, id), View(Apply(s, l).db, id), Origin(Init(cfg), init, id).value);
      } else {
        Frame(s, l);
        ClientMakesJob(s, l.client, id);
        if l.client.Insert? {
          RequestsAreRemembered(cfg, init, l.client.req);
        }
      }
    }
  }

  /** Whatever wins a claim gets the job as it was asked for. */
  lemma ClaimReturnsWhatWasAsked(cfg: Config, ls: seq<Label>, id: JobId, w: WorkerId, lease: Time)
    requires Runs(Init(cfg), ls) && ClaimJob(Exec(Init(cfg), ls).db, id, w, lease).result.Success?
    ensures Origin(Init(cfg), ls, id).Some?
    ensures Holds(ClaimJob(Exec(Init(cfg), ls).db, id, w, lease).result.value, Origin(Init(cfg), ls, id).value)
  {
    JobsHoldWhatWasAsked(cfg, ls, id);
  }

  // ---- log rows ----

  /** Size and line count of the last upload of a result request, if it has made one since it started. */
  function LatestUpload(ls: seq<Label>, req: nat): Option<(nat, nat)> {
    if ls == [] then None
    else
      var l := ls[|ls| - 1];
      if l.Holder? && l.holder.ResultUpload? && l.holder.req == req then Some((l.holder.bytes, l.holder.lines))
      else if l.Holder? && l.holder.ResultStart? && l.holder.req == req then None
      else LatestUpload(ls[..|ls| - 1], req)
  }

  /** The step finishes a result of the job's attempt, and is accepted. */
  ghost predicate Finishes(s: State, l: Label, k: LogKey) {
    && l.Holder? && l.holder.ResultFinish? && l.holder.req in s.results
    && var r := s.results[l.holder.req];
    && r.lease.job == k.job && k.job in s.db.jobs && s.db.jobs[k.job].attempt == k.attempt
    && FinishOutcome(s, r).result.Success?
  }

  /** The row that the last accepted result with logs must have left, from its own upload. */
  ghost function Recorded(s: State, ls: seq<Label>, k: LogKey): Option<Artifact>
    requires Runs(s, ls)
  {
    if ls == [] then None
    else
      var (init, l) := (ls[..|ls| - 1], ls[|ls| - 1]);
      var before := Exec(s, init);
      if Finishes(before, l, k) && LatestUpload(init, l.holder.req).Some? then
        var (bytes, lines) := LatestUpload(init, l.holder.req).value;
        Some(Artifact(k, bytes, lines, before.db.clock))
      else Recorded(s, init, k)
  }

  /** A waiting result carries the numbers of its own upload, under the key of the attempt it read. */
  ghost predicate Carries(r: ResultRequest, upload: Option<(nat, nat)>) {
    && (r.logs.Uploaded? <==> upload.Some?)
    && (r.logs.Uploaded? ==>
          var a := r.logs.artifact;
          a.bytes == upload.value.0 && a.lines == upload.value.1 && a.objectKey == LogKey(r.lease.job, a.attempt))
  }

  lemma HolderCarries(s: State, h: HolderStep, req: nat, ls: seq<Label>)
    requires HolderEnabled(s, h) && req in HolderApply(s, h).results
    requires req in s.results ==> Carries(s.results[req], LatestUpload(ls, req))
    ensures Carries(HolderApply(s, h).results[req], LatestUpload(ls + [Holder(h)], req))
  {
    assert (ls + [Holder(h)])[..|ls|] == ls;
  }

  lemma {:induction false} UploadsAreRemembered(cfg: Config, ls: seq<Label>, req: nat)
    requires Runs(Init(cfg), ls) && req in Exec(Init(cfg), ls).results
    ensures Carries(Exec(Init(cfg), ls).results[req], LatestUpload(ls, req))
  {
    if ls != [] {
      var (init, l) := (ls[..|ls| - 1], ls[|ls| - 1]);
      var s := Exec(Init(cfg), init);
      Frame(s, l);
      if req in s.results {
        UploadsAreRemembered(cfg, init, req);
      }
      if l.Holder? {
        HolderCarries(s, l.holder, req, init);
        assert ls == init + [l];
      }
    }
  }

  /** What one step does to the row of an attempt. */
  lemma StepRecords(s: State, l: Label, k: LogKey, upload: Option<(nat, nat)>)
    requires Enabled(s, l)
    requires Finishes(s, l, k) ==> Carries(s.results[l.holder.req], upload)
    ensures var (rows, rows') := (s.db.artifacts, Apply(s, l).db.artifacts);
            if Finishes(s, l, k) && upload.Some? then
              k in rows' && rows'[k] == Artifact(k, upload.value.0, upload.value.1, s.db.clock)
            else (k in rows' <==> k in rows) && (k in rows ==> rows'[k] == rows[k])
  {
    if l.Holder? {
      HolderRecords(s, l.holder, k, upload);
    } else {
      Frame(s, l);
    }
  }

  lemma HolderRecords(s: State, h: HolderStep, k: LogKey, upload: Option<(nat, nat)>)
    requires HolderEnabled(s, h)
    requires Finishes(s, Holder(h), k) ==> Carries(s.results[h.req], upload)
    ensures var (rows, rows') := (s.db.artifacts, HolderApply(s, h).db.artifacts);
            if Finishes(s, Holder(h), k) && upload.Some? then
              k in rows' && rows'[k] == Artifact(k, upload.value.0, upload.value.1, s.db.clock)
            else (k in rows' <==> k in rows) && (k in rows ==> rows'[k] == rows[k])
  {
  }

  /** The log rows are exactly what accepted results recorded of their uploads: key, bytes, lines and time. */
  lemma {:induction false} LogRowsAreUploads(cfg: Config, ls: seq<Label>, k: LogKey)
    requires Runs(Init(cfg), ls)
    ensures k in Exec(Init(cfg), ls).db.artifacts <==> Recorded(Init(cfg), ls, k).Some?
    ensures k in Exec(Init(cfg), ls).db.artifacts ==>
              Exec(Init(cfg), ls).db.artifacts[k] == Recorded(Init(cfg), ls, k).value
  {
    if ls != [] {
      var (init, l) := (ls[..|ls| - 1], ls[|ls| - 1]);
      var s := Exec(Init(cfg), init);
      LogRowsAreUploads(cfg, init, k);
      if Finishes(s, l, k) {
        UploadsAreRemembered(cfg, init, l.holder.req);
        StepRecords(s, l, k, LatestUpload(init, l.holder.req));
      } else {
        StepRecords(s, l, k, None);
      }
    }
  }
}
