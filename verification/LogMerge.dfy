/** Storing the logs of each attempt as an object, and merging the objects of a job in attempt order. */
module LogMerge {
  import opened Types
  import opened StorageKeys
  import opened JsonText
  import opened LineScanner
  import opened JobLogs
  import opened Joining
  import opened Sorting

  class ObjectStorage {
    var objects: map<string, string>
    var online: bool

    constructor ()
      ensures objects == map[] && online
    {
      objects, online := map[], true;
    }

    method UploadReader(key: string, body: string) returns (ok: bool)
      modifies this`objects
      ensures ok == online && objects == if online then old(objects)[key := body] else old(objects)
    {
      if online {
        objects := objects[key := body];
      }
      ok := online;
    }

    function Reachable(): map<string, string>
      reads this
    {
      if online then objects else map[]
    }

    method OpenObject(key: string) returns (r: Result<string, LogError>)
      ensures r == Open(Reachable(), key)
    {
      if !online || key !in objects {
        return Failure(OpenFailed);
      }
      return Success(objects[key]);
    }
  }

  function Open(objects: map<string, string>, key: string): Result<string, LogError> {
    if key in objects then Success(objects[key]) else Failure(OpenFailed)
  }

  // ---- storing ----

  function StoredText(logs: seq<Entry>, now: string): string {
    Unlines(Printed(Kept(logs, now)))
  }

  function MetaOf(jobID: string, attempt: int, logs: seq<Entry>, now: string): Meta {
    Meta(attempt, LogObjectKey(jobID, attempt), Utf8Size(StoredText(logs, now)), |Kept(logs, now)|)
  }

  predicate HasLine(logs: seq<Entry>) {
    exists i :: 0 <= i < |logs| && logs[i].line != ""
  }

  lemma {:induction false} KeptSomething(logs: seq<Entry>, now: string)
    ensures Kept(logs, now) != [] <==> HasLine(logs)
  {
    if logs != [] {
      KeptSomething(logs[1..], now);
      if HasLine(logs[1..]) {
        var i :| 0 <= i < |logs[1..]| && logs[1..][i].line != "";
        assert logs[i + 1].line != "";
      }
      if HasLine(logs) {
        var i :| 0 <= i < |logs| && logs[i].line != "";
        assert i > 0 ==> logs[1..][i - 1].line != "";
      }
    }
  }

  /** Succeeds exactly when some line is not empty and the storage takes the object; no size is checked. */
  method Upload(obj: ObjectStorage?, jobID: string, attempt: int, logs: seq<Entry>, now: string)
    returns (r: Result<Meta, LogError>)
    modifies obj
    ensures logs == [] ==> r == Failure(LogsEmpty)
    ensures logs != [] && obj == null ==> r == Failure(NotConfigured)
    ensures logs != [] && obj != null && !HasLine(logs) ==> r == Failure(NoNonEmptyLine)
    ensures r.Success? ==>
              var key := LogObjectKey(jobID, attempt);
              && obj != null && key in obj.objects
              && r.value.attempt == attempt && r.value.objectKey == key && r.value.lines == Written(logs)
              && r.value.bytes == Utf8Size(obj.objects[key])
    ensures obj != null && HasLine(logs) ==>
              r == if old(obj.online) then Success(MetaOf(jobID, attempt, logs, now)) else Failure(UploadFailed)
    ensures obj != null ==>
              && obj.online == old(obj.online)
              && obj.objects == if r.Success?
                                then old(obj.objects)[LogObjectKey(jobID, attempt) := StoredText(logs, now)]
                                else old(obj.objects)
  {
    if |logs| == 0 {
      return Failure(LogsEmpty);
    }
    if obj == null {
      return Failure(NotConfigured);
    }
    KeptSomething(logs, now);
    KeptIsWritten(logs, now);
    var encoded := EncodeJSONL(logs, now);
    if encoded.Failure? {
      return Failure(encoded.error);
    }
    var (body, lines) := encoded.value;
    var key := LogObjectKey(jobID, attempt);
    var ok := obj.UploadReader(key, body);
    if !ok {
      return Failure(UploadFailed);
    }
    return Success(Meta(attempt, key, Utf8Size(body), lines));
  }

  // ---- merging ----

  predicate EarlierArtifact(a: LogArtifact, b: LogArtifact) {
    a.meta.attempt < b.meta.attempt || (a.meta.attempt == b.meta.attempt && a.id <= b.id)
  }

  function LoadOne(objects: map<string, string>, key: string, now: string): Result<seq<StoredLine>, LogError> {
    if key in objects then Records(objects[key], now) else Failure(OpenFailed)
  }

  function LoadEach(objects: map<string, string>, arts: seq<LogArtifact>, now: string)
    : seq<Result<seq<StoredLine>, LogError>>
  {
    seq(|arts|, i requires 0 <= i < |arts| => LoadOne(objects, arts[i].meta.objectKey, now))
  }

  /** Lines are numbered from 1 across all attempts. */
  function Numbered(recs: seq<StoredLine>): seq<JobLog> {
    seq(|recs|, i requires 0 <= i < |recs| => JobLog(i + 1, recs[i].ts, recs[i].stream, recs[i].line))
  }

  function Merged(objects: map<string, string>, arts: seq<LogArtifact>, now: string): Result<seq<JobLog>, LogError> {
    match JoinAll(LoadEach(objects, Sort(EarlierArtifact, arts), now))
    case Failure(e) => Failure(e)
    case Success(recs) => Success(Numbered(recs))
  }

  lemma NumberedOneMore(recs: seq<StoredLine>, line: StoredLine)
    ensures Numbered(recs + [line]) == Numbered(recs) + [JobLog(|recs| + 1, line.ts, line.stream, line.line)]
  {
  }

  /** One object opened and read. */
  method LoadFrom(obj: ObjectStorage, key: string, now: string) returns (r: Result<seq<StoredLine>, LogError>)
    ensures r == LoadOne(obj.Reachable(), key, now)
  {
    var text := obj.OpenObject(key);
    if text.Failure? {
      return Failure(text.error);
    }
    r := LoadObject(text.value, now);
  }

  /** The inner loop: the counter runs on from attempt to attempt. */
  method AppendNumbered(seqNo: nat, logs: seq<JobLog>, lines: seq<StoredLine>, ghost before: seq<StoredLine>)
    returns (n: nat, out: seq<JobLog>)
    requires seqNo == |before| && logs == Numbered(before)
    ensures n == |before + lines| && out == Numbered(before + lines)
  {
    n, out := seqNo, logs;
    for k := 0 to |lines|
      invariant n == |before| + k && out == Numbered(before + lines[..k])
    {
      var line := lines[k];
      NumberedOneMore(before + lines[..k], line);
      assert before + lines[..k + 1] == before + lines[..k] + [line];
      n := n + 1;
      out := out + [JobLog(n, line.ts, line.stream, line.line)];
    }
    assert lines[..|lines|] == lines;
  }

  method LoadAll(obj: ObjectStorage?, artifacts: seq<LogArtifact>, now: string)
    returns (r: Result<seq<JobLog>, LogError>)
    ensures obj == null ==> r == Failure(NotConfigured)
    ensures obj != null ==> r == Merged(obj.Reachable(), artifacts, now)
  {
    if obj == null {
      return Failure(NotConfigured);
    }
    if |artifacts| == 0 {
      assert Numbered([]) == [];
      return Success([]);
    }
    var sorted := Sort(EarlierArtifact, artifacts);
    ghost var loaded := LoadEach(obj.Reachable(), sorted, now);
    var out: seq<JobLog> := [];
    var n := 0;
    ghost var recs := [];
    for i := 0 to |sorted|
      invariant JoinAll(loaded[..i]) == Success(recs)
      invariant n == |recs| && out == Numbered(recs)
    {
      JoinOneMore(loaded, i);
      var lines := LoadFrom(obj, sorted[i].meta.objectKey, now);
      assert lines == loaded[i];
      if lines.Failure? {
        JoinFails(loaded, i + 1);
        return Failure(lines.error);
      }
      n, out := AppendNumbered(n, out, lines.value, recs);
      recs := recs + lines.value;
    }
    assert loaded[..|sorted|] == loaded;
    return Success(out);
  }

  // ---- the round trip ----

  /** The logs of one attempt, when they were stored, and the id of the artifact row. */
  datatype AttemptLog = AttemptLog(id: int, attempt: int, logs: seq<Entry>, now: string)

  predicate EarlierAttempt(a: AttemptLog, b: AttemptLog) {
    a.attempt <= b.attempt
  }

  predicate DistinctAttempts(xs: seq<AttemptLog>) {
    forall i, k :: 0 <= i < k < |xs| ==> xs[i].attempt != xs[k].attempt
  }

  /** Clocks never read the zero time, which loading would replace. */
  predicate Timed(xs: seq<AttemptLog>) {
    forall i :: 0 <= i < |xs| ==> xs[i].now != ZERO_TIME
  }

  function ArtifactOf(jobID: string, x: AttemptLog): LogArtifact {
    LogArtifact(x.id, MetaOf(jobID, x.attempt, x.logs, x.now))
  }

  function ArtifactsOf(jobID: string, xs: seq<AttemptLog>): seq<LogArtifact> {
    Map(x => ArtifactOf(jobID, x), xs)
  }

  predicate Holds(objects: map<string, string>, jobID: string, x: AttemptLog) {
    var key := LogObjectKey(jobID, x.attempt);
    key in objects && objects[key] == StoredText(x.logs, x.now)
  }

  function WithUpload(objects: map<string, string>, jobID: string, x: AttemptLog): map<string, string> {
    objects[LogObjectKey(jobID, x.attempt) := StoredText(x.logs, x.now)]
  }

  /** The objects after the attempts were uploaded in the order given. */
  function AfterUploads(objects: map<string, string>, jobID: string, xs: seq<AttemptLog>): map<string, string> {
    if xs == [] then objects else WithUpload(AfterUploads(objects, jobID, xs[..|xs| - 1]), jobID, xs[|xs| - 1])
  }

  function KeptOf(x: AttemptLog): seq<StoredLine> {
    Kept(x.logs, x.now)
  }

  /** The lines of the attempts one after the other. */
  function KeptLines(xs: seq<AttemptLog>): seq<StoredLine> {
    Flatten(Map(KeptOf, xs))
  }

  predicate AttemptFits(x: AttemptLog) {
    AllFit(Printed(Kept(x.logs, x.now)))
  }

  predicate LinesFit(xs: seq<AttemptLog>) {
    forall i :: 0 <= i < |xs| ==> AttemptFits(xs[i])
  }

  function TotalLines(arts: seq<LogArtifact>): nat {
    if arts == [] then 0 else arts[0].meta.lines + TotalLines(arts[1..])
  }

  lemma UploadStays(objects: map<string, string>, jobID: string, x: AttemptLog, later: AttemptLog)
    requires x == later || (x.attempt != later.attempt && Holds(objects, jobID, x))
    ensures Holds(WithUpload(objects, jobID, later), jobID, x)
  {
    LogObjectKeyInjective(jobID, x.attempt, jobID, later.attempt);
  }

  /** No upload of one attempt disturbs the object of another. */
  lemma {:induction false} UploadsDoNotCollide(objects: map<string, string>, jobID: string, xs: seq<AttemptLog>, i: nat)
    requires DistinctAttempts(xs) && i < |xs|
    ensures Holds(AfterUploads(objects, jobID, xs), jobID, xs[i])
  {
    var last := |xs| - 1;
    if i < last {
      UploadsDoNotCollide(objects, jobID, xs[..last], i);
    }
    UploadStays(AfterUploads(objects, jobID, xs[..last]), jobID, xs[i], xs[last]);
  }

  lemma {:induction false} KeptIsStamped(logs: seq<Entry>, now: string)
    requires now != ZERO_TIME
    ensures Stamped(Kept(logs, now))
  {
    if logs != [] {
      KeptIsStamped(logs[1..], now);
    }
  }

  lemma LoadAttempt(objects: map<string, string>, jobID: string, x: AttemptLog, now: string)
    requires Holds(objects, jobID, x) && x.now != ZERO_TIME
    ensures LoadOne(objects, ArtifactOf(jobID, x).meta.objectKey, now)
            == if AttemptFits(x) then Success(KeptOf(x)) else Failure(LineTooLong)
  {
    KeptIsStamped(x.logs, x.now);
    ObjectRoundTrip(Kept(x.logs, x.now), now);
  }

  lemma GatherRoundTrip(objects: map<string, string>, jobID: string, xs: seq<AttemptLog>, now: string)
    requires Timed(xs) && forall i :: 0 <= i < |xs| ==> Holds(objects, jobID, xs[i])
    ensures JoinAll(LoadEach(objects, ArtifactsOf(jobID, xs), now))
            == if LinesFit(xs) then Success(KeptLines(xs)) else Failure(LineTooLong)
  {
    var (rs, parts) := (LoadEach(objects, ArtifactsOf(jobID, xs), now), Map(KeptOf, xs));
    forall i | 0 <= i < |xs| ensures rs[i] == if AttemptFits(xs[i]) then Success(parts[i]) else Failure(LineTooLong) {
      LoadAttempt(objects, jobID, xs[i], now);
    }
    JoinParts(rs, parts, LineTooLong);
  }

  lemma SameAttemptSameLog(xs: seq<AttemptLog>, a: AttemptLog, b: AttemptLog)
    requires DistinctAttempts(xs) && a in xs && b in xs && a.attempt == b.attempt
    ensures a == b
  {
    var i :| 0 <= i < |xs| && xs[i] == a;
    var k :| 0 <= k < |xs| && xs[k] == b;
  }

  lemma ArtifactsPermute(jobID: string, xs: seq<AttemptLog>, ys: seq<AttemptLog>)
    requires multiset(xs) == multiset(ys)
    ensures multiset(ArtifactsOf(jobID, xs)) == multiset(ArtifactsOf(jobID, ys))
  {
    var f := x => ArtifactOf(jobID, x);
    MapPermutes(f, xs, ys);
    assert ArtifactsOf(jobID, xs) == Map(f, xs) && ArtifactsOf(jobID, ys) == Map(f, ys);
  }

  /** Artifact rows of distinct attempts are ordered as their attempts are. */
  lemma RowsOfOrdered(jobID: string, uploads: seq<AttemptLog>, asc: seq<AttemptLog>)
    requires DistinctAttempts(uploads) && multiset(asc) == multiset(uploads) && Ordered(EarlierAttempt, asc)
    ensures Ordered(EarlierArtifact, ArtifactsOf(jobID, asc)) && TieFree(EarlierArtifact, ArtifactsOf(jobID, asc))
  {
    SameElements(asc, uploads);
    var rows := ArtifactsOf(jobID, asc);
    forall i, k | 0 <= i < k < |rows| ensures EarlierArtifact(rows[i], rows[k]) {
      if asc[i].attempt == asc[k].attempt {
        SameAttemptSameLog(uploads, asc[i], asc[k]);
      }
    }
    forall x, y | x in rows && y in rows && EarlierArtifact(x, y) && EarlierArtifact(y, x) ensures x == y {
      var i :| 0 <= i < |rows| && rows[i] == x;
      var k :| 0 <= k < |rows| && rows[k] == y;
      SameAttemptSameLog(uploads, asc[i], asc[k]);
    }
  }

  /** Sorting the rows puts them in the order of the attempts, however the database listed them. */
  lemma RowsSortByAttempt(jobID: string, uploads: seq<AttemptLog>, arts: seq<LogArtifact>)
    requires DistinctAttempts(uploads) && multiset(arts) == multiset(ArtifactsOf(jobID, uploads))
    ensures Sort(EarlierArtifact, arts) == ArtifactsOf(jobID, Sort(EarlierAttempt, uploads))
  {
    var asc := Sort(EarlierAttempt, uploads);
    SortPermutes(EarlierAttempt, uploads);
    SortOrders(EarlierAttempt, uploads);
    RowsOfOrdered(jobID, uploads, asc);
    ArtifactsPermute(jobID, asc, uploads);
    SortPermutes(EarlierArtifact, arts);
    SortOrders(EarlierArtifact, arts);
    OrderedIsUnique(EarlierArtifact, ArtifactsOf(jobID, asc), Sort(EarlierArtifact, arts));
  }

  /**
   Whatever the order of the uploads and of the listing, merging gives every non-empty line back intact, attempt
   by attempt. It fails exactly when some record does not fit the scanner, which Upload does not look at.
   */
  lemma LogsRoundTrip(objects: map<string, string>, jobID: string, uploads: seq<AttemptLog>,
                      arts: seq<LogArtifact>, now: string)
    requires DistinctAttempts(uploads) && Timed(uploads)
    requires multiset(arts) == multiset(ArtifactsOf(jobID, uploads))
    ensures Merged(AfterUploads(objects, jobID, uploads), arts, now)
            == if LinesFit(uploads) then Success(Numbered(KeptLines(Sort(EarlierAttempt, uploads))))
                else Failure(LineTooLong)
  {
    var after := AfterUploads(objects, jobID, uploads);
    var asc := Sort(EarlierAttempt, uploads);
    RowsSortByAttempt(jobID, uploads, arts);
    SortPermutes(EarlierAttempt, uploads);
    SameElements(asc, uploads);
    forall i | 0 <= i < |asc| ensures Holds(after, jobID, asc[i]) && asc[i].now != ZERO_TIME {
      assert asc[i] in uploads;
      var k :| 0 <= k < |uploads| && uploads[k] == asc[i];
      UploadsDoNotCollide(objects, jobID, uploads, k);
    }
    GatherRoundTrip(after, jobID, asc, now);
    assert LinesFit(asc) <==> LinesFit(uploads) by {
      if LinesFit(uploads) {
        forall i | 0 <= i < |asc| ensures AttemptFits(asc[i]) {
          assert asc[i] in uploads;
        }
      }
      if LinesFit(asc) {
        forall i | 0 <= i < |uploads| ensures AttemptFits(uploads[i]) {
          assert uploads[i] in asc;
        }
      }
    }
  }

  /** However they are listed, rows are read by attempt, those of one attempt by id. */
  lemma RowsAreOrdered(arts: seq<LogArtifact>)
    ensures var asc := Sort(EarlierArtifact, arts);
            && multiset(asc) == multiset(arts)
            && forall i, k :: 0 <= i < k < |asc| ==>
                 asc[i].meta.attempt < asc[k].meta.attempt
                 || (asc[i].meta.attempt == asc[k].meta.attempt && asc[i].id <= asc[k].id)
  {
    SortPermutes(EarlierArtifact, arts);
    SortOrders(EarlierArtifact, arts);
    var asc := Sort(EarlierArtifact, arts);
    forall i, k | 0 <= i < k < |asc| ensures EarlierArtifact(asc[i], asc[k]) {
    }
  }

  lemma {:induction false} TotalOfConcat(a: seq<LogArtifact>, b: seq<LogArtifact>)
    ensures TotalLines(a + b) == TotalLines(a) + TotalLines(b)
  {
    if a == [] {
      assert a + b == b;
    } else {
      TotalOfConcat(a[1..], b);
      assert (a + b)[1..] == a[1..] + b;
    }
  }

  lemma {:induction false} TotalOfInsert(x: LogArtifact, s: seq<LogArtifact>)
    ensures TotalLines(Insert(EarlierArtifact, x, s)) == x.meta.lines + TotalLines(s)
  {
    if s != [] && !EarlierArtifact(x, s[0]) {
      TotalOfInsert(x, s[1..]);
    }
  }

  lemma {:induction false} TotalOfSort(arts: seq<LogArtifact>)
    ensures TotalLines(Sort(EarlierArtifact, arts)) == TotalLines(arts)
  {
    if arts != [] {
      TotalOfSort(arts[1..]);
      TotalOfInsert(arts[0], Sort(EarlierArtifact, arts[1..]));
    }
  }

  lemma {:induction false} TotalOfParts<T>(arts: seq<LogArtifact>, parts: seq<seq<T>>)
    requires |arts| == |parts| && forall i :: 0 <= i < |arts| ==> arts[i].meta.lines == |parts[i]|
    ensures TotalLines(arts) == |Flatten(parts)|
  {
    if arts != [] {
      var last := |arts| - 1;
      TotalOfParts(arts[..last], parts[..last]);
      TotalOfConcat(arts[..last], [arts[last]]);
      assert arts[..last] + [arts[last]] == arts;
    }
  }

  /** The ids run from 1 to the sum of the line counts the artifact rows carry. */
  lemma IdsCountLines(objects: map<string, string>, jobID: string, uploads: seq<AttemptLog>,
                      arts: seq<LogArtifact>, now: string)
    requires DistinctAttempts(uploads) && Timed(uploads) && LinesFit(uploads)
    requires multiset(arts) == multiset(ArtifactsOf(jobID, uploads))
    ensures var r := Merged(AfterUploads(objects, jobID, uploads), arts, now);
            && r.Success? && |r.value| == TotalLines(arts)
            && forall i :: 0 <= i < |r.value| ==> r.value[i].id == i + 1
  {
    LogsRoundTrip(objects, jobID, uploads, arts, now);
    RowsSortByAttempt(jobID, uploads, arts);
    TotalOfSort(arts);
    var asc := Sort(EarlierAttempt, uploads);
    TotalOfParts(ArtifactsOf(jobID, asc), Map(KeptOf, asc));
  }

  /** How many lines the attempts hold that are not empty. */
  function WrittenIn(xs: seq<AttemptLog>): nat {
    if xs == [] then 0 else WrittenIn(xs[..|xs| - 1]) + Written(xs[|xs| - 1].logs)
  }

  lemma KeptLinesOneMore(xs: seq<AttemptLog>)
    requires xs != []
    ensures KeptLines(xs) == KeptLines(xs[..|xs| - 1]) + KeptOf(xs[|xs| - 1])
  {
    assert Map(KeptOf, xs)[..|xs| - 1] == Map(KeptOf, xs[..|xs| - 1]);
  }

  lemma {:induction false} WrittenIsKept(xs: seq<AttemptLog>)
    ensures |KeptLines(xs)| == WrittenIn(xs)
  {
    if xs != [] {
      WrittenIsKept(xs[..|xs| - 1]);
      KeptIsWritten(xs[|xs| - 1].logs, xs[|xs| - 1].now);
      KeptLinesOneMore(xs);
    }
  }

  /** The lines of an attempt come after all those of the attempts before it. */
  lemma {:induction false} KeptLinesOf(xs: seq<AttemptLog>, i: nat, n: nat)
    requires i < |xs| && n < |KeptOf(xs[i])|
    ensures WrittenIn(xs[..i]) + n < |KeptLines(xs)| && KeptLines(xs)[WrittenIn(xs[..i]) + n] == KeptOf(xs[i])[n]
  {
    var init := xs[..|xs| - 1];
    KeptLinesOneMore(xs);
    if i < |init| {
      KeptLinesOf(init, i, n);
      assert init[..i] == xs[..i];
    } else {
      WrittenIsKept(init);
    }
  }

  /** Sorted, the attempts ascend. */
  lemma AttemptsAscend(uploads: seq<AttemptLog>)
    requires DistinctAttempts(uploads)
    ensures var asc := Sort(EarlierAttempt, uploads);
            multiset(asc) == multiset(uploads) && forall i, k :: 0 <= i < k < |asc| ==> asc[i].attempt < asc[k].attempt
  {
    var asc := Sort(EarlierAttempt, uploads);
    SortPermutes(EarlierAttempt, uploads);
    SortOrders(EarlierAttempt, uploads);
    DistinctStaysDistinct(uploads, asc);
    forall i, k | 0 <= i < k < |asc| ensures asc[i].attempt < asc[k].attempt {
      assert EarlierAttempt(asc[i], asc[k]);
    }
  }

  lemma DistinctStaysDistinct(xs: seq<AttemptLog>, ys: seq<AttemptLog>)
    requires DistinctAttempts(xs) && multiset(xs) == multiset(ys)
    ensures DistinctAttempts(ys)
  {
    SameElements(xs, ys);
    NoRepeatsPermute(xs, ys);
    forall i, k | 0 <= i < k < |ys| ensures ys[i].attempt != ys[k].attempt {
      if ys[i].attempt == ys[k].attempt {
        SameAttemptSameLog(xs, ys[i], ys[k]);
      }
    }
  }

  lemma NumberedLine(xs: seq<AttemptLog>, i: nat, k: nat)
    requires i < |xs| && k < |xs[i].logs| && xs[i].logs[k].line != ""
    ensures var (out, at) := (Numbered(KeptLines(xs)), WrittenIn(xs[..i]) + Written(xs[i].logs[..k]));
            at < |out| && out[at] == JobLog(at + 1, xs[i].now, xs[i].logs[k].stream, xs[i].logs[k].line)
  {
    KeptInPlace(xs[i].logs, xs[i].now, k);
    KeptLinesOf(xs, i, Written(xs[i].logs[..k]));
  }

  /**
   Every line that was logged and is not empty stands in the merged logs after all lines of earlier attempts and all
   earlier lines of its own: with its stream, its text, the time it was stored and its number.
   */
  lemma EveryLineIsMerged(objects: map<string, string>, jobID: string, uploads: seq<AttemptLog>,
                          arts: seq<LogArtifact>, now: string, i: nat, k: nat)
    requires DistinctAttempts(uploads) && Timed(uploads) && LinesFit(uploads)
    requires multiset(arts) == multiset(ArtifactsOf(jobID, uploads))
    requires var asc := Sort(EarlierAttempt, uploads); i < |asc| && k < |asc[i].logs| && asc[i].logs[k].line != ""
    ensures var (r, asc) := (Merged(AfterUploads(objects, jobID, uploads), arts, now), Sort(EarlierAttempt, uploads));
            var (at, entry) := (WrittenIn(asc[..i]) + Written(asc[i].logs[..k]), asc[i].logs[k]);
            && r.Success? && at < |r.value| && r.value[at] == JobLog(at + 1, asc[i].now, entry.stream, entry.line)
    ensures var asc := Sort(EarlierAttempt, uploads);
            multiset(asc) == multiset(uploads) && forall i, k :: 0 <= i < k < |asc| ==> asc[i].attempt < asc[k].attempt
  {
    AttemptsAscend(uploads);
    LogsRoundTrip(objects, jobID, uploads, arts, now);
    NumberedLine(Sort(EarlierAttempt, uploads), i, k);
  }

  /** One logged line of 1 MiB, which Upload accepts, makes every log of its job unreadable. */
  lemma LongLineSpoilsJob(objects: map<string, string>, jobID: string, uploads: seq<AttemptLog>,
                          arts: seq<LogArtifact>, now: string, i: nat, k: nat)
    requires DistinctAttempts(uploads) && Timed(uploads)
    requires multiset(arts) == multiset(ArtifactsOf(jobID, uploads))
    requires i < |uploads| && k < |uploads[i].logs| && Utf8Size(uploads[i].logs[k].line) >= 1_048_576
    ensures HasLine(uploads[i].logs)
    ensures Merged(AfterUploads(objects, jobID, uploads), arts, now) == Failure(LineTooLong)
  {
    LongLineDoesNotFit(uploads[i], k);
    LogsRoundTrip(objects, jobID, uploads, arts, now);
  }

  lemma LongLineDoesNotFit(x: AttemptLog, k: nat)
    requires k < |x.logs| && Utf8Size(x.logs[k].line) >= MAX_TOKEN
    ensures x.logs[k].line != "" && !AttemptFits(x)
  {
    var at := Written(x.logs[..k]);
    KeptInPlace(x.logs, x.now, k);
    SizeOfRecord(Kept(x.logs, x.now)[at]);
    assert !Fits(Printed(Kept(x.logs, x.now))[at]);
  }
}
