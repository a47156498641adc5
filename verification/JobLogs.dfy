/**
 Job logs: one JSON Lines object per attempt, written by the scheduler when a worker reports, and merged
 in attempt order when they are read.
 */
module JobLogs {
  import opened Types
  import opened JsonText
  import opened LineScanner
  import opened Joining

  datatype Entry = Entry(stream: string, line: string)

  /** Timestamps are kept as their RFC 3339 text. */
  datatype StoredLine = StoredLine(ts: string, stream: string, line: string)

  datatype JobLog = JobLog(id: nat, ts: string, stream: string, line: string)

  datatype Meta = Meta(attempt: int, objectKey: string, bytes: nat, lines: nat)

  /** A row of job_log_artifacts. */
  datatype LogArtifact = LogArtifact(id: int, meta: Meta)

  datatype LogError = LogsEmpty | NoNonEmptyLine | NotConfigured | UploadFailed | OpenFailed | LineTooLong | Malformed

  /** What an unset time.Time is written as. */
  const ZERO_TIME := "0001-01-01T00:00:00Z"

  // ---- one record ----

  function Member(prefix: string, v: string, rest: string): string {
    prefix + (Quoted(v) + "\"" + rest)
  }

  function Record(r: StoredLine): string {
    Member("{\"ts\":\"", r.ts, Member(",\"stream\":\"", r.stream, Member(",\"line\":\"", r.line, "}")))
  }

  function ReadMember(prefix: string, s: string): Option<(string, string)> {
    if prefix <= s then Unquote(s[|prefix|..]) else None
  }

  function Decode(s: string): Option<StoredLine> {
    match ReadMember("{\"ts\":\"", s)
    case None => None
    case Some((ts, s1)) =>
      match ReadMember(",\"stream\":\"", s1)
      case None => None
      case Some((stream, s2)) =>
        match ReadMember(",\"line\":\"", s2)
        case None => None
        case Some((line, s3)) => if s3 == "}" then Some(StoredLine(ts, stream, line)) else None
  }

  /** No character of the text is escaped. */
  predicate Unescaped(v: string) {
    forall i :: 0 <= i < |v| ==> v[i] >= ' ' && v[i] !in {'"', '\\', '<', '>', '&', '\U{2028}', '\U{2029}'}
  }

  lemma {:induction false} QuotedUnescaped(v: string)
    requires Unescaped(v)
    ensures Quoted(v) == v
  {
    if v != "" {
      NoOtherEscapes(v[0]);
      QuotedUnescaped(v[1..]);
      assert v == [v[0]] + v[1..];
    }
  }

  /** What a record looks like. */
  lemma RecordIsJson(r: StoredLine)
    requires Unescaped(r.ts) && Unescaped(r.stream) && Unescaped(r.line)
    ensures Record(r) == "{\"ts\":\"" + (r.ts + "\"" + (",\"stream\":\"" + (r.stream + "\"" +
                         (",\"line\":\"" + (r.line + "\"" + "}")))))
  {
    QuotedUnescaped(r.ts);
    QuotedUnescaped(r.stream);
    QuotedUnescaped(r.line);
  }

  lemma ReadUndoesMember(prefix: string, v: string, rest: string)
    ensures ReadMember(prefix, Member(prefix, v, rest)) == Some((v, rest))
  {
    assert Member(prefix, v, rest)[|prefix|..] == Quoted(v) + "\"" + rest;
    UnquoteUndoesQuote(v, rest);
  }

  lemma DecodeUndoesRecord(r: StoredLine)
    ensures Decode(Record(r)) == Some(r)
  {
    var s2 := Member(",\"line\":\"", r.line, "}");
    var s1 := Member(",\"stream\":\"", r.stream, s2);
    ReadUndoesMember("{\"ts\":\"", r.ts, s1);
    ReadUndoesMember(",\"stream\":\"", r.stream, s2);
    ReadUndoesMember(",\"line\":\"", r.line, "}");
  }

  lemma MemberIsPrintable(prefix: string, v: string, rest: string)
    requires Printable(prefix) && Printable(rest)
    ensures Printable(Member(prefix, v, rest))
  {
    QuotedIsPrintable(v);
  }

  /** Records hold no raw newline, whatever the logged text holds. */
  lemma RecordIsOneLine(r: StoredLine)
    ensures Record(r) != "" && Printable(Record(r))
  {
    MemberIsPrintable(",\"line\":\"", r.line, "}");
    MemberIsPrintable(",\"stream\":\"", r.stream, Member(",\"line\":\"", r.line, "}"));
    MemberIsPrintable("{\"ts\":\"", r.ts, Member(",\"stream\":\"", r.stream, Member(",\"line\":\"", r.line, "}")));
  }

  // ---- writing an object ----

  /** The records Upload stores: one for each line that is not empty. */
  function Kept(logs: seq<Entry>, now: string): seq<StoredLine> {
    if logs == [] then []
    else (if logs[0].line == "" then [] else [StoredLine(now, logs[0].stream, logs[0].line)]) + Kept(logs[1..], now)
  }

  /** How many lines are not empty. */
  function Written(logs: seq<Entry>): nat {
    if logs == [] then 0 else (if logs[0].line == "" then 0 else 1) + Written(logs[1..])
  }

  /** Each line that is not empty is kept once, after those before it, with its stream and the time of storing. */
  lemma {:induction false} KeptInPlace(logs: seq<Entry>, now: string, k: nat)
    requires k < |logs| && logs[k].line != ""
    ensures |Kept(logs, now)| == Written(logs) && Written(logs[..k]) < Written(logs)
    ensures Kept(logs, now)[Written(logs[..k])] == StoredLine(now, logs[k].stream, logs[k].line)
  {
    KeptIsWritten(logs, now);
    if k > 0 {
      KeptInPlace(logs[1..], now, k - 1);
      assert logs[..k][1..] == logs[1..][..k - 1];
    }
  }

  lemma {:induction false} KeptIsWritten(logs: seq<Entry>, now: string)
    ensures |Kept(logs, now)| == Written(logs)
  {
    if logs != [] {
      KeptIsWritten(logs[1..], now);
    }
  }

  function Printed(recs: seq<StoredLine>): seq<string> {
    seq(|recs|, i requires 0 <= i < |recs| => Record(recs[i]))
  }

  lemma KeptFrom(logs: seq<Entry>, now: string, i: nat)
    requires i < |logs|
    ensures Kept(logs[i..], now)
            == (if logs[i].line == "" then [] else [StoredLine(now, logs[i].stream, logs[i].line)])
                + Kept(logs[i + 1..], now)
  {
    assert logs[i..][1..] == logs[i + 1..];
  }

  lemma OneMoreRecord(recs: seq<StoredLine>, rec: StoredLine)
    ensures Unlines(Printed(recs + [rec])) == Unlines(Printed(recs)) + Record(rec) + "\n"
  {
    assert Printed(recs + [rec]) == Printed(recs) + [Record(rec)];
    UnlinesOfOneMore(Printed(recs), Record(rec));
  }

  method EncodeJSONL(logs: seq<Entry>, now: string) returns (r: Result<(string, nat), LogError>)
    ensures r == if Kept(logs, now) == [] then Failure(NoNonEmptyLine)
                 else Success((Unlines(Printed(Kept(logs, now))), |Kept(logs, now)|))
  {
    var buf := "";
    var lines := 0;
    ghost var recs := [];
    assert logs[0..] == logs;
    for i := 0 to |logs|
      invariant lines == |recs| && buf == Unlines(Printed(recs))
      invariant recs + Kept(logs[i..], now) == Kept(logs, now)
    {
      KeptFrom(logs, now, i);
      if logs[i].line == "" {
        assert [] + Kept(logs[i + 1..], now) == Kept(logs[i + 1..], now);
        continue;
      }
      var rec := StoredLine(now, logs[i].stream, logs[i].line);
      OneMoreRecord(recs, rec);
      Regroup(recs, [rec], Kept(logs[i + 1..], now));
      recs := recs + [rec];
      buf := buf + Record(rec) + "\n";
      lines := lines + 1;
    }
    assert recs + [] == recs;
    if lines == 0 {
      return Failure(NoNonEmptyLine);
    }
    return Success((buf, lines));
  }

  // ---- reading an object ----

  /** A record without a time is given the time of reading. */
  function Restamp(r: StoredLine, now: string): StoredLine {
    if r.ts == ZERO_TIME then r.(ts := now) else r
  }

  /** An empty line holds no record. */
  function DecodeLine(line: string, now: string): Result<seq<StoredLine>, LogError> {
    if line == "" then Success([])
    else
      match Decode(line)
      case None => Failure(Malformed)
      case Some(r) => Success([Restamp(r, now)])
  }

  function DecodeEach(lines: seq<string>, now: string): seq<Result<seq<StoredLine>, LogError>> {
    seq(|lines|, i requires 0 <= i < |lines| => DecodeLine(lines[i], now))
  }

  /** A line that is no record spoils the whole object, and so does one that is too long. */
  function Records(text: string, now: string): Result<seq<StoredLine>, LogError> {
    var scan := Scan(text);
    var decoded := JoinAll(DecodeEach(scan.tokens, now));
    if decoded.Success? && scan.tooLong then Failure(LineTooLong) else decoded
  }

  /** The body of the loop of loadObject. */
  method LoadLine(line: string, now: string) returns (r: Result<seq<StoredLine>, LogError>)
    ensures r == DecodeLine(line, now)
    ensures line == "" ==> r == Success([])
    ensures line != "" && Decode(line).None? ==> r == Failure(Malformed)
    ensures line != "" && Decode(line).Some? ==>
              var rec := Decode(line).value;
              r == Success([StoredLine(if rec.ts == "0001-01-01T00:00:00Z" then now else rec.ts, rec.stream, rec.line)])
  {
    if line == "" {
      return Success([]);
    }
    var rec := Decode(line);
    if rec.None? {
      return Failure(Malformed);
    }
    return Success([if rec.value.ts == ZERO_TIME then rec.value.(ts := now) else rec.value]);
  }

  method LoadObject(text: string, now: string) returns (r: Result<seq<StoredLine>, LogError>)
    ensures r == Records(text, now)
  {
    var scan := ScanLines(text);
    var lines := [];
    ghost var decoded := DecodeEach(scan.tokens, now);
    for i := 0 to |scan.tokens|
      invariant JoinAll(decoded[..i]) == Success(lines)
    {
      JoinOneMore(decoded, i);
      var more := LoadLine(scan.tokens[i], now);
      if more.Failure? {
        JoinFails(decoded, i + 1);
        assert decoded[..|decoded|] == decoded;
        return Failure(more.error);
      }
      lines := lines + more.value;
    }
    assert decoded[..|scan.tokens|] == decoded;
    return if scan.tooLong then Failure(LineTooLong) else Success(lines);
  }

  predicate Stamped(recs: seq<StoredLine>) {
    forall i :: 0 <= i < |recs| ==> recs[i].ts != ZERO_TIME
  }

  lemma DecodeLineUndoesRecord(r: StoredLine, now: string)
    requires r.ts != ZERO_TIME
    ensures DecodeLine(Record(r), now) == Success([r])
  {
    DecodeUndoesRecord(r);
    RecordIsOneLine(r);
  }

  lemma DecodeUndoesPrinted(recs: seq<StoredLine>, now: string)
    requires Stamped(recs)
    ensures JoinAll(DecodeEach(Printed(recs), now)) == Success(recs)
  {
    var (decoded, parts) := (DecodeEach(Printed(recs), now), seq(|recs|, i requires 0 <= i < |recs| => [recs[i]]));
    forall i | 0 <= i < |recs| ensures decoded[i] == Success(parts[i]) {
      DecodeLineUndoesRecord(recs[i], now);
    }
    JoinParts(decoded, parts, Malformed);
    FlattenSingles(parts, recs);
  }

  lemma PrintedIsPrintable(recs: seq<StoredLine>)
    ensures forall i :: 0 <= i < |recs| ==> Printed(recs)[i] != "" && Printable(Printed(recs)[i])
  {
    forall i | 0 <= i < |recs| ensures Printed(recs)[i] != "" && Printable(Printed(recs)[i]) {
      RecordIsOneLine(recs[i]);
    }
  }

  lemma PrintedPrefix(recs: seq<StoredLine>, n: nat)
    requires n <= |recs|
    ensures Printed(recs)[..n] == Printed(recs[..n])
  {
  }

  lemma ScannedRecords(recs: seq<StoredLine>)
    ensures var n := FitPrefix(Printed(recs));
            n <= |recs| && Scan(Unlines(Printed(recs))) == Scanned(Printed(recs[..n]), n < |recs|)
  {
    PrintedIsPrintable(recs);
    ScanUndoesUnlines(Printed(recs));
    PrintedPrefix(recs, FitPrefix(Printed(recs)));
  }

  /** A stored object is read back as it was written, unless one of its records is too long for the scanner. */
  lemma ObjectRoundTrip(recs: seq<StoredLine>, now: string)
    requires Stamped(recs)
    ensures Records(Unlines(Printed(recs)), now)
            == if AllFit(Printed(recs)) then Success(recs) else Failure(LineTooLong)
  {
    ScannedRecords(recs);
    DecodeUndoesPrinted(recs[..FitPrefix(Printed(recs))], now);
    assert recs[..|recs|] == recs;
  }

  // ---- how long a record gets ----

  /** The braces, quotes, commas, colons and names around the three values. */
  const RECORD_OVERHEAD := 31

  lemma SizeOfMember(prefix: string, v: string, rest: string)
    requires forall i :: 0 <= i < |prefix| ==> prefix[i] as int < 0x80
    ensures Utf8Size(Member(prefix, v, rest)) == |prefix| + Utf8Size(Quoted(v)) + 1 + Utf8Size(rest)
  {
    SizeOfConcat(prefix, Quoted(v) + "\"" + rest);
    SizeOfConcat(Quoted(v) + "\"", rest);
    SizeOfConcat(Quoted(v), "\"");
    AsciiSize(prefix);
    AsciiSize("\"");
  }

  /** A record is at least as long as its line, and at most six times its texts plus 31 bytes. */
  lemma SizeOfRecord(r: StoredLine)
    ensures var texts := Utf8Size(r.ts) + Utf8Size(r.stream) + Utf8Size(r.line);
            texts + RECORD_OVERHEAD <= Utf8Size(Record(r)) <= 6 * texts + RECORD_OVERHEAD
  {
    var s2 := Member(",\"line\":\"", r.line, "}");
    var s1 := Member(",\"stream\":\"", r.stream, s2);
    AsciiSize("}");
    SizeOfMember(",\"line\":\"", r.line, "}");
    SizeOfMember(",\"stream\":\"", r.stream, s2);
    SizeOfMember("{\"ts\":\"", r.ts, s1);
    SizeOfQuoted(r.ts);
    SizeOfQuoted(r.stream);
    SizeOfQuoted(r.line);
  }
}
