/** Object storage keys of a job's files. */
module StorageKeys {
  import opened Joining

  function Digit(d: nat): char
    requires d < 10
  {
    (48 + d) as char
  }

  function Decimal(n: nat): string {
    if n < 10 then [Digit(n)] else Decimal(n / 10) + [Digit(n % 10)]
  }

  /** The %d of fmt.Sprintf. */
  function Itoa(n: int): string {
    if n < 0 then "-" + Decimal(-n) else Decimal(n)
  }

  function LogObjectKey(jobID: string, attempt: int): string {
    "jobs/" + jobID + "/logs/attempt-" + Itoa(attempt) + ".jsonl"
  }

  /** `ext` is the extension after normalizeExt. */
  function InputObjectKey(jobID: string, ext: string): string {
    "jobs/" + jobID + "/input." + ext
  }

  function OutputObjectKey(jobID: string, ext: string): string {
    "jobs/" + jobID + "/output." + ext
  }

  // ---- numbers are printed unambiguously ----

  predicate Digits(s: string) {
    forall i :: 0 <= i < |s| ==> '0' <= s[i] <= '9'
  }

  function Value(s: string): int {
    if s == "" then 0 else 10 * Value(s[..|s| - 1]) + (s[|s| - 1] as int - 48)
  }

  lemma {:induction false} ValueOfDecimal(n: nat)
    ensures Value(Decimal(n)) == n && Digits(Decimal(n)) && Decimal(n) != ""
  {
    if n >= 10 {
      ValueOfDecimal(n / 10);
      assert Decimal(n)[..|Decimal(n)| - 1] == Decimal(n / 10);
    }
  }

  function IntValue(s: string): int {
    if s != "" && s[0] == '-' then -Value(s[1..]) else Value(s)
  }

  lemma ValueOfItoa(n: int)
    ensures IntValue(Itoa(n)) == n && '/' !in Itoa(n)
  {
    ValueOfDecimal(if n < 0 then -n else n);
    if n < 0 {
      assert Itoa(n)[1..] == Decimal(-n);
    } else {
      assert Itoa(n)[0] != '-';
    }
  }

  lemma ItoaInjective(m: int, n: int)
    ensures Itoa(m) == Itoa(n) <==> m == n
  {
    ValueOfItoa(m);
    ValueOfItoa(n);
  }

  /** Least digit last, no leading zeros, a sign only below zero. */
  lemma ItoaIsDecimal(n: nat)
    ensures n < 10 ==> Itoa(n) == ["0123456789"[n]]
    ensures n >= 10 ==> Itoa(n) == Itoa(n / 10) + ["0123456789"[n % 10]]
    ensures n > 0 ==> Itoa(0 - n) == "-" + Itoa(n) && Itoa(n)[0] != '0'
  {
    if n >= 10 {
      ItoaIsDecimal(n / 10);
    }
  }

  // ---- keys are unambiguous ----

  lemma SplitAtLastSlash(p: string, s: string, q: string, t: string)
    requires p + "/" + s == q + "/" + t && '/' !in s && '/' !in t
    ensures p == q && s == t
  {
    var k := p + "/" + s;
    assert k[|p|] == '/' && k[|q|] == '/';
    assert forall i :: |p| < i < |k| ==> k[i] == s[i - |p| - 1];
    assert forall i :: |q| < i < |k| ==> k[i] == t[i - |q| - 1];
    assert p == k[..|p|] && q == k[..|q|];
    assert s == k[|p| + 1..] && t == k[|q| + 1..];
  }

  lemma SplitAtFirstSlash(p: string, s: string, q: string, t: string)
    requires p + "/" + s == q + "/" + t && '/' !in p && '/' !in q
    ensures p == q && s == t
  {
    var k := p + "/" + s;
    assert k[|p|] == '/' && k[|q|] == '/';
    assert forall i :: 0 <= i < |p| ==> k[i] == p[i];
    assert forall i :: 0 <= i < |q| ==> k[i] == q[i];
    assert p == k[..|p|] && q == k[..|q|];
    assert s == k[|p| + 1..] && t == k[|q| + 1..];
  }

  lemma SandwichInjective(p: string, a: string, b: string, s: string)
    ensures p + a + s == p + b + s <==> a == b
  {
    if p + a + s == p + b + s {
      var k := p + a + s;
      assert a == k[|p|..|k| - |s|] && b == k[|p|..|k| - |s|];
    }
  }

  /** Two log keys are equal only for the same job and attempt, whatever characters the ids hold. */
  lemma LogObjectKeyInjective(id: string, attempt: int, id': string, attempt': int)
    ensures LogObjectKey(id, attempt) == LogObjectKey(id', attempt') <==> id == id' && attempt == attempt'
  {
    ItoaInjective(attempt, attempt');
    ValueOfItoa(attempt);
    ValueOfItoa(attempt');
    var (p, q) := ("jobs/" + id + "/logs", "jobs/" + id' + "/logs");
    var (s, t) := ("attempt-" + Itoa(attempt) + ".jsonl", "attempt-" + Itoa(attempt') + ".jsonl");
    LogKeyParts(id, attempt);
    LogKeyParts(id', attempt');
    SandwichInjective("jobs/", id, id', "/logs");
    SandwichInjective("attempt-", Itoa(attempt), Itoa(attempt'), ".jsonl");
    if p + "/" + s == q + "/" + t {
      SplitAtLastSlash(p, s, q, t);
    }
  }

  lemma LogKeyParts(id: string, attempt: int)
    ensures LogObjectKey(id, attempt) == "jobs/" + id + "/logs" + "/" + ("attempt-" + Itoa(attempt) + ".jsonl")
  {
    assert "/logs/attempt-" == "/logs" + "/" + "attempt-";
  }

  function Under(jobID: string, tail: string): string {
    "jobs/" + (jobID + "/" + tail)
  }

  lemma KeyTail(jobID: string, first: string, rest: string)
    ensures "jobs/" + jobID + ("/" + first) + rest == Under(jobID, first + rest)
  {
  }

  lemma KeyTails(jobID: string, attempt: int, ext: string)
    ensures LogObjectKey(jobID, attempt) == Under(jobID, "logs/attempt-" + Itoa(attempt) + ".jsonl")
    ensures InputObjectKey(jobID, ext) == Under(jobID, "input." + ext)
    ensures OutputObjectKey(jobID, ext) == Under(jobID, "output." + ext)
  {
    KeyTail(jobID, "input.", ext);
    KeyTail(jobID, "output.", ext);
    KeyTail(jobID, "logs/attempt-", Itoa(attempt) + ".jsonl");
    assert "/" + "input." == "/input." && "/" + "output." == "/output." && "/" + "logs/attempt-" == "/logs/attempt-";
    Regroup("jobs/" + jobID + "/logs/attempt-", Itoa(attempt), ".jsonl");
    Regroup("logs/attempt-", Itoa(attempt), ".jsonl");
  }

  lemma UnderInjective(id: string, s: string, id': string, t: string)
    requires '/' !in id && '/' !in id' && Under(id, s) == Under(id', t)
    ensures id == id' && s == t
  {
    assert id + "/" + s == Under(id, s)[5..] == Under(id', t)[5..] == id' + "/" + t;
    SplitAtFirstSlash(id, s, id', t);
  }

  /** Jobs whose ids hold no slash, as UUIDs do not, never share a key, and the kinds of one job's keys differ. */
  lemma KeysNeverCollide(id: string, id': string, attempt: int, ext: string, ext': string)
    requires '/' !in id && '/' !in id'
    ensures LogObjectKey(id, attempt) != InputObjectKey(id', ext)
    ensures LogObjectKey(id, attempt) != OutputObjectKey(id', ext)
    ensures InputObjectKey(id, ext) != OutputObjectKey(id', ext')
    ensures InputObjectKey(id, ext) == InputObjectKey(id', ext') <==> id == id' && ext == ext'
    ensures OutputObjectKey(id, ext) == OutputObjectKey(id', ext') <==> id == id' && ext == ext'
  {
    KeyTails(id, attempt, ext);
    KeyTails(id', attempt, ext);
    KeyTails(id', attempt, ext');
    var (log, input, output) := ("logs/attempt-" + Itoa(attempt) + ".jsonl", "input." + ext, "output." + ext);
    assert log[0] == 'l' && input[0] == 'i' && output[0] == 'o' && ("output." + ext')[0] == 'o';
    if LogObjectKey(id, attempt) == InputObjectKey(id', ext) {
      UnderInjective(id, log, id', input);
      assert false;
    }
    if LogObjectKey(id, attempt) == OutputObjectKey(id', ext) {
      UnderInjective(id, log, id', output);
      assert false;
    }
    if InputObjectKey(id, ext) == OutputObjectKey(id', ext') {
      UnderInjective(id, input, id', "output." + ext');
      assert false;
    }
    if InputObjectKey(id, ext) == InputObjectKey(id', ext') {
      UnderInjective(id, input, id', "input." + ext');
      assert ext == input[6..] && ext' == ("input." + ext')[6..];
    }
    if OutputObjectKey(id, ext) == OutputObjectKey(id', ext') {
      UnderInjective(id, output, id', "output." + ext');
      assert ext == output[7..] && ext' == ("output." + ext')[7..];
    }
  }
}
