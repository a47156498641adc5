/** bufio.Scanner over the lines of a text, with a limit on their length. */
module LineScanner {
  import opened JsonText
  import opened Joining

  /** A line must fit the scanner's buffer of 1 MiB together with its newline. */
  const MAX_TOKEN := 1024 * 1024

  predicate Fits(line: string) {
    Utf8Size(line) < MAX_TOKEN
  }

  function LineEnd(s: string): (k: nat)
    ensures k <= |s| && (k < |s| ==> s[k] == '\n') && '\n' !in s[..k]
  {
    if s == "" || s[0] == '\n' then 0 else 1 + LineEnd(s[1..])
  }

  /** What is left after the first line and its newline. */
  function AfterLine(s: string): (rest: string)
    ensures s != "" ==> |rest| < |s|
  {
    if LineEnd(s) < |s| then s[LineEnd(s) + 1..] else ""
  }

  /** bufio.ScanLines drops a carriage return before the newline. */
  function DropCR(s: string): string {
    if s != "" && s[|s| - 1] == '\r' then s[..|s| - 1] else s
  }

  /** The lines handed out, and whether the scanner stopped at one that is too long. */
  datatype Scanned = Scanned(tokens: seq<string>, tooLong: bool)

  function Prepend(tokens: seq<string>, s: Scanned): Scanned {
    s.(tokens := tokens + s.tokens)
  }

  function Scan(s: string): Scanned
    decreases |s|
  {
    if s == "" then Scanned([], false)
    else if !Fits(s[..LineEnd(s)]) then Scanned([], true)
    else Prepend([DropCR(s[..LineEnd(s)])], Scan(AfterLine(s)))
  }

  /** The whole scan at once. Handing the lines out one by one, as Go does, shows a reader nothing else. */
  method ScanLines(text: string) returns (s: Scanned)
    ensures s == Scan(text)
  {
    var (rest, tokens) := (text, []);
    while rest != ""
      invariant Prepend(tokens, Scan(rest)) == Scan(text)
      decreases |rest|
    {
      var line := rest[..LineEnd(rest)];
      if !Fits(line) {
        assert tokens + [] == tokens;
        return Scanned(tokens, true);
      }
      Regroup(tokens, [DropCR(line)], Scan(AfterLine(rest)).tokens);
      tokens := tokens + [DropCR(line)];
      rest := AfterLine(rest);
    }
    return Scanned(tokens, false);
  }

  // ---- lines written one by one ----

  function Unlines(lines: seq<string>): string {
    if lines == [] then "" else lines[0] + ("\n" + Unlines(lines[1..]))
  }

  lemma {:induction false} UnlinesOfConcat(a: seq<string>, b: seq<string>)
    ensures Unlines(a + b) == Unlines(a) + Unlines(b)
  {
    if a == [] {
      assert a + b == b;
    } else {
      UnlinesOfConcat(a[1..], b);
      assert (a + b)[1..] == a[1..] + b;
      Regroup("\n", Unlines(a[1..]), Unlines(b));
      Regroup(a[0], "\n" + Unlines(a[1..]), Unlines(b));
    }
  }

  lemma UnlinesOfOneMore(lines: seq<string>, line: string)
    ensures Unlines(lines + [line]) == Unlines(lines) + line + "\n"
  {
    UnlinesOfConcat(lines, [line]);
    assert Unlines([line]) == line + "\n";
  }

  /** No control characters, so no line break of either kind. */
  predicate Printable(s: string) {
    forall i :: 0 <= i < |s| ==> s[i] >= ' '
  }

  /** How many lines come before the first that does not fit. */
  function FitPrefix(lines: seq<string>): (n: nat)
    ensures n <= |lines| && (n < |lines| ==> !Fits(lines[n])) && forall i :: 0 <= i < n ==> Fits(lines[i])
  {
    if lines == [] || !Fits(lines[0]) then 0 else 1 + FitPrefix(lines[1..])
  }

  predicate AllFit(lines: seq<string>) {
    forall i :: 0 <= i < |lines| ==> Fits(lines[i])
  }

  lemma {:induction false} LineEndAt(line: string, rest: string)
    requires '\n' !in line
    ensures LineEnd(line + ("\n" + rest)) == |line|
  {
    if line != "" {
      LineEndAt(line[1..], rest);
      assert (line + ("\n" + rest))[1..] == line[1..] + ("\n" + rest);
    }
  }

  lemma ScanFirst(line: string, rest: string)
    requires line != "" && Printable(line)
    ensures Scan(line + ("\n" + rest)) == if Fits(line) then Prepend([line], Scan(rest)) else Scanned([], true)
  {
    var s := line + ("\n" + rest);
    assert '\n' !in line;
    LineEndAt(line, rest);
    assert s[..|line|] == line && s[|line| + 1..] == rest;
  }

  /** The limit is 1 MiB for the line and its newline. */
  lemma FitsExactly(line: string)
    ensures Fits(line) <==> Utf8Size(line + "\n") <= 1_048_576
  {
    SizeOfConcat(line, "\n");
    AsciiSize("\n");
  }

  /** A line that ends in a carriage return and a newline loses both. */
  lemma ScanDropsCR(line: string, rest: string)
    requires '\n' !in line
    ensures Scan(line + "\r" + ("\n" + rest))
            == if Fits(line + "\r") then Prepend([line], Scan(rest)) else Scanned([], true)
  {
    var (raw, s) := (line + "\r", line + "\r" + ("\n" + rest));
    LineEndAt(raw, rest);
    assert s[..|raw|] == raw && s[|raw| + 1..] == rest && DropCR(raw) == line;
  }

  /** What follows the last newline is a line as well. */
  lemma ScanLast(line: string)
    requires line != "" && '\n' !in line && line[|line| - 1] != '\r'
    ensures Scan(line) == if Fits(line) then Scanned([line], false) else Scanned([], true)
  {
    assert LineEnd(line) == |line| && line[..|line|] == line;
  }

  /** The lines before the first that does not fit. */
  lemma FitPrefixStep(lines: seq<string>)
    requires lines != []
    ensures var (n, k) := (FitPrefix(lines), FitPrefix(lines[1..]));
            if Fits(lines[0]) then n == k + 1 && lines[..n] == [lines[0]] + lines[1..][..k]
            else n == 0 && lines[..n] == []
  {
  }

  /** Scanning gives back the lines that were written, up to the first that is too long. */
  lemma {:induction false} ScanUndoesUnlines(lines: seq<string>)
    requires forall i :: 0 <= i < |lines| ==> lines[i] != "" && Printable(lines[i])
    ensures Scan(Unlines(lines)) == Scanned(lines[..FitPrefix(lines)], FitPrefix(lines) < |lines|)
  {
    if lines != [] {
      ScanUndoesUnlines(lines[1..]);
      ScanFirst(lines[0], Unlines(lines[1..]));
      FitPrefixStep(lines);
    }
  }
}
