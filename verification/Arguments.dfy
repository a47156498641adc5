/** Splitting an ffmpeg argument string that respects single and double quotes. */
module Arguments {
  import opened Joining

  predicate IsQuote(c: char) {
    c == '"' || c == '\''
  }

  /** The characters that separate arguments; other white space does not. */
  predicate IsBlank(c: char) {
    c == ' ' || c == '\t'
  }

  /** unicode.IsSpace, which strings.TrimSpace goes by. */
  predicate IsSpace(c: char) {
    var n := c as int;
    9 <= n <= 13 || n in {0x20, 0x85, 0xA0, 0x1680, 0x2028, 0x2029, 0x202F, 0x205F, 0x3000} || 0x2000 <= n <= 0x200A
  }

  /** The white space of Unicode. */
  lemma SpacesAreThese(c: char)
    ensures IsSpace(c) <==>
              || c in {'\t', '\n', '\U{000B}', '\U{000C}', '\r', ' ', '\U{0085}', '\U{00A0}', '\U{1680}'}
              || c in {'\U{2000}', '\U{2001}', '\U{2002}', '\U{2003}', '\U{2004}', '\U{2005}', '\U{2006}', '\U{2007}'}
              || c in {'\U{2008}', '\U{2009}', '\U{200A}', '\U{2028}', '\U{2029}', '\U{202F}', '\U{205F}', '\U{3000}'}
  {
  }

  function TrimLeft(s: string): string {
    if s != "" && IsSpace(s[0]) then TrimLeft(s[1..]) else s
  }

  function TrimRight(s: string): string {
    if s != "" && IsSpace(s[|s| - 1]) then TrimRight(s[..|s| - 1]) else s
  }

  function TrimSpace(s: string): string {
    TrimRight(TrimLeft(s))
  }

  // ---- the automaton ----

  /** Outside quotes, or inside the quotes that `delimiter` closes. */
  datatype Mode = Outside | Inside(delimiter: char)

  /** A non-empty current argument is emitted; an empty one is dropped. */
  function Flush(cur: string): seq<string> {
    if cur == "" then [] else [cur]
  }

  function Lex(s: string, mode: Mode, cur: string): seq<string> {
    if s == "" then Flush(cur)
    else
      var (c, rest) := (s[0], s[1..]);
      match mode
      case Inside(q) => if c == q then Lex(rest, Outside, cur) else Lex(rest, mode, cur + [c])
      case Outside =>
        if IsQuote(c) then Lex(rest, Inside(c), cur)
        else if IsBlank(c) then Flush(cur) + Lex(rest, Outside, "")
        else Lex(rest, Outside, cur + [c])
  }

  function Split(s: string): seq<string> {
    Lex(TrimSpace(s), Outside, "")
  }

  /** The loop of splitArgs: a builder, the open quote, and the arguments so far. */
  method SplitArgs(s: string) returns (args: seq<string>)
    ensures args == Split(s)
    ensures forall i :: 0 <= i < |args| ==> args[i] != ""
    ensures Joined(args) == Kept(TrimSpace(s), Outside)
  {
    var t := TrimSpace(s);
    if t == "" {
      return [];
    }
    args := [];
    var cur := "";
    var quote := Outside;
    for i := 0 to |t|
      invariant args + Lex(t[i..], quote, cur) == Lex(t, Outside, "")
    {
      var r := t[i];
      assert t[i..][0] == r && t[i..][1..] == t[i + 1..];
      if quote.Inside? {
        if r == quote.delimiter {
          quote := Outside;
        } else {
          cur := cur + [r];
        }
      } else if IsQuote(r) {
        quote := Inside(r);
      } else if IsBlank(r) {
        assert args + (Flush(cur) + Lex(t[i + 1..], Outside, "")) == (args + Flush(cur)) + Lex(t[i + 1..], Outside, "");
        args := args + Flush(cur);
        cur := "";
      } else {
        cur := cur + [r];
      }
    }
    assert t[|t|..] == "";
    args := args + Flush(cur);
    NoArgumentIsEmpty(t, Outside, "");
    OnlyDelimitersAreDropped(t, Outside, "");
  }

  /** The command line of ffmpeg: options apply to the output named last. */
  method BuildArgs(input: string, ffmpegArgs: string, output: string) returns (args: seq<string>)
    ensures |args| >= 4 && args[..3] == ["-y", "-i", input] && args[|args| - 1] == output
    ensures var options := args[3..|args| - 1];
            && options == Split(ffmpegArgs) && Joined(options) == Kept(TrimSpace(ffmpegArgs), Outside)
            && forall i :: 0 <= i < |options| ==> options[i] != ""
  {
    args := ["-y", "-i", input];
    var split := SplitArgs(ffmpegArgs);
    args := args + split;
    args := args + [output];
    assert args[3..|args| - 1] == split;
  }

  // ---- nothing is lost but delimiters ----

  function Joined(args: seq<string>): string {
    if args == [] then "" else args[0] + Joined(args[1..])
  }

  /** The characters that are neither unquoted blanks nor delimiters of a quoted run. */
  function Kept(s: string, mode: Mode): string {
    if s == "" then ""
    else
      var (c, rest) := (s[0], s[1..]);
      match mode
      case Inside(q) => if c == q then Kept(rest, Outside) else [c] + Kept(rest, mode)
      case Outside =>
        if IsQuote(c) then Kept(rest, Inside(c))
        else if IsBlank(c) then Kept(rest, Outside)
        else [c] + Kept(rest, Outside)
  }

  lemma JoinedOfFlush(cur: string, args: seq<string>)
    ensures Joined(Flush(cur) + args) == cur + Joined(args)
  {
    if cur != "" {
      assert (Flush(cur) + args)[1..] == args;
    } else {
      assert Flush(cur) + args == args;
    }
  }

  /** The arguments put together are the trimmed input minus its delimiters, even with a quote left open. */
  lemma {:induction false} OnlyDelimitersAreDropped(s: string, mode: Mode, cur: string)
    ensures Joined(Lex(s, mode, cur)) == cur + Kept(s, mode)
    decreases |s|
  {
    if s == "" {
      JoinedOfFlush(cur, []);
      assert Flush(cur) + [] == Flush(cur);
    } else {
      var (c, rest) := (s[0], s[1..]);
      if mode.Outside? && IsBlank(c) {
        OnlyDelimitersAreDropped(rest, Outside, "");
        JoinedOfFlush(cur, Lex(rest, Outside, ""));
        assert "" + Kept(rest, Outside) == Kept(rest, Outside);
      } else if mode.Outside? && IsQuote(c) {
        OnlyDelimitersAreDropped(rest, Inside(c), cur);
      } else if mode.Inside? && c == mode.delimiter {
        OnlyDelimitersAreDropped(rest, Outside, cur);
      } else {
        OnlyDelimitersAreDropped(rest, mode, cur + [c]);
        assert cur + [c] + Kept(rest, mode) == cur + ([c] + Kept(rest, mode));
      }
    }
  }

  lemma {:induction false} NoArgumentIsEmpty(s: string, mode: Mode, cur: string)
    ensures forall i :: 0 <= i < |Lex(s, mode, cur)| ==> Lex(s, mode, cur)[i] != ""
    decreases |s|
  {
    if s != "" {
      var (c, rest) := (s[0], s[1..]);
      if mode.Outside? && IsBlank(c) {
        NoArgumentIsEmpty(rest, Outside, "");
      } else if mode.Outside? && IsQuote(c) {
        NoArgumentIsEmpty(rest, Inside(c), cur);
      } else if mode.Inside? && c == mode.delimiter {
        NoArgumentIsEmpty(rest, Outside, cur);
      } else {
        NoArgumentIsEmpty(rest, mode, cur + [c]);
      }
    }
  }

  // ---- splitting undoes quoting ----

  /** One way to write part of an argument. */
  datatype Piece = Plain(text: string) | Single(text: string) | Double(text: string)
  {
    predicate Valid() {
      match this
      case Plain(t) => t != "" && forall i :: 0 <= i < |t| ==> t[i] !in {'"', '\'', ' ', '\t'}
      case Single(t) => '\'' !in t
      case Double(t) => '"' !in t
    }

    function Print(): string {
      match this
      case Plain(t) => t
      case Single(t) => "'" + t + "'"
      case Double(t) => "\"" + t + "\""
    }
  }

  /** An argument written as pieces set side by side. */
  type Word = seq<Piece>

  predicate ValidWord(w: Word) {
    w != [] && forall i :: 0 <= i < |w| ==> w[i].Valid()
  }

  function Text(w: Word): string {
    if w == [] then "" else w[0].text + Text(w[1..])
  }

  function PrintWord(w: Word): string {
    if w == [] then "" else w[0].Print() + PrintWord(w[1..])
  }

  /** One or more blanks or tabs. */
  predicate Gap(g: string) {
    g != "" && forall i :: 0 <= i < |g| ==> g[i] == ' ' || g[i] == '\t'
  }

  /** The words with the gaps between them. */
  function PrintLine(ws: seq<Word>, gaps: seq<string>): string
    requires |gaps| >= |ws|
  {
    if ws == [] then ""
    else if |ws| == 1 then PrintWord(ws[0])
    else PrintWord(ws[0]) + gaps[0] + PrintLine(ws[1..], gaps[1..])
  }

  function NonEmpty(args: seq<string>): seq<string> {
    if args == [] then [] else Flush(args[0]) + NonEmpty(args[1..])
  }

  function Texts(ws: seq<Word>): seq<string> {
    seq(|ws|, i requires 0 <= i < |ws| => Text(ws[i]))
  }

  lemma {:induction false} LexQuoted(text: string, q: char, rest: string, cur: string)
    requires q !in text
    ensures Lex(text + [q] + rest, Inside(q), cur) == Lex(rest, Outside, cur + text)
    decreases |text|
  {
    var s := text + [q] + rest;
    if text == "" {
      assert s[0] == q && s[1..] == rest && cur + text == cur;
    } else {
      assert s[0] == text[0] && s[1..] == text[1..] + [q] + rest;
      LexQuoted(text[1..], q, rest, cur + [text[0]]);
      assert cur + [text[0]] + text[1..] == cur + text;
    }
  }

  lemma {:induction false} LexPlain(text: string, rest: string, cur: string)
    requires forall i :: 0 <= i < |text| ==> text[i] !in {'"', '\'', ' ', '\t'}
    ensures Lex(text + rest, Outside, cur) == Lex(rest, Outside, cur + text)
    decreases |text|
  {
    if text == "" {
      assert text + rest == rest && cur + text == cur;
    } else {
      assert (text + rest)[0] == text[0] && (text + rest)[1..] == text[1..] + rest;
      LexPlain(text[1..], rest, cur + [text[0]]);
      assert cur + [text[0]] + text[1..] == cur + text;
    }
  }

  lemma LexPiece(p: Piece, rest: string, cur: string)
    requires p.Valid()
    ensures Lex(p.Print() + rest, Outside, cur) == Lex(rest, Outside, cur + p.text)
  {
    match p
    case Plain(t) => LexPlain(t, rest, cur);
    case Single(t) =>
      LexQuoted(t, '\'', rest, cur);
      assert (p.Print() + rest)[1..] == t + ['\''] + rest;
    case Double(t) =>
      LexQuoted(t, '"', rest, cur);
      assert (p.Print() + rest)[1..] == t + ['"'] + rest;
  }

  lemma {:induction false} LexWord(w: Word, rest: string, cur: string)
    requires forall i :: 0 <= i < |w| ==> w[i].Valid()
    ensures Lex(PrintWord(w) + rest, Outside, cur) == Lex(rest, Outside, cur + Text(w))
    decreases |w|
  {
    if w == [] {
      assert PrintWord(w) + rest == rest && cur + Text(w) == cur;
    } else {
      Regroup(w[0].Print(), PrintWord(w[1..]), rest);
      LexPiece(w[0], PrintWord(w[1..]) + rest, cur);
      LexWord(w[1..], rest, cur + w[0].text);
      Regroup(cur, w[0].text, Text(w[1..]));
    }
  }

  lemma LexLastWord(w: Word)
    requires ValidWord(w)
    ensures Lex(PrintWord(w), Outside, "") == Flush(Text(w))
  {
    LexWord(w, "", "");
    assert PrintWord(w) + "" == PrintWord(w) && "" + Text(w) == Text(w);
  }

  lemma {:induction false} LexGap(g: string, line: string)
    requires forall i :: 0 <= i < |g| ==> g[i] == ' ' || g[i] == '\t'
    ensures Lex(g + line, Outside, "") == Lex(line, Outside, "")
    decreases |g|
  {
    if g == "" {
      assert g + line == line;
    } else {
      assert (g + line)[1..] == g[1..] + line;
      LexGap(g[1..], line);
    }
  }

  lemma LexNextWord(w: Word, g: string, line: string)
    requires ValidWord(w) && Gap(g)
    ensures Lex(PrintWord(w) + (g + line), Outside, "") == Flush(Text(w)) + Lex(line, Outside, "")
  {
    LexWord(w, g + line, "");
    assert "" + Text(w) == Text(w);
    assert (g + line)[1..] == g[1..] + line;
    LexGap(g[1..], line);
  }

  lemma {:induction false} LexLine(ws: seq<Word>, gaps: seq<string>)
    requires |gaps| >= |ws| && forall i :: 0 <= i < |ws| ==> ValidWord(ws[i]) && Gap(gaps[i])
    ensures Lex(PrintLine(ws, gaps), Outside, "") == NonEmpty(Texts(ws))
  {
    if ws != [] {
      var more := ws[1..];
      assert Texts(ws)[0] == Text(ws[0]) && Texts(ws)[1..] == Texts(more);
      if more == [] {
        LexLastWord(ws[0]);
        assert NonEmpty(Texts(more)) == [];
      } else {
        LexLine(more, gaps[1..]);
        LexNextWord(ws[0], gaps[0], PrintLine(more, gaps[1..]));
        Regroup(PrintWord(ws[0]), gaps[0], PrintLine(more, gaps[1..]));
      }
    }
  }

  /** The text begins and ends visibly, so trimming leaves it alone. */
  predicate Solid(s: string) {
    s != "" && !IsSpace(s[0]) && !IsSpace(s[|s| - 1])
  }

  /** White space other than blanks and tabs stands in the middle of plain pieces, if at all. */
  predicate Firm(w: Word) {
    forall i :: 0 <= i < |w| && w[i].Plain? ==> Solid(w[i].text)
  }

  lemma {:induction false} WordIsSolid(w: Word)
    requires ValidWord(w) && Firm(w)
    ensures Solid(PrintWord(w))
  {
    assert w[0].Valid() && Solid(w[0].Print());
    if |w| > 1 {
      WordIsSolid(w[1..]);
    } else {
      assert PrintWord(w) == w[0].Print();
    }
  }

  lemma {:induction false} LineIsSolid(ws: seq<Word>, gaps: seq<string>)
    requires ws != [] && |gaps| >= |ws| && forall i :: 0 <= i < |ws| ==> ValidWord(ws[i]) && Firm(ws[i])
    ensures Solid(PrintLine(ws, gaps))
  {
    WordIsSolid(ws[0]);
    if |ws| > 1 {
      LineIsSolid(ws[1..], gaps[1..]);
    }
  }

  /** White space around a text: blanks, tabs and line breaks of every kind ASCII has. */
  predicate Padding(p: string) {
    forall i :: 0 <= i < |p| ==> p[i] in {' ', '\t', '\n', '\r', '\U{000B}', '\U{000C}'}
  }

  lemma {:induction false} TrimLeftOfPadded(p: string, s: string)
    requires Padding(p)
    ensures TrimLeft(p + s) == TrimLeft(s)
  {
    if p == "" {
      assert p + s == s;
    } else {
      assert (p + s)[1..] == p[1..] + s;
      TrimLeftOfPadded(p[1..], s);
    }
  }

  lemma {:induction false} TrimRightOfPadded(s: string, p: string)
    requires Padding(p)
    ensures TrimRight(s + p) == TrimRight(s)
  {
    if p == "" {
      assert s + p == s;
    } else {
      assert (s + p)[..|s + p| - 1] == s + p[..|p| - 1];
      TrimRightOfPadded(s, p[..|p| - 1]);
    }
  }

  /** Padding around a line that begins and ends visibly goes, and nothing else does. */
  lemma TrimUndoesPadding(before: string, line: string, behind: string)
    requires Padding(before) && Padding(behind) && (line == "" || Solid(line))
    ensures TrimSpace(before + (line + behind)) == line
  {
    TrimLeftOfPadded(before, line + behind);
    if line == "" {
      TrimLeftOfPadded(behind, "");
      assert line + behind == behind && behind + "" == behind;
    } else {
      assert (line + behind)[0] == line[0];
      TrimRightOfPadded(line, behind);
    }
  }

  /**
   However the arguments are written, with whatever gaps between them and padding around them, splitting the line
   gives them back, less the empty ones. White space other than blanks and tabs separates nothing.
   */
  lemma SplitUndoesPrinting(ws: seq<Word>, gaps: seq<string>, before: string, behind: string)
    requires |gaps| >= |ws| && forall i :: 0 <= i < |ws| ==> ValidWord(ws[i]) && Gap(gaps[i])
    requires Padding(before) && Padding(behind) && (ws != [] ==> Solid(PrintLine(ws, gaps)))
    ensures Split(before + (PrintLine(ws, gaps) + behind)) == NonEmpty(Texts(ws))
  {
    LexLine(ws, gaps);
    TrimUndoesPadding(before, PrintLine(ws, gaps), behind);
  }

  // ---- every list of arguments can be written ----

  /** Each character in quotes of its own, of the kind it is not. */
  function Pieces(text: string): Word {
    if text == "" then [] else [if text[0] == '\'' then Double([text[0]]) else Single([text[0]])] + Pieces(text[1..])
  }

  function Quote(text: string): Word {
    if text == "" then [Single("")] else Pieces(text)
  }

  lemma {:induction false} PiecesSpellText(text: string)
    ensures Text(Pieces(text)) == text
    ensures forall i :: 0 <= i < |Pieces(text)| ==> Pieces(text)[i].Valid() && !Pieces(text)[i].Plain?
  {
    if text != "" {
      PiecesSpellText(text[1..]);
      assert Pieces(text)[1..] == Pieces(text[1..]);
    }
  }

  function QuoteAll(args: seq<string>): seq<Word> {
    seq(|args|, i requires 0 <= i < |args| => Quote(args[i]))
  }

  function Spaces(n: nat): seq<string> {
    seq(n, i => " ")
  }

  lemma {:induction false} NonEmptyKeepsAllExactly(args: seq<string>)
    ensures |NonEmpty(args)| <= |args|
    ensures NonEmpty(args) == args <==> "" !in args
  {
    if args != [] {
      NonEmptyKeepsAllExactly(args[1..]);
      assert args == [args[0]] + args[1..];
    }
  }

  lemma QuotedWords(args: seq<string>)
    ensures forall i :: 0 <= i < |args| ==>
              ValidWord(QuoteAll(args)[i]) && Firm(QuoteAll(args)[i]) && Gap(Spaces(|args|)[i])
    ensures Texts(QuoteAll(args)) == args
  {
    forall i | 0 <= i < |args|
      ensures ValidWord(Quote(args[i])) && Firm(Quote(args[i])) && Text(Quote(args[i])) == args[i]
    {
      PiecesSpellText(args[i]);
    }
  }

  lemma SplitQuoted(ws: seq<Word>, gaps: seq<string>)
    requires |gaps| >= |ws| && forall i :: 0 <= i < |ws| ==> ValidWord(ws[i]) && Firm(ws[i]) && Gap(gaps[i])
    ensures Split(PrintLine(ws, gaps)) == NonEmpty(Texts(ws))
  {
    if ws != [] {
      LineIsSolid(ws, gaps);
    }
    SplitUndoesPrinting(ws, gaps, "", "");
    assert "" + (PrintLine(ws, gaps) + "") == PrintLine(ws, gaps);
  }

  /** Any arguments over any characters survive quoting and splitting, except that empty ones vanish. */
  lemma SplitUndoesQuoting(args: seq<string>)
    ensures Split(PrintLine(QuoteAll(args), Spaces(|args|))) == NonEmpty(args)
    ensures Split(PrintLine(QuoteAll(args), Spaces(|args|))) == args <==> "" !in args
  {
    QuotedWords(args);
    SplitQuoted(QuoteAll(args), Spaces(|args|));
    NonEmptyKeepsAllExactly(args);
  }
}
