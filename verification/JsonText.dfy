/**
 JSON strings as encoding/json writes and reads them (RFC 8259, section 7), and sizes in UTF-8. A Dafny
 character is a Unicode scalar value, so a string here is what Go holds as valid UTF-8.
 */
module JsonText {
  import opened Types

  // ---- writing ----

  function HexDigit(d: nat): char
    requires d < 16
  {
    if d < 10 then (48 + d) as char else (87 + d) as char
  }

  function HexByte(b: nat): string
    requires b < 256
  {
    [HexDigit(b / 16), HexDigit(b % 16)]
  }

  function Hex4(n: nat): string
    requires n < 0x10000
  {
    HexByte(n / 256) + HexByte(n % 256)
  }

  /** Marshal also escapes the characters that matter to HTML and to JavaScript. */
  predicate EscapedAsHex(c: char) {
    c < ' ' || c in {'<', '>', '&', '\U{2028}', '\U{2029}'}
  }

  function Escape(c: char): string {
    if c == '"' then "\\\""
    else if c == '\\' then "\\\\"
    else if c == '\U{0008}' then "\\b"
    else if c == '\U{000C}' then "\\f"
    else if c == '\n' then "\\n"
    else if c == '\r' then "\\r"
    else if c == '\t' then "\\t"
    else if EscapedAsHex(c) then "\\u" + Hex4(c as int)
    else [c]
  }

  /** The escapes of encoding/json: short ones where there are, six characters of hexadecimal for the rest. */
  lemma EscapesAreThese()
    ensures Escape('"') == "\\\"" && Escape('\\') == "\\\\" && Escape('\n') == "\\n" && Escape('\r') == "\\r"
    ensures Escape('\t') == "\\t" && Escape('\U{0008}') == "\\b" && Escape('\U{000C}') == "\\f"
    ensures Escape('<') == "\\u003c" && Escape('>') == "\\u003e" && Escape('&') == "\\u0026"
    ensures Escape('\U{2028}') == "\\u2028" && Escape('\U{2029}') == "\\u2029" && Escape('\U{001B}') == "\\u001b"
  {
  }

  /** Any other control character is written in hexadecimal and any other character as it is. */
  lemma NoOtherEscapes(c: char)
    requires c !in {'"', '\\', '<', '>', '&', '\U{2028}', '\U{2029}', '\U{0008}', '\t', '\n', '\U{000C}', '\r'}
    ensures if c >= ' ' then Escape(c) == [c] else |Escape(c)| == 6 && Escape(c)[..4] == "\\u00"
  {
  }

  function Quoted(v: string): string {
    if v == "" then "" else Escape(v[0]) + Quoted(v[1..])
  }

  // ---- reading ----

  function HexValue(c: char): (d: int)
    ensures -1 <= d < 16
  {
    if '0' <= c <= '9' then c as int - 48
    else if 'a' <= c <= 'f' then c as int - 87
    else if 'A' <= c <= 'F' then c as int - 55
    else -1
  }

  function ReadHexByte(s: string): (b: int)
    requires |s| == 2
    ensures -1 <= b < 256
  {
    var (hi, lo) := (HexValue(s[0]), HexValue(s[1]));
    if hi < 0 || lo < 0 then -1 else 16 * hi + lo
  }

  /** The code after \u; surrogates, which Marshal never writes, are not read. */
  function ReadHex4(s: string): Option<char>
    requires |s| >= 4
  {
    var (hi, lo) := (ReadHexByte(s[..2]), ReadHexByte(s[2..4]));
    if hi < 0 || lo < 0 || 0xD8 <= hi < 0xE0 then None else Some((256 * hi + lo) as char)
  }

  /** One character of a JSON string and how many characters it is written with. */
  function ReadChar(s: string): (r: Option<(char, nat)>)
    requires s != ""
    ensures r.Some? ==> 0 < r.value.1 <= |s|
  {
    if s[0] != '\\' then (if s[0] < ' ' then None else Some((s[0], 1)))
    else if |s| < 2 then None
    else match s[1]
      case '"' => Some(('"', 2))
      case '\\' => Some(('\\', 2))
      case '/' => Some(('/', 2))
      case 'b' => Some(('\U{0008}', 2))
      case 'f' => Some(('\U{000C}', 2))
      case 'n' => Some(('\n', 2))
      case 'r' => Some(('\r', 2))
      case 't' => Some(('\t', 2))
      case 'u' =>
        if |s| < 6 then None
        else (match ReadHex4(s[2..]) case None => None case Some(c) => Some((c, 6)))
      case _ => None
  }

  /** Reads up to the closing quote; the result is the text and what follows the quote. */
  function Unquote(s: string): Option<(string, string)> {
    if s == "" then None
    else if s[0] == '"' then Some(("", s[1..]))
    else
      match ReadChar(s)
      case None => None
      case Some((c, n)) =>
        match Unquote(s[n..])
        case None => None
        case Some((v, rest)) => Some(([c] + v, rest))
  }

  // ---- reading undoes writing ----

  lemma ByteRoundTrip(b: nat)
    requires b < 256
    ensures ReadHexByte(HexByte(b)) == b
  {
    var (hi, lo) := (b / 16, b % 16);
    assert HexValue(HexDigit(hi)) == hi && HexValue(HexDigit(lo)) == lo;
  }

  lemma HexRoundTrip(n: nat, rest: string)
    requires n < 0xD800
    ensures ReadHex4(Hex4(n) + rest) == Some(n as char)
  {
    var (hi, lo) := (n / 256, n % 256);
    ByteRoundTrip(hi);
    ByteRoundTrip(lo);
    var s := Hex4(n) + rest;
    assert s[..2] == HexByte(hi) && s[2..4] == HexByte(lo);
  }

  lemma ReadUndoesEscape(c: char, rest: string)
    ensures Escape(c) != "" && Escape(c)[0] != '"'
    ensures ReadChar(Escape(c) + rest) == Some((c, |Escape(c)|))
  {
    var s := Escape(c) + rest;
    if |Escape(c)| == 6 {
      HexRoundTrip(c as int, rest);
      assert s[2..] == Hex4(c as int) + rest;
    }
  }

  lemma {:induction false} UnquoteUndoesQuote(v: string, rest: string)
    ensures Unquote(Quoted(v) + "\"" + rest) == Some((v, rest))
    decreases |v|
  {
    var s := Quoted(v) + "\"" + rest;
    if v == "" {
      assert s[1..] == rest;
    } else {
      var more := Quoted(v[1..]) + "\"" + rest;
      assert s == Escape(v[0]) + more;
      ReadUndoesEscape(v[0], more);
      assert s[|Escape(v[0])|..] == more && s[0] == Escape(v[0])[0];
      UnquoteUndoesQuote(v[1..], rest);
      assert [v[0]] + v[1..] == v;
    }
  }

  /** A quoted string lies on one line: no control character survives the escaping. */
  lemma {:induction false} QuotedIsPrintable(v: string)
    ensures forall i :: 0 <= i < |Quoted(v)| ==> Quoted(v)[i] >= ' '
  {
    if v != "" {
      QuotedIsPrintable(v[1..]);
      assert forall i :: 0 <= i < |Escape(v[0])| ==> Escape(v[0])[i] >= ' ';
    }
  }

  // ---- sizes ----

  function Width(c: char): nat {
    if c as int < 0x80 then 1 else if c as int < 0x800 then 2 else if c as int < 0x10000 then 3 else 4
  }

  /** Where the widths change, by RFC 3629, section 3. */
  lemma WidthsChangeHere(c: char)
    ensures Width('\U{007F}') == 1 && Width('\U{0080}') == 2 && Width('\U{07FF}') == 2 && Width('\U{0800}') == 3
    ensures Width('\U{FFFF}') == 3 && Width('\U{10000}') == 4 && Width('\U{10FFFF}') == 4
    ensures 1 <= Width(c) <= 4
  {
  }

  function Utf8Size(s: string): nat {
    if s == "" then 0 else Width(s[0]) + Utf8Size(s[1..])
  }

  lemma {:induction false} SizeOfConcat(s: string, t: string)
    ensures Utf8Size(s + t) == Utf8Size(s) + Utf8Size(t)
  {
    if s == "" {
      assert s + t == t;
    } else {
      SizeOfConcat(s[1..], t);
      assert (s + t)[1..] == s[1..] + t;
    }
  }

  /** Escaping never makes a text shorter, and at worst makes it six times as long. */
  lemma {:induction false} SizeOfQuoted(v: string)
    ensures Utf8Size(v) <= Utf8Size(Quoted(v)) <= 6 * Utf8Size(v)
  {
    if v != "" {
      var c := v[0];
      SizeOfConcat(Escape(c), Quoted(v[1..]));
      SizeOfEscape(c);
      SizeOfQuoted(v[1..]);
    }
  }

  lemma SizeOfEscape(c: char)
    ensures Width(c) <= Utf8Size(Escape(c)) <= 6 * Width(c)
  {
    var e := Escape(c);
    if |e| == 1 {
      assert e == [c];
      assert e[1..] == "";
    } else {
      AsciiSize(e);
    }
  }

  lemma {:induction false} AsciiSize(s: string)
    requires forall i :: 0 <= i < |s| ==> s[i] as int < 0x80
    ensures Utf8Size(s) == |s|
  {
    if s != "" {
      AsciiSize(s[1..]);
    }
  }
}
