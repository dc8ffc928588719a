/** The string escaping of Python's `json.dumps` with its default `ensure_ascii=True`: a
    quote, a backslash and the five control characters with a short form get a two-character
    escape, every other character outside printable ASCII a `\uXXXX` escape in lower-case
    hexadecimal, and characters above U+FFFF a UTF-16 surrogate pair of such escapes. */
module JsonStrings {
  import opened Wrappers

  /** The characters `json.dumps` writes as themselves: printable ASCII but `"` and `\`. */
  predicate IsPlain(c: char) {
    ' ' <= c <= '~' && c != '"' && c != '\\'
  }

  /** A digit of lower-case hexadecimal. */
  function HexDigit(d: int): (c: char)
    requires 0 <= d < 16
    ensures '0' <= c <= '9' || 'a' <= c <= 'f'
  {
    if d < 10 then (48 + d) as char else (87 + d) as char
  }

  /** The value of a hexadecimal digit, either case. */
  function HexValue(c: char): (v: Option<int>)
    ensures v.Some? ==> 0 <= v.value < 16
  {
    if '0' <= c <= '9' then Some(c as int - 48)
    else if 'a' <= c <= 'f' then Some(c as int - 87)
    else if 'A' <= c <= 'F' then Some(c as int - 55)
    else None
  }

  lemma HexDigitValue(d: int)
    requires 0 <= d < 16
    ensures HexValue(HexDigit(d)) == Some(d)
  {
  }

  /** `format(n, "04x")`. */
  function Hex4(n: int): (s: string)
    requires 0 <= n < 0x10000
    ensures |s| == 4
    ensures forall k :: 0 <= k < 4 ==> ('0' <= s[k] <= '9' || 'a' <= s[k] <= 'f')
  {
    var m := n / 16;
    var m2 := m / 16;
    [HexDigit(m2 / 16), HexDigit(m2 % 16), HexDigit(m % 16), HexDigit(n % 16)]
  }

  /** The number four hexadecimal digits stand for. */
  function Hex4Value(s: string): (v: Option<int>)
    requires |s| == 4
    ensures v.Some? ==> 0 <= v.value < 0x10000
  {
    match (HexValue(s[0]), HexValue(s[1]), HexValue(s[2]), HexValue(s[3]))
    case (Some(a), Some(b), Some(c), Some(d)) => Some(((a * 16 + b) * 16 + c) * 16 + d)
    case _ => None
  }

  /** Reading back four written digits gives the number. */
  lemma Hex4RoundTrip(n: int)
    requires 0 <= n < 0x10000
    ensures Hex4Value(Hex4(n)) == Some(n)
  {
    var m := n / 16;
    var m2 := m / 16;
    HexDigitValue(m2 / 16);
    HexDigitValue(m2 % 16);
    HexDigitValue(m % 16);
    HexDigitValue(n % 16);
    assert m2 == (m2 / 16) * 16 + m2 % 16;
    assert m == m2 * 16 + m % 16;
    assert n == m * 16 + n % 16;
  }

  /** Every character of `s` is written as itself. */
  predicate AllPlain(s: string) {
    forall k :: 0 <= k < |s| ==> IsPlain(s[k])
  }

  lemma AllPlainAppend(a: string, b: string)
    requires AllPlain(a) && AllPlain(b)
    ensures AllPlain(a + b)
  {
    forall k | 0 <= k < |a + b|
      ensures IsPlain((a + b)[k])
    {
      if k >= |a| { assert (a + b)[k] == b[k - |a|]; }
    }
  }

  /** Printable ASCII only: text that fits on one line and survives any ASCII channel. */
  predicate Printable(s: string) {
    forall k :: 0 <= k < |s| ==> ' ' <= s[k] <= '~'
  }

  lemma PrintableAppend(a: string, b: string)
    requires Printable(a) && Printable(b)
    ensures Printable(a + b)
  {
    forall k | 0 <= k < |a + b|
      ensures ' ' <= (a + b)[k] <= '~'
    {
      if k >= |a| { assert (a + b)[k] == b[k - |a|]; }
    }
  }

  /** `\uXXXX` for one UTF-16 code unit. */
  function UnitEscape(n: int): (e: string)
    requires 0 <= n < 0x10000
    ensures |e| == 6 && e[..2] == "\\u" && e[2..] == Hex4(n)
    ensures Printable(e)
  {
    "\\u" + Hex4(n)
  }

  /** The letter of the two-character escape of `"`, `\` and the five named control
      characters; `None` for every other character. */
  function ShortEscape(c: char): (letter: Option<char>)
    ensures letter.Some? ==> letter.value in "\"\\nrtbf" && ' ' <= letter.value <= '~'
    ensures IsPlain(c) ==> letter.None?
  {
    if c == '"' then Some('"')
    else if c == '\\' then Some('\\')
    else if c == '\n' then Some('n')
    else if c == '\r' then Some('r')
    else if c == '\t' then Some('t')
    else if c == '\U{0008}' then Some('b')
    else if c == '\U{000C}' then Some('f')
    else None
  }

  /** How `json.dumps` writes one character inside a string. */
  function EscapeChar(c: char): (e: string)
    ensures IsPlain(c) ==> e == [c]
    ensures !IsPlain(c) ==> |e| >= 2 && e[0] == '\\'
  {
    match ShortEscape(c)
    case Some(letter) => ['\\', letter]
    case None =>
      if IsPlain(c) then [c]
      else if (c as int) < 0x10000 then UnitEscape(c as int)
      else
        var n := c as int - 0x10000;
        UnitEscape(0xD800 + n / 1024) + UnitEscape(0xDC00 + n % 1024)
  }

  /** Every character of an escape is printable ASCII: the written JSON is plain ASCII text
      on one line, whatever the string held. */
  lemma EscapeIsPrintable(c: char)
    ensures Printable(EscapeChar(c))
  {
    match ShortEscape(c)
    case Some(letter) =>
      assert EscapeChar(c) == ['\\', letter];
    case None =>
      if !IsPlain(c) && (c as int) >= 0x10000 {
        var n := c as int - 0x10000;
        PrintableAppend(UnitEscape(0xD800 + n / 1024), UnitEscape(0xDC00 + n % 1024));
      }
  }

  /** The character a JSON reader takes a two-character escape `\x` for. */
  function ReadShort(letter: char): (c: Option<char>)
  {
    if letter == '"' then Some('"')
    else if letter == '\\' then Some('\\')
    else if letter == '/' then Some('/')
    else if letter == 'n' then Some('\n')
    else if letter == 'r' then Some('\r')
    else if letter == 't' then Some('\t')
    else if letter == 'b' then Some('\U{0008}')
    else if letter == 'f' then Some('\U{000C}')
    else None
  }

  /** A JSON reader's view of one escape: the character it stands for. */
  function ReadEscape(e: string): (c: Option<char>)
  {
    if |e| == 1 && IsPlain(e[0]) then Some(e[0])
    else if |e| == 2 && e[0] == '\\' then ReadShort(e[1])
    else if |e| == 6 && e[..2] == "\\u" then
      match Hex4Value(e[2..])
      case Some(n) => if n < 0xD800 || 0xE000 <= n then Some(n as char) else None
      case None => None
    else if |e| == 12 && e[..2] == "\\u" && e[6..8] == "\\u" then
      match (Hex4Value(e[2..6]), Hex4Value(e[8..]))
      case (Some(hi), Some(lo)) =>
        if 0xD800 <= hi < 0xDC00 && 0xDC00 <= lo < 0xE000
        then Some((0x10000 + (hi - 0xD800) * 1024 + (lo - 0xDC00)) as char)
        else None
      case _ => None
    else None
  }

  /** A `\uXXXX` escape of a code point outside the surrogate range reads back as it. */
  lemma UnitRoundTrip(n: int)
    requires 0 <= n < 0xD800 || 0xE000 <= n < 0x10000
    ensures ReadEscape(UnitEscape(n)) == Some(n as char)
  {
    var e := UnitEscape(n);
    Hex4RoundTrip(n);
    assert e[2..] == Hex4(n);
  }

  /** The surrogate pair of a code point above U+FFFF reads back as it. */
  lemma PairRoundTrip(c: char)
    requires (c as int) >= 0x10000
    ensures var n := c as int - 0x10000;
      ReadEscape(UnitEscape(0xD800 + n / 1024) + UnitEscape(0xDC00 + n % 1024)) == Some(c)
  {
    var n := c as int - 0x10000;
    var hi := 0xD800 + n / 1024;
    var lo := 0xDC00 + n % 1024;
    var e := UnitEscape(hi) + UnitEscape(lo);
    Hex4RoundTrip(hi);
    Hex4RoundTrip(lo);
    assert e[..2] == "\\u" && e[6..8] == "\\u";
    assert e[2..6] == Hex4(hi) && e[8..] == Hex4(lo);
    assert (hi - 0xD800) * 1024 + (lo - 0xDC00) == n;
  }

  /** Reading an escape back gives the character that was written. */
  lemma EscapeRoundTrip(c: char)
    ensures ReadEscape(EscapeChar(c)) == Some(c)
  {
    if ShortEscape(c).None? && !IsPlain(c) {
      if (c as int) < 0x10000 {
        UnitRoundTrip(c as int);
      } else {
        PairRoundTrip(c);
      }
    }
  }

  /** The characters of a string, each escaped, in order. */
  function EscapeAll(s: string): (e: string)
    ensures AllPlain(s) ==> e == s
  {
    if s == [] then [] else EscapeChar(s[0]) + EscapeAll(s[1..])
  }

  /** An escaped string is printable ASCII, whatever characters it escapes. */
  lemma {:induction false} EscapeAllIsPrintable(s: string)
    ensures Printable(EscapeAll(s))
  {
    if s != [] {
      EscapeIsPrintable(s[0]);
      EscapeAllIsPrintable(s[1..]);
      PrintableAppend(EscapeChar(s[0]), EscapeAll(s[1..]));
    }
  }

  /** Escaping works character by character, so it distributes over concatenation. */
  lemma {:induction false} EscapeAllAppend(a: string, b: string)
    ensures EscapeAll(a + b) == EscapeAll(a) + EscapeAll(b)
  {
    if a == [] {
      assert a + b == b;
    } else {
      assert (a + b)[0] == a[0];
      assert (a + b)[1..] == a[1..] + b;
      EscapeAllAppend(a[1..], b);
    }
  }

  /** Plain characters around a string are written as they are. */
  lemma EscapeBetweenPlain(a: string, s: string, b: string)
    requires AllPlain(a) && AllPlain(b)
    ensures EscapeAll(a + s + b) == a + EscapeAll(s) + b
  {
    EscapeAllAppend(a + s, b);
    EscapeAllAppend(a, s);
  }

  /** `json.dumps(s)` of a string: its escaped characters between quotes. */
  function Quoted(s: string): (q: string)
    ensures |q| >= 2 && q[0] == '"' && q[|q| - 1] == '"'
  {
    "\"" + EscapeAll(s) + "\""
  }

  /** Concatenation regrouped: what framed a three-part string now frames its middle part. */
  lemma Regroup(x: string, a: string, e: string, b: string, y: string)
    ensures x + (a + e + b) + y == (x + a) + e + (b + y)
  {
  }

  /** Quoting a string framed by plain text escapes only the string in the middle. */
  lemma QuotedBetweenPlain(a: string, s: string, b: string)
    requires AllPlain(a) && AllPlain(b)
    ensures Quoted(a + s + b) == ("\"" + a) + EscapeAll(s) + (b + "\"")
  {
    EscapeBetweenPlain(a, s, b);
    Regroup("\"", a, EscapeAll(s), b, "\"");
  }

  /** The encoded string is printable ASCII. */
  lemma QuotedIsPrintable(s: string)
    ensures Printable(Quoted(s))
  {
    EscapeAllIsPrintable(s);
    PrintableAppend("\"", EscapeAll(s));
    PrintableAppend("\"" + EscapeAll(s), "\"");
  }
}
