/** The JSON texts that go over the wire: flat objects of strings, written as
    Python's `json.dumps` writes them (every character outside ' '..'~' escaped,
    section 7 of RFC 8259), and read back. */
module Json {
  import opened Wrappers

  // ---------- escapes ----------

  function HexDigit(n: int): char
    requires 0 <= n < 16
  {
    if n < 10 then '0' + n as char else 'a' + (n - 10) as char
  }

  function HexValue(c: char): Option<int> {
    if '0' <= c <= '9' then Some(c as int - '0' as int)
    else if 'a' <= c <= 'f' then Some(c as int - 'a' as int + 10)
    else if 'A' <= c <= 'F' then Some(c as int - 'A' as int + 10)
    else None
  }

  function Hex4(n: int): (s: string)
    requires 0 <= n < 0x1_0000
    ensures |s| == 4
  {
    var n1 := n / 0x10;
    var n2 := n1 / 0x10;
    var n3 := n2 / 0x10;
    [HexDigit(n3), HexDigit(n2 % 0x10), HexDigit(n1 % 0x10), HexDigit(n % 0x10)]
  }

  /** The value of four hexadecimal digits at the front. */
  function ReadHex4(s: string): Option<int> {
    if |s| < 4 then None
    else
      var a, b, c, d := HexValue(s[0]), HexValue(s[1]), HexValue(s[2]), HexValue(s[3]);
      if a.None? || b.None? || c.None? || d.None? then None
      else Some(a.value * 0x1000 + b.value * 0x100 + c.value * 0x10 + d.value)
  }

  function High(v: int): int {
    0xD800 + v / 0x400
  }

  function Low(v: int): int {
    0xDC00 + v % 0x400
  }

  function SurrogatePair(v: int): string
    requires 0 <= v < 0x10_0000
  {
    "\\u" + Hex4(High(v)) + "\\u" + Hex4(Low(v))
  }

  /** One character as it appears between quotes; beyond the basic plane, a surrogate pair. */
  function EscapeChar(c: char): string {
    var n := c as int;
    if c == '"' then "\\\""
    else if c == '\\' then "\\\\"
    else if c == '\n' then "\\n"
    else if c == '\r' then "\\r"
    else if c == '\t' then "\\t"
    else if n == 8 then "\\b"
    else if n == 12 then "\\f"
    else if 32 <= n <= 126 then [c]
    else if n < 0x1_0000 then "\\u" + Hex4(n)
    else SurrogatePair(n - 0x1_0000)
  }

  function Escape(s: string): string {
    if s == "" then "" else EscapeChar(s[0]) + Escape(s[1..])
  }

  /** The escapes of `json.dumps` in its default, ASCII form. */
  lemma {:induction false} ShortEscapes()
    ensures EscapeChar('"') == "\\\"" && EscapeChar('\\') == "\\\\" && EscapeChar('\n') == "\\n"
    ensures EscapeChar('\r') == "\\r" && EscapeChar('\t') == "\\t"
    ensures EscapeChar(8 as char) == "\\b" && EscapeChar(12 as char) == "\\f"
    ensures forall c: char :: 32 <= c as int <= 126 && c != '"' && c != '\\' ==> EscapeChar(c) == [c]
  {
  }

  /** Every other character is four lower-case hexadecimal digits, or two surrogates of four. */
  lemma {:induction false} LongEscapes(c: char)
    requires (c as int < 32 && c as int !in {8, 9, 10, 12, 13}) || 126 < c as int
    ensures var n := c as int;
            EscapeChar(c) == if n < 0x1_0000 then "\\u" + Hex4(n)
                             else "\\u" + Hex4(0xD800 + (n - 0x1_0000) / 0x400)
                                  + "\\u" + Hex4(0xDC00 + (n - 0x1_0000) % 0x400)
  {
  }

  lemma {:induction false} DigitMeans(digit: int)
    requires 0 <= digit < 16
    ensures HexDigit(digit) == if digit < 10 then ('0' as int + digit) as char else ('a' as int + digit - 10) as char
  {
  }

  lemma {:induction false} DivTwice(n: int)
    requires 0 <= n
    ensures n / 0x10 / 0x10 == n / 0x100 && n / 0x100 / 0x10 == n / 0x1000
  {
  }

  /** The digits, highest first. */
  lemma {:induction false} Digits(n: int)
    requires 0 <= n < 0x1_0000
    ensures Hex4(n)
         == [HexDigit(n / 0x1000), HexDigit(n / 0x100 % 0x10), HexDigit(n / 0x10 % 0x10), HexDigit(n % 0x10)]
  {
    DivTwice(n);
  }

  lemma {:induction false} HexMeans(n: int, k: nat)
    requires 0 <= n < 0x1_0000 && k < 4
    ensures |Hex4(n)| == 4
    ensures var digit := if k == 0 then n / 0x1000 else if k == 1 then n / 0x100 % 0x10
                         else if k == 2 then n / 0x10 % 0x10 else n % 0x10;
            Hex4(n)[k] == if digit < 10 then ('0' as int + digit) as char else ('a' as int + digit - 10) as char
  {
    Digits(n);
    DigitMeans(if k == 0 then n / 0x1000 else if k == 1 then n / 0x100 % 0x10
               else if k == 2 then n / 0x10 % 0x10 else n % 0x10);
  }

  /** A character and what is left after it; None when no character can be read. */
  function ReadEscape(s: string): Option<(char, nat)>
  {
    if s == "" then None
    else if s[0] == '"' || s[0] == '\\' || s[0] == '/' then Some((s[0], 1))
    else if s[0] == 'n' then Some(('\n', 1))
    else if s[0] == 'r' then Some(('\r', 1))
    else if s[0] == 't' then Some(('\t', 1))
    else if s[0] == 'b' then Some((8 as char, 1))
    else if s[0] == 'f' then Some((12 as char, 1))
    else if s[0] != 'u' then None
    else
      match ReadHex4(s[1..])
      case None => None
      case Some(hi) =>
        if 0 <= hi < 0xD800 || 0xE000 <= hi < 0x1_0000 then Some((hi as char, 5))
        else if !(0xD800 <= hi < 0xDC00) || |s| < 11 || s[5] != '\\' || s[6] != 'u' then None
        else
          match ReadHex4(s[7..])
          case None => None
          case Some(lo) =>
            if 0xDC00 <= lo < 0xE000
            then Some(((0x1_0000 + (hi - 0xD800) * 0x400 + (lo - 0xDC00)) as char, 11))
            else None
  }

  /** The string up to its closing quote, and what follows the quote. */
  function ReadString(s: string): Option<(string, string)>
    decreases |s|
  {
    if s == "" then None
    else if s[0] == '"' then Some(("", s[1..]))
    else if s[0] == '\\' then
      match ReadEscape(s[1..])
      case None => None
      case Some((c, n)) =>
        if |s| < 1 + n then None
        else Prepend(c, ReadString(s[1 + n..]))
    else if s[0] as int < 32 then None
    else Prepend(s[0], ReadString(s[1..]))
  }

  function Prepend(c: char, r: Option<(string, string)>): Option<(string, string)> {
    match r
    case None => None
    case Some((t, rest)) => Some(([c] + t, rest))
  }

  lemma {:induction false} HexDigitReads(n: int)
    requires 0 <= n < 16
    ensures HexValue(HexDigit(n)) == Some(n)
  {
  }

  lemma {:induction false} HexRoundTrip(n: int, rest: string)
    requires 0 <= n < 0x1_0000
    ensures ReadHex4(Hex4(n) + rest) == Some(n)
  {
    var n1 := n / 0x10;
    var n2 := n1 / 0x10;
    var n3 := n2 / 0x10;
    HexDigitReads(n3);
    HexDigitReads(n2 % 0x10);
    HexDigitReads(n1 % 0x10);
    HexDigitReads(n % 0x10);
  }

  /** A backslash and a readable escape read as that escape's character. */
  lemma {:induction false} EscapedReads(u: string, c: char, n: nat, s: string)
    requires ReadEscape(u) == Some((c, n)) && n <= |u| && u[n..] == s
    ensures ReadString("\\" + u) == Prepend(c, ReadString(s))
  {
    var t := "\\" + u;
    assert t[1..] == u && t[1 + n..] == s;
  }

  lemma {:induction false} UnicodeEscapeReads(n: int, s: string)
    requires 0 <= n < 0x1_0000 && !(0xD800 <= n < 0xE000)
    ensures ReadEscape("u" + Hex4(n) + s) == Some((n as char, 5))
  {
    var u := "u" + Hex4(n) + s;
    assert u[1..] == Hex4(n) + s;
    HexRoundTrip(n, s);
  }

  /** A high and a low surrogate read as the one character they stand for. */
  lemma {:induction false} SurrogatesRead(hi: int, lo: int, s: string)
    requires 0xD800 <= hi < 0xDC00 <= lo < 0xE000
    ensures ReadEscape("u" + Hex4(hi) + "\\u" + Hex4(lo) + s)
            == Some(((0x1_0000 + (hi - 0xD800) * 0x400 + (lo - 0xDC00)) as char, 11))
  {
    var u := "u" + Hex4(hi) + "\\u" + Hex4(lo) + s;
    assert u[1..] == Hex4(hi) + ("\\u" + Hex4(lo) + s);
    HexRoundTrip(hi, "\\u" + Hex4(lo) + s);
    assert u[7..] == Hex4(lo) + s;
    HexRoundTrip(lo, s);
    assert u[5] == '\\' && u[6] == 'u';
  }

  /** A character with an escape of its own. */
  predicate IsShort(c: char) {
    c == '"' || c == '\\' || c == '\n' || c == '\r' || c == '\t' || c as int == 8 || c as int == 12
  }

  lemma {:induction false} ShortEscapeReads(c: char, s: string)
    requires IsShort(c)
    ensures ReadString(EscapeChar(c) + s) == Prepend(c, ReadString(s))
  {
    var e := EscapeChar(c)[1];
    var u := [e] + s;
    assert EscapeChar(c) + s == "\\" + u;
    assert u[1..] == s;
    EscapedReads(u, c, 1, s);
  }

  lemma {:induction false} PlainReads(c: char, s: string)
    requires c != '"' && c != '\\' && 32 <= c as int
    ensures ReadString([c] + s) == Prepend(c, ReadString(s))
  {
    assert ([c] + s)[1..] == s;
  }

  /** Whatever a character is escaped to, reading gives the character back. */
  lemma {:induction false} EscapeCharReads(c: char, s: string)
    ensures ReadString(EscapeChar(c) + s) == Prepend(c, ReadString(s))
  {
    if IsShort(c) {
      ShortEscapeReads(c, s);
    } else if 32 <= c as int <= 126 {
      PlainReads(c, s);
    } else {
      LongEscapeReads(c, s);
    }
  }

  lemma {:induction false} PairShape(hi: string, lo: string, s: string)
    requires |hi| == 4 && |lo| == 4
    ensures var u := "u" + hi + "\\u" + lo + s;
            "\\u" + hi + "\\u" + lo + s == "\\" + u && |u| >= 11 && u[11..] == s
  {
  }

  lemma {:induction false} PairReads(v: int, s: string)
    requires 0 <= v < 0x10_0000
    ensures ReadString(SurrogatePair(v) + s) == Prepend((0x1_0000 + v) as char, ReadString(s))
  {
    var hi, lo := High(v), Low(v);
    SurrogatesRead(hi, lo, s);
    PairShape(Hex4(hi), Hex4(lo), s);
    EscapedReads("u" + Hex4(hi) + "\\u" + Hex4(lo) + s, (0x1_0000 + v) as char, 11, s);
  }

  lemma {:induction false} BasicEscapeReads(n: int, s: string)
    requires 0 <= n < 0x1_0000 && !(0xD800 <= n < 0xE000)
    ensures ReadString("\\u" + Hex4(n) + s) == Prepend(n as char, ReadString(s))
  {
    var u := "u" + Hex4(n) + s;
    UnicodeEscapeReads(n, s);
    assert u[5..] == s && "\\u" + Hex4(n) + s == "\\" + u;
    EscapedReads(u, n as char, 5, s);
  }

  lemma {:induction false} LongEscapeReads(c: char, s: string)
    requires !(32 <= c as int <= 126) && c != '\n' && c != '\r' && c != '\t' && c as int != 8 && c as int != 12
    ensures ReadString(EscapeChar(c) + s) == Prepend(c, ReadString(s))
  {
    var n := c as int;
    if n < 0x1_0000 {
      BasicEscapeReads(n, s);
    } else {
      PairReads(n - 0x1_0000, s);
    }
  }

  /** Reading an escaped string up to its quote gives the string back, with the rest untouched. */
  lemma {:induction false} EscapeRoundTrip(t: string, rest: string)
    ensures ReadString(Escape(t) + "\"" + rest) == Some((t, rest))
  {
    if t == "" {
      assert Escape(t) + "\"" + rest == "\"" + rest;
    } else {
      var s := Escape(t[1..]) + "\"" + rest;
      assert Escape(t) + "\"" + rest == EscapeChar(t[0]) + s;
      EscapeCharReads(t[0], s);
      EscapeRoundTrip(t[1..], rest);
      assert [t[0]] + t[1..] == t;
    }
  }

  // ---------- objects ----------

  type Members = seq<(string, string)>

  function DumpsMember(m: (string, string)): string {
    "\"" + Escape(m.0) + "\": \"" + Escape(m.1) + "\""
  }

  /** The members after the opening brace, up to and including the closing one. */
  function DumpsRest(ms: Members): string {
    if ms == [] then "}"
    else if |ms| == 1 then DumpsMember(ms[0]) + "}"
    else DumpsMember(ms[0]) + ", " + DumpsRest(ms[1..])
  }

  /** `json.dumps` of a dictionary of strings. */
  function Dumps(ms: Members): string {
    "{" + DumpsRest(ms)
  }

  /** The separators of `json.dumps`: a colon or a comma, each with one blank after it. */
  lemma {:induction false} DumpsMeans(ms: Members)
    requires ms != []
    ensures DumpsRest(ms) == "\"" + Escape(ms[0].0) + "\": \"" + Escape(ms[0].1) + "\""
                             + if |ms| == 1 then "}" else ", " + DumpsRest(ms[1..])
    ensures Dumps(ms) == "{" + DumpsRest(ms)
  {
    assert DumpsMember(ms[0]) + ", " + DumpsRest(ms[1..]) == DumpsMember(ms[0]) + (", " + DumpsRest(ms[1..]));
  }

  lemma {:induction false} EscapeAppend(s: string, c: char)
    ensures Escape(s + [c]) == Escape(s) + EscapeChar(c)
    ensures s == "" ==> Escape(s) == ""
  {
    if s == "" {
      assert s + [c] == [c] && [c][1..] == "";
    } else {
      assert (s + [c])[1..] == s[1..] + [c];
      EscapeAppend(s[1..], c);
    }
  }

  function ReadQuoted(s: string): (r: Option<(string, string)>)
    ensures r.Some? ==> |r.value.1| < |s|
  {
    if s != "" && s[0] == '"' then
      ReadStringShrinks(s[1..]);
      ReadString(s[1..])
    else None
  }

  lemma {:induction false} ReadStringShrinks(s: string)
    ensures ReadString(s).Some? ==> |ReadString(s).value.1| < |s|
    decreases |s|
  {
    if s != "" && s[0] != '"' {
      if s[0] == '\\' {
        var e := ReadEscape(s[1..]);
        if e.Some? && 1 + e.value.1 <= |s| { ReadStringShrinks(s[1 + e.value.1..]); }
      } else {
        ReadStringShrinks(s[1..]);
      }
    }
  }

  function ReadMember(s: string): (r: Option<((string, string), string)>)
    ensures r.Some? ==> |r.value.1| < |s|
  {
    match ReadQuoted(s)
    case None => None
    case Some((k, r)) =>
      if !(": " <= r) then None
      else match ReadQuoted(r[2..])
        case None => None
        case Some((v, rest)) => Some(((k, v), rest))
  }

  function ReadRest(s: string): Option<Members>
    decreases |s|
  {
    if s == "}" then Some([])
    else match ReadMember(s)
      case None => None
      case Some((m, r)) =>
        if r == "}" then Some([m])
        else if ", " <= r then
          match ReadRest(r[2..])
          case None => None
          case Some(ms) => Some([m] + ms)
        else None
  }

  /** A reader of what `Dumps` writes. */
  function ReadObject(s: string): Option<Members> {
    if s == "" || s[0] != '{' then None else ReadRest(s[1..])
  }

  lemma {:induction false} QuotedRoundTrip(t: string, rest: string)
    ensures ReadQuoted("\"" + Escape(t) + "\"" + rest) == Some((t, rest))
  {
    var s := "\"" + Escape(t) + "\"" + rest;
    assert s[1..] == Escape(t) + "\"" + rest;
    EscapeRoundTrip(t, rest);
  }

  lemma {:induction false} MemberReads(s: string, k: string, r: string, v: string, rest: string)
    requires ReadQuoted(s) == Some((k, ": " + r)) && ReadQuoted(r) == Some((v, rest))
    ensures ReadMember(s) == Some(((k, v), rest))
  {
    assert (": " + r)[2..] == r;
  }

  lemma {:induction false} MemberRoundTrip(m: (string, string), rest: string)
    ensures ReadMember(DumpsMember(m) + rest) == Some((m, rest))
  {
    var value := "\"" + Escape(m.1) + "\"" + rest;
    assert DumpsMember(m) + rest == "\"" + Escape(m.0) + "\"" + (": " + value);
    QuotedRoundTrip(m.0, ": " + value);
    QuotedRoundTrip(m.1, rest);
    MemberReads(DumpsMember(m) + rest, m.0, value, m.1, rest);
  }

  lemma {:induction false} OneMember(ms: Members)
    requires |ms| == 1
    ensures ReadRest(DumpsRest(ms)) == Some(ms)
  {
    MemberRoundTrip(ms[0], "}");
    assert ms == [ms[0]];
  }

  /** Reading on past a member and a comma; the opening quote tells the text from a closing brace. */
  lemma {:induction false} RestReads(s: string, m: (string, string), tail: string, ms: Members)
    requires s != "}" && ReadMember(s) == Some((m, ", " + tail)) && ReadRest(tail) == Some(ms)
    ensures ReadRest(s) == Some([m] + ms)
  {
    var rest := ", " + tail;
    assert rest[0] == ',' && rest[2..] == tail;
  }

  lemma {:induction false} MoreMembers(ms: Members)
    requires |ms| > 1 && ReadRest(DumpsRest(ms[1..])) == Some(ms[1..])
    ensures ReadRest(DumpsRest(ms)) == Some(ms)
  {
    var tail := DumpsRest(ms[1..]);
    var s := DumpsMember(ms[0]) + (", " + tail);
    assert DumpsRest(ms) == s;
    assert s[0] == '"';
    MemberRoundTrip(ms[0], ", " + tail);
    RestReads(s, ms[0], tail, ms[1..]);
    assert ms == [ms[0]] + ms[1..];
  }

  lemma {:induction false} RestRoundTrip(ms: Members)
    ensures ReadRest(DumpsRest(ms)) == Some(ms)
  {
    if |ms| == 1 {
      OneMember(ms);
    } else if |ms| > 1 {
      RestRoundTrip(ms[1..]);
      MoreMembers(ms);
    }
  }

  /** Any dictionary of strings is read back as it was written. */
  lemma {:induction false} DumpsRoundTrip(ms: Members)
    ensures ReadObject(Dumps(ms)) == Some(ms)
  {
    assert Dumps(ms)[1..] == DumpsRest(ms);
    RestRoundTrip(ms);
  }

  // ---------- what the text looks like ----------

  predicate Printable(s: string) {
    forall i :: 0 <= i < |s| ==> 32 <= s[i] as int <= 126
  }

  lemma {:induction false} PrintableAppend(a: string, b: string)
    requires Printable(a) && Printable(b)
    ensures Printable(a + b)
  {
  }

  lemma {:induction false} Hex4Printable(n: int)
    requires 0 <= n < 0x1_0000
    ensures Printable(Hex4(n))
  {
  }

  lemma {:induction false} SurrogatePairPrintable(v: int)
    requires 0 <= v < 0x10_0000
    ensures Printable(SurrogatePair(v))
  {
    Hex4Printable(High(v));
    Hex4Printable(Low(v));
    PrintableAppend("\\u", Hex4(High(v)));
    PrintableAppend("\\u" + Hex4(High(v)), "\\u");
    PrintableAppend("\\u" + Hex4(High(v)) + "\\u", Hex4(Low(v)));
  }

  lemma {:induction false} EscapeCharPrintable(c: char)
    ensures Printable(EscapeChar(c))
  {
    var n := c as int;
    if n >= 0x1_0000 {
      SurrogatePairPrintable(n - 0x1_0000);
    } else if n < 32 || n > 126 {
      Hex4Printable(n);
      PrintableAppend("\\u", Hex4(n));
    }
  }

  lemma {:induction false} EscapePrintable(s: string)
    ensures Printable(Escape(s))
  {
    if s != "" {
      EscapeCharPrintable(s[0]);
      EscapePrintable(s[1..]);
      PrintableAppend(EscapeChar(s[0]), Escape(s[1..]));
    }
  }

  lemma {:induction false} MemberPrintable(m: (string, string))
    ensures Printable(DumpsMember(m))
  {
    EscapePrintable(m.0);
    EscapePrintable(m.1);
    PrintableAppend("\"", Escape(m.0));
    PrintableAppend("\"" + Escape(m.0), "\": \"");
    PrintableAppend("\"" + Escape(m.0) + "\": \"", Escape(m.1));
    PrintableAppend("\"" + Escape(m.0) + "\": \"" + Escape(m.1), "\"");
  }

  lemma {:induction false} RestPrintable(ms: Members)
    ensures Printable(DumpsRest(ms))
    ensures DumpsRest(ms) != "" && DumpsRest(ms)[|DumpsRest(ms)| - 1] == '}'
  {
    if |ms| == 1 {
      MemberPrintable(ms[0]);
      PrintableAppend(DumpsMember(ms[0]), "}");
    } else if |ms| > 1 {
      MemberPrintable(ms[0]);
      RestPrintable(ms[1..]);
      PrintableAppend(DumpsMember(ms[0]), ", ");
      PrintableAppend(DumpsMember(ms[0]) + ", ", DumpsRest(ms[1..]));
    }
  }

  /** However wild the strings, the text has no line break or other control character,
      and starts and ends with its braces. */
  lemma {:induction false} DumpsIsOneLine(ms: Members)
    ensures Printable(Dumps(ms)) && |Dumps(ms)| >= 2
    ensures Dumps(ms)[0] == '{' && Dumps(ms)[|Dumps(ms)| - 1] == '}'
  {
    RestPrintable(ms);
  }
}
