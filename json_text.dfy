/** Python's `json.dumps` of a list of strings with its default settings:
    items separated by `", "`, and every string escaped so that the text
    is plain printable ASCII (`ensure_ascii`). A small JSON string decoder
    is the reference the escaping is checked against. */
module JsonText {
  import opened Wrappers
  import opened Strings

  // ---- Encoding ----

  function HexDigit(d: nat): (c: char)
    requires d < 16
    ensures ' ' <= c <= '~'
  {
    "0123456789abcdef"[d]
  }

  /** Four lower-case hex digits, as `'{0:04x}'` prints them. */
  function Hex4(n: nat): (r: string)
    requires n < 0x1_0000
    ensures |r| == 4 && forall i :: 0 <= i < 4 ==> ' ' <= r[i] <= '~'
  {
    var n1 := n / 16;
    var n2 := n1 / 16;
    [HexDigit(n2 / 16), HexDigit(n2 % 16), HexDigit(n1 % 16), HexDigit(n % 16)]
  }

  /** A character printed as itself: the printable ASCII range without the
      quote and the backslash. */
  predicate Literal(c: char) {
    ' ' <= c <= '~' && c != '"' && c != '\\'
  }

  /** The escape of one character: itself when literal, a two-character
      escape for the quote, the backslash and five control characters,
      otherwise `\uXXXX`, as a surrogate pair above the Basic Multilingual
      Plane. */
  function EscapeChar(c: char): (r: string)
    ensures |r| >= 1 && (|r| == 1 <==> Literal(c))
    ensures Literal(c) ==> r == [c]
  {
    if c == '"' then "\\\""
    else if c == '\\' then "\\\\"
    else if c == '\n' then "\\n"
    else if c == '\r' then "\\r"
    else if c == '\t' then "\\t"
    else if c == '\U{8}' then "\\b"
    else if c == '\U{c}' then "\\f"
    else if ' ' <= c <= '~' then [c]
    else
      var n := c as int;
      if n < 0x1_0000 then "\\u" + Hex4(n)
      else "\\u" + Hex4(HighHalf(n)) + "\\u" + Hex4(LowHalf(n))
  }

  /** The high surrogate of a code point beyond the Basic Multilingual
      Plane. */
  function HighHalf(n: int): (h: nat)
    requires 0x1_0000 <= n < 0x11_0000
    ensures h < 0x1_0000
  {
    0xD800 + (n - 0x1_0000) / 1024
  }

  /** The low surrogate of such a code point. */
  function LowHalf(n: int): (l: nat)
    requires 0x1_0000 <= n < 0x11_0000
    ensures l < 0x1_0000
  {
    0xDC00 + (n - 0x1_0000) % 1024
  }

  function Escape(s: string): string {
    if s == [] then [] else EscapeChar(s[0]) + Escape(s[1..])
  }

  /** One JSON string literal. */
  function JsonString(s: string): string {
    "\"" + Escape(s) + "\""
  }

  /** `json.dumps` of a list of strings. */
  function JsonList(items: seq<string>): string {
    "[" + Join(seq(|items|, i requires 0 <= i < |items| => JsonString(items[i])), ", ") + "]"
  }

  // ---- Decoding ----

  function HexValue(c: char): Option<nat> {
    if '0' <= c <= '9' then Some(c as int - '0' as int)
    else if 'a' <= c <= 'f' then Some(c as int - 'a' as int + 10)
    else if 'A' <= c <= 'F' then Some(c as int - 'A' as int + 10)
    else None
  }

  function ParseHex4(s: string): (r: Option<nat>)
    requires |s| == 4
    ensures r.Some? ==> r.value < 0x1_0000
  {
    match (HexValue(s[0]), HexValue(s[1]), HexValue(s[2]), HexValue(s[3]))
    case (Some(a), Some(b), Some(c), Some(d)) =>
      if a < 16 && b < 16 && c < 16 && d < 16 then Some(((a * 16 + b) * 16 + c) * 16 + d) else None
    case _ => None
  }

  function Prepend(c: char, rest: Option<string>): Option<string> {
    match rest
    case Some(s) => Some([c] + s)
    case None => None
  }

  /** A short escape's character. */
  function ShortEscape(e: char): Option<char> {
    if e == '"' then Some('"')
    else if e == '\\' then Some('\\')
    else if e == '/' then Some('/')
    else if e == 'n' then Some('\n')
    else if e == 'r' then Some('\r')
    else if e == 't' then Some('\t')
    else if e == 'b' then Some('\U{8}')
    else if e == 'f' then Some('\U{c}')
    else None
  }

  predicate HighSurrogate(h: nat) { 0xD800 <= h < 0xDC00 }
  predicate LowSurrogate(l: nat) { 0xDC00 <= l < 0xE000 }

  /** The contents of a JSON string literal, between its quotes. */
  function Unescape(t: string): Option<string>
    decreases |t|
  {
    if t == [] then Some([])
    else if t[0] == '"' then None
    else if t[0] != '\\' then Prepend(t[0], Unescape(t[1..]))
    else if |t| < 2 then None
    else if t[1] != 'u' then
      match ShortEscape(t[1])
      case Some(c) => Prepend(c, Unescape(t[2..]))
      case None => None
    else if |t| < 6 then None
    else
      match ParseHex4(t[2..6])
      case None => None
      case Some(h) =>
        if HighSurrogate(h) then
          if |t| >= 12 && t[6] == '\\' && t[7] == 'u' && ParseHex4(t[8..12]).Some?
             && LowSurrogate(ParseHex4(t[8..12]).value) then
            var n := (h - 0xD800) * 1024 + (ParseHex4(t[8..12]).value - 0xDC00) + 0x1_0000;
            Prepend(n as char, Unescape(t[12..]))
          else None
        else if LowSurrogate(h) then None
        else Prepend(h as char, Unescape(t[6..]))
  }

  // ---- Properties ----

  lemma HexRoundTrip(n: nat)
    requires n < 0x1_0000
    ensures ParseHex4(Hex4(n)) == Some(n)
  {
    var n1 := n / 16;
    var n2 := n1 / 16;
    HexDigitValue(n2 / 16);
    HexDigitValue(n2 % 16);
    HexDigitValue(n1 % 16);
    HexDigitValue(n % 16);
    assert n2 == n2 / 16 * 16 + n2 % 16;
    assert n1 == n2 * 16 + n1 % 16;
    assert n == n1 * 16 + n % 16;
  }

  lemma HexDigitValue(d: nat)
    requires d < 16
    ensures HexValue(HexDigit(d)) == Some(d)
  {
    var digits := "0123456789abcdef";
    if d < 10 {
      assert digits[d] as int == '0' as int + d;
    } else {
      assert digits[d] as int == 'a' as int + d - 10;
    }
  }

  /** Reading one escaped character back, whatever follows it. */
  lemma UnescapeChar(c: char, rest: string)
    ensures Unescape(EscapeChar(c) + rest) == Prepend(c, Unescape(rest))
  {
    var t := EscapeChar(c) + rest;
    if c == '"' || c == '\\' || c == '\n' || c == '\r' || c == '\t' || c == '\U{8}' || c == '\U{c}' {
      UnescapeShort(c, rest);
    } else if ' ' <= c <= '~' {
      assert t[1..] == rest;
    } else if c as int < 0x1_0000 {
      UnescapeBmp(c, rest);
    } else {
      UnescapePair(c, rest);
    }
  }

  lemma UnescapeShort(c: char, rest: string)
    requires c == '"' || c == '\\' || c == '\n' || c == '\r' || c == '\t' || c == '\U{8}' || c == '\U{c}'
    ensures Unescape(EscapeChar(c) + rest) == Prepend(c, Unescape(rest))
  {
    var t := EscapeChar(c) + rest;
    assert t[0] == '\\' && t[1] != 'u' && ShortEscape(t[1]) == Some(c);
    assert t[2..] == rest;
  }

  lemma UnescapeBmp(c: char, rest: string)
    requires !(' ' <= c <= '~') && c != '\n' && c != '\r' && c != '\t' && c != '\U{8}' && c != '\U{c}'
    requires c as int < 0x1_0000
    ensures Unescape(EscapeChar(c) + rest) == Prepend(c, Unescape(rest))
  {
    var n := c as int;
    var t := EscapeChar(c) + rest;
    EscapeCharBmp(c);
    HexRoundTrip(n);
    assert t[2..6] == Hex4(n);
    assert t[6..] == rest;
  }

  lemma UnescapePair(c: char, rest: string)
    requires c as int >= 0x1_0000
    ensures Unescape(EscapeChar(c) + rest) == Prepend(c, Unescape(rest))
  {
    var n := c as int;
    SurrogateSplit(n);
    var h, l := HighHalf(n), LowHalf(n);
    assert EscapeChar(c) == "\\u" + Hex4(h) + "\\u" + Hex4(l);
    UnescapeSurrogates(h, l, rest);
  }

  /** Splitting a code point into its two surrogates and joining them
      back. */
  lemma SurrogateSplit(n: int)
    requires 0x1_0000 <= n < 0x11_0000
    ensures HighSurrogate(HighHalf(n)) && LowSurrogate(LowHalf(n))
    ensures (HighHalf(n) - 0xD800) * 1024 + (LowHalf(n) - 0xDC00) + 0x1_0000 == n
  {
    var m := n - 0x1_0000;
    assert (m / 1024) * 1024 + m % 1024 == m;
  }

  /** The escape of any other character without a short escape. */
  lemma EscapeCharBmp(c: char)
    requires !(' ' <= c <= '~') && c != '\n' && c != '\r' && c != '\t' && c != '\U{8}' && c != '\U{c}'
    requires c as int < 0x1_0000
    ensures EscapeChar(c) == "\\u" + Hex4(c as int)
  {
  }

  /** A surrogate pair decodes to the character it encodes. */
  lemma UnescapeSurrogates(h: nat, l: nat, rest: string)
    requires HighSurrogate(h) && LowSurrogate(l)
    ensures Unescape("\\u" + Hex4(h) + "\\u" + Hex4(l) + rest)
            == Prepend(((h - 0xD800) * 1024 + (l - 0xDC00) + 0x1_0000) as char, Unescape(rest))
  {
    var t := "\\u" + Hex4(h) + "\\u" + Hex4(l) + rest;
    HexRoundTrip(h);
    HexRoundTrip(l);
    assert t[2..6] == Hex4(h);
    assert t[6] == '\\' && t[7] == 'u';
    assert t[8..12] == Hex4(l);
    assert t[12..] == rest;
  }

  /** Decoding an escaped string gives back the string. */
  lemma {:induction false} EscapeRoundTrip(s: string)
    ensures Unescape(Escape(s)) == Some(s)
  {
    if s != [] {
      EscapeRoundTrip(s[1..]);
      UnescapeChar(s[0], Escape(s[1..]));
      assert [s[0]] + s[1..] == s;
    }
  }

  /** Every character is printable ASCII. */
  predicate Printable(s: string) {
    forall i :: 0 <= i < |s| ==> ' ' <= s[i] <= '~'
  }

  lemma PrintableAppend(a: string, b: string)
    requires Printable(a) && Printable(b)
    ensures Printable(a + b)
  {
    forall i | 0 <= i < |a + b| ensures ' ' <= (a + b)[i] <= '~' {
      if i >= |a| {
        assert (a + b)[i] == b[i - |a|];
      }
    }
  }

  /** The escaped text is printable ASCII (what `ensure_ascii` promises). */
  lemma {:induction false} EscapeIsAscii(s: string)
    ensures Printable(Escape(s))
  {
    if s != [] {
      EscapeIsAscii(s[1..]);
      EscapeCharIsAscii(s[0]);
      PrintableAppend(EscapeChar(s[0]), Escape(s[1..]));
    }
  }

  lemma EscapeCharIsAscii(c: char)
    ensures Printable(EscapeChar(c))
  {
    if !(' ' <= c <= '~') && c != '\n' && c != '\r' && c != '\t' && c != '\U{8}' && c != '\U{c}' {
      if c as int < 0x1_0000 {
        EscapeCharBmp(c);
        PrintableAppend("\\u", Hex4(c as int));
      } else {
        WideEscapeIsAscii(c);
      }
    }
  }

  lemma WideEscapeIsAscii(c: char)
    requires c as int >= 0x1_0000
    ensures Printable(EscapeChar(c))
  {
    var h := Hex4(HighHalf(c as int));
    var l := Hex4(LowHalf(c as int));
    assert EscapeChar(c) == "\\u" + h + "\\u" + l;
    PrintableAppend("\\u", h);
    PrintableAppend("\\u" + h, "\\u");
    PrintableAppend("\\u" + h + "\\u", l);
  }

  /** A string is printed as itself exactly when every character is
      literal. */
  lemma {:induction false} EscapeIdentity(s: string)
    ensures Escape(s) == s <==> forall i :: 0 <= i < |s| ==> Literal(s[i])
  {
    EscapeLength(s);
    if s != [] {
      EscapeIdentity(s[1..]);
      EscapeLength(s[1..]);
      if Literal(s[0]) {
        assert forall i :: 1 <= i < |s| ==> s[1..][i - 1] == s[i];
        if Escape(s) == s {
          assert Escape(s[1..]) == Escape(s)[1..] == s[1..];
        }
      }
    }
  }

  /** Escaping never shortens; only literal characters keep their length. */
  lemma {:induction false} EscapeLength(s: string)
    ensures |Escape(s)| >= |s|
    ensures |Escape(s)| == |s| ==> forall i :: 0 <= i < |s| ==> Literal(s[i])
  {
    if s != [] {
      EscapeLength(s[1..]);
      assert forall i :: 1 <= i < |s| ==> s[1..][i - 1] == s[i];
    }
  }
}
