/** A small regular-expression matcher, enough to state the identifier
    patterns of the replica-set model exactly as they are written, and lemmas
    that turn those patterns into plain statements about characters. */
module Regex {

  /** The character classes the patterns use: `[a-z]`, `\d`, `[a-z0-9]`,
      `[a-z0-9\-]` and a literal character. In a `str` pattern without
      `re.ASCII`, `\d` is every Unicode decimal digit (category Nd). */
  datatype CharClass = LowerAlpha | Decimal | LowerAlnum | LowerAlnumHyphen | Literal(c: char)

  /** `n` is one of the ten code points from `zero` on. */
  predicate InBlock(n: int, zero: int) {
    zero <= n < zero + 10
  }

  /** Category Nd (Unicode 15.0): the ten-digit blocks, each given by the
      code point of its digit zero. */
  predicate IsDecimal(c: char) {
    var n := c as int;
    InBlock(n, 0x30) || InBlock(n, 0x660) || InBlock(n, 0x6F0) || InBlock(n, 0x7C0) || InBlock(n, 0x966) ||
    InBlock(n, 0x9E6) || InBlock(n, 0xA66) || InBlock(n, 0xAE6) || InBlock(n, 0xB66) || InBlock(n, 0xBE6) ||
    InBlock(n, 0xC66) || InBlock(n, 0xCE6) || InBlock(n, 0xD66) || InBlock(n, 0xDE6) || InBlock(n, 0xE50) ||
    InBlock(n, 0xED0) || InBlock(n, 0xF20) || InBlock(n, 0x1040) || InBlock(n, 0x1090) || InBlock(n, 0x17E0) ||
    InBlock(n, 0x1810) || InBlock(n, 0x1946) || InBlock(n, 0x19D0) || InBlock(n, 0x1A80) || InBlock(n, 0x1A90) ||
    InBlock(n, 0x1B50) || InBlock(n, 0x1BB0) || InBlock(n, 0x1C40) || InBlock(n, 0x1C50) || InBlock(n, 0xA620) ||
    InBlock(n, 0xA8D0) || InBlock(n, 0xA900) || InBlock(n, 0xA9D0) || InBlock(n, 0xA9F0) || InBlock(n, 0xAA50) ||
    InBlock(n, 0xABF0) || InBlock(n, 0xFF10) || InBlock(n, 0x104A0) || InBlock(n, 0x10D30) || InBlock(n, 0x11066) ||
    InBlock(n, 0x110F0) || InBlock(n, 0x11136) || InBlock(n, 0x111D0) || InBlock(n, 0x112F0) || InBlock(n, 0x11450) ||
    InBlock(n, 0x114D0) || InBlock(n, 0x11650) || InBlock(n, 0x116C0) || InBlock(n, 0x11730) || InBlock(n, 0x118E0) ||
    InBlock(n, 0x11950) || InBlock(n, 0x11C50) || InBlock(n, 0x11D50) || InBlock(n, 0x11DA0) || InBlock(n, 0x11F50) ||
    InBlock(n, 0x16A60) || InBlock(n, 0x16AC0) || InBlock(n, 0x16B50) || InBlock(n, 0x1D7CE) || InBlock(n, 0x1D7D8) ||
    InBlock(n, 0x1D7E2) || InBlock(n, 0x1D7EC) || InBlock(n, 0x1D7F6) || InBlock(n, 0x1E140) || InBlock(n, 0x1E2F0) ||
    InBlock(n, 0x1E4F0) || InBlock(n, 0x1E950) || InBlock(n, 0x1FBF0)
  }

  /** No decimal digit lies below `0`, and the ASCII ones are `0`..`9`. */
  lemma DecimalBounds(c: char)
    requires IsDecimal(c)
    ensures c >= '0'
    ensures c as int < 0x80 ==> c <= '9'
  {
  }

  predicate InClass(c: char, k: CharClass) {
    match k
    case LowerAlpha => 'a' <= c <= 'z'
    case Decimal => IsDecimal(c)
    case LowerAlnum => 'a' <= c <= 'z' || '0' <= c <= '9'
    case LowerAlnumHyphen => 'a' <= c <= 'z' || '0' <= c <= '9' || c == '-'
    case Literal(x) => c == x
  }

  predicate AllIn(s: string, k: CharClass) {
    forall i :: 0 <= i < |s| ==> InClass(s[i], k)
  }

  /** `Star(r)` is `r*`; `UpTo(r, n)` is `r{0,n}`. */
  datatype Regex =
    | Char(k: CharClass)
    | Cat(first: Regex, second: Regex)
    | Star(body: Regex)
    | UpTo(body: Regex, max: nat)

  function Size(r: Regex): nat {
    match r
    case Char(_) => 1
    case Cat(a, b) => Size(a) + Size(b) + 1
    case Star(b) => Size(b) + 1
    case UpTo(b, n) => Size(b) + n + 1
  }

  /** `r` matches the whole of `s`. Repetitions only count non-empty rounds,
      which accepts the same strings as counting empty ones too. */
  predicate Matches(r: Regex, s: string)
    decreases Size(r), |s|
  {
    match r
    case Char(k) => |s| == 1 && InClass(s[0], k)
    case Cat(a, b) => exists i :: 0 <= i <= |s| && Matches(a, s[..i]) && Matches(b, s[i..])
    case Star(b) => s == [] || exists i :: 0 < i <= |s| && Matches(b, s[..i]) && Matches(Star(b), s[i..])
    case UpTo(b, n) =>
      s == [] || (n > 0 && exists i :: 0 < i <= |s| && Matches(b, s[..i]) && Matches(UpTo(b, n - 1), s[i..]))
  }

  /** `r+` */
  function Plus(r: Regex): Regex { Cat(r, Star(r)) }

  /** `r?` */
  function Optional(r: Regex): Regex { UpTo(r, 1) }

  /** `r{lo,hi}` */
  function Repeat(r: Regex, lo: nat, hi: nat): Regex
    requires lo <= hi
  {
    if lo == 0 then UpTo(r, hi) else Cat(r, Repeat(r, lo - 1, hi - 1))
  }

  /** What `re.match(r'^' + p + r'$', s)` accepts: `$` also matches just
      before a final newline. */
  predicate PythonFullMatch(r: Regex, s: string) {
    Matches(r, s) || (|s| > 0 && s[|s| - 1] == '\n' && Matches(r, s[..|s| - 1]))
  }

  // ---- Lemmas that take patterns apart ----

  /** A pattern that starts with one class character. */
  lemma CatCharFirst(k: CharClass, r: Regex, s: string)
    ensures Matches(Cat(Char(k), r), s) <==> |s| >= 1 && InClass(s[0], k) && Matches(r, s[1..])
  {
    if |s| >= 1 && InClass(s[0], k) && Matches(r, s[1..]) {
      assert Matches(Char(k), s[..1]);
    }
  }

  /** A pattern that ends with one class character. */
  lemma CatCharLast(r: Regex, k: CharClass, s: string)
    ensures Matches(Cat(r, Char(k)), s) <==> |s| >= 1 && Matches(r, s[..|s| - 1]) && InClass(s[|s| - 1], k)
  {
    if |s| >= 1 && Matches(r, s[..|s| - 1]) && InClass(s[|s| - 1], k) {
      assert Matches(Char(k), s[|s| - 1..]);
    }
  }

  /** `c*` accepts exactly the strings made of class characters. */
  lemma {:induction false} StarClass(k: CharClass, s: string)
    ensures Matches(Star(Char(k)), s) <==> AllIn(s, k)
    decreases |s|
  {
    if s != [] {
      StarClass(k, s[1..]);
      if AllIn(s, k) {
        assert Matches(Char(k), s[..1]);
        assert AllIn(s[1..], k);
      }
      if Matches(Star(Char(k)), s) {
        var i :| 0 < i <= |s| && Matches(Char(k), s[..i]) && Matches(Star(Char(k)), s[i..]);
        assert i == 1;
        assert forall j :: 1 <= j < |s| ==> s[j] == s[1..][j - 1];
      }
    }
  }

  /** `c+` accepts exactly the non-empty strings of class characters. */
  lemma PlusClass(k: CharClass, s: string)
    ensures Matches(Plus(Char(k)), s) <==> |s| >= 1 && AllIn(s, k)
  {
    CatCharFirst(k, Star(Char(k)), s);
    if |s| >= 1 {
      StarClass(k, s[1..]);
      assert AllIn(s, k) <==> InClass(s[0], k) && AllIn(s[1..], k) by {
        assert forall j :: 1 <= j < |s| ==> s[j] == s[1..][j - 1];
      }
    }
  }

  /** `c{0,n}` accepts exactly the strings of at most `n` class characters. */
  lemma {:induction false} UpToClass(k: CharClass, n: nat, s: string)
    ensures Matches(UpTo(Char(k), n), s) <==> |s| <= n && AllIn(s, k)
    decreases n
  {
    if s != [] && n > 0 {
      UpToClass(k, n - 1, s[1..]);
      if |s| <= n && AllIn(s, k) {
        assert Matches(Char(k), s[..1]);
        assert AllIn(s[1..], k);
      }
      if Matches(UpTo(Char(k), n), s) {
        var i :| 0 < i <= |s| && Matches(Char(k), s[..i]) && Matches(UpTo(Char(k), n - 1), s[i..]);
        assert i == 1;
        assert forall j :: 1 <= j < |s| ==> s[j] == s[1..][j - 1];
      }
    }
  }

  /** `c{lo,hi}` accepts exactly the strings of class characters whose length
      is between `lo` and `hi`. */
  lemma {:induction false} RepeatClass(k: CharClass, lo: nat, hi: nat, s: string)
    requires lo <= hi
    ensures Matches(Repeat(Char(k), lo, hi), s) <==> lo <= |s| <= hi && AllIn(s, k)
    decreases lo
  {
    if lo == 0 {
      UpToClass(k, hi, s);
    } else {
      CatCharFirst(k, Repeat(Char(k), lo - 1, hi - 1), s);
      if |s| >= 1 {
        RepeatClass(k, lo - 1, hi - 1, s[1..]);
        assert AllIn(s, k) <==> InClass(s[0], k) && AllIn(s[1..], k) by {
          assert forall j :: 1 <= j < |s| ==> s[j] == s[1..][j - 1];
        }
      }
    }
  }

  /** `r?` accepts the empty string and whatever `r` accepts. */
  lemma OptionalMatches(r: Regex, s: string)
    ensures Matches(Optional(r), s) <==> s == [] || Matches(r, s)
  {
    if s != [] && Matches(r, s) {
      assert s[..|s|] == s;
      assert Matches(UpTo(r, 0), s[|s|..]);
    }
    if s != [] && Matches(Optional(r), s) {
      var i :| 0 < i <= |s| && Matches(r, s[..i]) && Matches(UpTo(r, 0), s[i..]);
      assert i == |s|;
      assert s[..i] == s;
    }
  }

  /** A `c+` piece in front of the rest of a pattern. */
  lemma PlusClassThen(k: CharClass, r: Regex, s: string)
    ensures Matches(Cat(Plus(Char(k)), r), s) <==>
              exists p :: 1 <= p <= |s| && AllIn(s[..p], k) && Matches(r, s[p..])
  {
    if Matches(Cat(Plus(Char(k)), r), s) {
      var p :| 0 <= p <= |s| && Matches(Plus(Char(k)), s[..p]) && Matches(r, s[p..]);
      PlusClass(k, s[..p]);
    }
    if exists p :: 1 <= p <= |s| && AllIn(s[..p], k) && Matches(r, s[p..]) {
      var p :| 1 <= p <= |s| && AllIn(s[..p], k) && Matches(r, s[p..]);
      PlusClass(k, s[..p]);
    }
  }
}
