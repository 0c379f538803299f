/** The parts of Rust's `str` API that the parsers rely on: `trim`,
    `split_once(' ')`, decimal rendering of integers and `len` (the UTF-8
    byte length). Strings are sequences of Unicode scalar values. */
module Text {
  import opened Wrappers

  /** `char::is_whitespace`: the Unicode White_Space property. */
  predicate IsWhitespace(c: char) {
    var n := c as int;
    (9 <= n <= 13) || n == 32 || n == 0x85 || n == 0xA0 || n == 0x1680
    || (0x2000 <= n <= 0x200A) || n == 0x2028 || n == 0x2029 || n == 0x202F
    || n == 0x205F || n == 0x3000
  }

  /** `str::trim_start`: drops leading whitespace. */
  function TrimStart(s: string): (r: string)
    ensures |r| <= |s| && r == s[|s| - |r|..]
    ensures |r| > 0 ==> !IsWhitespace(r[0])
    ensures forall i :: 0 <= i < |s| - |r| ==> IsWhitespace(s[i])
  {
    if |s| > 0 && IsWhitespace(s[0]) then TrimStart(s[1..]) else s
  }

  /** `str::trim_end`: drops trailing whitespace. */
  function TrimEnd(s: string): (r: string)
    ensures |r| <= |s| && r == s[..|r|]
    ensures |r| > 0 ==> !IsWhitespace(r[|r| - 1])
    ensures forall i :: |r| <= i < |s| ==> IsWhitespace(s[i])
  {
    if |s| > 0 && IsWhitespace(s[|s| - 1]) then TrimEnd(s[..|s| - 1]) else s
  }

  /** `str::trim`: the longest infix without whitespace at either end. */
  function Trim(s: string): (r: string)
  {
    TrimEnd(TrimStart(s))
  }

  /** The trimmed string has no whitespace at either end. */
  lemma TrimEdges(s: string)
    ensures |Trim(s)| > 0 ==> !IsWhitespace(Trim(s)[0]) && !IsWhitespace(Trim(s)[|Trim(s)| - 1])
  {
    var t := TrimStart(s);
    var r := TrimEnd(t);
    if |r| > 0 {
      assert r[0] == t[0];
    }
  }

  /** A string with no whitespace at its ends is its own trim. */
  lemma TrimNoEdgeSpace(s: string)
    requires |s| > 0 ==> !IsWhitespace(s[0]) && !IsWhitespace(s[|s| - 1])
    ensures Trim(s) == s
  {
  }

  /** Trimming twice is trimming once. */
  lemma TrimIdempotent(s: string)
    ensures Trim(Trim(s)) == Trim(s)
  {
    TrimEdges(s);
    TrimNoEdgeSpace(Trim(s));
  }

  predicate AllWhitespace(s: string) {
    forall i :: 0 <= i < |s| ==> IsWhitespace(s[i])
  }

  lemma {:induction false} TrimStartPadded(a: string, t: string)
    requires AllWhitespace(a)
    requires |t| > 0 && !IsWhitespace(t[0])
    ensures TrimStart(a + t) == t
    decreases |a|
  {
    if |a| > 0 {
      assert (a + t)[1..] == a[1..] + t;
      TrimStartPadded(a[1..], t);
    } else {
      assert a + t == t;
    }
  }

  lemma {:induction false} TrimEndPadded(t: string, b: string)
    requires AllWhitespace(b)
    requires |t| > 0 && !IsWhitespace(t[|t| - 1])
    ensures TrimEnd(t + b) == t
    decreases |b|
  {
    if |b| > 0 {
      assert (t + b)[..|t + b| - 1] == t + b[..|b| - 1];
      TrimEndPadded(t, b[..|b| - 1]);
    } else {
      assert t + b == t;
    }
  }

  /** Whitespace around a word whose ends are not whitespace is exactly what
      `trim` removes. */
  lemma TrimPadded(a: string, m: string, b: string)
    requires AllWhitespace(a) && AllWhitespace(b)
    requires |m| > 0 && !IsWhitespace(m[0]) && !IsWhitespace(m[|m| - 1])
    ensures Trim(a + m + b) == m
  {
    assert a + m + b == a + (m + b);
    TrimStartPadded(a, m + b);
    TrimEndPadded(m, b);
  }

  /** `str::split_once(' ')`: the text before the first space and the text
      after it, or nothing when there is no space. */
  function SplitOnce(s: string): (r: Option<(string, string)>)
    ensures r.None? <==> ' ' !in s
    ensures r.Some? ==> ' ' !in r.value.0 && s == r.value.0 + " " + r.value.1
  {
    if |s| == 0 then None
    else if s[0] == ' ' then Some(([], s[1..]))
    else match SplitOnce(s[1..])
      case None => None
      case Some((before, after)) => Some(([s[0]] + before, after))
  }

  /** Splitting `a + " " + b` where `a` has no space gives back `a` and `b`,
      whatever spaces `b` holds. */
  lemma {:induction false} SplitOnceOf(a: string, b: string)
    requires ' ' !in a
    ensures SplitOnce(a + " " + b) == Some((a, b))
  {
    if |a| == 0 {
      assert a + " " + b == [' '] + b;
    } else {
      assert (a + " " + b)[1..] == a[1..] + " " + b;
      SplitOnceOf(a[1..], b);
      assert [a[0]] + a[1..] == a;
    }
  }

  /** A field name or keyword of the query language: lowercase ASCII letters
      and underscores. */
  predicate IsIdentifier(s: string) {
    |s| > 0 && forall i :: 0 <= i < |s| ==> ('a' <= s[i] <= 'z') || s[i] == '_'
  }

  /** An identifier is its own trim and holds no space, so an identifier, a
      space and any tail split back into the two. */
  lemma IdentifierToken(s: string, tail: string)
    requires IsIdentifier(s)
    ensures Trim(s) == s && ' ' !in s
    ensures SplitOnce(s + " " + tail) == Some((s, tail))
  {
    TrimNoEdgeSpace(s);
    SplitOnceOf(s, tail);
  }

  /** A token `<identifier> <rest>` whose rest does not end in whitespace,
      with whitespace around it: trimming gives the token back, and the first
      space separates the identifier from the rest. */
  lemma PaddedToken(a: string, t: string, field: string, rest: string, b: string)
    requires AllWhitespace(a) && AllWhitespace(b) && IsIdentifier(field)
    requires |rest| > 0 && !IsWhitespace(rest[|rest| - 1])
    requires t == field + " " + rest
    ensures Trim(a + t + b) == t
    ensures SplitOnce(t) == Some((field, rest))
    ensures Trim(field) == field
  {
    assert t[0] == field[0];
    assert t[|t| - 1] == rest[|rest| - 1];
    TrimPadded(a, t, b);
    IdentifierToken(field, rest);
  }

  /** The ASCII character of a decimal digit. */
  function DigitChar(d: nat): (c: char)
    requires d < 10
  {
    (48 + d) as char
  }

  predicate IsDigit(c: char) {
    '0' <= c <= '9'
  }

  function DigitValue(c: char): (d: nat)
    requires IsDigit(c)
    ensures d < 10 && DigitChar(d) == c
  {
    c as int - 48
  }

  /** `u64::to_string` and friends: decimal digits, no sign, no leading zero. */
  function NatToString(n: nat): (r: string)
    ensures |r| > 0
    ensures forall i :: 0 <= i < |r| ==> IsDigit(r[i])
    ensures |r| > 1 ==> r[0] != '0'
    decreases n
  {
    if n < 10 then [DigitChar(n)] else NatToString(n / 10) + [DigitChar(n % 10)]
  }

  /** Rendering is injective: two numbers with the same decimal text are equal. */
  lemma {:induction false} NatToStringInjective(m: nat, n: nat)
    requires NatToString(m) == NatToString(n)
    ensures m == n
    decreases m
  {
    if m >= 10 && n >= 10 {
      var s := NatToString(m);
      assert NatToString(m / 10) == s[..|s| - 1] == NatToString(n / 10);
      NatToStringInjective(m / 10, n / 10);
      assert DigitChar(m % 10) == DigitChar(n % 10);
    }
  }

  /** Number of bytes UTF-8 needs for one scalar value. */
  function Utf8Width(c: char): (w: nat)
    ensures 1 <= w <= 4
  {
    var n := c as int;
    if n < 0x80 then 1 else if n < 0x800 then 2 else if n < 0x10000 then 3 else 4
  }

  /** `String::len`: the UTF-8 byte length, which is what the length limits
      on credentials compare against. */
  function Utf8Len(s: string): (n: nat)
    ensures |s| <= n <= 4 * |s|
    ensures (forall i :: 0 <= i < |s| ==> s[i] as int < 0x80) ==> n == |s|
  {
    if s == [] then 0 else Utf8Width(s[0]) + Utf8Len(s[1..])
  }

  /** A text of two-byte characters (U+0080 to U+07FF) is twice as long in
      bytes as in characters. */
  lemma {:induction false} Utf8LenTwoByte(s: string)
    requires forall i :: 0 <= i < |s| ==> 0x80 <= s[i] as int < 0x800
    ensures Utf8Len(s) == 2 * |s|
  {
    if s != [] {
      assert forall i :: 0 <= i < |s[1..]| ==> s[1..][i] == s[i + 1];
      Utf8LenTwoByte(s[1..]);
    }
  }
}
