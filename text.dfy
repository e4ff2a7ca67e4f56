/**
 * The .NET string operations the console's forms rely on, stated over `seq<char>`:
 * whitespace tests, ordinal substring tests, `Split(char)`, `Trim`, `TrimEnd(char)` and the
 * decimal `int.TryParse` / `int.ToString` pair used for port numbers.
 */
module Text {
  import opened Wrappers

  /**
   * The characters for which char.IsWhiteSpace holds: U+0009..U+000D, U+0085 and the Unicode
   * space, line and paragraph separators.
   */
  const WhiteSpace: set<char> := {
    '\t', '\n', '\U{B}', '\U{C}', '\r', ' ', '\U{85}', '\U{A0}', '\U{1680}',
    '\U{2000}', '\U{2001}', '\U{2002}', '\U{2003}', '\U{2004}', '\U{2005}', '\U{2006}',
    '\U{2007}', '\U{2008}', '\U{2009}', '\U{200A}', '\U{2028}', '\U{2029}', '\U{202F}',
    '\U{205F}', '\U{3000}'}

  /** Every character of `s` is one of `chars`. */
  predicate AllIn(s: string, chars: set<char>) {
    forall i | 0 <= i < |s| :: s[i] in chars
  }

  /** string.IsNullOrWhiteSpace of a non-null string (TextBox.Text is never null). */
  predicate IsBlank(s: string) {
    AllIn(s, WhiteSpace)
  }

  /** Ordinal prefix test. */
  predicate StartsWith(s: string, prefix: string) {
    |prefix| <= |s| && s[..|prefix|] == prefix
  }

  /** Ordinal suffix test. */
  predicate EndsWith(s: string, suffix: string) {
    |suffix| <= |s| && s[|s| - |suffix|..] == suffix
  }

  /** string.Contains(string): ordinal substring test. */
  predicate Contains(s: string, sub: string)
    decreases |s|
  {
    StartsWith(s, sub) || (|s| > 0 && Contains(s[1..], sub))
  }

  /** An occurrence in `b` is still an occurrence after text is appended to `b`. */
  lemma {:induction false} ContainsAppend(b: string, c: string, sub: string)
    requires Contains(b, sub)
    ensures Contains(b + c, sub)
    decreases |b|
  {
    if StartsWith(b, sub) {
      assert (b + c)[..|sub|] == b[..|sub|];
    } else {
      ContainsAppend(b[1..], c, sub);
      assert (b + c)[1..] == b[1..] + c;
    }
  }

  /** An occurrence in `b` is still an occurrence after text is prepended to `b`. */
  lemma {:induction false} ContainsPrepend(a: string, b: string, sub: string)
    requires Contains(b, sub)
    ensures Contains(a + b, sub)
    decreases |a|
  {
    if |a| == 0 {
      assert a + b == b;
    } else {
      ContainsPrepend(a[1..], b, sub);
      assert (a + b)[1..] == a[1..] + b;
    }
  }

  /** An occurrence inside a part is an occurrence inside the whole. */
  lemma ContainsInConcat(a: string, b: string, c: string, sub: string)
    requires Contains(b, sub)
    ensures Contains(a + b + c, sub)
  {
    ContainsAppend(b, c, sub);
    ContainsPrepend(a, b + c, sub);
    assert a + (b + c) == a + b + c;
  }

  // ---------------------------------------------------------------------------------------
  // String.Split(char) and its inverse

  /**
   * String.Split(sep): the pieces between separators, in order; an empty string gives [""]
   * and n separators always give n + 1 pieces.
   */
  function Split(s: string, sep: char): (parts: seq<string>)
    ensures |parts| >= 1
  {
    if |s| == 0 then [""]
    else
      var rest := Split(s[1..], sep);
      if s[0] == sep then [""] + rest else [[s[0]] + rest[0]] + rest[1..]
  }

  /** String.Join(sep, parts). */
  function Join(parts: seq<string>, sep: char): string {
    if |parts| == 0 then ""
    else if |parts| == 1 then parts[0]
    else parts[0] + [sep] + Join(parts[1..], sep)
  }

  /** No piece produced by Split contains the separator. */
  lemma {:induction false} SplitPiecesHaveNoSeparator(s: string, sep: char)
    ensures forall k | 0 <= k < |Split(s, sep)| :: sep !in Split(s, sep)[k]
  {
    if |s| > 0 {
      SplitPiecesHaveNoSeparator(s[1..], sep);
    }
  }

  /** Joining the pieces again with the same separator gives back the input. */
  lemma {:induction false} JoinSplit(s: string, sep: char)
    ensures Join(Split(s, sep), sep) == s
  {
    if |s| > 0 {
      var rest := Split(s[1..], sep);
      JoinSplit(s[1..], sep);
      if s[0] == sep {
        assert Split(s, sep) == [""] + rest;
        assert ([""] + rest)[1..] == rest;
      } else {
        var parts := Split(s, sep);
        assert parts == [[s[0]] + rest[0]] + rest[1..];
        if |rest| == 1 {
          assert s == [s[0]] + s[1..];
        } else {
          assert parts[1..] == rest[1..];
          assert Join(rest, sep) == rest[0] + [sep] + Join(rest[1..], sep);
          assert s == [s[0]] + s[1..];
        }
      }
    }
  }

  /** A piece without the separator, followed by the separator, is split off whole. */
  lemma {:induction false} SplitPiece(a: string, sep: char, t: string)
    requires sep !in a
    ensures Split(a + [sep] + t, sep) == [a] + Split(t, sep)
  {
    if |a| > 0 {
      SplitPiece(a[1..], sep, t);
      assert (a + [sep] + t)[1..] == a[1..] + [sep] + t;
      assert [a[0]] + a[1..] == a;
    } else {
      assert a + [sep] + t == [sep] + t;
    }
  }

  /** A string without the separator is a single piece. */
  lemma {:induction false} SplitWhole(a: string, sep: char)
    requires sep !in a
    ensures Split(a, sep) == [a]
  {
    if |a| > 0 {
      SplitWhole(a[1..], sep);
      assert a == [a[0]] + a[1..];
    }
  }

  /** Splitting a join of separator-free pieces gives back the pieces. */
  lemma {:induction false} SplitJoin(parts: seq<string>, sep: char)
    requires |parts| >= 1
    requires forall k | 0 <= k < |parts| :: sep !in parts[k]
    ensures Split(Join(parts, sep), sep) == parts
  {
    if |parts| == 1 {
      SplitWhole(parts[0], sep);
    } else {
      SplitJoin(parts[1..], sep);
      SplitPiece(parts[0], sep, Join(parts[1..], sep));
      assert [parts[0]] + parts[1..] == parts;
    }
  }

  /** A separator-free join of separator-free pieces. */
  lemma {:induction false} JoinAvoids(parts: seq<string>, sep: char, c: char)
    requires c != sep
    requires forall k | 0 <= k < |parts| :: c !in parts[k]
    ensures c !in Join(parts, sep)
  {
    if |parts| > 1 {
      JoinAvoids(parts[1..], sep, c);
    }
  }

  // ---------------------------------------------------------------------------------------
  // Trimming

  /** The number of leading characters of `s` that belong to `chars`. */
  function LeadingCount(s: string, chars: set<char>): (k: nat)
    ensures k <= |s| && AllIn(s[..k], chars)
    ensures k == |s| || s[k] !in chars
  {
    if |s| > 0 && s[0] in chars then
      var k := LeadingCount(s[1..], chars) + 1;
      assert s[..k] == [s[0]] + s[1..][..k - 1];
      k
    else 0
  }

  /** Where the run of trailing characters of `s` that belong to `chars` starts. */
  function TrailingStart(s: string, chars: set<char>): (k: nat)
    ensures k <= |s| && AllIn(s[k..], chars)
    ensures k == 0 || s[k - 1] !in chars
  {
    if |s| > 0 && s[|s| - 1] in chars then
      var k := TrailingStart(s[..|s| - 1], chars);
      assert s[k..] == s[..|s| - 1][k..] + [s[|s| - 1]];
      k
    else |s|
  }

  /** String.TrimStart(chars). */
  function TrimStartOf(s: string, chars: set<char>): string {
    s[LeadingCount(s, chars)..]
  }

  /** String.TrimEnd(chars). */
  function TrimEndOf(s: string, chars: set<char>): string {
    s[..TrailingStart(s, chars)]
  }

  /** String.Trim(): removes leading and trailing char.IsWhiteSpace characters. */
  function Trim(s: string): string {
    TrimEndOf(TrimStartOf(s, WhiteSpace), WhiteSpace)
  }

  /** Trim removes a blank head and a blank tail, and nothing else. */
  lemma TrimParts(s: string) returns (head: string, tail: string)
    ensures s == head + Trim(s) + tail
    ensures IsBlank(head) && IsBlank(tail)
  {
    var u := TrimStartOf(s, WhiteSpace);
    head, tail := s[..LeadingCount(s, WhiteSpace)], u[TrailingStart(u, WhiteSpace)..];
    assert s == head + u;
    assert u == Trim(s) + tail;
  }

  /** A trimmed string is empty exactly for blank input, and otherwise has non-space ends. */
  lemma TrimEnds(s: string)
    ensures Trim(s) == [] <==> IsBlank(s)
    ensures Trim(s) != [] ==> Trim(s)[0] !in WhiteSpace && Trim(s)[|Trim(s)| - 1] !in WhiteSpace
  {
    var u := TrimStartOf(s, WhiteSpace);
    var r := Trim(s);
    var head, tail := TrimParts(s);
    if r != [] {
      assert u[0] == r[0];
    } else {
      assert s == head + tail;
      forall i | 0 <= i < |s| ensures s[i] in WhiteSpace {
        if i < |head| { assert s[i] == head[i]; } else { assert s[i] == tail[i - |head|]; }
      }
    }
  }

  /** Trimming is idempotent. */
  lemma TrimIdempotent(s: string)
    ensures Trim(Trim(s)) == Trim(s)
  {
    var r := Trim(s);
    TrimEnds(s);
    if r != [] {
      assert LeadingCount(r, WhiteSpace) == 0;
      assert TrailingStart(r, WhiteSpace) == |r|;
    }
  }

  // ---------------------------------------------------------------------------------------
  // int.TryParse and int.ToString for decimal Int32 text

  const MinInt32: int := -0x8000_0000
  const MaxInt32: int := 0x7FFF_FFFF

  /** The white space NumberStyles.Integer accepts around a number. */
  const NumberWhite: set<char> := {'\t', '\n', '\U{B}', '\U{C}', '\r', ' '}

  predicate IsDigit(c: char) {
    '0' <= c <= '9'
  }

  predicate AllDigits(d: string) {
    forall i | 0 <= i < |d| :: IsDigit(d[i])
  }

  /** The value of a string of decimal digits, most significant first. */
  function DigitsValue(d: string): nat
    requires AllDigits(d)
  {
    if |d| == 0 then 0 else DigitsValue(d[..|d| - 1]) * 10 + (d[|d| - 1] as int - '0' as int)
  }

  /** The shortest decimal digits of n. */
  function NatToDigits(n: nat): (d: string)
    ensures |d| >= 1 && AllDigits(d)
    ensures DigitsValue(d) == n
  {
    if n < 10 then [(n + '0' as int) as char]
    else
      var d := NatToDigits(n / 10) + [(n % 10 + '0' as int) as char];
      assert d[..|d| - 1] == NatToDigits(n / 10);
      d
  }

  /** int.ToString(): a minus sign for a negative number, then the digits. */
  function IntToString(n: int): string {
    if n < 0 then "-" + NatToDigits(-n) else NatToDigits(n)
  }

  /**
   * int.TryParse(s, out v) with NumberStyles.Integer: surrounding white space, an optional
   * sign, at least one digit, and a value inside the Int32 range; None where TryParse
   * returns false.
   */
  function ParseInt32(s: string): (r: Option<int>)
    ensures r.Some? ==> MinInt32 <= r.value <= MaxInt32
    ensures r.Some? ==> exists k :: 0 <= k < |s| && IsDigit(s[k])
  {
    var u := TrimStartOf(s, NumberWhite);
    var t := TrimEndOf(u, NumberWhite);
    var signed := |t| > 0 && (t[0] == '-' || t[0] == '+');
    var digits := if signed then t[1..] else t;
    if |digits| == 0 || !AllDigits(digits) then None
    else
      assert IsDigit(s[|s| - |u| + (if signed then 1 else 0)]);
      var v: int := if t[0] == '-' then 0 - DigitsValue(digits) else DigitsValue(digits);
      if MinInt32 <= v <= MaxInt32 then Some(v) else None
  }

  /** The text int.ToString() writes for an Int32 is parsed back to the same number. */
  lemma ParseIntToString(n: int)
    requires MinInt32 <= n <= MaxInt32
    ensures ParseInt32(IntToString(n)) == Some(n)
  {
    var s := IntToString(n);
    assert s[0] !in NumberWhite;
    assert TrimStartOf(s, NumberWhite) == s;
    assert s[|s| - 1] !in NumberWhite;
    assert TrimEndOf(s, NumberWhite) == s;
    if n < 0 {
      assert s[1..] == NatToDigits(-n);
    }
  }
}
