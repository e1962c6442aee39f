/**
 * String operations the proxy borrows from JavaScript and Python:
 * `includes`/`in`, `startsWith`, `substring(0, n)`, `split(':')`,
 * decimal rendering of numbers and `parseInt(s, 10)`.
 */
module Text {
  import opened Wrappers

  /** `t` occurs in `s` starting at index `i`. */
  predicate OccursAt(s: string, t: string, i: int) {
    0 <= i && i + |t| <= |s| && s[i..i + |t|] == t
  }

  /** JavaScript `s.includes(t)` and Python `t in s`: a plain, case-sensitive substring test. */
  predicate Contains(s: string, t: string) {
    exists i | 0 <= i <= |s| - |t| :: OccursAt(s, t, i)
  }

  /** JavaScript `s.startsWith(p)`. */
  predicate StartsWith(s: string, p: string) {
    |p| <= |s| && s[..|p|] == p
  }

  /** JavaScript `s.substring(0, n)` and Python `s[:n]`: the first `n` characters, or all of a shorter string. */
  function Prefix(s: string, n: nat): (r: string)
    ensures |r| == if |s| < n then |s| else n
    ensures r <= s
    ensures |s| <= n ==> r == s
  {
    if |s| <= n then s else s[..n]
  }

  /** Index of the first character of `s` that is in `stops`, or `|s|` when there is none. */
  function FirstOf(s: string, stops: set<char>): (k: nat)
    ensures k <= |s|
    ensures forall m :: 0 <= m < k ==> s[m] !in stops
    ensures k < |s| ==> s[k] in stops
  {
    if s == [] then 0
    else if s[0] in stops then 0
    else 1 + FirstOf(s[1..], stops)
  }

  /** JavaScript and Python truthiness of an optional string: present and not empty. */
  predicate Truthy(v: Option<string>) {
    v.Some? && v.value != ""
  }

  /** `FirstOf` is pinned down by its characterisation. */
  lemma FirstOfIs(s: string, stops: set<char>, k: nat)
    requires k <= |s|
    requires forall m :: 0 <= m < k ==> s[m] !in stops
    requires k < |s| ==> s[k] in stops
    ensures FirstOf(s, stops) == k
  {
  }

  /** JavaScript `s.split(c)[0]`: the text before the first `c`, or all of `s`. */
  function SplitHead(s: string, c: char): (r: string)
    ensures r <= s
    ensures c !in r
    ensures |r| < |s| ==> s[|r|] == c
  {
    s[..FirstOf(s, {c})]
  }

  /**
   * JavaScript `s.split(c)[1]`: the text between the first and the second `c`
   * (or the end of `s`); `None` (undefined) when `s` holds no `c`.
   */
  function SplitSecond(s: string, c: char): (r: Option<string>)
    ensures r.None? <==> c !in s
    ensures r.Some? ==> c !in r.value && s[..|SplitHead(s, c)| + 1] + r.value <= s
    ensures r.Some? ==>
      var j := |SplitHead(s, c)| + 1 + |r.value|;
      j < |s| ==> s[j] == c
  {
    var k := FirstOf(s, {c});
    if k == |s| then None
    else
      var rest := s[k + 1..];
      Some(rest[..FirstOf(rest, {c})])
  }

  /** Text without `c` splits into itself and nothing. */
  lemma SplitWithout(a: string, c: char)
    requires c !in a
    ensures SplitHead(a, c) == a && SplitSecond(a, c).None?
  {
    FirstOfIs(a, {c}, |a|);
  }

  /** `a + c + b`, with no `c` in `a` or `b`, splits at that `c` into `a` and `b`. */
  lemma SplitAround(a: string, b: string, c: char)
    requires c !in a && c !in b
    ensures SplitHead(a + [c] + b, c) == a && SplitSecond(a + [c] + b, c) == Some(b)
  {
    var s := a + [c] + b;
    assert forall m :: 0 <= m < |a| ==> s[m] == a[m];
    FirstOfIs(s, {c}, |a|);
    assert s[..|a|] == a;
    assert s[|a| + 1..] == b;
    FirstOfIs(b, {c}, |b|);
    assert b[..|b|] == b;
  }

  /** With a second separator, the second part stops there and the rest is dropped. */
  lemma SplitAroundMore(a: string, b: string, more: string, c: char)
    requires c !in a && c !in b
    ensures SplitHead(a + [c] + b + [c] + more, c) == a
    ensures SplitSecond(a + [c] + b + [c] + more, c) == Some(b)
  {
    var s := a + [c] + b + [c] + more;
    assert forall m :: 0 <= m < |a| ==> s[m] == a[m];
    FirstOfIs(s, {c}, |a|);
    assert s[..|a|] == a;
    var rest := s[|a| + 1..];
    assert rest == b + [c] + more;
    assert forall m :: 0 <= m < |b| ==> rest[m] == b[m];
    FirstOfIs(rest, {c}, |b|);
    assert rest[..|b|] == b;
  }

  predicate IsDigit(ch: char) {
    '0' <= ch <= '9'
  }

  predicate AllDigits(s: string) {
    forall i | 0 <= i < |s| :: IsDigit(s[i])
  }

  function DigitValue(ch: char): (d: nat)
    requires IsDigit(ch)
    ensures d < 10
  {
    ch as int - '0' as int
  }

  function DigitChar(d: nat): (ch: char)
    requires d < 10
    ensures IsDigit(ch) && DigitValue(ch) == d
  {
    ('0' as int + d) as char
  }

  /** JavaScript `String(n)` / template-literal rendering of a non-negative integer. */
  function NatToDecimal(n: nat): (r: string)
    ensures |r| >= 1 && AllDigits(r)
    ensures |r| > 1 ==> r[0] != '0'
  {
    if n < 10 then [DigitChar(n)] else NatToDecimal(n / 10) + [DigitChar(n % 10)]
  }

  /** The number a string of decimal digits denotes. */
  function DecimalValue(s: string): nat
    requires AllDigits(s)
  {
    if s == [] then 0 else 10 * DecimalValue(s[..|s| - 1]) + DigitValue(s[|s| - 1])
  }

  /** The longest prefix of `s` made of decimal digits. */
  function LeadingDigits(s: string): (r: string)
    ensures r <= s && AllDigits(r)
    ensures |r| < |s| ==> !IsDigit(s[|r|])
  {
    if s == [] || !IsDigit(s[0]) then [] else [s[0]] + LeadingDigits(s[1..])
  }

  /** The leading decimal digits of `s`, read as a number; `None` when `s` does not start with a digit. */
  function ReadDigits(s: string): (r: Option<nat>)
    ensures r.None? <==> (s == [] || !IsDigit(s[0]))
  {
    var d := LeadingDigits(s);
    if d == [] then None else Some(DecimalValue(d))
  }

  /** ECMAScript white space and line terminators, which `parseInt` skips before the number. */
  predicate IsBlank(ch: char) {
    || ch == ' ' || '\t' <= ch <= '\r' || ch == '\U{A0}' || ch == '\U{1680}'
    || '\U{2000}' <= ch <= '\U{200A}' || ch == '\U{2028}' || ch == '\U{2029}'
    || ch == '\U{202F}' || ch == '\U{205F}' || ch == '\U{3000}' || ch == '\U{FEFF}'
  }

  /**
   * JavaScript `parseInt(s, 10)`: leading white space is skipped, then an
   * optional `+` or `-`, then the leading decimal digits are read; `None`
   * stands for `NaN`.
   */
  function ParseInt(s: string): (r: Option<int>)
    ensures s != [] && IsDigit(s[0]) ==> r == ReadDigits(s)
    ensures s == [] || (!IsBlank(s[0]) && s[0] != '+' && s[0] != '-' && !IsDigit(s[0])) ==> r.None?
    ensures r.Some? && r.value < 0 ==> '-' in s
  {
    if s == [] then None
    else if IsDigit(s[0]) then ReadDigits(s)
    else if s[0] == '+' then ReadDigits(s[1..])
    else if s[0] == '-' then
      match ReadDigits(s[1..])
      case None => None
      case Some(n) => Some(-(n as int))
    else if IsBlank(s[0]) then ParseInt(s[1..])
    else None
  }

  /** Reading back the decimal rendering of `n` gives `n`. */
  lemma {:induction false} DecimalRoundTrip(n: nat)
    ensures DecimalValue(NatToDecimal(n)) == n
  {
    if n >= 10 {
      DecimalRoundTrip(n / 10);
      var s := NatToDecimal(n);
      assert s[..|s| - 1] == NatToDecimal(n / 10);
    }
  }

  /** A digit string followed by a non-digit (or nothing) is read up to that non-digit. */
  lemma {:induction false} LeadingDigitsOfDigits(d: string, rest: string)
    requires AllDigits(d)
    requires rest == [] || !IsDigit(rest[0])
    ensures LeadingDigits(d + rest) == d
  {
    if d != [] {
      assert (d + rest)[1..] == d[1..] + rest;
      LeadingDigitsOfDigits(d[1..], rest);
    }
  }

  /** `parseInt` reads back the decimal rendering of `n`, whatever non-digit text follows it. */
  lemma ParseIntOfDecimal(n: nat, rest: string)
    requires rest == [] || !IsDigit(rest[0])
    ensures ParseInt(NatToDecimal(n) + rest) == Some(n)
  {
    LeadingDigitsOfDigits(NatToDecimal(n), rest);
    DecimalRoundTrip(n);
  }

  /** White space before the number does not change what `parseInt` reads. */
  lemma {:induction false} ParseIntSkipsBlanks(b: string, s: string)
    requires forall i | 0 <= i < |b| :: IsBlank(b[i])
    ensures ParseInt(b + s) == ParseInt(s)
  {
    if b != [] {
      assert (b + s)[0] == b[0] && (b + s)[1..] == b[1..] + s;
      ParseIntSkipsBlanks(b[1..], s);
    } else {
      assert b + s == s;
    }
  }

  /** A sign before the digits: `+n` reads as `n` and `-n` as its negation. */
  lemma ParseIntOfSigned(sign: char, n: nat, rest: string)
    requires sign == '+' || sign == '-'
    requires rest == [] || !IsDigit(rest[0])
    ensures ParseInt([sign] + NatToDecimal(n) + rest) == if sign == '+' then Some(n) else Some(-(n as int))
  {
    var d := NatToDecimal(n) + rest;
    assert ReadDigits(d) == Some(n) by {
      LeadingDigitsOfDigits(NatToDecimal(n), rest);
      DecimalRoundTrip(n);
    }
    var s := [sign] + NatToDecimal(n) + rest;
    assert s[0] == sign && s[1..] == d;
    SignThenDigits(s, n);
  }

  /** A sign followed by text whose leading digits read as `n`. */
  lemma SignThenDigits(s: string, n: nat)
    requires s != [] && (s[0] == '+' || s[0] == '-') && ReadDigits(s[1..]) == Some(n)
    ensures ParseInt(s) == if s[0] == '+' then Some(n) else Some(-(n as int))
  {
  }
}
