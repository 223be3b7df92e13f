/**
 * The string primitives the application borrows from JavaScript: `toLowerCase`, `trim`,
 * `includes`, `startsWith`, `split(/\s+/)`, `join(' ')` and `parseInt`, together with the
 * character classes `\s`, `\d` and `\w` of JavaScript regular expressions.
 */
module Text {
  import opened Wrappers

  /** The white-space class shared by `\s`, `String.prototype.trim` and `parseInt`. */
  predicate IsSpace(c: char) {
    c == '\t' || c == '\n' || c == '\U{B}' || c == '\U{C}' || c == '\r' || c == ' '
    || c == '\U{A0}' || c == '\U{1680}' || ('\U{2000}' <= c <= '\U{200A}')
    || c == '\U{2028}' || c == '\U{2029}' || c == '\U{202F}' || c == '\U{205F}'
    || c == '\U{3000}' || c == '\U{FEFF}'
  }

  predicate NotSpace(c: char) { !IsSpace(c) }

  /** `\d` */
  predicate IsDigit(c: char) { '0' <= c <= '9' }

  predicate IsHexDigit(c: char) { IsDigit(c) || 'a' <= c <= 'f' || 'A' <= c <= 'F' }

  /** `[a-zA-Z]` */
  predicate IsLetter(c: char) { 'a' <= c <= 'z' || 'A' <= c <= 'Z' }

  /** `\w`, which decides where `\b` holds */
  predicate IsWordChar(c: char) { IsLetter(c) || IsDigit(c) || c == '_' }

  predicate AllDigits(s: string) { forall k :: 0 <= k < |s| ==> IsDigit(s[k]) }

  predicate NoSpace(s: string) { forall k :: 0 <= k < |s| ==> !IsSpace(s[k]) }

  // ---------------------------------------------------------------- case

  function LowerChar(c: char): char {
    if 'A' <= c <= 'Z' then (c as int + 32) as char else c
  }

  /** `toLowerCase`, on the ASCII letters */
  function Lower(s: string): (r: string)
    ensures |r| == |s|
    ensures forall i :: 0 <= i < |s| ==> r[i] == LowerChar(s[i])
  {
    seq(|s|, i requires 0 <= i < |s| => LowerChar(s[i]))
  }

  lemma LowerIdempotent(s: string)
    ensures Lower(Lower(s)) == Lower(s)
  {
  }

  lemma LowerConcat(a: string, b: string)
    ensures Lower(a + b) == Lower(a) + Lower(b)
  {
  }

  // ---------------------------------------------------------------- runs and trimming

  /** Length of the longest run of characters satisfying `p` that starts at `i`. */
  function Span(s: string, i: nat, p: char -> bool): (n: nat)
    requires i <= |s|
    ensures i + n <= |s|
    ensures forall k :: i <= k < i + n ==> p(s[k])
    ensures i + n == |s| || !p(s[i + n])
    decreases |s| - i
  {
    if i < |s| && p(s[i]) then 1 + Span(s, i + 1, p) else 0
  }

  function TrimStart(s: string): (r: string)
    ensures |r| <= |s| && r == s[|s| - |r|..]
    ensures r == [] || !IsSpace(r[0])
    ensures forall k :: 0 <= k < |s| - |r| ==> IsSpace(s[k])
  {
    if |s| > 0 && IsSpace(s[0]) then TrimStart(s[1..]) else s
  }

  function TrimEnd(s: string): (r: string)
    ensures |r| <= |s| && r == s[..|r|]
    ensures r == [] || !IsSpace(r[|r| - 1])
    ensures forall k :: |r| <= k < |s| ==> IsSpace(s[k])
  {
    if |s| > 0 && IsSpace(s[|s| - 1]) then TrimEnd(s[..|s| - 1]) else s
  }

  /** `trim()` */
  function Trim(s: string): string {
    TrimEnd(TrimStart(s))
  }

  /** What `trim()` keeps is a slice of its input that neither starts nor ends with white space,
      and everything it drops is white space. */
  lemma TrimSlice(s: string) returns (i: nat, j: nat)
    ensures i <= j <= |s| && Trim(s) == s[i..j]
    ensures forall k :: 0 <= k < i ==> IsSpace(s[k])
    ensures forall k :: j <= k < |s| ==> IsSpace(s[k])
  {
    i := |s| - |TrimStart(s)|;
    TrimEndOfSuffix(s, i);
    j := i + |Trim(s)|;
  }

  /** What `trim()` keeps neither starts nor ends with white space. */
  lemma TrimEnds(s: string)
    ensures Trim(s) == [] || (!IsSpace(Trim(s)[0]) && !IsSpace(Trim(s)[|Trim(s)| - 1]))
  {
    var t := TrimStart(s);
    var r := TrimEnd(t);
    if r != [] {
      assert r[0] == t[0];
    }
  }

  /** Trimming the end of a suffix keeps a slice of the whole, followed by white space only. */
  lemma TrimEndOfSuffix(s: string, i: nat)
    requires i <= |s|
    ensures var n := |TrimEnd(s[i..])|;
      i + n <= |s| && TrimEnd(s[i..]) == s[i..i + n] && forall k :: i + n <= k < |s| ==> IsSpace(s[k])
  {
    var t := s[i..];
    var n := |TrimEnd(t)|;
    assert t[..n] == s[i..i + n];
    forall k | i + n <= k < |s| ensures IsSpace(s[k]) {
      assert s[k] == t[k - i];
    }
  }

  /** A string that already has no white space at either end is its own trim. */
  lemma TrimNoop(s: string)
    requires s == [] || (!IsSpace(s[0]) && !IsSpace(s[|s| - 1]))
    ensures Trim(s) == s
  {
  }

  /** Trimming twice trims once. */
  lemma TrimIdempotent(s: string)
    ensures Trim(Trim(s)) == Trim(s)
  {
    TrimEnds(s);
    TrimNoop(Trim(s));
  }

  /** A string made of white space only trims to the empty string, and conversely. */
  lemma TrimEmptyIff(s: string)
    ensures Trim(s) == [] <==> forall k :: 0 <= k < |s| ==> IsSpace(s[k])
  {
    var i, j := TrimSlice(s);
    TrimEnds(s);
    if Trim(s) == [] {
      assert i == j;
    } else {
      assert !IsSpace(s[i]);
    }
  }

  // ---------------------------------------------------------------- searching

  predicate OccursAt(s: string, t: string, j: nat) {
    j + |t| <= |s| && s[j..j + |t|] == t
  }

  /** `indexOf(t, from)`: the leftmost occurrence of `t` at or after `from`. */
  function FindFrom(s: string, t: string, from: nat): (r: Option<nat>)
    ensures r.Some? ==> from <= r.value && OccursAt(s, t, r.value)
    ensures r.Some? ==> forall j :: from <= j < r.value ==> !OccursAt(s, t, j)
    ensures r.None? ==> forall j :: from <= j ==> !OccursAt(s, t, j)
    decreases |s| - from
  {
    if from + |t| > |s| then None
    else if s[from..from + |t|] == t then Some(from)
    else FindFrom(s, t, from + 1)
  }

  /** `includes(t)` */
  predicate Contains(s: string, t: string) {
    FindFrom(s, t, 0).Some?
  }

  lemma ContainsIff(s: string, t: string)
    ensures Contains(s, t) <==> exists j :: OccursAt(s, t, j)
  {
  }

  lemma ContainsAt(s: string, t: string, j: nat)
    requires OccursAt(s, t, j)
    ensures Contains(s, t)
  {
  }

  /** A string lacking one of the characters of `t` does not contain `t`. */
  lemma MissingChar(s: string, t: string, c: char)
    requires c in t && c !in s
    ensures !Contains(s, t)
  {
  }

  /** A string in which two adjacent characters of `t` never appear side by side does not
      contain `t`. */
  lemma MissingPair(s: string, t: string, k: nat)
    requires k + 1 < |t|
    requires forall j :: 0 <= j && j + 1 < |s| ==> !(s[j] == t[k] && s[j + 1] == t[k + 1])
    ensures !Contains(s, t)
  {
    forall j: nat ensures !OccursAt(s, t, j) {
      if j + |t| <= |s| {
        assert s[j..j + |t|][k] == s[j + k] && s[j..j + |t|][k + 1] == s[j + k + 1];
      }
    }
    ContainsIff(s, t);
  }

  /** Lowering a string lowers every occurrence inside it. */
  lemma LowerKeepsOccurrence(s: string, t: string, j: nat)
    requires OccursAt(s, t, j)
    ensures OccursAt(Lower(s), Lower(t), j)
  {
    assert Lower(s)[j..j + |t|] == Lower(t);
  }

  // ---------------------------------------------------------------- numbers

  function DigitsValue(d: string): nat
    requires AllDigits(d)
  {
    if d == [] then 0 else 10 * DigitsValue(d[..|d| - 1]) + (d[|d| - 1] as int - '0' as int)
  }

  function HexDigitValue(c: char): nat
    requires IsHexDigit(c)
  {
    if IsDigit(c) then c as int - '0' as int
    else if 'a' <= c <= 'f' then c as int - 'a' as int + 10
    else c as int - 'A' as int + 10
  }

  function HexValue(h: string): nat
    requires forall k :: 0 <= k < |h| ==> IsHexDigit(h[k])
  {
    if h == [] then 0 else 16 * HexValue(h[..|h| - 1]) + HexDigitValue(h[|h| - 1])
  }

  /** `parseInt(s)` with no radix: leading white space, an optional sign, then either `0x` and
      hexadecimal digits or decimal digits; `None` stands for `NaN`. */
  function ParseInt(s: string): (r: Option<int>)
    ensures r.Some? ==> exists k :: 0 <= k < |s| && IsDigit(s[k])
  {
    var t := TrimStart(s);
    var negative := |t| > 0 && t[0] == '-';
    var u := if |t| > 0 && (t[0] == '-' || t[0] == '+') then t[1..] else t;
    match ParseMagnitude(u)
    case None => None
    case Some(n) =>
      assert u[0] == s[|s| - |u|];
      Some(if negative then -n else n)
  }

  /** The digits after the sign: `0x` and hexadecimal digits, or decimal digits. */
  function ParseMagnitude(u: string): (r: Option<int>)
    ensures r.Some? ==> u != [] && IsDigit(u[0]) && r.value >= 0
  {
    if |u| >= 2 && u[0] == '0' && (u[1] == 'x' || u[1] == 'X') then
      var h := Span(u, 2, IsHexDigit);
      if h == 0 then None else Some(HexValue(u[2..2 + h]))
    else
      var d := Span(u, 0, IsDigit);
      if d == 0 then None else Some(DigitsValue(u[..d]))
  }

  /** On a plain run of decimal digits `parseInt` is the decimal value of the run. */
  lemma ParseIntDigits(d: string)
    requires d != [] && AllDigits(d)
    ensures ParseInt(d) == Some(DigitsValue(d))
  {
    assert IsDigit(d[0]) && (|d| < 2 || IsDigit(d[1]));
    assert TrimStart(d) == d;
    SpanAll(d, 0, IsDigit);
    assert d[..|d|] == d;
  }

  /** The three conditions of `Span`'s contract pin its value down. */
  lemma SpanIs(s: string, i: nat, n: nat, p: char -> bool)
    requires i + n <= |s|
    requires forall k :: i <= k < i + n ==> p(s[k])
    requires i + n == |s| || !p(s[i + n])
    ensures Span(s, i, p) == n
  {
  }

  lemma SpanAll(s: string, i: nat, p: char -> bool)
    requires i <= |s|
    requires forall k :: i <= k < |s| ==> p(s[k])
    ensures Span(s, i, p) == |s| - i
    decreases |s| - i
  {
    if i < |s| {
      SpanAll(s, i + 1, p);
    }
  }

  // ---------------------------------------------------------------- split and join

  /** `split(/[...]+/)` for a separator class `sep`: the pieces between maximal runs of
      separators; a leading or trailing run yields an empty first or last piece. */
  function SplitOn(s: string, sep: char -> bool): (r: seq<string>)
    ensures |r| >= 1
    ensures forall k, j :: 0 <= k < |r| && 0 <= j < |r[k]| ==> !sep(r[k][j])
    decreases |s|
  {
    var i := Span(s, 0, c => !sep(c));
    if i == |s| then [s]
    else
      var j := i + Span(s, i, sep);
      [s[..i]] + SplitOn(s[j..], sep)
  }

  /** `split(/\s+/)`, the common case of `SplitOn` */
  function SplitWs(s: string): (r: seq<string>)
    ensures |r| >= 1
    ensures forall k :: 0 <= k < |r| ==> NoSpace(r[k])
    decreases |s|
  {
    var i := Span(s, 0, NotSpace);
    if i == |s| then [s]
    else
      var j := i + Span(s, i, IsSpace);
      [s[..i]] + SplitWs(s[j..])
  }

  /** A word, one space and a rest that does not start with white space: the word is the first
      piece and the rest is split on its own. */
  lemma SplitWsAtSpace(a: string, b: string)
    requires a != [] && NoSpace(a) && (b == [] || !IsSpace(b[0]))
    ensures SplitWs(a + " " + b) == [a] + SplitWs(b)
  {
    var s := a + " " + b;
    SpanIs(s, 0, |a|, NotSpace);
    SpanIs(s, |a|, 1, IsSpace);
    assert s[..|a|] == a;
    assert s[|a| + 1..] == b;
  }

  /** `join(' ')` */
  function JoinWords(ws: seq<string>): string {
    if ws == [] then [] else if |ws| == 1 then ws[0] else ws[0] + " " + JoinWords(ws[1..])
  }
}
