/**
 * The regular expressions of the two voice parsers (src/components/VoiceCommands.tsx and
 * src/components/VoiceSearch.tsx), each written out as a matcher over strings that follows the
 * backtracking order of a JavaScript regular expression on the inputs those parsers see:
 *
 *  - a keyed template `K1|K2|… <body>` is searched for at the leftmost position, and at one
 *    position its keyword alternatives are tried in order (optional parts such as `(?:to buy )?`
 *    are expanded into alternatives in the order the engine tries them);
 *  - the bodies `(\d+)?\s*(.+?)(?:\s+to (?:my )?list)?$`, `(\d+)?\s*(.+)$`, `(.+?)(…)?$` and
 *    `(.+)$` match exactly when something follows the keyword, and what they capture is given
 *    by `CountedBody` and `Cut`;
 *  - `\b(w1|w2|…)\b` with the flag `g` removes whole-word occurrences left to right;
 *  - the price patterns `for N dollars?`, `$N`, `N dollars?` and `costs? N`, where `N` is
 *    `\d+(?:\.\d{2})?`;
 *  - `new RegExp(text, 'gi')` built from a matched price text, in which `.` is a wildcard and a
 *    `$` is an end-of-input assertion, so a text containing `$` never matches.
 */
module Patterns {
  import opened Wrappers
  import opened Text

  // ---------------------------------------------------------------- templates

  /** What follows a template's keyword. `Counted` is `(\d+)?\s*` and an item phrase; `Phrase`
      is a single phrase. A `tail` keyword makes the phrase lazy, followed by the optional
      `\s+<tail> (?:my )?list`; without one the phrase is greedy. */
  datatype Body = Counted(tail: Option<string>) | Phrase(tail: Option<string>)

  datatype Template =
    | Keyed(keys: seq<string>, body: Body)
    /** `^([a-zA-Z\s]+)$` */
    | LettersOnly

  /** The groups of a match: the two-group templates capture an optional count and an item
      phrase; the others capture one phrase. */
  datatype Capture = Two(count: Option<string>, item: string) | One(text: string)

  /** `\s+<kw> (?:my )?list` filling the whole of `u`. */
  predicate ListTail(u: string, kw: string) {
    var w := Span(u, 0, IsSpace);
    w >= 1 && (u[w..] == kw + " my list" || u[w..] == kw + " list")
  }

  function LazyEnd(t: string, kw: string, n: nat): (m: nat)
    requires 1 <= n <= |t|
    ensures n <= m <= |t|
    ensures m == |t| || ListTail(t[m..], kw)
    ensures forall k :: n <= k < m ==> !ListTail(t[k..], kw)
    decreases |t| - n
  {
    if n == |t| || ListTail(t[n..], kw) then n else LazyEnd(t, kw, n + 1)
  }

  /** The phrase group over the text `t` that follows the keyword (and count): all of it when
      greedy; when lazy, the shortest non-empty prefix after which only a list tail, or
      nothing, remains. */
  function Cut(t: string, tail: Option<string>): (r: string)
    requires t != []
    ensures 1 <= |r| <= |t| && r == t[..|r|]
    ensures tail.None? ==> r == t
    ensures tail.Some? ==> |r| == |t| || ListTail(t[|r|..], tail.value)
    ensures tail.Some? ==> forall n :: 1 <= n < |r| ==> !ListTail(t[n..], tail.value)
  {
    if tail.None? then t else t[..LazyEnd(t, tail.value, 1)]
  }

  /** `(\d+)?\s*(.+?|.+)…$` over the non-empty text `r` after the keyword. The digit and space
      runs are taken whole; only when nothing is left for the phrase does the engine give back
      the last space, or else the last digit. */
  function CountedBody(r: string, tail: Option<string>): (c: Capture)
    requires r != []
    ensures c.Two? && c.item != []
    ensures c.count.Some? ==> c.count.value != [] && AllDigits(c.count.value) && c.count.value <= r
  {
    var d := Span(r, 0, IsDigit);
    var w := Span(r, d, IsSpace);
    var count := if d > 0 then Some(r[..d]) else None;
    if d + w < |r| then Two(count, Cut(r[d + w..], tail))
    else if w > 0 then Two(count, [r[|r| - 1]])
    else if d >= 2 then Two(Some(r[..d - 1]), [r[d - 1]])
    else Two(None, r)
  }

  /** The digit group takes part in the match exactly when the text after the keyword starts
      with a digit and is more than one character long. */
  lemma CountGroupIff(r: string, tail: Option<string>)
    requires r != []
    ensures CountedBody(r, tail).count.Some? <==> IsDigit(r[0]) && |r| >= 2
  {
  }

  /** The first keyword, in order, occurring at `p` with something after it. */
  function KeyAt(s: string, keys: seq<string>, p: nat): (r: Option<string>)
    ensures r.Some? ==> r.value in keys && OccursAt(s, r.value, p) && p + |r.value| < |s|
    ensures r.Some? ==> exists i :: 0 <= i < |keys| && keys[i] == r.value
                          && forall j :: 0 <= j < i ==> !(OccursAt(s, keys[j], p) && p + |keys[j]| < |s|)
    ensures r.None? <==> forall i :: 0 <= i < |keys| ==> !(OccursAt(s, keys[i], p) && p + |keys[i]| < |s|)
  {
    if keys == [] then None
    else if OccursAt(s, keys[0], p) && p + |keys[0]| < |s| then Some(keys[0])
    else
      var r := KeyAt(s, keys[1..], p);
      assert r.Some? ==> exists i :: 0 <= i < |keys| && keys[i] == r.value
                          && forall j :: 0 <= j < i ==> !(OccursAt(s, keys[j], p) && p + |keys[j]| < |s|) by {
        if r.Some? {
          var i :| 0 <= i < |keys[1..]| && keys[1..][i] == r.value
                   && forall j :: 0 <= j < i ==> !(OccursAt(s, keys[1..][j], p) && p + |keys[1..][j]| < |s|);
          forall j | 0 <= j < i + 1 ensures !(OccursAt(s, keys[j], p) && p + |keys[j]| < |s|) {
            if j > 0 {
              assert keys[j] == keys[1..][j - 1];
            }
          }
          assert keys[i + 1] == r.value;
        }
      }
      assert r.None? ==> forall i :: 0 <= i < |keys| ==> !(OccursAt(s, keys[i], p) && p + |keys[i]| < |s|) by {
        if r.None? {
          forall i | 0 <= i < |keys| ensures !(OccursAt(s, keys[i], p) && p + |keys[i]| < |s|) {
            if i > 0 {
              assert keys[i] == keys[1..][i - 1];
            }
          }
        }
      }
      r
  }

  predicate KeyHit(s: string, keys: seq<string>, p: nat) {
    exists i :: 0 <= i < |keys| && OccursAt(s, keys[i], p) && p + |keys[i]| < |s|
  }

  /** The leftmost position at or after `p` where a keyword occurs with something after it,
      with the keyword chosen there. */
  function Scan(s: string, keys: seq<string>, p: nat): (r: Option<(nat, string)>)
    ensures r.Some? ==> p <= r.value.0 && KeyAt(s, keys, r.value.0) == Some(r.value.1)
    ensures r.Some? ==> forall q :: p <= q < r.value.0 ==> !KeyHit(s, keys, q)
    ensures r.None? <==> forall q :: p <= q ==> !KeyHit(s, keys, q)
    decreases |s| - p
  {
    if p >= |s| then
      assert forall q :: p <= q ==> !KeyHit(s, keys, q);
      None
    else match KeyAt(s, keys, p)
      case Some(k) =>
        assert KeyHit(s, keys, p);
        Some((p, k))
      case None => Scan(s, keys, p + 1)
  }

  predicate LettersAndSpaces(s: string) {
    forall k :: 0 <= k < |s| ==> IsLetter(s[k]) || IsSpace(s[k])
  }

  /** Letters and white space hold no digit, so `parseInt` reads no number from them. */
  lemma LettersHaveNoDigit(s: string)
    requires LettersAndSpaces(s)
    ensures forall k :: 0 <= k < |s| ==> !IsDigit(s[k])
    ensures ParseInt(s) == None
  {
    assert forall k :: 0 <= k < |s| ==> !IsDigit(s[k]);
  }

  /** `s.match(template)` */
  function TemplateMatch(s: string, t: Template): (r: Option<Capture>)
    ensures t.Keyed? ==> (r.Some? <==> exists p :: KeyHit(s, t.keys, p))
    ensures t.LettersOnly? ==> (r.Some? <==> s != [] && LettersAndSpaces(s))
    ensures t.LettersOnly? && r.Some? ==> r.value == One(s)
    ensures t.Keyed? && t.body.Counted? && r.Some? ==> r.value.Two?
    ensures t.Keyed? && t.body.Phrase? && r.Some? ==> r.value.One? && r.value.text != []
    ensures r.Some? && r.value.Two? && r.value.count.Some? ==> AllDigits(r.value.count.value)
  {
    match t
    case LettersOnly => if s != [] && LettersAndSpaces(s) then Some(One(s)) else None
    case Keyed(keys, body) =>
      match Scan(s, keys, 0)
      case None => None
      case Some((p, k)) =>
        var r := s[p + |k|..];
        match body
        case Counted(tail) => Some(CountedBody(r, tail))
        case Phrase(tail) => Some(One(Cut(r, tail)))
  }

  /** A keyed template none of whose keywords occurs does not match. */
  lemma NoKeyNoMatch(s: string, keys: seq<string>, body: Body)
    requires forall i :: 0 <= i < |keys| ==> !Contains(s, keys[i])
    ensures TemplateMatch(s, Keyed(keys, body)) == None
  {
    forall p ensures !KeyHit(s, keys, p) {
      forall i | 0 <= i < |keys| ensures !OccursAt(s, keys[i], p) {
        ContainsIff(s, keys[i]);
      }
    }
  }

  /** `^(\d+)\s+(.+)$`: the count and the phrase after it. */
  function LeadingCount(s: string): (r: Option<(nat, string)>)
    ensures r.Some? ==> exists d :: 0 < d < |s| && AllDigits(s[..d]) && IsSpace(s[d])
                                       && r.value.0 == DigitsValue(s[..d])
    ensures r.Some? ==> r.value.1 != [] && |r.value.1| < |s| && r.value.1 == s[|s| - |r.value.1|..]
  {
    var d := Span(s, 0, IsDigit);
    var w := Span(s, d, IsSpace);
    if d >= 1 && w >= 1 && d + w < |s| then Some((DigitsValue(s[..d]), s[d + w..]))
    else if d >= 1 && w >= 2 then Some((DigitsValue(s[..d]), [s[|s| - 1]]))
    else None
  }

  /** On a phrase with no space at either end, `^(\d+)\s+(.+)$` matches exactly when the phrase
      is a digit run, a space run and a rest, and then captures that count and that rest. */
  lemma LeadingCountSplits(digits: string, spaces: string, rest: string)
    requires digits != [] && AllDigits(digits)
    requires spaces != [] && forall k :: 0 <= k < |spaces| ==> IsSpace(spaces[k])
    requires rest != [] && !IsSpace(rest[0]) && !IsDigit(spaces[0])
    ensures LeadingCount(digits + spaces + rest) == Some((DigitsValue(digits), rest))
  {
    var s := digits + spaces + rest;
    var d, w := |digits|, |spaces|;
    assert s[..d] == digits;
    assert s[d..d + w] == spaces;
    assert s[d + w..] == rest;
    assert forall k :: 0 <= k < d ==> IsDigit(s[k]) by {
      forall k | 0 <= k < d ensures IsDigit(s[k]) { assert s[k] == digits[k]; }
    }
    SpanIs(s, 0, d, IsDigit);
    assert forall k :: d <= k < d + w ==> IsSpace(s[k]) by {
      forall k | d <= k < d + w ensures IsSpace(s[k]) { assert s[k] == spaces[k - d]; }
    }
    assert s[d + w] == rest[0];
    SpanIs(s, d, w, IsSpace);
  }

  /** A phrase that does not start with a digit has no leading count. */
  lemma NoLeadingCount(s: string)
    requires s == [] || !IsDigit(s[0])
    ensures LeadingCount(s) == None
  {
  }

  // ---------------------------------------------------------------- word removal

  /** `\b` at position `i` */
  predicate Boundary(s: string, i: nat) {
    (0 < i <= |s| && IsWordChar(s[i - 1])) != (i < |s| && IsWordChar(s[i]))
  }

  /** `\b<w>\b` at `i`; every alternative of the patterns is non-empty. */
  predicate WordAt(s: string, w: string, i: nat) {
    w != [] && Boundary(s, i) && OccursAt(s, w, i) && Boundary(s, i + |w|)
  }

  /** The first alternative, in order, that `\b(…)\b` matches at `i`. */
  function FirstWordAt(s: string, ws: seq<string>, i: nat): (r: Option<string>)
    ensures r.Some? ==> r.value in ws && WordAt(s, r.value, i)
    ensures r.None? <==> forall k :: 0 <= k < |ws| ==> !WordAt(s, ws[k], i)
  {
    if ws == [] then None
    else if WordAt(s, ws[0], i) then Some(ws[0])
    else FirstWordAt(s, ws[1..], i)
  }

  function StripFrom(s: string, ws: seq<string>, i: nat): (r: string)
    requires i <= |s|
    ensures |r| <= |s| - i
    decreases |s| - i
  {
    if i == |s| then []
    else match FirstWordAt(s, ws, i)
      case Some(w) => StripFrom(s, ws, i + |w|)
      case None => [s[i]] + StripFrom(s, ws, i + 1)
  }

  /** `s.replace(/\b(w1|w2|…)\b/gi, '')` */
  function StripWords(s: string, ws: seq<string>): (r: string)
    ensures |r| <= |s|
  {
    StripFrom(s, ws, 0)
  }

  /** Where none of the words stands as a whole word, nothing is removed. */
  lemma {:induction false} StripNothing(s: string, ws: seq<string>, i: nat)
    requires i <= |s|
    requires forall j, k :: i <= j < |s| && 0 <= k < |ws| ==> !WordAt(s, ws[k], j)
    ensures StripFrom(s, ws, i) == s[i..]
    decreases |s| - i
  {
    if i < |s| {
      StripNothing(s, ws, i + 1);
    }
  }

  /** A character at which no word starts is kept, ahead of what the rest becomes. */
  lemma StripKeepsHead(s: string, ws: seq<string>)
    requires s != []
    requires forall k :: 0 <= k < |ws| ==> !OccursAt(s, ws[k], 0)
    ensures StripWords(s, ws) == [s[0]] + StripFrom(s, ws, 1)
  {
  }

  // ---------------------------------------------------------------- prices

  datatype PriceKind = ForDollars | DollarSign | Dollars | Cost

  /** The order in which the price patterns are tried. */
  const PriceKinds: seq<PriceKind> := [ForDollars, DollarSign, Dollars, Cost]

  /** A price match: the amount `parseFloat` reads from the number group, and the whole text
      matched. */
  datatype PriceMatch = PriceMatch(amount: real, text: string)

  /** `\d+(?:\.\d{2})?` at `i`: its length and `parseFloat` of it. */
  function NumberAt(s: string, i: nat): (r: Option<(nat, real)>)
    requires i <= |s|
    ensures r.Some? ==> 1 <= r.value.0 && i + r.value.0 <= |s| && IsDigit(s[i])
    ensures r.Some? ==> r.value.1 >= 0.0
    ensures r.None? <==> i == |s| || !IsDigit(s[i])
  {
    var d := Span(s, i, IsDigit);
    if d == 0 then None
    else
      var whole := DigitsValue(s[i..i + d]) as real;
      if i + d + 3 <= |s| && s[i + d] == '.' && IsDigit(s[i + d + 1]) && IsDigit(s[i + d + 2]) then
        Some((d + 3, whole + DigitsValue(s[i + d + 1..i + d + 3]) as real / 100.0))
      else Some((d, whole))
  }

  /** The text from `p` to `e` matched, reading `amount`. */
  function MatchFrom(s: string, p: nat, e: nat, amount: real): (r: PriceMatch)
    requires p < e <= |s|
    ensures r.amount == amount && r.text != [] && r.text <= s[p..]
  {
    assert s[p..e] == s[p..][..e - p];
    PriceMatch(amount, s[p..e])
  }

  /** `\s*dollars?` after a number ending at `j`, completing a match that began at `p`. */
  function DollarWord(s: string, p: nat, j: nat, amount: real): (r: Option<PriceMatch>)
    requires p < j <= |s|
    ensures r.Some? ==> r.value.amount == amount && r.value.text != [] && r.value.text <= s[p..]
  {
    var w := Span(s, j, IsSpace);
    if OccursAt(s, "dollar", j + w) then
      var e := j + w + 6;
      var e' := if e < |s| && s[e] == 's' then e + 1 else e;
      Some(MatchFrom(s, p, e', amount))
    else None
  }

  /** A number at `i` ending a match that began at `p`. */
  function NumberEnds(s: string, p: nat, i: nat): (r: Option<PriceMatch>)
    requires p <= i <= |s|
    ensures r.Some? ==> r.value.text != [] && r.value.text <= s[p..] && r.value.amount >= 0.0
    ensures r.Some? ==> i < |s| && IsDigit(s[i])
  {
    match NumberAt(s, i)
    case Some((n, a)) => Some(MatchFrom(s, p, i + n, a))
    case None => None
  }

  /** A number at `i` followed by `\s*dollars?`, completing a match that began at `p`. */
  function DollarsAfter(s: string, p: nat, i: nat): (r: Option<PriceMatch>)
    requires p <= i <= |s|
    ensures r.Some? ==> r.value.text != [] && r.value.text <= s[p..] && r.value.amount >= 0.0
    ensures r.Some? ==> i < |s| && IsDigit(s[i])
  {
    match NumberAt(s, i)
    case Some((n, a)) => DollarWord(s, p, i + n, a)
    case None => None
  }

  /** The price pattern `kind` matching at `p`. */
  function PriceAt(s: string, kind: PriceKind, p: nat): (r: Option<PriceMatch>)
    requires p <= |s|
    ensures r.Some? ==> r.value.text != [] && r.value.text <= s[p..] && r.value.amount >= 0.0
    ensures r.Some? ==> exists k :: p <= k < |s| && IsDigit(s[k])
  {
    match kind
    case ForDollars =>
      if OccursAt(s, "for ", p) then DollarsAfter(s, p, p + 4) else None
    case DollarSign =>
      if p < |s| && s[p] == '$' then NumberEnds(s, p, p + 1) else None
    case Dollars =>
      DollarsAfter(s, p, p)
    case Cost =>
      var i := if OccursAt(s, "costs ", p) then p + 6 else if OccursAt(s, "cost ", p) then p + 5 else 0;
      if i == 0 then None else NumberEnds(s, p, i)
  }

  /** The leftmost match of one price pattern at or after `p`. */
  function PriceScan(s: string, kind: PriceKind, p: nat): (r: Option<PriceMatch>)
    requires p <= |s|
    ensures r.Some? ==> exists q :: p <= q <= |s| && PriceAt(s, kind, q) == r
    ensures r.None? <==> forall q :: p <= q <= |s| ==> PriceAt(s, kind, q).None?
    decreases |s| - p
  {
    var here := PriceAt(s, kind, p);
    if here.Some? || p == |s| then here
    else
      var r := PriceScan(s, kind, p + 1);
      assert r.None? ==> forall q :: p <= q <= |s| ==> PriceAt(s, kind, q).None? by {
        if r.None? {
          forall q | p <= q <= |s| ensures PriceAt(s, kind, q).None? {
            if q > p {
              assert p + 1 <= q <= |s|;
            }
          }
        }
      }
      r
  }

  /** The first price pattern, in order, that matches somewhere in `s`. */
  function FirstPrice(s: string, kinds: seq<PriceKind>): (r: Option<PriceMatch>)
    ensures r.Some? ==> exists i :: 0 <= i < |kinds| && PriceScan(s, kinds[i], 0) == r && NoneBefore(s, kinds, i)
    ensures r.None? <==> NoneBefore(s, kinds, |kinds|)
  {
    if kinds == [] then None
    else
      var first := PriceScan(s, kinds[0], 0);
      if first.Some? then
        assert NoneBefore(s, kinds, 0);
        first
      else
        var r := FirstPrice(s, kinds[1..]);
        NoneBeforeShift(s, kinds);
        r
  }

  /** None of the first `i` price patterns matches anywhere. */
  predicate NoneBefore(s: string, kinds: seq<PriceKind>, i: nat)
    requires i <= |kinds|
  {
    forall j :: 0 <= j < i ==> PriceScan(s, kinds[j], 0).None?
  }

  lemma NoneBeforeShift(s: string, kinds: seq<PriceKind>)
    requires kinds != [] && PriceScan(s, kinds[0], 0).None?
    ensures forall i :: 0 <= i <= |kinds[1..]| ==> (NoneBefore(s, kinds[1..], i) <==> NoneBefore(s, kinds, i + 1))
  {
    forall i | 0 <= i <= |kinds[1..]| ensures NoneBefore(s, kinds[1..], i) <==> NoneBefore(s, kinds, i + 1) {
      if NoneBefore(s, kinds[1..], i) {
        forall j | 0 <= j < i + 1 ensures PriceScan(s, kinds[j], 0).None? {
          if j > 0 {
            assert kinds[j] == kinds[1..][j - 1];
          }
        }
      }
      if NoneBefore(s, kinds, i + 1) {
        forall j | 0 <= j < i ensures PriceScan(s, kinds[1..][j], 0).None? {
          assert kinds[1..][j] == kinds[j + 1];
        }
      }
    }
  }

  /** Every price pattern needs a digit, so a command without one carries no price. */
  lemma NoDigitNoPrice(s: string, kinds: seq<PriceKind>)
    requires forall k :: 0 <= k < |s| ==> !IsDigit(s[k])
    ensures FirstPrice(s, kinds) == None
  {
    forall i, q | 0 <= i < |kinds| && 0 <= q <= |s| ensures PriceAt(s, kinds[i], q).None? {
    }
  }

  // ---------------------------------------------------------------- price text as a pattern

  /** `new RegExp(text)` matching at `i`: every `.` matches any character and `$`, which asserts
      the end of the input and is followed by digits in every price text, never matches. */
  predicate PatternAt(s: string, text: string, i: nat) {
    '$' !in text && i + |text| <= |s|
    && forall k :: 0 <= k < |text| ==> text[k] == '.' || s[i + k] == text[k]
  }

  /** `s.replace(new RegExp(text, 'gi'), '')` */
  function RemovePattern(s: string, text: string): (r: string)
    requires text != []
    ensures |r| <= |s|
    ensures '$' in text ==> r == s
  {
    if s == [] then []
    else if PatternAt(s, text, 0) then RemovePattern(s[|text|..], text)
    else [s[0]] + RemovePattern(s[1..], text)
  }

  /** Without `.` or `$`, the pattern is the literal text, and the removal leaves nothing of
      it behind at the front. */
  lemma RemovePatternLiteral(text: string, rest: string)
    requires text != [] && '$' !in text && '.' !in text
    ensures RemovePattern(text + rest, text) == RemovePattern(rest, text)
  {
    assert (text + rest)[|text|..] == rest;
    assert (text + rest)[..|text|] == text;
  }
}
