/**
 * The search panel (src/components/VoiceSearch.tsx): `processSearchCommand`, a sibling of the
 * voice-command cascade that tries nine add templates, then a price filter, then a keyword-
 * stripped catalog search, then token salvage; and `performSearch`, which narrows the catalog
 * answer by the panel's price filter.
 *
 * `InterpretSearch` states what the cascade yields for a transcript; the panel's methods compute
 * it step by step and update the panel's state (the filter, the query and the results).
 */
module VoiceSearch {
  import opened Wrappers
  import opened Text
  import opened Patterns
  import opened Seqs
  import Catalog
  import VoiceCommands

  /** `{ min?: number; max?: number }` */
  datatype PriceFilter = PriceFilter(min: Option<nat>, max: Option<nat>)

  const NoFilter := PriceFilter(None, None)

  datatype SearchIntent =
    | SearchAdd(name: string, quantity: nat)
    | MaxFilter(max: nat)
    | RangeFilter(low: nat, high: nat)
    | Query(text: string)
    | SearchSalvage(phrase: string)
    | SearchUnrecognised

  /** What the panel reports once the catalog has answered; `Searched(q)` is the call of
      `onSearchQuery(q)` that logs the query in the store. */
  datatype Outcome =
    | AddToList(name: string, quantity: nat)
    | NotAvailable(phrase: string)
    | FilterSet(filter: PriceFilter)
    | Searched(query: string)
    | NotRecognised

  // ---------------------------------------------------------------- the tables

  /** The add templates of the voice-command cascade without the letters-only catch-all. */
  const SearchAddTemplates: seq<Template> := VoiceCommands.AddTemplates[..9]

  /** The filler alternatives of this panel: those of the voice-command cascade up to `oz of`,
      without `for`, `costs?` and `dollars?`. */
  const SearchFillers: seq<string> := [
    "a", "an", "the", "some", "few", "many", "couple of", "dozen", "pack of", "bottle of",
    "can of", "box of", "bag of", "loaf of", "pound of", "pounds of", "ounces of", "oz of"
  ]

  /** `/find|search|show|get|look for/` */
  const QueryKeywords: seq<string> := ["find", "search", "show", "get", "look for"]

  /** The keywords of `/under (\d+)|less than (\d+)|below (\d+)/` */
  const MaxKeywords: seq<string> := ["under ", "less than ", "below "]

  /** `/dollars?|\$/` */
  const CurrencyWords: seq<string> := ["dollars", "dollar", "$"]

  const SearchStopWords: seq<string> := [
    "find", "search", "show", "get", "look", "for", "the", "a", "an", "some", "and", "or", "but",
    "to", "from", "my", "list", "under", "below", "less", "than", "between", "dollars", "dollar", "$"
  ]

  // ---------------------------------------------------------------- add templates

  /** Quantity and phrase read from a match: both groups give the count and the trimmed phrase,
      a missing count leaves the phrase empty, and a single group is the phrase as it is, even
      when it starts with digits. */
  function SearchGroups(c: Capture): (r: (nat, string))
    requires VoiceCommands.CountIsDigits(c)
    ensures c.One? ==> r == (1, Trim(c.text))
    ensures c.Two? && c.count.None? ==> r.1 == []
  {
    match c
    case Two(Some(d), item) => (DigitsValue(d), Trim(item))
    case Two(None, _) => (1, "")
    case One(g) => (1, Trim(g))
  }

  /** One add template applied to the lowered command: the phrase after the leading-count
      override and the filler stripping, `None` when that is empty. */
  function SearchAddAttempt(lc: string, t: Template): (r: Option<SearchIntent>)
    ensures r.Some? ==> r.value.SearchAdd? && r.value.name != [] && TemplateMatch(lc, t).Some?
  {
    var m := TemplateMatch(lc, t);
    if m.None? then None
    else
      var (q, n) := VoiceCommands.Recount(SearchGroups(m.value).0, SearchGroups(m.value).1);
      if n == [] then None
      else
        var name := Trim(StripWords(n, SearchFillers));
        if name == [] then None else Some(SearchAdd(name, q))
  }

  function FirstSearchAdd(lc: string, ts: seq<Template>): (r: Option<SearchIntent>)
    ensures r.Some? <==> exists i :: 0 <= i < |ts| && SearchAddAttempt(lc, ts[i]).Some?
    ensures r.Some? ==> r.value.SearchAdd?
  {
    if ts == [] then None
    else if SearchAddAttempt(lc, ts[0]).Some? then SearchAddAttempt(lc, ts[0])
    else
      var r := FirstSearchAdd(lc, ts[1..]);
      assert r.Some? ==> exists i :: 0 <= i < |ts| && SearchAddAttempt(lc, ts[i]).Some? by {
        if r.Some? {
          var i :| 0 <= i < |ts[1..]| && SearchAddAttempt(lc, ts[1..][i]).Some?;
          assert ts[i + 1] == ts[1..][i];
        }
      }
      r
  }

  // ---------------------------------------------------------------- price phrases

  /** `kw(\d+)` at `i`: the length of the match and the value `parseInt` reads from the greedy
      digit run. */
  function NumberAfter(s: string, kw: string, i: nat): (r: Option<(nat, nat)>)
    ensures r.Some? ==> OccursAt(s, kw, i) && |kw| < r.value.0 && i + r.value.0 <= |s|
    ensures r.None? <==> !OccursAt(s, kw, i) || i + |kw| == |s| || !IsDigit(s[i + |kw|])
  {
    if !OccursAt(s, kw, i) then None
    else
      var d := Span(s, i + |kw|, IsDigit);
      if d == 0 then None
      else
        var digits := s[i + |kw|..i + |kw| + d];
        assert AllDigits(digits) by {
          forall k | 0 <= k < d ensures IsDigit(digits[k]) {
            assert digits[k] == s[i + |kw| + k];
          }
        }
        Some((|kw| + d, DigitsValue(s[i + |kw|..i + |kw| + d])))
  }

  /** The first alternative `kw(\d+)`, in order, that matches at `i`. */
  function FirstNumberAfter(s: string, kws: seq<string>, i: nat): (r: Option<(nat, nat)>)
    ensures r.Some? ==> exists k :: 0 <= k < |kws| && NumberAfter(s, kws[k], i) == r
    ensures r.None? <==> forall k :: 0 <= k < |kws| ==> NumberAfter(s, kws[k], i).None?
  {
    if kws == [] then None
    else if NumberAfter(s, kws[0], i).Some? then NumberAfter(s, kws[0], i)
    else
      var r := FirstNumberAfter(s, kws[1..], i);
      assert r.Some? ==> exists k :: 0 <= k < |kws| && NumberAfter(s, kws[k], i) == r by {
        if r.Some? {
          var k :| 0 <= k < |kws[1..]| && NumberAfter(s, kws[1..][k], i) == r;
          assert kws[k + 1] == kws[1..][k];
        }
      }
      assert r.None? ==> forall k :: 0 <= k < |kws| ==> NumberAfter(s, kws[k], i).None? by {
        if r.None? {
          forall k | 1 <= k < |kws| ensures NumberAfter(s, kws[k], i).None? {
            assert kws[k] == kws[1..][k - 1];
          }
        }
      }
      r
  }

  /** `between (\d+) and (\d+)` at `i`: the length of the match and the two values. */
  function BetweenAt(s: string, i: nat): (r: Option<(nat, nat, nat)>)
    ensures r.Some? ==> i + r.value.0 <= |s|
  {
    match NumberAfter(s, "between ", i)
    case None => None
    case Some((n1, low)) =>
      match NumberAfter(s, " and ", i + n1)
      case None => None
      case Some((n2, high)) => Some((n1 + n2, low, high))
  }

  /** `s.match(/kw1(\d+)|kw2(\d+)|…/)`: the leftmost position, at or after `i`, where one of
      the alternatives matches, and the value read there. */
  function NumberScan(s: string, kws: seq<string>, i: nat): (r: Option<(nat, nat)>)
    ensures r.Some? ==> (i <= r.value.0 <= |s| && FirstNumberAfter(s, kws, r.value.0).Some?
                         && FirstNumberAfter(s, kws, r.value.0).value.1 == r.value.1)
    decreases |s| - i
  {
    if i > |s| then None
    else
      var m := FirstNumberAfter(s, kws, i);
      if m.Some? then Some((i, m.value.1)) else NumberScan(s, kws, i + 1)
  }

  /** The scan reports the leftmost matching position: none before it, and it finds nothing
      only when no position from `i` on matches. */
  lemma {:induction false} NumberScanIsLeftmost(s: string, kws: seq<string>, i: nat)
    ensures NumberScan(s, kws, i).Some? ==>
      forall p :: i <= p < NumberScan(s, kws, i).value.0 ==> FirstNumberAfter(s, kws, p).None?
    ensures NumberScan(s, kws, i).None? <==> forall p :: i <= p <= |s| ==> FirstNumberAfter(s, kws, p).None?
    decreases |s| - i
  {
    if i > |s| {
      assert NumberScan(s, kws, i) == None;
    } else if FirstNumberAfter(s, kws, i).Some? {
      assert NumberScan(s, kws, i).value.0 == i;
      assert i <= i <= |s| && !FirstNumberAfter(s, kws, i).None?;
    } else {
      var r := NumberScan(s, kws, i + 1);
      NumberScanIsLeftmost(s, kws, i + 1);
      assert NumberScan(s, kws, i) == r;
      if r.Some? {
        forall p | i <= p < r.value.0 ensures FirstNumberAfter(s, kws, p).None? {
          if p > i {
            assert i + 1 <= p < r.value.0;
          }
        }
      } else {
        forall p | i <= p <= |s| ensures FirstNumberAfter(s, kws, p).None? {
          if p > i {
            assert i + 1 <= p <= |s|;
          }
        }
      }
    }
  }

  /** `lowerCommand.match(/under (\d+)|less than (\d+)|below (\d+)/)`: the value `parseInt`
      reads from the captured digits. */
  function MaxScan(s: string): (r: Option<nat>) {
    var m := NumberScan(s, MaxKeywords, 0);
    if m.Some? then Some(m.value.1) else None
  }

  /** `lowerCommand.match(/between (\d+) and (\d+)/)` at its leftmost position. */
  function RangeScan(s: string, i: nat): (r: Option<(nat, nat)>)
    ensures r.Some? ==> exists p :: (i <= p <= |s| && BetweenAt(s, p).Some?
                                    && BetweenAt(s, p).value.1 == r.value.0 && BetweenAt(s, p).value.2 == r.value.1
                                    && forall q :: i <= q < p ==> BetweenAt(s, q).None?)
    ensures r.None? <==> forall p :: i <= p <= |s| ==> BetweenAt(s, p).None?
    decreases |s| - i
  {
    if i > |s| then None
    else
      var m := BetweenAt(s, i);
      if m.Some? then Some((m.value.1, m.value.2))
      else RangeScan(s, i + 1)
  }

  // ---------------------------------------------------------------- the cleaned query

  /** The first non-empty alternative, in order, that the string starts with. */
  function FirstPrefix(s: string, ws: seq<string>): (r: Option<string>)
    ensures r.Some? ==> r.value in ws && r.value != [] && OccursAt(s, r.value, 0)
    ensures r.None? <==> forall k :: 0 <= k < |ws| && ws[k] != [] ==> !OccursAt(s, ws[k], 0)
  {
    if ws == [] then None
    else if ws[0] != [] && OccursAt(s, ws[0], 0) then Some(ws[0])
    else FirstPrefix(s, ws[1..])
  }

  /** `s.replace(/w1|w2|…/g, '')`: a left-to-right scan that drops every match. */
  function RemoveAll(s: string, ws: seq<string>): (r: string)
    ensures |r| <= |s|
    decreases |s|
  {
    if s == [] then []
    else match FirstPrefix(s, ws)
      case Some(w) => RemoveAll(s[|w|..], ws)
      case None => [s[0]] + RemoveAll(s[1..], ws)
  }

  /** The length of the price phrase `under \d+|less than \d+|below \d+|between \d+ and \d+`
      that the string starts with. */
  function PricePhrase(s: string): (r: Option<nat>)
    ensures r.Some? ==> 0 < r.value <= |s|
    ensures r.Some? <==> (exists k :: 0 <= k < |MaxKeywords| && NumberAfter(s, MaxKeywords[k], 0).Some?)
                         || BetweenAt(s, 0).Some?
    ensures r.Some? ==> (exists k :: 0 <= k < |MaxKeywords| && NumberAfter(s, MaxKeywords[k], 0).Some?
                                     && NumberAfter(s, MaxKeywords[k], 0).value.0 == r.value)
                        || (BetweenAt(s, 0).Some? && BetweenAt(s, 0).value.0 == r.value)
  {
    match FirstNumberAfter(s, MaxKeywords, 0)
    case Some((n, _)) => Some(n)
    case None =>
      match BetweenAt(s, 0)
      case Some((n, _, _)) => if n == 0 then None else Some(n)
      case None => None
  }

  function RemovePricePhrases(s: string): (r: string)
    ensures |r| <= |s|
    decreases |s|
  {
    if s == [] then []
    else match PricePhrase(s)
      case Some(n) => RemovePricePhrases(s[n..])
      case None => [s[0]] + RemovePricePhrases(s[1..])
  }

  /** The search query left once the keywords, the price phrases and the currency words are
      removed and the rest is trimmed. */
  function CleanQuery(lc: string): string {
    Trim(RemoveAll(RemovePricePhrases(RemoveAll(lc, QueryKeywords)), CurrencyWords))
  }

  // ---------------------------------------------------------------- the cascade, stated

  /** The intent the search cascade yields for a transcript. The command is lowered but not
      trimmed. */
  function InterpretSearch(command: string): SearchIntent {
    var lc := Lower(command);
    match FirstSearchAdd(lc, SearchAddTemplates)
    case Some(a) => a
    case None => FilterOrQuery(lc)
  }

  /** The cascade once no add template applies: a maximum price, else a price range, else a
      search. */
  function FilterOrQuery(lc: string): SearchIntent {
    match MaxScan(lc)
    case Some(m) => MaxFilter(m)
    case None =>
      match RangeScan(lc, 0)
      case Some((low, high)) => RangeFilter(low, high)
      case None => QueryOrSalvage(lc)
  }

  /** The cascade once no price filter applies: the cleaned query if it is not empty, else the
      salvaged tokens. */
  function QueryOrSalvage(lc: string): SearchIntent {
    var q := CleanQuery(lc);
    if q != [] then Query(q) else SalvageSearch(lc)
  }

  /** The last resort: the salvaged tokens, joined, if there are any. */
  function SalvageSearch(lc: string): (r: SearchIntent)
    ensures r.SearchSalvage? || r == SearchUnrecognised
  {
    var kept := VoiceCommands.Salvaged(SplitWs(lc), SearchStopWords);
    if kept != [] then SearchSalvage(JoinWords(kept)) else SearchUnrecognised
  }

  /** An add or salvage phrase looked up in the catalog: the best match's name is added with
      the quantity, and nothing else of the product is passed on. */
  function ResolveAdd(phrase: string, quantity: nat, catalog: seq<Catalog.Product>): (o: Outcome)
    ensures o.AddToList? || o == NotAvailable(phrase)
  {
    var results := Catalog.SearchProducts(phrase, catalog);
    if results == [] then NotAvailable(phrase) else AddToList(results[0].name, quantity)
  }

  /** What the panel reports for an intent. */
  function Respond(intent: SearchIntent, catalog: seq<Catalog.Product>): (o: Outcome)
    ensures intent.MaxFilter? ==> o == FilterSet(PriceFilter(None, Some(intent.max)))
    ensures intent.RangeFilter? ==> o == FilterSet(PriceFilter(Some(intent.low), Some(intent.high)))
    ensures intent.Query? ==> o == Searched(intent.text)
    ensures intent.SearchUnrecognised? ==> o == NotRecognised
  {
    match intent
    case SearchAdd(name, quantity) => ResolveAdd(name, quantity, catalog)
    case MaxFilter(max) => FilterSet(PriceFilter(None, Some(max)))
    case RangeFilter(low, high) => FilterSet(PriceFilter(Some(low), Some(high)))
    case Query(text) => Searched(text)
    case SearchSalvage(phrase) => ResolveAdd(phrase, 1, catalog)
    case SearchUnrecognised => NotRecognised
  }

  /** A product the filter lets through. */
  predicate InRange(p: Catalog.Product, f: PriceFilter) {
    (f.min.Some? ==> p.price >= f.min.value as real) && (f.max.Some? ==> p.price <= f.max.value as real)
  }

  /** The results narrowed by the filter. */
  function Narrowed(results: seq<Catalog.Product>, f: PriceFilter): seq<Catalog.Product> {
    Filter(results, p => InRange(p, f))
  }

  // ---------------------------------------------------------------- the panel

  class SearchPanel {
    var filter: PriceFilter
    var query: string
    var results: seq<Catalog.Product>

    constructor()
      ensures filter == NoFilter && query == [] && results == []
    {
      filter := NoFilter;
      query := [];
      results := [];
    }

    /** `processSearchCommand` for a final transcript: the cascade picks the intent, which is
        then carried out on the panel. */
    method ProcessSearchCommand(command: string, catalog: seq<Catalog.Product>) returns (outcome: Outcome)
      modifies this
      ensures outcome == Respond(InterpretSearch(command), catalog)
      ensures outcome.FilterSet? ==> filter == outcome.filter && query == old(query) && results == old(results)
      ensures outcome.Searched? ==> (filter == old(filter) && query == outcome.query
                                     && results == Narrowed(Catalog.SearchProducts(outcome.query, catalog), old(filter)))
      ensures !outcome.FilterSet? && !outcome.Searched? ==>
                filter == old(filter) && query == old(query) && results == old(results)
    {
      var intent := ClassifySearch(command);
      outcome := Carry(intent, catalog);
    }

    /** One branch of the cascade: an add or salvage phrase is looked up, a price filter is set,
        a cleaned query is stored and searched. */
    method Carry(intent: SearchIntent, catalog: seq<Catalog.Product>) returns (outcome: Outcome)
      modifies this
      ensures outcome == Respond(intent, catalog)
      ensures outcome.FilterSet? ==> filter == outcome.filter && query == old(query) && results == old(results)
      ensures outcome.Searched? ==> (filter == old(filter) && query == outcome.query
                                     && results == Narrowed(Catalog.SearchProducts(outcome.query, catalog), old(filter)))
      ensures !outcome.FilterSet? && !outcome.Searched? ==>
                filter == old(filter) && query == old(query) && results == old(results)
    {
      match intent
      case SearchAdd(name, quantity) =>
        outcome := ResolveAdd(name, quantity, catalog);
      case MaxFilter(max) =>
        filter := PriceFilter(None, Some(max));
        outcome := FilterSet(filter);
      case RangeFilter(low, high) =>
        filter := PriceFilter(Some(low), Some(high));
        outcome := FilterSet(filter);
      case Query(text) =>
        query := text;
        PerformSearch(text, catalog);
        outcome := Searched(text);
      case SearchSalvage(phrase) =>
        outcome := ResolveAdd(phrase, 1, catalog);
      case SearchUnrecognised =>
        outcome := NotRecognised;
    }

    /** `performSearch`: the catalog answer, narrowed by the minimum and then by the maximum. */
    method PerformSearch(q: string, catalog: seq<Catalog.Product>)
      modifies this
      ensures results == Narrowed(Catalog.SearchProducts(q, catalog), filter)
      ensures filter == old(filter) && query == old(query)
    {
      var found := Catalog.SearchProducts(q, catalog);
      var f := filter;
      NarrowedInTwoSteps(found, f);
      if f.min.Some? {
        found := Filter(found, p => AtLeast(p, f.min.value));
      }
      if f.max.Some? {
        found := Filter(found, p => AtMost(p, f.max.value));
      }
      results := found;
    }

    /** `handleManualSearch`: searches for the typed query when it is not blank, and logs it. */
    method ManualSearch(catalog: seq<Catalog.Product>) returns (logged: Option<string>)
      modifies this
      ensures logged.Some? <==> Trim(old(query)) != []
      ensures logged.Some? ==> (logged.value == old(query)
                                && results == Narrowed(Catalog.SearchProducts(old(query), catalog), old(filter)))
      ensures logged.None? ==> results == old(results)
      ensures filter == old(filter) && query == old(query)
    {
      if Trim(query) != [] {
        PerformSearch(query, catalog);
        logged := Some(query);
      } else {
        logged := None;
      }
    }

    /** `clearFilters` */
    method ClearFilters()
      modifies this
      ensures filter == NoFilter && query == [] && results == []
    {
      filter := NoFilter;
      query := [];
      results := [];
    }
  }

  /** The cascade of `processSearchCommand`, step by step: the add templates, then a maximum
      price, then a price range, then the cleaned query, then the salvaged tokens. */
  method ClassifySearch(command: string) returns (intent: SearchIntent)
    ensures intent == InterpretSearch(command)
  {
    var lowerCommand := Lower(command);
    var added := SearchAddLoop(lowerCommand);
    if added.Some? {
      return added.value;
    }
    intent := ClassifyFilter(lowerCommand);
  }

  /** The price-filter steps of the cascade; the search steps otherwise. */
  method ClassifyFilter(lowerCommand: string) returns (intent: SearchIntent)
    ensures intent == FilterOrQuery(lowerCommand)
  {
    var maxPrice := MaxScan(lowerCommand);
    if maxPrice.Some? {
      return MaxFilter(maxPrice.value);
    }
    var rangeMatch := RangeScan(lowerCommand, 0);
    if rangeMatch.Some? {
      return RangeFilter(rangeMatch.value.0, rangeMatch.value.1);
    }
    var cleanQuery := CleanQuery(lowerCommand);
    if cleanQuery != [] {
      return Query(cleanQuery);
    }
    var potentialItems := VoiceCommands.Salvaged(SplitWs(lowerCommand), SearchStopWords);
    if |potentialItems| > 0 {
      return SearchSalvage(JoinWords(potentialItems));
    }
    return SearchUnrecognised;
  }

  /** The add templates tried in order; the first that yields an item phrase returns. */
  method SearchAddLoop(lowerCommand: string) returns (r: Option<SearchIntent>)
    ensures r == FirstSearchAdd(lowerCommand, SearchAddTemplates)
  {
    var i := 0;
    while i < |SearchAddTemplates|
      invariant 0 <= i <= |SearchAddTemplates|
      invariant FirstSearchAdd(lowerCommand, SearchAddTemplates) == FirstSearchAdd(lowerCommand, SearchAddTemplates[i..])
    {
      Seqs.DropOne(SearchAddTemplates, i);
      var attempt := TrySearchAdd(lowerCommand, SearchAddTemplates[i]);
      if attempt.Some? {
        return attempt;
      }
      i := i + 1;
    }
    return None;
  }

  /** The body of the add loop for one template: the quantity and the item phrase are set from
      the groups, then from a leading count, then the fillers are stripped. */
  method TrySearchAdd(lowerCommand: string, t: Template) returns (r: Option<SearchIntent>)
    ensures r == SearchAddAttempt(lowerCommand, t)
  {
    var m := TemplateMatch(lowerCommand, t);
    if m.None? {
      return None;
    }
    var quantity, itemName := ReadSearchGroups(m.value);
    if itemName == [] {
      return None;
    }
    itemName := Trim(StripWords(itemName, SearchFillers));
    if itemName == [] {
      return None;
    }
    return Some(SearchAdd(itemName, quantity));
  }

  predicate AtLeast(p: Catalog.Product, low: nat) { p.price >= low as real }

  predicate AtMost(p: Catalog.Product, high: nat) { p.price <= high as real }

  /** Reads the quantity and the item phrase from the groups, then applies the leading count. */
  method ReadSearchGroups(c: Capture) returns (quantity: nat, itemName: string)
    requires VoiceCommands.CountIsDigits(c)
    ensures (quantity, itemName) == VoiceCommands.Recount(SearchGroups(c).0, SearchGroups(c).1)
  {
    quantity := 1;
    itemName := "";
    match c {
      case Two(count, item) =>
        if count.Some? {
          quantity := DigitsValue(count.value);
          itemName := Trim(item);
        }
      case One(g) =>
        itemName := Trim(g);
    }
    var quantityMatch := LeadingCount(itemName);
    if quantityMatch.Some? {
      quantity := quantityMatch.value.0;
      itemName := Trim(quantityMatch.value.1);
    }
  }

  /** The two successive filters of `performSearch` amount to one filter on the range. */
  lemma NarrowedInTwoSteps(s: seq<Catalog.Product>, f: PriceFilter)
    ensures f.min.Some? && f.max.Some? ==>
      Filter(Filter(s, p => AtLeast(p, f.min.value)), p => AtMost(p, f.max.value)) == Narrowed(s, f)
    ensures f.min.Some? && f.max.None? ==> Filter(s, p => AtLeast(p, f.min.value)) == Narrowed(s, f)
    ensures f.min.None? && f.max.Some? ==> Filter(s, p => AtMost(p, f.max.value)) == Narrowed(s, f)
    ensures f.min.None? && f.max.None? ==> s == Narrowed(s, f)
  {
    var inRange := (p: Catalog.Product) => InRange(p, f);
    if f.min.Some? && f.max.Some? {
      FilterTwice(s, p => AtLeast(p, f.min.value), p => AtMost(p, f.max.value), inRange);
    } else if f.min.Some? {
      FilterSame(s, p => AtLeast(p, f.min.value), inRange);
    } else if f.max.Some? {
      FilterSame(s, p => AtMost(p, f.max.value), inRange);
    } else {
      FilterAll(s, inRange);
    }
  }

  // ---------------------------------------------------------------- properties

  /** The narrowed results are exactly the results the filter lets through. */
  lemma NarrowedMembership(results: seq<Catalog.Product>, f: PriceFilter, p: Catalog.Product)
    ensures p in Narrowed(results, f) <==> p in results && InRange(p, f)
    ensures multiset(Narrowed(results, f))[p] == if InRange(p, f) then multiset(results)[p] else 0
  {
    FilterMultiset(results, q => InRange(q, f), p);
  }

  /** Narrowing keeps the order of the results: it narrows each part of a split in place. */
  lemma NarrowedKeepsOrder(a: seq<Catalog.Product>, b: seq<Catalog.Product>, f: PriceFilter)
    ensures Narrowed(a + b, f) == Narrowed(a, f) + Narrowed(b, f)
  {
    FilterConcat(a, b, p => InRange(p, f));
  }

  /** A price filter is set only when no add template applies; a maximum price wins over a
      range, and replaces the filter with one that has no minimum. */
  lemma FilterOnlyWithoutAdd(command: string, catalog: seq<Catalog.Product>)
    requires InterpretSearch(command).MaxFilter? || InterpretSearch(command).RangeFilter?
    ensures FirstSearchAdd(Lower(command), SearchAddTemplates) == None
    ensures InterpretSearch(command).RangeFilter? ==> MaxScan(Lower(command)) == None
    ensures InterpretSearch(command).MaxFilter? ==>
      Respond(InterpretSearch(command), catalog) == FilterSet(PriceFilter(None, MaxScan(Lower(command))))
  {
  }

  /** A search runs on the cleaned query, which is already trimmed, and only when no add
      template and no price filter applies. */
  lemma SearchedQueryIsClean(command: string)
    requires InterpretSearch(command).Query?
    ensures var lc := Lower(command);
      InterpretSearch(command).text == CleanQuery(lc) && CleanQuery(lc) != []
      && Trim(CleanQuery(lc)) == CleanQuery(lc)
      && FirstSearchAdd(lc, SearchAddTemplates) == None
      && MaxScan(lc) == None && RangeScan(lc, 0) == None
  {
    var lc := Lower(command);
    TrimIdempotent(RemoveAll(RemovePricePhrases(RemoveAll(lc, QueryKeywords)), CurrencyWords));
  }

  /** Salvage is reached only with an empty cleaned query; its phrase joins exactly the
      qualifying tokens of the command, and a command without one is not recognised. */
  lemma SalvageOnlyWithEmptyQuery(command: string, w: string)
    requires InterpretSearch(command).SearchSalvage? || InterpretSearch(command).SearchUnrecognised?
    ensures CleanQuery(Lower(command)) == []
    ensures InterpretSearch(command).SearchSalvage? ==>
      InterpretSearch(command).phrase == JoinWords(VoiceCommands.Salvaged(SplitWs(Lower(command)), SearchStopWords))
    ensures InterpretSearch(command).SearchUnrecognised? ==>
      (w in SplitWs(Lower(command)) ==> !VoiceCommands.Salvageable(w, SearchStopWords))
  {
    if InterpretSearch(command).SearchUnrecognised? {
      assert VoiceCommands.Salvaged(SplitWs(Lower(command)), SearchStopWords) == [];
    }
  }

  /** Unlike the voice-command cascade, a single capture is the item phrase even when
      `parseInt` reads a number from it: a template the voice-command cascade skips adds here. */
  lemma SingleCaptureKept(lc: string, t: Template, g: string)
    requires TemplateMatch(lc, t) == Some(One(g))
    requires ParseInt(g).Some? && LeadingCount(Trim(g)) == None
    requires Trim(StripWords(Trim(g), SearchFillers)) != []
    ensures VoiceCommands.AddAttempt(lc, t) == None
    ensures SearchAddAttempt(lc, t) == Some(SearchAdd(Trim(StripWords(Trim(g), SearchFillers)), 1))
  {
    NumericCaptureSkipped(lc, t, g);
    SingleCaptureAdds(lc, t, g);
  }

  /** A single capture without a leading count is the trimmed item phrase, quantity 1. */
  lemma SingleCaptureAdds(lc: string, t: Template, g: string)
    requires TemplateMatch(lc, t) == Some(One(g))
    requires LeadingCount(Trim(g)) == None
    requires Trim(StripWords(Trim(g), SearchFillers)) != []
    ensures SearchAddAttempt(lc, t) == Some(SearchAdd(Trim(StripWords(Trim(g), SearchFillers)), 1))
  {
    assert Trim(g) != [] by {
      TrimEmptyIff(Trim(g));
    }
    assert SearchGroups(One(g)) == (1, Trim(g));
    assert VoiceCommands.Recount(1, Trim(g)) == (1, Trim(g));
  }

  /** The voice-command parser reads a capture `parseInt` accepts as no item phrase at all. */
  lemma NumericCaptureSkipped(lc: string, t: Template, g: string)
    requires TemplateMatch(lc, t) == Some(One(g))
    requires ParseInt(g).Some?
    ensures VoiceCommands.AddAttempt(lc, t) == None
  {
    assert VoiceCommands.Groups(One(g)) == (1, []);
    NoLeadingCount([]);
  }

  /** An add or salvage outcome names the best catalog match for the phrase, with the spoken
      quantity and nothing else of the product; nothing is added when no row matches. */
  lemma ResolvedAddIsBestMatch(phrase: string, quantity: nat, catalog: seq<Catalog.Product>,
                               other: Catalog.Product)
    ensures var o := ResolveAdd(phrase, quantity, catalog);
      var words := Catalog.QueryWords(phrase);
      (o.NotAvailable? <==> (Trim(Lower(phrase)) == [] || forall p :: p in catalog ==> !Catalog.Selected(words, p)))
      && (o.AddToList? ==>
            o.quantity == quantity
            && exists best :: (best in catalog && Catalog.Selected(words, best) && o.name == best.name
                               && (other in catalog && Catalog.Selected(words, other)
                                   ==> Catalog.Relevance(words, other) <= Catalog.Relevance(words, best))))
  {
    Catalog.NothingFoundIff(phrase, catalog);
    if Catalog.SearchProducts(phrase, catalog) != [] {
      Catalog.FirstResultIsBest(phrase, catalog, other);
    }
  }

  /** Removing literal alternatives changes nothing exactly when none of them occurs. */
  lemma RemoveAllUnchangedIff(s: string, ws: seq<string>)
    ensures RemoveAll(s, ws) == s
        <==> forall j, k :: 0 <= k < |ws| && ws[k] != [] ==> !OccursAt(s, ws[k], j)
  {
    if forall j, k :: 0 <= k < |ws| && ws[k] != [] ==> !OccursAt(s, ws[k], j) {
      RemoveNothing(s, ws);
    } else {
      var j, k :| 0 <= k < |ws| && ws[k] != [] && OccursAt(s, ws[k], j);
      RemoveShrinks(s, ws, j, k);
    }
  }

  lemma {:induction false} RemoveNothing(s: string, ws: seq<string>)
    requires forall j, k :: 0 <= k < |ws| && ws[k] != [] ==> !OccursAt(s, ws[k], j)
    ensures RemoveAll(s, ws) == s
    decreases |s|
  {
    if s != [] {
      assert FirstPrefix(s, ws) == None;
      NothingInTail(s, ws);
      RemoveNothing(s[1..], ws);
    }
  }

  lemma NothingInTail(s: string, ws: seq<string>)
    requires s != []
    requires forall j, k :: 0 <= k < |ws| && ws[k] != [] ==> !OccursAt(s, ws[k], j)
    ensures forall j, k :: 0 <= k < |ws| && ws[k] != [] ==> !OccursAt(s[1..], ws[k], j)
  {
    forall j: nat, k | 0 <= k < |ws| && ws[k] != [] ensures !OccursAt(s[1..], ws[k], j) {
      if OccursAt(s[1..], ws[k], j) {
        assert s[j + 1..j + 1 + |ws[k]|] == s[1..][j..j + |ws[k]|];
        assert OccursAt(s, ws[k], j + 1);
      }
    }
  }

  lemma {:induction false} RemoveShrinks(s: string, ws: seq<string>, j: nat, k: nat)
    requires k < |ws| && ws[k] != [] && OccursAt(s, ws[k], j)
    ensures |RemoveAll(s, ws)| < |s|
    decreases |s|
  {
    if FirstPrefix(s, ws).None? {
      assert j > 0;
      assert s[1..][j - 1..j - 1 + |ws[k]|] == s[j..j + |ws[k]|];
      RemoveShrinks(s[1..], ws, j - 1, k);
    }
  }

  /** With no digit in the string there is no price phrase to remove. */
  lemma {:induction false} NoDigitNoPricePhrase(s: string)
    requires forall k :: 0 <= k < |s| ==> !IsDigit(s[k])
    ensures RemovePricePhrases(s) == s
    decreases |s|
  {
    if s != [] {
      assert PricePhrase(s) == None by {
        forall k | 0 <= k < |MaxKeywords| ensures NumberAfter(s, MaxKeywords[k], 0).None? {
        }
      }
      NoDigitNoPricePhrase(s[1..]);
    }
  }

  /** A command with no search keyword, no digit and no currency word is searched as it is,
      trimmed. */
  lemma PlainCommandIsItsOwnQuery(lc: string)
    requires forall j, k :: 0 <= k < |QueryKeywords| ==> !OccursAt(lc, QueryKeywords[k], j)
    requires forall k :: 0 <= k < |lc| ==> !IsDigit(lc[k])
    requires forall j, k :: 0 <= k < |CurrencyWords| ==> !OccursAt(lc, CurrencyWords[k], j)
    ensures CleanQuery(lc) == Trim(lc)
  {
    RemoveNothing(lc, QueryKeywords);
    NoDigitNoPricePhrase(lc);
    RemoveNothing(lc, CurrencyWords);
  }
}
