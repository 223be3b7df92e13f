/**
 * The product catalog and `searchProducts` (src/utils/productSearch.ts): a query is lowered,
 * trimmed and split into words; a product is kept when some word selects it; the kept products
 * are stably ordered by how many query words they mention.
 */
module Catalog {
  import opened Wrappers
  import opened Text
  import Sorting
  import Seqs

  datatype Product = Product(name: string, category: string, brand: string, size: string,
                             price: real, inStock: bool)

  /** The query words of a query: `query.toLowerCase().trim().split(/\s+/)`. */
  function QueryWords(query: string): seq<string> {
    SplitWs(Trim(Lower(query)))
  }

  predicate StartsSomeWord(w: string, ws: seq<string>) {
    exists i :: 0 <= i < |ws| && w <= ws[i]
  }

  /** One query word selects a product: a word of at most two characters must begin a word of
      the name or of the brand, or begin the category; a longer word may occur anywhere in the
      name, the category or the brand. */
  predicate WordSelects(w: string, p: Product) {
    var name, category, brand := Lower(p.name), Lower(p.category), Lower(p.brand);
    if |w| <= 2 then
      StartsSomeWord(w, SplitWs(name)) || StartsSomeWord(w, SplitWs(brand)) || w <= category
    else
      Contains(name, w) || Contains(category, w) || Contains(brand, w)
  }

  predicate Selected(words: seq<string>, p: Product) {
    exists i :: 0 <= i < |words| && WordSelects(words[i], p)
  }

  /** The ranking test: the word occurs in the name, the brand or the category. */
  predicate Mentions(p: Product, w: string) {
    Contains(Lower(p.name), w) || Contains(Lower(p.brand), w) || Contains(Lower(p.category), w)
  }

  /** How many of the query words (counted with repetition) the product mentions: the length of
      the `queryWords.filter(...)` of the comparator, and zero exactly when no word is mentioned. */
  function Relevance(words: seq<string>, p: Product): (n: nat)
    ensures n <= |words|
    ensures n == |Seqs.Filter(words, (w: string) => Mentions(p, w))|
    ensures n == 0 <==> forall i :: 0 <= i < |words| ==> !Mentions(p, words[i])
  {
    if words == [] then 0
    else
      var init, last := words[..|words| - 1], words[|words| - 1];
      var n := Relevance(init, p);
      assert n == 0 ==> forall i :: 0 <= i < |words| ==> i < |init| ==> !Mentions(p, words[i]) by {
        forall i | 0 <= i < |init| ensures words[i] == init[i] { }
      }
      n + (if Mentions(p, last) then 1 else 0)
  }

  /** The catalog rows some query word selects, in catalog order. */
  function Matching(catalog: seq<Product>, words: seq<string>): seq<Product> {
    Seqs.Filter(catalog, p => Selected(words, p))
  }

  function RankKey(words: seq<string>): Product -> int {
    p => Relevance(words, p)
  }

  /** `searchProducts(query)` over the given catalog, without the simulated delay. */
  function SearchProducts(query: string, catalog: seq<Product>): seq<Product> {
    var q := Trim(Lower(query));
    if q == [] then []
    else Sorting.SortDesc(Matching(catalog, SplitWs(q)), RankKey(SplitWs(q)))
  }

  // ---------------------------------------------------------------- properties

  lemma MatchingMultiset(catalog: seq<Product>, words: seq<string>, p: Product)
    ensures multiset(Matching(catalog, words))[p] == if Selected(words, p) then multiset(catalog)[p] else 0
  {
    Seqs.FilterMultiset(catalog, q => Selected(words, q), p);
  }

  /** A blank query returns nothing. */
  lemma BlankQueryFindsNothing(query: string, catalog: seq<Product>)
    requires forall k :: 0 <= k < |query| ==> IsSpace(query[k])
    ensures SearchProducts(query, catalog) == []
  {
    TrimEmptyIff(Lower(query));
    assert forall k :: 0 <= k < |query| ==> Lower(query)[k] == query[k];
  }

  /** Exactly the selected catalog rows come back, each as often as it occurs in the catalog:
      nothing is invented, no match is dropped, duplicate rows all appear. */
  lemma SearchReturnsExactlyMatches(query: string, catalog: seq<Product>, p: Product)
    requires Trim(Lower(query)) != []
    ensures multiset(SearchProducts(query, catalog))[p]
         == if Selected(QueryWords(query), p) then multiset(catalog)[p] else 0
    ensures p in SearchProducts(query, catalog) <==> p in catalog && Selected(QueryWords(query), p)
  {
    var words := QueryWords(query);
    Sorting.SortPermutes(Matching(catalog, words), RankKey(words));
    MatchingMultiset(catalog, words, p);
  }

  /** Results come in non-increasing order of relevance. */
  lemma SearchRanksByRelevance(query: string, catalog: seq<Product>, i: nat, j: nat)
    requires i < j < |SearchProducts(query, catalog)|
    ensures Relevance(QueryWords(query), SearchProducts(query, catalog)[i])
         >= Relevance(QueryWords(query), SearchProducts(query, catalog)[j])
  {
    var words := QueryWords(query);
    Sorting.SortDescends(Matching(catalog, words), RankKey(words));
  }

  /** Results of equal relevance keep their catalog order (the sort is stable). */
  lemma SearchKeepsCatalogOrderOnTies(query: string, catalog: seq<Product>, k: int)
    requires Trim(Lower(query)) != []
    ensures Sorting.WithKey(SearchProducts(query, catalog), RankKey(QueryWords(query)), k)
         == Sorting.WithKey(Matching(catalog, QueryWords(query)), RankKey(QueryWords(query)), k)
  {
    var words := QueryWords(query);
    Sorting.SortStable(Matching(catalog, words), RankKey(words), k);
  }

  function LowerFields(p: Product): Product {
    p.(name := Lower(p.name), category := Lower(p.category), brand := Lower(p.brand))
  }

  /** Matching ignores case: in the query, since the query is lowered first, and in the
      product fields, since those are lowered before comparison. */
  lemma MatchingIgnoresCase(query: string, catalog: seq<Product>, p: Product)
    ensures SearchProducts(Lower(query), catalog) == SearchProducts(query, catalog)
    ensures Selected(QueryWords(query), p) <==> Selected(QueryWords(query), LowerFields(p))
    ensures Relevance(QueryWords(query), p) == Relevance(QueryWords(query), LowerFields(p))
  {
    LowerIdempotent(query);
    LowerIdempotent(p.name);
    LowerIdempotent(p.category);
    LowerIdempotent(p.brand);
    RelevanceIgnoresCase(QueryWords(query), p);
  }

  lemma RelevanceIgnoresCase(words: seq<string>, p: Product)
    ensures Relevance(words, p) == Relevance(words, LowerFields(p))
  {
    LowerIdempotent(p.name);
    LowerIdempotent(p.category);
    LowerIdempotent(p.brand);
    if words != [] {
      RelevanceIgnoresCase(words[..|words| - 1], p);
    }
  }

  /** The first result is the best match: a catalog row the query selects that no other
      selected row outranks. */
  lemma FirstResultIsBest(query: string, catalog: seq<Product>, other: Product)
    requires SearchProducts(query, catalog) != []
    ensures var best := SearchProducts(query, catalog)[0];
      best in catalog && Selected(QueryWords(query), best)
      && (other in catalog && Selected(QueryWords(query), other)
          ==> Relevance(QueryWords(query), other) <= Relevance(QueryWords(query), best))
  {
    var results := SearchProducts(query, catalog);
    SearchReturnsExactlyMatches(query, catalog, results[0]);
    if other in catalog && Selected(QueryWords(query), other) {
      SearchReturnsExactlyMatches(query, catalog, other);
      var j :| 0 <= j < |results| && results[j] == other;
      if j > 0 {
        SearchRanksByRelevance(query, catalog, 0, j);
      }
    }
  }

  /** The search comes back empty exactly when the query is blank or selects no catalog row. */
  lemma NothingFoundIff(query: string, catalog: seq<Product>)
    ensures SearchProducts(query, catalog) == []
        <==> (Trim(Lower(query)) == [] || forall p :: p in catalog ==> !Selected(QueryWords(query), p))
  {
    if Trim(Lower(query)) != [] {
      var results := SearchProducts(query, catalog);
      if results != [] {
        SearchReturnsExactlyMatches(query, catalog, results[0]);
      } else {
        forall p | p in catalog ensures !Selected(QueryWords(query), p) {
          SearchReturnsExactlyMatches(query, catalog, p);
        }
      }
    }
  }
}
