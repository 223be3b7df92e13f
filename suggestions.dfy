/**
 * The suggestion panel (`generateSuggestions` in src/components/SmartSuggestions.tsx): seven
 * generators propose items, their proposals are concatenated in a fixed order, de-duplicated
 * by lower-cased name keeping the first, and cut to six.
 *
 * `Math.random` is a parameter `draws` giving one arbitrary natural per draw site; the month of
 * `new Date()` and the presence of the API key are parameters too; `searchProducts` is the
 * synchronous `Catalog.SearchProducts` over a catalog parameter.
 */
module Suggestions {
  import opened Wrappers
  import opened Text
  import opened Seqs
  import Sorting
  import Catalog
  import Store

  datatype Kind = Frequent | Seasonal | Substitute | Complementary | Personalized

  /** A suggestion as the panel shows it, without the reason text and the icon. */
  datatype Suggestion = Suggestion(name: string, kind: Kind, price: Option<real>)

  datatype Season = Fall | Winter | Spring | Summer

  /** The values of `Math.random` turned into indices: draw site `k` picks `draws(k) % n`. */
  type Draws = nat -> nat

  const MaxShown: nat := 6

  /** `s.slice(0, n)` */
  function Take<T>(s: seq<T>, n: nat): (r: seq<T>)
    ensures |r| <= n && |r| <= |s|
    ensures r == s[..|r|]
    ensures |s| <= n ==> r == s
  {
    if |s| <= n then s else s[..n]
  }

  /** `currentItemNames`: the lower-cased names of the list items. */
  function ListedNames(items: seq<Store.Item>): (r: seq<string>)
    ensures |r| == |items|
    ensures forall i :: 0 <= i < |items| ==> r[i] == Lower(items[i].name)
  {
    seq(|items|, i requires 0 <= i < |items| => Lower(items[i].name))
  }

  /** `currentItemNames.includes(name.toLowerCase())` */
  predicate Listed(name: string, current: seq<string>) {
    Lower(name) in current
  }

  /** `names.filter(n => !currentItemNames.includes(n.toLowerCase()))` */
  function Unlisted(names: seq<string>, current: seq<string>): (r: seq<string>)
    ensures forall i :: 0 <= i < |r| ==> !Listed(r[i], current)
  {
    Filter(names, x => !Listed(x, current))
  }

  /** No suggestion names an item already on the list. */
  predicate NoneListed(r: seq<Suggestion>, current: seq<string>) {
    forall i :: 0 <= i < |r| ==> !Listed(r[i].name, current)
  }

  /** One suggestion per name, of one kind and without a price. */
  function Named(names: seq<string>, kind: Kind): (r: seq<Suggestion>)
    ensures |r| == |names|
    ensures forall i :: 0 <= i < |r| ==> r[i] == Suggestion(names[i], kind, None)
  {
    seq(|names|, i requires 0 <= i < |names| => Suggestion(names[i], kind, None))
  }

  /** One suggestion per catalog product, carrying the product's price. */
  function Offered(ps: seq<Catalog.Product>, kind: Kind): (r: seq<Suggestion>)
    ensures |r| == |ps|
    ensures forall i :: 0 <= i < |r| ==> r[i] == Suggestion(ps[i].name, kind, Some(ps[i].price))
  {
    seq(|ps|, i requires 0 <= i < |ps| => Suggestion(ps[i].name, kind, Some(ps[i].price)))
  }

  /** `availableItems[Math.floor(Math.random() * availableItems.length)]` */
  function RandomPick(available: seq<string>, draw: nat): (r: string)
    requires available != []
    ensures r in available
  {
    available[draw % |available|]
  }

  // ---------------------------------------------------------------- frequent purchases


  /** The five most frequent history entries (a stable sort), then the unlisted ones among them. */
  function FrequentEntries(history: seq<Store.HistoryEntry>, current: seq<string>): (r: seq<Store.HistoryEntry>)
    ensures |r| <= 5
    ensures forall i :: 0 <= i < |r| ==> !Listed(r[i].itemName, current)
  {
    Filter(Take(Sorting.SortDesc(history, Store.Frequency), 5),
           (h: Store.HistoryEntry) => !Listed(h.itemName, current))
  }

  function FrequentSuggestions(history: seq<Store.HistoryEntry>, current: seq<string>): (r: seq<Suggestion>)
    ensures |r| <= 5
    ensures NoneListed(r, current)
  {
    var entries := FrequentEntries(history, current);
    seq(|entries|, i requires 0 <= i < |entries| => Suggestion(entries[i].itemName, Frequent, None))
  }

  // ---------------------------------------------------------------- the season

  /** `getSeasonalItems`' choice of season from a zero-based month. */
  function SeasonOf(month: int): Season {
    if 9 <= month <= 11 then Fall
    else if 0 <= month <= 2 then Winter
    else if 3 <= month <= 5 then Spring
    else Summer
  }

  /** `getSeasonalItems` */
  function SeasonalItems(month: int): (r: seq<string>)
    ensures |r| == 5
  {
    match SeasonOf(month)
    case Fall => ["Pumpkin", "Butternut Squash", "Brussels Sprouts", "Sweet Potato", "Cranberries"]
    case Winter => ["Citrus Fruits", "Root Vegetables", "Kale", "Winter Squash", "Pomegranate"]
    case Spring => ["Asparagus", "Strawberries", "Peas", "Artichokes", "Spring Lettuce"]
    case Summer => ["Tomatoes", "Corn", "Watermelon", "Berries", "Zucchini"]
  }

  /** At most two in-season items, not listed, in table order. */
  function SeasonalPicks(month: int, current: seq<string>): (r: seq<string>)
    ensures |r| <= 2
    ensures forall i :: 0 <= i < |r| ==> r[i] in SeasonalItems(month) && !Listed(r[i], current)
  {
    var avail := Unlisted(SeasonalItems(month), current);
    assert forall x :: x in avail ==> x in SeasonalItems(month) by {
      forall x | x in avail ensures x in SeasonalItems(month) {
        FilterMembership(SeasonalItems(month), y => !Listed(y, current), x);
      }
    }
    Take(avail, 2)
  }

  // ---------------------------------------------------------------- lookup tables

  /** The first entry, at or after `from`, whose key the lowered name contains. */
  function FirstKeyFrom<V>(lowered: string, table: seq<(string, V)>, from: nat): (r: Option<nat>)
    requires from <= |table|
    ensures r.Some? ==> from <= r.value < |table| && Contains(lowered, table[r.value].0)
    ensures r.Some? ==> forall j :: from <= j < r.value ==> !Contains(lowered, table[j].0)
    ensures r.None? <==> forall j :: from <= j < |table| ==> !Contains(lowered, table[j].0)
    decreases |table| - from
  {
    if from == |table| then None
    else if Contains(lowered, table[from].0) then Some(from)
    else FirstKeyFrom(lowered, table, from + 1)
  }

  /** The loop over `Object.entries(table)` that stops at the first key the name contains. */
  function FirstKey<V>(lowered: string, table: seq<(string, V)>): (r: Option<nat>)
    ensures r.Some? ==> r.value < |table| && Contains(lowered, table[r.value].0)
    ensures r.Some? ==> forall j :: 0 <= j < r.value ==> !Contains(lowered, table[j].0)
    ensures r.None? <==> forall j :: 0 <= j < |table| ==> !Contains(lowered, table[j].0)
  {
    FirstKeyFrom(lowered, table, 0)
  }

  /** A key the name does not contain passes the search on to the next entry. */
  lemma FirstKeySkips<V>(lowered: string, table: seq<(string, V)>, from: nat)
    requires from < |table| && !Contains(lowered, table[from].0)
    ensures FirstKeyFrom(lowered, table, from) == FirstKeyFrom(lowered, table, from + 1)
  {
  }

  const Substitutes: seq<(string, string)> := [
    ("milk", "Almond Milk"), ("almond milk", "Oat Milk"), ("butter", "Olive Oil"),
    ("sugar", "Honey"), ("white bread", "Whole Wheat Bread"), ("pasta", "Whole Grain Pasta"),
    ("beef", "Chicken"), ("chicken", "Turkey"), ("rice", "Quinoa"), ("soda", "Sparkling Water"),
    ("chips", "Veggie Chips"), ("ice cream", "Frozen Yogurt")
  ]

  const Complements: seq<(string, string)> := [
    ("bread", "Butter"), ("pasta", "Tomato Sauce"), ("cereal", "Milk"), ("coffee", "Creamer"),
    ("chips", "Salsa"), ("crackers", "Cheese"), ("hamburger buns", "Ground Beef"),
    ("hot dog buns", "Hot Dogs"), ("lettuce", "Salad Dressing"), ("eggs", "Bacon"),
    ("pancake mix", "Maple Syrup"), ("peanut butter", "Jelly"), ("tortilla chips", "Guacamole")
  ]

  /** The value of the first key, in table order, that the lowered name contains. */
  function LookUp(name: string, table: seq<(string, string)>): (r: Option<string>)
    ensures r.None? <==> forall j :: 0 <= j < |table| ==> !Contains(Lower(name), table[j].0)
    ensures r.Some? ==> exists k :: 0 <= k < |table| && FirstKey(Lower(name), table) == Some(k) && r.value == table[k].1
  {
    match FirstKey(Lower(name), table)
    case Some(k) => Some(table[k].1)
    case None => None
  }

  /** `getSubstitute` */
  function SubstituteFor(name: string): Option<string> {
    LookUp(name, Substitutes)
  }

  /** `getComplementaryItem` */
  function ComplementFor(name: string): Option<string> {
    LookUp(name, Complements)
  }

  /** The lookups for the given items, in list order, dropping those already listed. */
  function ItemLookups(items: seq<Store.Item>, lookup: string -> Option<string>, kind: Kind,
                       current: seq<string>): (r: seq<Suggestion>)
    ensures |r| <= |items|
    ensures forall i :: 0 <= i < |r| ==> r[i].kind == kind && r[i].price == None && !Listed(r[i].name, current)
  {
    if items == [] then []
    else
      var found := lookup(items[|items| - 1].name);
      ItemLookups(items[..|items| - 1], lookup, kind, current)
      + (if found.Some? && !Listed(found.value, current) then [Suggestion(found.value, kind, None)] else [])
  }

  // ---------------------------------------------------------------- the search history

  const InterestCategories: seq<(string, seq<string>)> := [
    ("fruit", ["Strawberries", "Blueberries", "Oranges", "Grapes", "Pineapple", "Apples", "Bananas"]),
    ("vegetable", ["Spinach", "Broccoli", "Carrots", "Tomatoes", "Bell Peppers", "Potatoes", "Onions", "Lettuce"]),
    ("dairy", ["Cheddar Cheese", "Butter", "Eggs", "Greek Yogurt", "Milk", "Cream Cheese"]),
    ("meat", ["Ground Beef", "Salmon Fillet", "Turkey Breast", "Chicken Thighs", "Chicken Breast"]),
    ("beverage", ["Tea", "Soda", "Water Bottles", "Energy Drinks", "Coffee", "Orange Juice"]),
    ("snack", ["Granola Bars", "Chips", "Popcorn", "Nuts", "Cookies", "Candy"]),
    ("bakery", ["Bagels", "Muffins", "Croissants", "Donuts", "Bread", "Cake"]),
    ("pantry", ["Rice", "Quinoa", "Olive Oil", "Spices", "Pasta", "Cereal", "Flour"]),
    ("frozen", ["Frozen Pizza", "Ice Cream", "Frozen Vegetables", "Frozen Meals"]),
    ("personal", ["Shampoo", "Soap", "Deodorant", "Tissues", "Toothpaste"]),
    ("household", ["Paper Towels", "Trash Bags", "Laundry Detergent", "Dish Soap"])
  ]

  const PreferenceWords: seq<string> := ["organic", "premium", "fresh", "natural", "low-fat", "gluten-free"]

  const PreferenceItems: seq<string> := [
    "Organic Apples", "Premium Coffee", "Fresh Bread", "Natural Yogurt", "Low-Fat Milk", "Gluten-Free Pasta"
  ]

  const FallbackItems: seq<string> := ["Organic Apples", "Premium Coffee", "Fresh Bread", "Natural Yogurt"]

  /** The class `[\s,.;!?]` */
  predicate IsKeywordSeparator(c: char) {
    IsSpace(c) || c in ",.;!?"
  }

  /** The search history joined by spaces, lowered, split on runs of separators, and the
      pieces longer than two characters kept. */
  function Keywords(searches: seq<string>): (r: seq<string>)
    ensures forall i :: 0 <= i < |r| ==> |r[i]| > 2
  {
    Filter(SplitOn(Lower(JoinWords(searches)), IsKeywordSeparator), w => |w| > 2)
  }

  /** Some keyword includes the category, or the category includes the keyword. */
  predicate Interested(keywords: seq<string>, category: string) {
    exists i :: 0 <= i < |keywords| && (Contains(keywords[i], category) || Contains(category, keywords[i]))
  }

  /** `matchedCategories`: exactly the table entries some keyword is interested in. */
  function MatchedCategories(keywords: seq<string>): (r: seq<(string, seq<string>)>)
    ensures forall i :: 0 <= i < |r| ==> Interested(keywords, r[i].0)
    ensures forall e :: e in r <==> e in InterestCategories && Interested(keywords, e.0)
  {
    var r := Filter(InterestCategories, (e: (string, seq<string>)) => Interested(keywords, e.0));
    forall e ensures e in r <==> e in InterestCategories && Interested(keywords, e.0) {
      FilterMembership(InterestCategories, (e: (string, seq<string>)) => Interested(keywords, e.0), e);
    }
    r
  }

  /** The matched categories keep the order of the table. */
  lemma MatchedInTableOrder(keywords: seq<string>, i: nat, j: nat)
    requires i < j < |MatchedCategories(keywords)|
    ensures exists a, b :: 0 <= a < b < |InterestCategories| && InterestCategories[a] == MatchedCategories(keywords)[i]
                           && InterestCategories[b] == MatchedCategories(keywords)[j]
  {
    FilterOrder(InterestCategories, (e: (string, seq<string>)) => Interested(keywords, e.0), i, j);
  }

  /** A category some of whose items are not on the list. */
  predicate HasUnlisted(e: (string, seq<string>), current: seq<string>) {
    Unlisted(e.1, current) != []
  }

  /** The matched categories that can still offer an item, in order. */
  function WithUnlisted(matched: seq<(string, seq<string>)>, current: seq<string>): (r: seq<(string, seq<string>)>)
    ensures forall e :: e in r <==> e in matched && HasUnlisted(e, current)
  {
    var r := Filter(matched, (e: (string, seq<string>)) => HasUnlisted(e, current));
    forall e ensures e in r <==> e in matched && HasUnlisted(e, current) {
      FilterMembership(matched, (e: (string, seq<string>)) => HasUnlisted(e, current), e);
    }
    r
  }

  /** One random unlisted item per matched category, the `i`-th category using draw `i`: the
      `k`-th pick is an unlisted item of the `k`-th category that has one. */
  function CategoryPicks(matched: seq<(string, seq<string>)>, current: seq<string>, draws: Draws): (r: seq<Suggestion>)
    ensures |r| == |WithUnlisted(matched, current)| <= |matched|
    ensures forall k :: 0 <= k < |r| ==>
              && r[k].kind == Personalized && r[k].price == None
              && r[k].name in WithUnlisted(matched, current)[k].1
              && !Listed(r[k].name, current)
    ensures NoneListed(r, current)
  {
    if matched == [] then []
    else
      var n := |matched| - 1;
      var avail := Unlisted(matched[n].1, current);
      var init := CategoryPicks(matched[..n], current, draws);
      assert WithUnlisted(matched, current) == WithUnlisted(matched[..n], current) + (if avail != [] then [matched[n]] else []);
      if avail != [] then
        var x := RandomPick(avail, draws(n));
        FilterMembership(matched[n].1, y => !Listed(y, current), x);
        init + [Suggestion(x, Personalized, None)]
      else init
  }

  /** Some keyword is one of the preference words. */
  predicate Prefers(keywords: seq<string>) {
    exists k :: k in keywords && k in PreferenceWords
  }

  /** Some preference item is not on the list. */
  predicate PreferenceAvailable(current: seq<string>) {
    exists x :: x in PreferenceItems && !Listed(x, current)
  }

  /** A random unlisted preference item, offered exactly when some keyword is a preference word
      and some preference item is not on the list. */
  function PreferencePick(keywords: seq<string>, current: seq<string>, draw: nat): (r: seq<Suggestion>)
    ensures |r| <= 1
    ensures r != [] <==> Prefers(keywords) && PreferenceAvailable(current)
    ensures forall k :: 0 <= k < |r| ==>
              && r[k].kind == Personalized && r[k].price == None
              && r[k].name in PreferenceItems && !Listed(r[k].name, current)
    ensures NoneListed(r, current)
  {
    var preferences := Filter(keywords, k => k in PreferenceWords);
    var avail := Unlisted(PreferenceItems, current);
    forall k ensures k in preferences <==> k in keywords && k in PreferenceWords {
      FilterMembership(keywords, k => k in PreferenceWords, k);
    }
    forall x ensures x in avail <==> x in PreferenceItems && !Listed(x, current) {
      FilterMembership(PreferenceItems, y => !Listed(y, current), x);
    }
    if preferences != [] && avail != [] then
      assert preferences[0] in preferences && avail[0] in avail;
      [Suggestion(RandomPick(avail, draw), Personalized, None)]
    else []
  }

  /** `getFallbackSuggestions` */
  function Fallback(current: seq<string>, draw: nat): (r: seq<Suggestion>)
    ensures |r| <= 1
    ensures forall i :: 0 <= i < |r| ==> r[i].name in FallbackItems && !Listed(r[i].name, current)
    ensures r == [] <==> forall x :: x in FallbackItems ==> Listed(x, current)
    ensures NoneListed(r, current)
  {
    var avail := Unlisted(FallbackItems, current);
    forall x ensures x in avail <==> x in FallbackItems && !Listed(x, current) {
      FilterMembership(FallbackItems, y => !Listed(y, current), x);
    }
    if avail != [] then [Suggestion(RandomPick(avail, draw), Personalized, None)] else []
  }

  /** `generatePersonalizedSuggestions`; the category picks use draws `0 .. m - 1` for the
      `m` matched categories, the preference pick draw `m`, the fallback draw `0`. */
  function PersonalizedSuggestions(searches: seq<string>, current: seq<string>, hasApiKey: bool,
                                   draws: Draws): (r: seq<Suggestion>)
    ensures |r| <= 2
    ensures searches == [] ==> r == []
    ensures NoneListed(r, current)
  {
    if searches == [] then []
    else if !hasApiKey then Fallback(current, draws(0))
    else
      var keywords := Keywords(searches);
      var matched := MatchedCategories(keywords);
      var both := CategoryPicks(matched, current, draws) + PreferencePick(keywords, current, draws(|matched|));
      NoneListedConcat(CategoryPicks(matched, current, draws), PreferencePick(keywords, current, draws(|matched|)), current);
      assert forall i :: 0 <= i < |Take(both, 2)| ==> Take(both, 2)[i] == both[i];
      Take(both, 2)
  }

  /** The personalised proposals with an API key: at most two, the category picks first. The
      `k`-th of the category picks is an unlisted item of `picks[k]`, an interesting table
      category; any proposal after them is an unlisted preference item, present when `prefer`. */
  ghost predicate PicksFirst(kw: seq<string>, current: seq<string>, picks: seq<(string, seq<string>)>,
                             prefer: bool, r: seq<Suggestion>) {
    var offered := |picks| + (if prefer then 1 else 0);
    && |r| == (if offered <= 2 then offered else 2)
    && forall k :: 0 <= k < |r| ==>
         && r[k].kind == Personalized && r[k].price == None && !Listed(r[k].name, current)
         && if k < |picks| then picks[k] in InterestCategories && Interested(kw, picks[k].0) && r[k].name in picks[k].1
            else r[k].name in PreferenceItems
  }

  /** With an API key and some history, the `k`-th proposal is an unlisted item of the `k`-th
      interesting table category that still has one, and a preference item follows when some
      keyword is a preference word and such an item is unlisted; two at most. */
  lemma PersonalizedWithKey(searches: seq<string>, current: seq<string>, draws: Draws)
    requires searches != []
    ensures PicksFirst(Keywords(searches), current, WithUnlisted(MatchedCategories(Keywords(searches)), current),
                       Prefers(Keywords(searches)) && PreferenceAvailable(current),
                       PersonalizedSuggestions(searches, current, true, draws))
  {
    var kw := Keywords(searches);
    var matched := MatchedCategories(kw);
    var cp := CategoryPicks(matched, current, draws);
    var pp := PreferencePick(kw, current, draws(|matched|));
    assert PersonalizedSuggestions(searches, current, true, draws) == Take(cp + pp, 2);
    PicksThenPreference(kw, current, WithUnlisted(matched, current), Prefers(kw) && PreferenceAvailable(current), cp, pp);
  }

  /** Taking two of the category picks followed by the preference pick. */
  lemma PicksThenPreference(kw: seq<string>, current: seq<string>, picks: seq<(string, seq<string>)>, prefer: bool,
                            cp: seq<Suggestion>, pp: seq<Suggestion>)
    requires forall e :: e in picks ==> e in InterestCategories && Interested(kw, e.0)
    requires |cp| == |picks|
    requires forall k :: 0 <= k < |cp| ==>
               && cp[k].kind == Personalized && cp[k].price == None
               && cp[k].name in picks[k].1 && !Listed(cp[k].name, current)
    requires |pp| == if prefer then 1 else 0
    requires forall k :: 0 <= k < |pp| ==>
               && pp[k].kind == Personalized && pp[k].price == None
               && pp[k].name in PreferenceItems && !Listed(pp[k].name, current)
    ensures PicksFirst(kw, current, picks, prefer, Take(cp + pp, 2))
  {
    var r := Take(cp + pp, 2);
    forall k | 0 <= k < |r| && k < |picks|
      ensures picks[k] in InterestCategories && Interested(kw, picks[k].0)
    {
      assert picks[k] in picks;
    }
  }

  /** `[...new Set(s)]`: each value once, at its first position. */
  function Distinct(s: seq<string>): (r: seq<string>)
    ensures forall x :: x in r <==> x in s
    ensures forall i, j :: 0 <= i < j < |r| ==> r[i] != r[j]
  {
    if s == [] then []
    else
      var init := Distinct(s[..|s| - 1]);
      if s[|s| - 1] in s[..|s| - 1] then init else init + [s[|s| - 1]]
  }

  /** `s.slice(-3)` */
  function LastThree(s: seq<string>): (r: seq<string>)
    ensures |r| <= 3
  {
    if |s| <= 3 then s else s[|s| - 3..]
  }

  /** Neither listed nor out of stock. */
  predicate Offerable(p: Catalog.Product, current: seq<string>) {
    !Listed(p.name, current) && p.inStock
  }

  function Available(results: seq<Catalog.Product>, current: seq<string>): (r: seq<Catalog.Product>)
    ensures forall i :: 0 <= i < |r| ==> Offerable(r[i], current)
  {
    Filter(results, (p: Catalog.Product) => Offerable(p, current))
  }

  /** Up to two offerable search results per query, queries in order. */
  function QueryOffers(queries: seq<string>, current: seq<string>, catalog: seq<Catalog.Product>): (r: seq<Suggestion>)
    ensures |r| <= 2 * |queries|
    ensures NoneListed(r, current)
  {
    if queries == [] then []
    else
      QueryOffers(queries[..|queries| - 1], current, catalog) + QueryOffer(queries[|queries| - 1], current, catalog)
  }

  /** The first two offerable search results for one query. */
  function QueryOffer(query: string, current: seq<string>, catalog: seq<Catalog.Product>): (r: seq<Suggestion>)
    ensures |r| <= 2
    ensures NoneListed(r, current)
  {
    Offered(Take(Available(Catalog.SearchProducts(query, catalog), current), 2), Personalized)
  }

  /** `generateAPISuggestions` */
  function CatalogSearchSuggestions(searches: seq<string>, current: seq<string>,
                                    catalog: seq<Catalog.Product>): (r: seq<Suggestion>)
    ensures |r| <= 2
    ensures searches == [] ==> r == []
    ensures NoneListed(r, current)
  {
    if searches == [] then []
    else Take(QueryOffers(Distinct(LastThree(searches)), current, catalog), 2)
  }

  // ---------------------------------------------------------------- catalog complements

  /** `complementaryMappings`, the table the component passes to the catalog-complement
      generator: a lower-cased key and the products to look up for a cart item containing it. */
  const Accessories: seq<(string, seq<string>)> := [
      ("iphone", ["iPhone Screen Protector", "iPhone Case", "AirPods", "iPhone Charger"]),
      ("samsung galaxy", ["Samsung Screen Protector", "Samsung Case", "Galaxy Buds", "Samsung Charger"]),
      ("google pixel", ["Pixel Screen Protector", "Pixel Case", "Pixel Buds", "Pixel Charger"]),
      ("oneplus", ["OnePlus Screen Protector", "OnePlus Case", "OnePlus Buds", "OnePlus Charger"]),
      ("xiaomi", ["Xiaomi Screen Protector", "Xiaomi Case", "Xiaomi Earbuds", "Xiaomi Charger"]),
      ("poco", ["Poco Screen Protector", "Poco Case", "Poco Earbuds", "Poco Charger"]),
      ("macbook", ["MacBook Sleeve", "Magic Mouse", "MacBook Charger", "Thunderbolt Cable"]),
      ("dell", ["Dell Laptop Bag", "Dell Mouse", "Dell Charger", "USB Hub"]),
      ("hp", ["HP Laptop Case", "HP Mouse", "HP Charger", "HDMI Cable"]),
      ("lenovo", ["Lenovo Backpack", "Lenovo Mouse", "Lenovo Charger", "Docking Station"]),
      ("nike", ["Nike Socks", "Nike Shoe Laces", "Nike Insoles", "Nike Shoe Cleaner"]),
      ("adidas", ["Adidas Socks", "Adidas Shoe Laces", "Adidas Insoles", "Adidas Shoe Bag"]),
      ("puma", ["Puma Socks", "Puma Shoe Laces", "Puma Insoles", "Puma Shoe Care Kit"]),
      ("book", ["Bookmark Set", "Reading Light", "Book Stand", "Book Cover"]),
      ("kindle", ["Kindle Case", "Kindle Screen Protector", "Kindle Charger", "Kindle Stand"]),
      ("coffee maker", ["Coffee Filters", "Coffee Beans", "Coffee Mug", "Descaling Solution"]),
      ("blender", ["Blender Jars", "Blender Blades", "Blender Cleaning Brush", "Recipe Book"]),
      ("air fryer", ["Air Fryer Basket", "Air Fryer Liners", "Silicone Tongs", "Recipe Book"]),
      ("instant pot", ["Instant Pot Accessories", "Pressure Cooker Recipes", "Extra Sealing Rings"]),
      ("playstation", ["PS5 Controller", "PS5 Headset", "PS5 Stand", "PS5 Games"]),
      ("xbox", ["Xbox Controller", "Xbox Headset", "Xbox Stand", "Xbox Games"]),
      ("nintendo switch", ["Switch Case", "Switch Screen Protector", "Switch Joy-Con Grip", "Switch Games"]),
      ("headphones", ["Headphone Case", "Audio Cable", "Headphone Stand", "Cleaning Kit"]),
      ("speaker", ["Speaker Stand", "Audio Cable", "Speaker Cover", "Battery Pack"]),
      ("camera", ["Camera Case", "Memory Card", "Camera Bag", "Lens Cleaner"]),
      ("watch", ["Watch Band", "Watch Box", "Watch Winder", "Watch Cleaner"]),
      ("sunglasses", ["Sunglass Case", "Lens Cleaner", "Sunglass Chain", "Cleaning Cloth"]),
      ("bag", ["Bag Organizer", "Bag Charm", "Bag Hanger", "Bag Cover"]),
      ("plant", ["Plant Pot", "Plant Soil", "Plant Fertilizer", "Watering Can"]),
      ("grill", ["Grill Cover", "Grill Brush", "Grill Tools", "Charcoal"]),
      ("bicycle", ["Bike Lock", "Bike Light", "Bike Helmet", "Bike Pump"]),
      ("yoga mat", ["Yoga Blocks", "Yoga Strap", "Yoga Towel", "Meditation Cushion"]),
      ("dumbbells", ["Dumbbell Rack", "Weight Bench", "Resistance Bands", "Workout Gloves"]),
      ("treadmill", ["Treadmill Mat", "Heart Rate Monitor", "Water Bottle", "Towel"]),
      ("diaper", ["Diaper Cream", "Wipes", "Diaper Bag", "Changing Pad"]),
      ("stroller", ["Stroller Organizer", "Stroller Cup Holder", "Rain Cover", "Stroller Hook"]),
      ("toy", ["Toy Storage", "Toy Cleaner", "Batteries", "Toy Repair Kit"])
  ]

  /** The first offerable search result for one complement, if any. */
  function FirstOffer(complement: string, current: seq<string>, catalog: seq<Catalog.Product>): (r: seq<Suggestion>)
    ensures |r| <= 1
    ensures NoneListed(r, current)
  {
    var avail := Available(Catalog.SearchProducts(complement, catalog), current);
    if avail == [] then [] else [Suggestion(avail[0].name, Complementary, Some(avail[0].price))]
  }

  function ComplementOffers(complements: seq<string>, current: seq<string>, catalog: seq<Catalog.Product>): (r: seq<Suggestion>)
    ensures |r| <= |complements|
    ensures NoneListed(r, current)
  {
    if complements == [] then []
    else
      ComplementOffers(complements[..|complements| - 1], current, catalog)
      + FirstOffer(complements[|complements| - 1], current, catalog)
  }

  /** The offers for one cart item: those of the first key its lowered name contains. */
  function ItemOffers(name: string, table: seq<(string, seq<string>)>, current: seq<string>,
                      catalog: seq<Catalog.Product>): (r: seq<Suggestion>)
    ensures NoneListed(r, current)
  {
    match FirstKey(Lower(name), table)
    case Some(k) => ComplementOffers(table[k].1, current, catalog)
    case None => []
  }

  function CartOffers(items: seq<Store.Item>, table: seq<(string, seq<string>)>, current: seq<string>,
                      catalog: seq<Catalog.Product>): (r: seq<Suggestion>)
    ensures NoneListed(r, current)
  {
    if items == [] then []
    else
      CartOffers(items[..|items| - 1], table, current, catalog)
      + ItemOffers(items[|items| - 1].name, table, current, catalog)
  }

  /** `generateComplementarySuggestions` */
  function CatalogComplements(items: seq<Store.Item>, table: seq<(string, seq<string>)>, current: seq<string>,
                              catalog: seq<Catalog.Product>): (r: seq<Suggestion>)
    ensures |r| <= 2
    ensures NoneListed(r, current)
  {
    Take(CartOffers(items, table, current, catalog), 2)
  }

  // ---------------------------------------------------------------- assembly

  /** Some earlier candidate has the same lower-cased name. */
  predicate NamedBefore(s: seq<Suggestion>, i: nat)
    requires i < |s|
  {
    exists j :: 0 <= j < i && Lower(s[j].name) == Lower(s[i].name)
  }

  /** `filter((s, index, self) => index === self.findIndex(same lower-cased name))` */
  function Dedup(s: seq<Suggestion>): (r: seq<Suggestion>)
    ensures |r| <= |s|
    ensures forall i :: 0 <= i < |r| ==> r[i] in s
    ensures forall i, j :: 0 <= i < j < |r| ==> Lower(r[i].name) != Lower(r[j].name)
  {
    if s == [] then []
    else
      var init := Dedup(s[..|s| - 1]);
      if NamedBefore(s, |s| - 1) then init
      else
        assert forall i :: 0 <= i < |init| ==> init[i] in s[..|s| - 1];
        init + [s[|s| - 1]]
  }

  /** All proposals in the order the generators push them. */
  function Candidates(items: seq<Store.Item>, history: seq<Store.HistoryEntry>, searches: seq<string>,
                      month: int, hasApiKey: bool, draws: Draws, table: seq<(string, seq<string>)>,
                      catalog: seq<Catalog.Product>): seq<Suggestion> {
    var current := ListedNames(items);
    var firstThree := Take(items, 3);
    FrequentSuggestions(history, current)
    + Named(SeasonalPicks(month, current), Seasonal)
    + ItemLookups(firstThree, SubstituteFor, Substitute, current)
    + ItemLookups(firstThree, ComplementFor, Complementary, current)
    + PersonalizedSuggestions(searches, current, hasApiKey, draws)
    + CatalogSearchSuggestions(searches, current, catalog)
    + CatalogComplements(items, table, current, catalog)
  }

  lemma NoneListedConcat(a: seq<Suggestion>, b: seq<Suggestion>, current: seq<string>)
    requires NoneListed(a, current) && NoneListed(b, current)
    ensures NoneListed(a + b, current)
  {
  }

  /** Every generator leaves out the names already on the list. */
  lemma CandidatesUnlisted(items: seq<Store.Item>, history: seq<Store.HistoryEntry>, searches: seq<string>,
                           month: int, hasApiKey: bool, draws: Draws, table: seq<(string, seq<string>)>,
                           catalog: seq<Catalog.Product>)
    ensures NoneListed(Candidates(items, history, searches, month, hasApiKey, draws, table, catalog), ListedNames(items))
  {
    var current := ListedNames(items);
    var firstThree := Take(items, 3);
    var seasonal := Named(SeasonalPicks(month, current), Seasonal);
    assert NoneListed(seasonal, current);
    var p1 := FrequentSuggestions(history, current);
    var p2 := ItemLookups(firstThree, SubstituteFor, Substitute, current);
    var p3 := ItemLookups(firstThree, ComplementFor, Complementary, current);
    var p4 := PersonalizedSuggestions(searches, current, hasApiKey, draws);
    var p5 := CatalogSearchSuggestions(searches, current, catalog);
    var p6 := CatalogComplements(items, table, current, catalog);
    NoneListedConcat(p1, seasonal, current);
    NoneListedConcat(p1 + seasonal, p2, current);
    NoneListedConcat(p1 + seasonal + p2, p3, current);
    NoneListedConcat(p1 + seasonal + p2 + p3, p4, current);
    NoneListedConcat(p1 + seasonal + p2 + p3 + p4, p5, current);
    NoneListedConcat(p1 + seasonal + p2 + p3 + p4 + p5, p6, current);
  }

  /** The first six candidates once later repeats of a lower-cased name are dropped. */
  function Shown(candidates: seq<Suggestion>): (r: seq<Suggestion>)
    ensures |r| <= MaxShown
    ensures forall i, j :: 0 <= i < j < |r| ==> Lower(r[i].name) != Lower(r[j].name)
    ensures forall i :: 0 <= i < |r| ==> r[i] in candidates
  {
    Take(Dedup(candidates), MaxShown)
  }

  /** Dropping repeats and cutting the list off leave no listed name in. */
  lemma ShownUnlisted(candidates: seq<Suggestion>, current: seq<string>)
    requires NoneListed(candidates, current)
    ensures NoneListed(Shown(candidates), current)
  {
    var r := Shown(candidates);
    forall i | 0 <= i < |r| ensures !Listed(r[i].name, current) {
      var k :| 0 <= k < |candidates| && candidates[k] == r[i];
    }
  }

  /** `generateSuggestions`: what the panel shows. */
  function Suggest(items: seq<Store.Item>, history: seq<Store.HistoryEntry>, searches: seq<string>,
                   month: int, hasApiKey: bool, draws: Draws, table: seq<(string, seq<string>)>,
                   catalog: seq<Catalog.Product>): seq<Suggestion> {
    Shown(Candidates(items, history, searches, month, hasApiKey, draws, table, catalog))
  }

  /** At most six suggestions are shown, no two with the same lower-cased name, each one of the
      candidates and none naming an item already on the list. */
  lemma SuggestionsShown(items: seq<Store.Item>, history: seq<Store.HistoryEntry>, searches: seq<string>,
                         month: int, hasApiKey: bool, draws: Draws, table: seq<(string, seq<string>)>,
                         catalog: seq<Catalog.Product>)
    ensures var r := Suggest(items, history, searches, month, hasApiKey, draws, table, catalog);
      && |r| <= MaxShown
      && (forall i, j :: 0 <= i < j < |r| ==> Lower(r[i].name) != Lower(r[j].name))
      && (forall i :: 0 <= i < |r| ==> r[i] in Candidates(items, history, searches, month, hasApiKey, draws, table, catalog))
      && NoneListed(r, ListedNames(items))
  {
    var c := Candidates(items, history, searches, month, hasApiKey, draws, table, catalog);
    CandidatesUnlisted(items, history, searches, month, hasApiKey, draws, table, catalog);
    ShownUnlisted(c, ListedNames(items));
  }

  // ---------------------------------------------------------------- the generators as written

  /** The `items.slice(0, 3).forEach` loops: push the looked-up name when there is one and it
      is not listed. */
  method PushLookups(items: seq<Store.Item>, lookup: string -> Option<string>, kind: Kind,
                     current: seq<string>) returns (pushed: seq<Suggestion>)
    ensures pushed == ItemLookups(items, lookup, kind, current)
  {
    pushed := [];
    for i := 0 to |items|
      invariant pushed == ItemLookups(items[..i], lookup, kind, current)
    {
      var found := lookup(items[i].name);
      if found.Some? && !Listed(found.value, current) {
        pushed := pushed + [Suggestion(found.value, kind, None)];
      }
      TakeOneMore(items, i);
    }
    assert items[..|items|] == items;
  }

  /** `generatePersonalizedSuggestions` */
  method GeneratePersonalized(searches: seq<string>, current: seq<string>, hasApiKey: bool, draws: Draws)
    returns (r: seq<Suggestion>)
    ensures r == PersonalizedSuggestions(searches, current, hasApiKey, draws)
  {
    if searches == [] {
      return [];
    }
    if !hasApiKey {
      return Fallback(current, draws(0));
    }
    var keywords := Keywords(searches);
    var matched := MatchedCategories(keywords);
    var picks: seq<Suggestion> := [];
    for i := 0 to |matched|
      invariant picks == CategoryPicks(matched[..i], current, draws)
    {
      var available := Unlisted(matched[i].1, current);
      if available != [] {
        picks := picks + [Suggestion(RandomPick(available, draws(i)), Personalized, None)];
      }
      TakeOneMore(matched, i);
    }
    assert matched[..|matched|] == matched;
    picks := picks + PreferencePick(keywords, current, draws(|matched|));
    r := Take(picks, 2);
  }

  /** The `for (const searchQuery of recentSearches)` loop of `generateAPISuggestions`. */
  method PushQueryOffers(queries: seq<string>, current: seq<string>, catalog: seq<Catalog.Product>)
    returns (found: seq<Suggestion>)
    ensures found == QueryOffers(queries, current, catalog)
  {
    found := [];
    for i := 0 to |queries|
      invariant found == QueryOffers(queries[..i], current, catalog)
    {
      var results := Catalog.SearchProducts(queries[i], catalog);
      var toAdd := Take(Available(results, current), 2);
      found := found + Offered(toAdd, Personalized);
      TakeOneMore(queries, i);
    }
    assert queries[..|queries|] == queries;
  }

  /** `generateAPISuggestions` */
  method GenerateCatalogSearch(searches: seq<string>, current: seq<string>, catalog: seq<Catalog.Product>)
    returns (r: seq<Suggestion>)
    ensures r == CatalogSearchSuggestions(searches, current, catalog)
  {
    if searches == [] {
      return [];
    }
    var recent := Distinct(LastThree(searches));
    var found := PushQueryOffers(recent, current, catalog);
    r := Take(found, 2);
  }

  /** The innermost loop of `generateComplementarySuggestions`: each complement contributes its
      first offerable search result. */
  method PushComplementOffers(complements: seq<string>, current: seq<string>, catalog: seq<Catalog.Product>)
    returns (pushed: seq<Suggestion>)
    ensures pushed == ComplementOffers(complements, current, catalog)
  {
    pushed := [];
    for i := 0 to |complements|
      invariant pushed == ComplementOffers(complements[..i], current, catalog)
    {
      var available := Available(Catalog.SearchProducts(complements[i], catalog), current);
      if available != [] {
        pushed := pushed + [Suggestion(available[0].name, Complementary, Some(available[0].price))];
      }
      TakeOneMore(complements, i);
    }
    assert complements[..|complements| ] == complements;
  }

  /** The cart loop of `generateComplementarySuggestions`, with its `break` after the first
      key an item name contains. */
  method PushCartOffers(items: seq<Store.Item>, table: seq<(string, seq<string>)>, current: seq<string>,
                        catalog: seq<Catalog.Product>) returns (found: seq<Suggestion>)
    ensures found == CartOffers(items, table, current, catalog)
  {
    found := [];
    for i := 0 to |items|
      invariant found == CartOffers(items[..i], table, current, catalog)
    {
      var itemName := Lower(items[i].name);
      ghost var before := found;
      var k := 0;
      while k < |table|
        invariant 0 <= k <= |table|
        invariant forall j :: 0 <= j < k ==> !Contains(itemName, table[j].0)
        invariant found == before
      {
        if Contains(itemName, table[k].0) {
          var offers := PushComplementOffers(table[k].1, current, catalog);
          found := found + offers;
          assert FirstKey(itemName, table) == Some(k);
          break;
        }
        k := k + 1;
      }
      assert found == before + ItemOffers(items[i].name, table, current, catalog);
      TakeOneMore(items, i);
    }
    assert items[..|items|] == items;
  }

  /** `generateComplementarySuggestions` */
  method GenerateCatalogComplements(items: seq<Store.Item>, table: seq<(string, seq<string>)>, current: seq<string>,
                                    catalog: seq<Catalog.Product>)
    returns (r: seq<Suggestion>)
    ensures r == CatalogComplements(items, table, current, catalog)
  {
    var found := PushCartOffers(items, table, current, catalog);
    r := Take(found, 2);
  }

  /** `generateSuggestions` */
  method GenerateSuggestions(items: seq<Store.Item>, history: seq<Store.HistoryEntry>, searches: seq<string>,
                             month: int, hasApiKey: bool, draws: Draws, table: seq<(string, seq<string>)>,
                             catalog: seq<Catalog.Product>)
    returns (shown: seq<Suggestion>)
    ensures shown == Suggest(items, history, searches, month, hasApiKey, draws, table, catalog)
  {
    var current := ListedNames(items);
    var suggestions := FrequentSuggestions(history, current);
    suggestions := suggestions + Named(SeasonalPicks(month, current), Seasonal);
    var substitutes := PushLookups(Take(items, 3), SubstituteFor, Substitute, current);
    suggestions := suggestions + substitutes;
    var complements := PushLookups(Take(items, 3), ComplementFor, Complementary, current);
    suggestions := suggestions + complements;
    var personalized := GeneratePersonalized(searches, current, hasApiKey, draws);
    suggestions := suggestions + personalized;
    var searched := GenerateCatalogSearch(searches, current, catalog);
    suggestions := suggestions + searched;
    var complementary := GenerateCatalogComplements(items, table, current, catalog);
    suggestions := suggestions + complementary;
    shown := Shown(suggestions);
  }

  // ---------------------------------------------------------------- properties

  /** The frequent candidates come from the history, most bought first. */
  lemma FrequentByDescendingCount(history: seq<Store.HistoryEntry>, current: seq<string>)
    ensures Sorting.Descending(FrequentEntries(history, current), Store.Frequency)
    ensures forall x :: x in FrequentEntries(history, current) ==> x in history
  {
    var sorted := Sorting.SortDesc(history, Store.Frequency);
    Sorting.SortFacts(history, Store.Frequency);
    var top := Take(sorted, 5);
    Sorting.FilterKeepsDescending(top, Store.Frequency, (h: Store.HistoryEntry) => !Listed(h.itemName, current));
    forall x | x in FrequentEntries(history, current) ensures x in history {
      FilterMembership(top, (h: Store.HistoryEntry) => !Listed(h.itemName, current), x);
      assert x in multiset(sorted);
    }
  }

  /** An unlisted history entry bought strictly more often than a frequent candidate is a
      frequent candidate too: the candidates are the top five before listed names are dropped. */
  lemma FrequentAreTopFive(history: seq<Store.HistoryEntry>, current: seq<string>,
                           e: Store.HistoryEntry, h: Store.HistoryEntry)
    requires e in FrequentEntries(history, current)
    requires h in history && !Listed(h.itemName, current) && h.frequency > e.frequency
    ensures h in FrequentEntries(history, current)
  {
    var top := Take(Sorting.SortDesc(history, Store.Frequency), 5);
    FilterMembership(top, (x: Store.HistoryEntry) => !Listed(x.itemName, current), e);
    MoreFrequentInTop(history, e, h);
    FilterMembership(top, (x: Store.HistoryEntry) => !Listed(x.itemName, current), h);
  }

  /** Among the five most frequent entries, one is outranked only by entries that are there too. */
  lemma MoreFrequentInTop(history: seq<Store.HistoryEntry>, e: Store.HistoryEntry, h: Store.HistoryEntry)
    requires e in Take(Sorting.SortDesc(history, Store.Frequency), 5)
    requires h in history && h.frequency > e.frequency
    ensures h in Take(Sorting.SortDesc(history, Store.Frequency), 5)
  {
    var sorted := Sorting.SortDesc(history, Store.Frequency);
    Sorting.SortFacts(history, Store.Frequency);
    var top := Take(sorted, 5);
    var pe :| 0 <= pe < |top| && top[pe] == e;
    assert h in multiset(sorted);
    var ph :| 0 <= ph < |sorted| && sorted[ph] == h;
    assert ph < pe;
    assert top[ph] == h;
  }

  /** The months, counted from zero, fall in quarters: winter, spring, summer, fall. */
  lemma SeasonsByQuarter(month: int)
    requires 0 <= month < 12
    ensures SeasonOf(month) == [Winter, Spring, Summer, Fall][month / 3]
  {
    if month < 3 {
      assert month / 3 == 0;
    } else if month < 6 {
      assert month / 3 == 1;
    } else if month < 9 {
      assert month / 3 == 2;
    } else {
      assert month / 3 == 3;
    }
  }

  /** A catalog-search suggestion is an offerable product that one of the queries found. */
  predicate FoundBy(x: Suggestion, queries: seq<string>, current: seq<string>, catalog: seq<Catalog.Product>) {
    exists q, p :: q in queries && p in Catalog.SearchProducts(q, catalog) && Offerable(p, current)
      && x == Suggestion(p.name, Personalized, Some(p.price))
  }

  lemma {:induction false} QueryOffersFound(queries: seq<string>, current: seq<string>,
                                            catalog: seq<Catalog.Product>, x: Suggestion)
    requires x in QueryOffers(queries, current, catalog)
    ensures FoundBy(x, queries, current, catalog)
  {
    var n := |queries| - 1;
    if x in QueryOffers(queries[..n], current, catalog) {
      QueryOffersFound(queries[..n], current, catalog, x);
      var q, p :| q in queries[..n] && p in Catalog.SearchProducts(q, catalog) && Offerable(p, current)
        && x == Suggestion(p.name, Personalized, Some(p.price));
      assert q in queries;
    } else {
      QueryOfferFound(queries[n], current, catalog, x);
    }
  }

  /** A suggestion offered for one query is an offerable product that the query found. */
  lemma QueryOfferFound(q: string, current: seq<string>, catalog: seq<Catalog.Product>, x: Suggestion)
    requires x in QueryOffer(q, current, catalog)
    ensures exists p :: p in Catalog.SearchProducts(q, catalog) && Offerable(p, current)
                        && x == Suggestion(p.name, Personalized, Some(p.price))
  {
    var results := Catalog.SearchProducts(q, catalog);
    var t := Take(Available(results, current), 2);
    var i :| 0 <= i < |t| && Offered(t, Personalized)[i] == x;
    assert t[i] in Available(results, current);
    FilterMembership(results, (p: Catalog.Product) => Offerable(p, current), t[i]);
  }

  /** The catalog-search suggestions come from the last three entries of the search history. */
  lemma CatalogSearchUsesLastThree(searches: seq<string>, current: seq<string>,
                                   catalog: seq<Catalog.Product>, x: Suggestion)
    requires x in CatalogSearchSuggestions(searches, current, catalog)
    ensures FoundBy(x, LastThree(searches), current, catalog)
  {
    var recent := Distinct(LastThree(searches));
    QueryOffersFound(recent, current, catalog, x);
    var q, p :| q in recent && p in Catalog.SearchProducts(q, catalog) && Offerable(p, current)
      && x == Suggestion(p.name, Personalized, Some(p.price));
    assert q in LastThree(searches);
  }

  /** `searchHistory.map(s => s.query)`, the component's search history. */
  function Queries(log: seq<Store.SearchEntry>): (r: seq<string>)
    ensures |r| == |log|
    ensures forall i :: 0 <= i < |log| ==> r[i] == log[i].query
  {
    seq(|log|, i requires 0 <= i < |log| => log[i].query)
  }

  /** The store's log is newest first, so `slice(-3)` reads its three oldest entries: once the
      log holds three searches and is not yet full, a new search leaves the catalog-search
      suggestions' queries as they were. */
  lemma NewestSearchIsNotRecent(log: seq<Store.SearchEntry>, entry: Store.SearchEntry)
    requires 3 <= |log| < Store.SearchLogSize
    ensures LastThree(Queries(Store.Logged(log, entry))) == LastThree(Queries(log))
  {
    var logged := Store.Logged(log, entry);
    assert logged == [entry] + log;
    var a, b := LastThree(Queries(logged)), LastThree(Queries(log));
    assert |a| == 3 && |b| == 3;
    forall k | 0 <= k < 3 ensures a[k] == b[k] {
      assert a[k] == logged[|logged| - 3 + k].query;
      assert logged[|logged| - 3 + k] == log[|log| - 3 + k];
    }
  }

  /** Each complement contributes its first offerable search result, and nothing when there
      is none. */
  lemma FirstOfferIsFirstOfferable(complement: string, current: seq<string>, catalog: seq<Catalog.Product>)
    ensures var results := Catalog.SearchProducts(complement, catalog);
      FirstOffer(complement, current, catalog) == [] <==> forall i :: 0 <= i < |results| ==> !Offerable(results[i], current)
    ensures var results := Catalog.SearchProducts(complement, catalog);
      FirstOffer(complement, current, catalog) != [] ==>
        exists i :: 0 <= i < |results| && (forall j :: 0 <= j < i ==> !Offerable(results[j], current))
          && FirstOffer(complement, current, catalog) == [Suggestion(results[i].name, Complementary, Some(results[i].price))]
  {
    var results := Catalog.SearchProducts(complement, catalog);
    if Available(results, current) != [] {
      var i := FilterHead(results, (p: Catalog.Product) => Offerable(p, current));
      assert Offerable(results[i], current);
    } else {
      forall i | 0 <= i < |results| ensures !Offerable(results[i], current) {
        FilterMembership(results, (p: Catalog.Product) => Offerable(p, current), results[i]);
      }
    }
  }

  /** Without the API key, non-empty search history yields the single fallback pick, or
      nothing when every fallback item is listed. */
  lemma NoKeyMeansFallback(searches: seq<string>, current: seq<string>, draws: Draws)
    requires searches != []
    ensures var r := PersonalizedSuggestions(searches, current, false, draws);
      |r| <= 1 && (forall i :: 0 <= i < |r| ==> r[i].name in FallbackItems)
      && (r == [] <==> forall x :: x in FallbackItems ==> Listed(x, current))
  {
    assert PersonalizedSuggestions(searches, current, false, draws) == Fallback(current, draws(0));
  }

  /** De-duplication keeps exactly the first candidate of each lower-cased name. */
  lemma {:induction false} DedupKeepsFirstOccurrences(s: seq<Suggestion>)
    ensures forall i :: 0 <= i < |s| && !NamedBefore(s, i) ==> s[i] in Dedup(s)
    ensures forall k :: 0 <= k < |Dedup(s)| ==> exists i :: 0 <= i < |s| && s[i] == Dedup(s)[k] && !NamedBefore(s, i)
  {
    if s != [] {
      var n := |s| - 1;
      var init := s[..n];
      DedupKeepsFirstOccurrences(init);
      var d := Dedup(init);
      NamedBeforeInPrefix(s);
      assert Dedup(s) == if NamedBefore(s, n) then d else d + [s[n]];
      forall i | 0 <= i < |s| && !NamedBefore(s, i) ensures s[i] in Dedup(s) {
        if i < n {
          assert init[i] in d;
        }
      }
      forall k | 0 <= k < |Dedup(s)|
        ensures exists i :: 0 <= i < |s| && s[i] == Dedup(s)[k] && !NamedBefore(s, i)
      {
        if k < |d| {
          var i :| 0 <= i < |init| && init[i] == d[k] && !NamedBefore(init, i);
          assert s[i] == Dedup(s)[k] && !NamedBefore(s, i);
        } else {
          assert s[n] == Dedup(s)[k] && !NamedBefore(s, n);
        }
      }
    } else {
      assert Dedup(s) == [];
    }
  }

  /** Whether a name came earlier does not depend on what follows. */
  lemma NamedBeforeInPrefix(s: seq<Suggestion>)
    requires s != []
    ensures forall i :: 0 <= i < |s| - 1 ==> NamedBefore(s, i) == NamedBefore(s[..|s| - 1], i)
  {
    forall i | 0 <= i < |s| - 1 ensures NamedBefore(s, i) == NamedBefore(s[..|s| - 1], i) {
      assert forall j :: 0 <= j <= i ==> s[j] == s[..|s| - 1][j];
    }
  }

  /** Every name among the candidates survives de-duplication. */
  lemma DedupKeepsEveryName(s: seq<Suggestion>, i: nat)
    requires i < |s|
    ensures exists k :: 0 <= k < |Dedup(s)| && Lower(Dedup(s)[k].name) == Lower(s[i].name)
    decreases i
  {
    if NamedBefore(s, i) {
      var j :| 0 <= j < i && Lower(s[j].name) == Lower(s[i].name);
      DedupKeepsEveryName(s, j);
    } else {
      DedupKeepsFirstOccurrences(s);
    }
  }
}
