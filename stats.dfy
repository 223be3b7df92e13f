/**
 * The statistics card (src/components/ShoppingStats.tsx): the number of items, of completed
 * items, the summed quantity, the most common category and the most purchased item.
 */
module Stats {
  import opened Wrappers
  import opened Seqs
  import opened Sorting
  import Store
  import ListView

  type Item = Store.Item

  /** `items.reduce((sum, item) => sum + item.quantity, 0)` */
  function TotalQuantity(items: seq<Item>): int {
    if items == [] then 0 else TotalQuantity(items[..|items| - 1]) + items[|items| - 1].quantity
  }

  /** The summed quantity of two lists is the sum of their summed quantities. */
  lemma {:induction false} TotalQuantityConcat(a: seq<Item>, b: seq<Item>)
    ensures TotalQuantity(a + b) == TotalQuantity(a) + TotalQuantity(b)
    decreases |b|
  {
    if b == [] {
      assert a + b == a;
    } else {
      assert (a + b)[..|a + b| - 1] == a + b[..|b| - 1];
      TotalQuantityConcat(a, b[..|b| - 1]);
    }
  }

  /** When every quantity is at least 1, there are at least as many units as items. */
  lemma {:induction false} TotalQuantityCoversItems(items: seq<Item>)
    requires forall i :: 0 <= i < |items| ==> items[i].quantity >= 1
    ensures TotalQuantity(items) >= |items|
  {
    if items != [] {
      TotalQuantityCoversItems(items[..|items| - 1]);
    }
  }

  // ---------------------------------------------------------------- items per category

  /** The entries `(category, count)` for the categories `cats`, in their order. */
  function Tally(cats: seq<string>, items: seq<Item>): (r: seq<(string, int)>)
    ensures |r| == |cats|
    ensures forall i :: 0 <= i < |r| ==> r[i] == (cats[i], |ListView.InCategory(items, cats[i])|)
  {
    if cats == [] then []
    else Tally(cats[..|cats| - 1], items) + [(cats[|cats| - 1], |ListView.InCategory(items, cats[|cats| - 1])|)]
  }

  /** `Object.entries(categoryCount)`: keys in the order the `forEach` created them. */
  function CategoryCounts(items: seq<Item>): seq<(string, int)> {
    Tally(ListView.CategoryOrder(items), items)
  }

  /** What `categoryCount` holds after the items `done`, with its keys in creation order. */
  ghost predicate CountsOf(done: seq<Item>, counts: map<string, int>, keys: seq<string>) {
    && keys == ListView.CategoryOrder(done)
    && (forall c :: c in counts <==> c in keys)
    && (forall c :: c in counts ==> counts[c] == |ListView.InCategory(done, c)|)
  }

  /** One step of the `forEach`: the item's category count goes from `(count || 0)` to one more. */
  lemma CountsStep(done: seq<Item>, item: Item, counts: map<string, int>, keys: seq<string>,
                   counts': map<string, int>, keys': seq<string>)
    requires CountsOf(done, counts, keys)
    requires keys' == if item.category in counts then keys else keys + [item.category]
    requires counts' == counts[item.category := (if item.category in counts then counts[item.category] else 0) + 1]
    ensures CountsOf(done + [item], counts', keys')
  {
    ListView.CategoryOrderSnoc(done, item);
    forall c | c in counts' ensures counts'[c] == |ListView.InCategory(done + [item], c)| {
      ListView.InCategorySnoc(done, item, c);
    }
  }

  /** The `items.forEach` that fills `categoryCount`. */
  method CountByCategory(items: seq<Item>) returns (counts: map<string, int>, keys: seq<string>)
    ensures keys == ListView.CategoryOrder(items)
    ensures forall c :: c in counts <==> ListView.InCategory(items, c) != []
    ensures forall c :: c in counts ==> counts[c] == |ListView.InCategory(items, c)|
  {
    counts, keys := map[], [];
    ghost var done: seq<Item> := [];
    var k := 0;
    while k < |items|
      invariant k <= |items| && done == items[..k]
      invariant CountsOf(done, counts, keys)
    {
      var c := items[k].category;
      ghost var before, keysBefore := counts, keys;
      keys := if c in counts then keys else keys + [c];
      counts := counts[c := (if c in counts then counts[c] else 0) + 1];
      CountsStep(done, items[k], before, keysBefore, counts, keys);
      TakeOneMore(items, k);
      done := done + [items[k]];
      k := k + 1;
    }
    assert done == items;
  }

  function SumCounts(entries: seq<(string, int)>): int {
    if entries == [] then 0 else SumCounts(entries[..|entries| - 1]) + entries[|entries| - 1].1
  }

  lemma {:induction false} SumCountsOfTally(cats: seq<string>, items: seq<Item>)
    ensures SumCounts(Tally(cats, items)) == ListView.SumSizes(cats, items)
  {
    if cats != [] {
      SumCountsOfTally(cats[..|cats| - 1], items);
    }
  }

  /** Every item is counted under exactly one category. */
  lemma CountsAddUp(items: seq<Item>)
    ensures SumCounts(CategoryCounts(items)) == |items|
  {
    var cats := ListView.CategoryOrder(items);
    SumCountsOfTally(cats, items);
    forall i | 0 <= i < |items| ensures items[i].category in cats {
      FilterMembership(items, (it: Item) => it.category == items[i].category, items[i]);
    }
    ListView.GroupsPartition(cats, items);
  }

  // ---------------------------------------------------------------- top category and top item

  function Count(entry: (string, int)): int { entry.1 }

  /** `Object.entries(categoryCount).sort((a, b) => b[1] - a[1])[0]`, absent for an empty list. */
  function TopCategory(items: seq<Item>): Option<(string, int)> {
    var entries := CategoryCounts(items);
    if entries == [] then None else Some(SortDesc(entries, Count)[0])
  }

  /** The top category is present exactly when the list is not empty; it is a most common
      category with its true count, and every category created before it is strictly rarer. */
  lemma TopCategoryIsMostCommon(items: seq<Item>)
    ensures TopCategory(items).None? <==> items == []
    ensures TopCategory(items).Some? ==>
      var (c, n) := TopCategory(items).value;
      && n == |ListView.InCategory(items, c)| >= 1
      && (forall d :: |ListView.InCategory(items, d)| <= n)
      && exists m :: 0 <= m < |ListView.CategoryOrder(items)| && ListView.CategoryOrder(items)[m] == c
           && forall j :: 0 <= j < m ==> |ListView.InCategory(items, ListView.CategoryOrder(items)[j])| < n
  {
    var cats := ListView.CategoryOrder(items);
    var entries := CategoryCounts(items);
    if items != [] {
      FilterMembership(items, (it: Item) => it.category == items[0].category, items[0]);
      assert items[0].category in cats;
      var m := FirstMaxIndex(entries, Count);
      SortHeadIsFirstMax(entries, Count);
      var (c, n) := entries[m];
      assert c == cats[m];
      forall d ensures |ListView.InCategory(items, d)| <= n {
        if d in cats {
          var i :| 0 <= i < |cats| && cats[i] == d;
          assert Count(entries[i]) <= Count(entries[m]);
        }
      }
      forall j | 0 <= j < m ensures |ListView.InCategory(items, cats[j])| < n {
        assert Count(entries[j]) < Count(entries[m]);
      }
    }
  }


  /** `[...history].sort((a, b) => b.frequency - a.frequency)[0]`, absent for an empty history. */
  function TopItem(history: seq<Store.HistoryEntry>): Option<Store.HistoryEntry> {
    if history == [] then None else Some(SortDesc(history, Store.Frequency)[0])
  }

  /** The top item is present exactly when there is history; it is the earliest entry of
      highest frequency. */
  lemma TopItemIsMostPurchased(history: seq<Store.HistoryEntry>)
    ensures TopItem(history).None? <==> history == []
    ensures TopItem(history).Some? ==>
      exists m :: 0 <= m < |history| && TopItem(history).value == history[m]
        && (forall i :: 0 <= i < |history| ==> history[i].frequency <= history[m].frequency)
        && (forall i :: 0 <= i < m ==> history[i].frequency < history[m].frequency)
  {
    if history != [] {
      SortHeadIsFirstMax(history, Store.Frequency);
      var m := FirstMaxIndex(history, Store.Frequency);
      assert forall i :: 0 <= i < |history| ==> Store.Frequency(history[i]) <= Store.Frequency(history[m]);
      assert forall i :: 0 <= i < m ==> Store.Frequency(history[i]) < Store.Frequency(history[m]);
    }
  }

  // ---------------------------------------------------------------- the card

  datatype Summary = Summary(totalItems: nat, completedItems: nat, totalQuantity: int,
                             topCategory: Option<(string, int)>, topItem: Option<Store.HistoryEntry>)

  /** The values the card shows, computed as the component does. */
  method Summarize(items: seq<Item>, history: seq<Store.HistoryEntry>) returns (s: Summary)
    ensures s.totalItems == |items|
    ensures s.completedItems == ListView.CompletedCount(items)
    ensures s.totalQuantity == TotalQuantity(items)
    ensures s.topCategory == TopCategory(items)
    ensures s.topItem == TopItem(history)
  {
    var counts, keys := CountByCategory(items);
    var entries := seq(|keys|, i requires 0 <= i < |keys| => (keys[i], counts[keys[i]]));
    assert entries == CategoryCounts(items);
    var top := if entries == [] then None else Some(SortDesc(entries, Count)[0]);
    s := Summary(|items|, ListView.CompletedCount(items), TotalQuantity(items), top, TopItem(history));
  }
}
