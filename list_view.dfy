/**
 * The list panel (src/components/ShoppingListManager.tsx): the items grouped by category, the
 * category headings in sorted order, the completed counts, the set of expanded categories and
 * the quantity box's fallback to 1.
 */
module ListView {
  import opened Wrappers
  import opened Text
  import opened Seqs
  import opened Sorting
  import Store

  type Item = Store.Item

  /** `groupedItems[c]`: the items of category `c`, in list order. */
  function InCategory(items: seq<Item>, c: string): seq<Item> {
    Filter(items, (it: Item) => it.category == c)
  }

  /** One more item at the end lands at the end of its own group and nowhere else. */
  lemma InCategorySnoc(items: seq<Item>, x: Item, c: string)
    ensures InCategory(items + [x], c) == InCategory(items, c) + (if x.category == c then [x] else [])
  {
    assert (items + [x])[..|items|] == items;
  }

  /** The keys of `groupedItems` in the order they were created: each category at its first item. */
  function CategoryOrder(items: seq<Item>): (r: seq<string>)
    ensures NoDuplicates(r)
    ensures forall c :: c in r <==> InCategory(items, c) != []
  {
    if items == [] then []
    else
      var init, last := items[..|items| - 1], items[|items| - 1];
      assert items == init + [last];
      var keys := CategoryOrder(init);
      forall c ensures InCategory(items, c) == InCategory(init, c) + (if last.category == c then [last] else []) {
        InCategorySnoc(init, last, c);
      }
      if last.category in keys then keys else keys + [last.category]
  }

  lemma CategoryOrderSnoc(items: seq<Item>, x: Item)
    ensures CategoryOrder(items + [x]) ==
      if x.category in CategoryOrder(items) then CategoryOrder(items) else CategoryOrder(items) + [x.category]
  {
    assert (items + [x])[..|items|] == items;
  }

  /** What `groupedItems` holds after the items `done`, with its keys in creation order. */
  ghost predicate GroupsOf(done: seq<Item>, groups: map<string, seq<Item>>, keys: seq<string>) {
    && keys == CategoryOrder(done)
    && (forall c :: c in groups <==> c in keys)
    && (forall c :: c in groups ==> groups[c] == InCategory(done, c))
  }

  /** One step of the reduction: the item is pushed onto its group, which is created first if
      its category has no group yet. */
  lemma GroupsStep(done: seq<Item>, item: Item, groups: map<string, seq<Item>>, keys: seq<string>,
                   groups': map<string, seq<Item>>, keys': seq<string>)
    requires GroupsOf(done, groups, keys)
    requires keys' == if item.category in groups then keys else keys + [item.category]
    requires groups' == groups[item.category := (if item.category in groups then groups[item.category] else []) + [item]]
    ensures GroupsOf(done + [item], groups', keys')
  {
    CategoryOrderSnoc(done, item);
    forall c | c in groups' ensures groups'[c] == InCategory(done + [item], c) {
      InCategorySnoc(done, item, c);
    }
  }

  /** The `items.reduce` that builds `groupedItems`: a record from category to its items, and the
      order in which its keys were added. */
  method GroupByCategory(items: seq<Item>) returns (groups: map<string, seq<Item>>, keys: seq<string>)
    ensures keys == CategoryOrder(items)
    ensures forall c :: c in groups <==> InCategory(items, c) != []
    ensures forall c :: c in groups ==> groups[c] == InCategory(items, c)
  {
    groups, keys := map[], [];
    ghost var done: seq<Item> := [];
    var k := 0;
    while k < |items|
      invariant k <= |items| && done == items[..k]
      invariant GroupsOf(done, groups, keys)
    {
      var item := items[k];
      ghost var before, keysBefore := groups, keys;
      if item.category !in groups {
        groups := groups[item.category := []];
        keys := keys + [item.category];
      }
      groups := groups[item.category := groups[item.category] + [item]];
      assert groups == before[item.category := (if item.category in before then before[item.category] else []) + [item]];
      GroupsStep(done, item, before, keysBefore, groups, keys);
      TakeOneMore(items, k);
      done := done + [item];
      k := k + 1;
    }
    assert done == items;
  }

  /** `Object.keys(groupedItems).sort()`: the headings in display order. */
  function Headings(items: seq<Item>): seq<string> {
    SortTexts(CategoryOrder(items))
  }

  /** There is one heading per category present, each once, in ascending order. */
  lemma HeadingsAreSortedCategories(items: seq<Item>)
    ensures Ascending(Headings(items))
    ensures NoDuplicates(Headings(items))
    ensures forall c :: c in Headings(items) <==> InCategory(items, c) != []
  {
    var keys := CategoryOrder(items);
    SortTextsAscends(keys);
    NoDuplicatesPermuted(keys, Headings(items));
    forall c ensures c in Headings(items) <==> c in keys {
      assert c in Headings(items) <==> c in multiset(Headings(items));
    }
  }

  // ---------------------------------------------------------------- the groups partition the list

  /** Total size of the groups named by `cats`. */
  function SumSizes(cats: seq<string>, items: seq<Item>): nat {
    if cats == [] then 0 else SumSizes(cats[..|cats| - 1], items) + |InCategory(items, cats[|cats| - 1])|
  }

  lemma {:induction false} SumSizesOfNothing(cats: seq<string>)
    ensures SumSizes(cats, []) == 0
  {
    if cats != [] {
      SumSizesOfNothing(cats[..|cats| - 1]);
    }
  }

  /** One more item adds one to the size of every group named after its category. */
  lemma {:induction false} SumSizesSnoc(cats: seq<string>, items: seq<Item>, x: Item)
    ensures SumSizes(cats, items + [x]) == SumSizes(cats, items) + multiset(cats)[x.category]
  {
    if cats != [] {
      var init, last := cats[..|cats| - 1], cats[|cats| - 1];
      SumSizesSnoc(init, items, x);
      InCategorySnoc(items, x, last);
      assert cats == init + [last];
    }
  }

  /** Every item sits in exactly one group: the groups of distinct categories that cover all
      items add up to the whole list. */
  lemma {:induction false} GroupsPartition(cats: seq<string>, items: seq<Item>)
    requires NoDuplicates(cats)
    requires forall i :: 0 <= i < |items| ==> items[i].category in cats
    ensures SumSizes(cats, items) == |items|
  {
    if items == [] {
      SumSizesOfNothing(cats);
    } else {
      var init, last := items[..|items| - 1], items[|items| - 1];
      GroupsPartition(cats, init);
      SumSizesSnoc(cats, init, last);
      NoDuplicatesAtMostOnce(cats, last.category);
      assert items == init + [last];
    }
  }

  /** The groups under the headings hold every item once. */
  lemma HeadingsCoverList(items: seq<Item>)
    ensures SumSizes(Headings(items), items) == |items|
  {
    HeadingsAreSortedCategories(items);
    forall i | 0 <= i < |items| ensures items[i].category in Headings(items) {
      FilterMembership(items, (it: Item) => it.category == items[i].category, items[i]);
    }
    GroupsPartition(Headings(items), items);
  }

  // ---------------------------------------------------------------- completed counts

  predicate IsDone(it: Item) { it.completed }

  /** `items.filter(item => item.completed).length` */
  function CompletedCount(items: seq<Item>): nat {
    CountWhere(items, IsDone)
  }

  /** `completedInCategory` */
  function CompletedIn(items: seq<Item>, c: string): nat {
    CountWhere(InCategory(items, c), IsDone)
  }

  /** The completed items of a group are the group of the completed items. */
  lemma CompletedInGroup(items: seq<Item>, c: string)
    ensures CompletedIn(items, c) == |InCategory(Filter(items, IsDone), c)|
  {
    var inC := (it: Item) => it.category == c;
    var both := (it: Item) => it.category == c && it.completed;
    FilterTwice(items, inC, IsDone, both);
    FilterTwice(items, IsDone, inC, both);
  }

  function SumCompleted(cats: seq<string>, items: seq<Item>): nat {
    if cats == [] then 0 else SumCompleted(cats[..|cats| - 1], items) + CompletedIn(items, cats[|cats| - 1])
  }

  lemma {:induction false} SumCompletedIsSumOfDone(cats: seq<string>, items: seq<Item>)
    ensures SumCompleted(cats, items) == SumSizes(cats, Filter(items, IsDone))
  {
    if cats != [] {
      SumCompletedIsSumOfDone(cats[..|cats| - 1], items);
      CompletedInGroup(items, cats[|cats| - 1]);
    }
  }

  /** The per-heading completed counts add up to the header's completed count. */
  lemma CompletedAddUp(items: seq<Item>)
    ensures SumCompleted(Headings(items), items) == CompletedCount(items)
  {
    var done := Filter(items, IsDone);
    HeadingsAreSortedCategories(items);
    forall i | 0 <= i < |done| ensures done[i].category in Headings(items) {
      FilterMembership(items, IsDone, done[i]);
      FilterMembership(items, (it: Item) => it.category == done[i].category, done[i]);
    }
    GroupsPartition(Headings(items), done);
    SumCompletedIsSumOfDone(Headings(items), items);
  }

  // ---------------------------------------------------------------- expanded categories

  /** The expanded set after a click on heading `c`. */
  function Toggled(expanded: set<string>, c: string): (r: set<string>)
    ensures c in r <==> c !in expanded
    ensures forall d :: d != c ==> (d in r <==> d in expanded)
  {
    if c in expanded then expanded - {c} else expanded + {c}
  }

  /** Two clicks on the same heading restore the expanded set. */
  lemma ToggleTwice(expanded: set<string>, c: string)
    ensures Toggled(Toggled(expanded, c), c) == expanded
  {
  }

  class ListPanel {
    var expanded: set<string>

    constructor ()
      ensures expanded == {}
    {
      expanded := {};
    }

    /** `toggleCategory`: flips heading `c` and no other. */
    method ToggleCategory(c: string)
      modifies this
      ensures expanded == Toggled(old(expanded), c)
    {
      var next := expanded;
      if c in next {
        next := next - {c};
      } else {
        next := next + {c};
      }
      expanded := next;
    }
  }

  // ---------------------------------------------------------------- the quantity box

  /** `parseInt(value) || 1`: a value that is not a number, or is zero, becomes 1. */
  function QuantityFromInput(value: string): (r: int)
    ensures r != 0
    ensures (forall k :: 0 <= k < |value| ==> !IsDigit(value[k])) ==> r == 1
  {
    match ParseInt(value)
    case Some(n) => if n != 0 then n else 1
    case None => 1
  }

  /** A box holding a plain positive number yields that number; one holding zeros yields 1. */
  lemma QuantityOfDigits(d: string)
    requires d != [] && AllDigits(d)
    ensures QuantityFromInput(d) == if DigitsValue(d) == 0 then 1 else DigitsValue(d)
  {
    ParseIntDigits(d);
  }
}
