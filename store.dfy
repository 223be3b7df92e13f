/**
 * The application state (src/App.tsx): the shopping list, the purchase-frequency history and
 * the search log, with the operations the components call on them. Every operation replaces a
 * state field by a new value computed from the old one; the functions below state those values
 * and the class `ShoppingStore` holds the three fields.
 *
 * Ids and timestamps come from the clock in the application; here they are parameters.
 */
module Store {
  import opened Wrappers
  import opened Text
  import opened Seqs
  import VoiceCommands
  import VoiceSearch

  datatype Item = Item(id: string, name: string, quantity: int, category: string,
                       addedAt: int, completed: bool, price: Option<real>)

  datatype HistoryEntry = HistoryEntry(itemName: string, frequency: int, lastPurchased: int,
                                       category: string)

  /** The sort key of `b.frequency - a.frequency`. */
  function Frequency(h: HistoryEntry): int { h.frequency }

  datatype SearchEntry = SearchEntry(query: string, timestamp: int)

  const SearchLogSize: nat := 20

  // ---------------------------------------------------------------- categories

  /** The keyword table of `categorizeItem`, in the order its entries are visited. */
  const Categories: seq<(string, seq<string>)> := [
    ("Dairy", ["milk", "cheese", "yogurt", "butter", "cream", "eggs"]),
    ("Produce", ["apple", "banana", "orange", "tomato", "lettuce", "carrot", "potato", "onion",
                 "fruit", "vegetable"]),
    ("Meat", ["chicken", "beef", "pork", "fish", "turkey", "lamb", "salmon"]),
    ("Bakery", ["bread", "bagel", "muffin", "cake", "cookie", "croissant"]),
    ("Beverages", ["water", "juice", "soda", "coffee", "tea", "beer", "wine"]),
    ("Snacks", ["chips", "crackers", "popcorn", "nuts", "candy", "chocolate"]),
    ("Pantry", ["rice", "pasta", "flour", "sugar", "salt", "pepper", "oil", "sauce"]),
    ("Frozen", ["ice cream", "frozen", "pizza"]),
    ("Personal Care", ["toothpaste", "shampoo", "soap", "deodorant", "tissue"]),
    ("Household", ["paper towel", "cleaner", "detergent", "trash bag"])
  ]

  /** `keywords.some(keyword => name.includes(keyword))` */
  predicate MentionsAny(name: string, keywords: seq<string>) {
    exists k :: 0 <= k < |keywords| && Contains(name, keywords[k])
  }

  /** Entry `i` is the first of the table with a keyword contained in the name. */
  predicate FirstMention(name: string, table: seq<(string, seq<string>)>, i: nat) {
    i < |table| && MentionsAny(name, table[i].1) && forall j :: 0 <= j < i ==> !MentionsAny(name, table[j].1)
  }

  /** The first entry of the table, in order, with a keyword contained in the name. */
  function FirstCategory(name: string, table: seq<(string, seq<string>)>): (r: Option<string>)
    ensures r.None? <==> forall i :: 0 <= i < |table| ==> !MentionsAny(name, table[i].1)
    ensures r.Some? ==> exists i: nat :: FirstMention(name, table, i) && table[i].0 == r.value
  {
    if table == [] then None
    else if MentionsAny(name, table[0].1) then
      assert FirstMention(name, table, 0);
      Some(table[0].0)
    else
      var r := FirstCategory(name, table[1..]);
      assert r.Some? ==> exists i: nat :: FirstMention(name, table, i) && table[i].0 == r.value by {
        if r.Some? {
          var i: nat :| FirstMention(name, table[1..], i) && table[1..][i].0 == r.value;
          assert table[i + 1] == table[1..][i];
          forall j | 0 <= j < i + 1 ensures !MentionsAny(name, table[j].1) {
            if j > 0 {
              assert table[j] == table[1..][j - 1];
            }
          }
          assert FirstMention(name, table, i + 1);
        }
      }
      assert r.None? ==> forall i :: 0 <= i < |table| ==> !MentionsAny(name, table[i].1) by {
        if r.None? {
          forall i | 1 <= i < |table| ensures !MentionsAny(name, table[i].1) {
            assert table[i] == table[1..][i - 1];
          }
        }
      }
      r
  }

  /** `categorizeItem` */
  function Categorize(name: string): string {
    match FirstCategory(Lower(name), Categories)
    case Some(c) => c
    case None => "Other"
  }

  // ---------------------------------------------------------------- the list

  /** `removeItem`: every item with the id goes. */
  function WithoutId(items: seq<Item>, id: string): seq<Item> {
    Filter(items, (i: Item) => i.id != id)
  }

  /** `items.find(i => i.name.toLowerCase().includes(phrase))`, as a position. */
  function FindByName(items: seq<Item>, phrase: string): (r: Option<nat>)
    ensures r.Some? ==> r.value < |items| && Contains(Lower(items[r.value].name), phrase)
    ensures r.Some? ==> forall j :: 0 <= j < r.value ==> !Contains(Lower(items[j].name), phrase)
    ensures r.None? <==> forall j :: 0 <= j < |items| ==> !Contains(Lower(items[j].name), phrase)
  {
    if items == [] then None
    else if Contains(Lower(items[0].name), phrase) then Some(0)
    else
      var r := FindByName(items[1..], phrase);
      assert r.None? ==> forall j :: 0 <= j < |items| ==> !Contains(Lower(items[j].name), phrase) by {
        if r.None? {
          forall j | 1 <= j < |items| ensures !Contains(Lower(items[j].name), phrase) {
            assert items[j] == items[1..][j - 1];
          }
        }
      }
      if r.Some? then Some(r.value + 1) else None
  }

  /** `removeItemByName`: the first item whose lowered name contains the lowered, trimmed
      phrase is removed by its id; without one the list stays as it is. */
  function WithoutNamed(items: seq<Item>, phrase: string): seq<Item> {
    match FindByName(items, Trim(Lower(phrase)))
    case Some(k) => WithoutId(items, items[k].id)
    case None => items
  }

  /** `updateQuantity` */
  function WithQuantity(items: seq<Item>, id: string, quantity: int): (r: seq<Item>)
    ensures |r| == |items|
    ensures forall i :: 0 <= i < |items| ==> r[i].(quantity := items[i].quantity) == items[i]
    ensures forall i :: 0 <= i < |items| ==> r[i].quantity == if items[i].id == id then quantity else items[i].quantity
  {
    seq(|items|, i requires 0 <= i < |items| =>
      if items[i].id == id then items[i].(quantity := quantity) else items[i])
  }

  /** `toggleComplete` */
  function Toggled(items: seq<Item>, id: string): (r: seq<Item>)
    ensures |r| == |items|
    ensures forall i :: 0 <= i < |items| ==> r[i].(completed := items[i].completed) == items[i]
    ensures forall i :: 0 <= i < |items| ==> r[i].completed == (items[i].completed != (items[i].id == id))
  {
    seq(|items|, i requires 0 <= i < |items| =>
      if items[i].id == id then items[i].(completed := !items[i].completed) else items[i])
  }

  /** `clearCompleted` */
  function Pending(items: seq<Item>): seq<Item> {
    Filter(items, (i: Item) => !i.completed)
  }

  // ---------------------------------------------------------------- history and search log

  predicate SameName(h: HistoryEntry, name: string) {
    Lower(h.itemName) == Lower(name)
  }

  /** `updateHistory`: every entry with the same name, ignoring case, is counted once more and
      stamped; a name not yet in the history is appended with frequency 1. */
  function RecordPurchase(history: seq<HistoryEntry>, name: string, category: string, now: int): seq<HistoryEntry> {
    if exists i :: 0 <= i < |history| && SameName(history[i], name) then
      seq(|history|, i requires 0 <= i < |history| =>
        if SameName(history[i], name)
        then history[i].(frequency := history[i].frequency + 1, lastPurchased := now)
        else history[i])
    else history + [HistoryEntry(name, 1, now, category)]
  }

  /** `handleSearchQuery`: the new entry first, then the older ones, twenty at most. */
  function Logged(log: seq<SearchEntry>, entry: SearchEntry): (r: seq<SearchEntry>) {
    var all := [entry] + log;
    if |all| <= SearchLogSize then all else all[..SearchLogSize]
  }

  // ---------------------------------------------------------------- the store

  class ShoppingStore {
    var items: seq<Item>
    var history: seq<HistoryEntry>
    var searchHistory: seq<SearchEntry>

    constructor()
      ensures items == [] && history == [] && searchHistory == []
    {
      items := [];
      history := [];
      searchHistory := [];
    }

    /** `addItem(name, quantity, category, price)`: an empty category is replaced by the
        keyword category of the name. */
    method AddItem(name: string, quantity: int, category: string, price: Option<real>, id: string, now: int)
      modifies this
      ensures var c := if category != [] then category else Categorize(name);
        items == old(items) + [Item(id, name, quantity, c, now, false, price)]
        && history == RecordPurchase(old(history), name, c, now)
      ensures searchHistory == old(searchHistory)
    {
      var itemCategory := if category != [] then category else Categorize(name);
      items := items + [Item(id, name, quantity, itemCategory, now, false, price)];
      UpdateHistory(name, itemCategory, now);
    }

    method RemoveItem(id: string)
      modifies this
      ensures items == WithoutId(old(items), id)
      ensures history == old(history) && searchHistory == old(searchHistory)
    {
      items := WithoutId(items, id);
    }

    method RemoveItemByName(name: string) returns (found: bool)
      modifies this
      ensures found <==> FindByName(old(items), Trim(Lower(name))).Some?
      ensures items == WithoutNamed(old(items), name)
      ensures history == old(history) && searchHistory == old(searchHistory)
    {
      var normalizedName := Trim(Lower(name));
      var item := FindByName(items, normalizedName);
      found := item.Some?;
      if found {
        RemoveItem(items[item.value].id);
      }
    }

    method UpdateQuantity(id: string, quantity: int)
      modifies this
      ensures items == WithQuantity(old(items), id, quantity)
      ensures history == old(history) && searchHistory == old(searchHistory)
    {
      items := WithQuantity(items, id, quantity);
    }

    method ToggleComplete(id: string)
      modifies this
      ensures items == Toggled(old(items), id)
      ensures history == old(history) && searchHistory == old(searchHistory)
    {
      items := Toggled(items, id);
    }

    /** `clearCompleted`; the count is what the notification reports. */
    method ClearCompleted() returns (removed: nat)
      modifies this
      ensures items == Pending(old(items))
      ensures removed == CountWhere(old(items), (i: Item) => i.completed)
      ensures history == old(history) && searchHistory == old(searchHistory)
    {
      removed := CountWhere(items, (i: Item) => i.completed);
      items := Pending(items);
    }

    method ClearAll()
      modifies this
      ensures items == [] && history == old(history) && searchHistory == old(searchHistory)
    {
      items := [];
    }

    method UpdateHistory(itemName: string, category: string, now: int)
      modifies this
      ensures history == RecordPurchase(old(history), itemName, category, now)
      ensures items == old(items) && searchHistory == old(searchHistory)
    {
      history := RecordPurchase(history, itemName, category, now);
    }

    /** `acceptSuggestion(name)` is `addItem(name, 1)`. */
    method AcceptSuggestion(itemName: string, id: string, now: int)
      modifies this
      ensures var c := Categorize(itemName);
        items == old(items) + [Item(id, itemName, 1, c, now, false, None)]
        && history == RecordPurchase(old(history), itemName, c, now)
      ensures searchHistory == old(searchHistory)
    {
      AddItem(itemName, 1, "", None, id, now);
    }

    method HandleSearchQuery(query: string, now: int)
      modifies this
      ensures searchHistory == Logged(old(searchHistory), SearchEntry(query, now))
      ensures items == old(items) && history == old(history)
    {
      searchHistory := Logged(searchHistory, SearchEntry(query, now));
    }

    /** The voice-command component's requests: an add carries the catalog name, category and
        price; a remove names a phrase; a clear empties the list. */
    method ApplyVoiceAction(action: VoiceCommands.Action, id: string, now: int)
      modifies this
      ensures action.AddItem? ==>
        var c := if action.category != [] then action.category else Categorize(action.name);
        items == old(items) + [Item(id, action.name, action.quantity, c, now, false, Some(action.price))]
        && history == RecordPurchase(old(history), action.name, c, now)
      ensures action.RemoveByName? ==> items == WithoutNamed(old(items), action.phrase) && history == old(history)
      ensures action.ClearList? ==> items == [] && history == old(history)
      ensures !action.AddItem? && !action.RemoveByName? && !action.ClearList? ==>
        items == old(items) && history == old(history)
      ensures searchHistory == old(searchHistory)
    {
      match action {
        case AddItem(name, quantity, category, price) =>
          AddItem(name, quantity, category, Some(price), id, now);
        case RemoveByName(phrase) =>
          var _ := RemoveItemByName(phrase);
        case ClearList =>
          ClearAll();
        case _ =>
      }
    }

    /** The search panel's requests: an add carries only the name and the quantity; a search
        is logged. */
    method ApplySearchOutcome(outcome: VoiceSearch.Outcome, id: string, now: int)
      modifies this
      ensures outcome.AddToList? ==>
        var c := Categorize(outcome.name);
        items == old(items) + [Item(id, outcome.name, outcome.quantity, c, now, false, None)]
        && history == RecordPurchase(old(history), outcome.name, c, now)
        && searchHistory == old(searchHistory)
      ensures outcome.Searched? ==>
        searchHistory == Logged(old(searchHistory), SearchEntry(outcome.query, now))
        && items == old(items) && history == old(history)
      ensures !outcome.AddToList? && !outcome.Searched? ==>
        items == old(items) && history == old(history) && searchHistory == old(searchHistory)
    {
      match outcome {
        case AddToList(name, quantity) =>
          AddItem(name, quantity, "", None, id, now);
        case Searched(query) =>
          HandleSearchQuery(query, now);
        case _ =>
      }
    }
  }

  // ---------------------------------------------------------------- properties

  lemma NoEntryIsOther()
    ensures forall i :: 0 <= i < |Categories| ==> Categories[i].0 != "Other"
  {
  }

  /** The category is that of the first table entry, in order, with a keyword the lowered name
      contains, and "Other" when there is none. */
  lemma CategorizeIsFirstMatch(name: string)
    ensures Categorize(name) == "Other"
        <==> forall i :: 0 <= i < |Categories| ==> !MentionsAny(Lower(name), Categories[i].1)
    ensures Categorize(name) != "Other"
        ==> exists i: nat :: FirstMention(Lower(name), Categories, i) && Categories[i].0 == Categorize(name)
  {
    NoEntryIsOther();
    match FirstCategory(Lower(name), Categories) {
      case Some(c) =>
        var i: nat :| FirstMention(Lower(name), Categories, i) && Categories[i].0 == c;
        assert Categories[i].0 != "Other";
      case None =>
    }
  }

  /** 'Ice Cream' is Dairy through 'cream', before the Frozen entry's 'ice cream' is looked at. */
  lemma IceCreamIsDairy()
    ensures Categorize("Ice Cream") == "Dairy"
  {
    assert Lower("Ice Cream") == "ice cream";
    assert OccursAt("ice cream", "cream", 4);
    ContainsAt("ice cream", "cream", 4);
    assert Categories[0].1[4] == "cream";
    assert MentionsAny("ice cream", Categories[0].1);
  }

  /** Removing by id keeps exactly the items with another id, in their order. */
  lemma WithoutIdKeepsTheRest(items: seq<Item>, id: string, x: Item)
    ensures x in WithoutId(items, id) <==> x in items && x.id != id
    ensures multiset(WithoutId(items, id))[x] == if x.id != id then multiset(items)[x] else 0
  {
    FilterMultiset(items, (i: Item) => i.id != id, x);
  }

  /** The item removed by name is the first whose lowered name contains the phrase (`FindByName`
      states which one that is): every item sharing its id goes, every other item stays. A phrase
      no name contains changes nothing, and a blank phrase removes the first item. */
  lemma RemoveByNameTakesFirstMatch(items: seq<Item>, phrase: string)
    ensures FindByName(items, Trim(Lower(phrase))).Some? ==>
      forall x :: x in WithoutNamed(items, phrase)
        <==> x in items && x.id != items[FindByName(items, Trim(Lower(phrase))).value].id
    ensures FindByName(items, Trim(Lower(phrase))).None? ==> WithoutNamed(items, phrase) == items
    ensures items != [] && Trim(Lower(phrase)) == [] ==> WithoutNamed(items, phrase) == WithoutId(items, items[0].id)
  {
    var found := FindByName(items, Trim(Lower(phrase)));
    if found.Some? {
      forall x {
        WithoutIdKeepsTheRest(items, items[found.value].id, x);
      }
    }
    if items != [] && Trim(Lower(phrase)) == [] {
      assert OccursAt(Lower(items[0].name), [], 0);
      ContainsAt(Lower(items[0].name), [], 0);
    }
  }

  /** Toggling the same id twice restores the list. */
  lemma ToggleTwice(items: seq<Item>, id: string)
    ensures Toggled(Toggled(items, id), id) == items
  {
    var r := Toggled(Toggled(items, id), id);
    forall i | 0 <= i < |items| ensures r[i] == items[i] {
      assert r[i].completed == items[i].completed;
    }
  }

  /** Updating the quantity of an id twice keeps the last value. */
  lemma QuantityLastWins(items: seq<Item>, id: string, q1: int, q2: int)
    ensures WithQuantity(WithQuantity(items, id, q1), id, q2) == WithQuantity(items, id, q2)
  {
    var a, b := WithQuantity(WithQuantity(items, id, q1), id, q2), WithQuantity(items, id, q2);
    forall i | 0 <= i < |items| ensures a[i] == b[i] {
      assert a[i].quantity == b[i].quantity;
    }
  }

  /** `clearCompleted` keeps exactly the items not completed, in order, and removes as many
      items as were completed. */
  lemma PendingKeepsTheRest(items: seq<Item>, x: Item)
    ensures x in Pending(items) <==> x in items && !x.completed
    ensures multiset(Pending(items))[x] == if x.completed then 0 else multiset(items)[x]
    ensures |Pending(items)| + CountWhere(items, (i: Item) => i.completed) == |items|
  {
    FilterMultiset(items, (i: Item) => !i.completed, x);
    CountSplits(items, (i: Item) => i.completed, (i: Item) => !i.completed);
  }

  /** A known name, ignoring case, adds no entry: each entry of that name is counted once more
      and stamped, the others stay as they are. */
  lemma KnownNameIsCounted(history: seq<HistoryEntry>, name: string, category: string, now: int, i: nat)
    requires i < |history| && SameName(history[i], name)
    ensures var r := RecordPurchase(history, name, category, now);
      |r| == |history|
      && forall j :: 0 <= j < |history| ==>
           r[j] == if SameName(history[j], name)
                   then history[j].(frequency := history[j].frequency + 1, lastPurchased := now)
                   else history[j]
  {
  }

  /** A new name is appended with frequency 1; nothing else changes. */
  lemma NewNameIsAppended(history: seq<HistoryEntry>, name: string, category: string, now: int)
    requires forall i :: 0 <= i < |history| ==> !SameName(history[i], name)
    ensures RecordPurchase(history, name, category, now) == history + [HistoryEntry(name, 1, now, category)]
  {
  }

  /** No entry is ever removed, renamed or counted down, and afterwards the name is known. */
  lemma HistoryOnlyGrows(history: seq<HistoryEntry>, name: string, category: string, now: int)
    ensures var r := RecordPurchase(history, name, category, now);
      |r| >= |history|
      && (forall j :: 0 <= j < |history| ==>
            r[j].itemName == history[j].itemName && r[j].category == history[j].category
            && r[j].frequency >= history[j].frequency)
      && exists j :: 0 <= j < |r| && SameName(r[j], name)
  {
    var r := RecordPurchase(history, name, category, now);
    if !exists i :: 0 <= i < |history| && SameName(history[i], name) {
      assert SameName(r[|history|], name);
    }
  }

  /** The search log is newest first and holds at most twenty entries: the new entry, then
      the most recent older ones in their order. */
  lemma LogIsNewestFirst(log: seq<SearchEntry>, entry: SearchEntry)
    ensures var r := Logged(log, entry);
      |r| == (if |log| < SearchLogSize then |log| + 1 else SearchLogSize)
      && r[0] == entry && r[1..] == log[..|r| - 1]
  {
  }
}
