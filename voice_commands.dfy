/**
 * `processCommand` (src/components/VoiceCommands.tsx:113-273): the cascade that turns a spoken
 * transcript into an intent (ten add templates, six remove templates, the clear-all phrases,
 * token salvage), and the resolution of an add intent against the catalog.
 *
 * `Interpret` states what the cascade yields; the method `ProcessCommand` computes it the way
 * the component does, pattern by pattern, reassigning the quantity, the item phrase and the
 * extracted price.
 */
module VoiceCommands {
  import opened Wrappers
  import opened Text
  import opened Patterns
  import Catalog
  import Seqs

  datatype Intent =
    | AddIntent(name: string, quantity: nat, price: Option<real>)
    | RemoveIntent(phrase: string)
    | ClearAllIntent
    | SalvageIntent(phrase: string)
    | Unrecognised

  /** What the component asks of the shopping list once the catalog has answered. */
  datatype Action =
    | AddItem(name: string, quantity: nat, category: string, price: real)
    | RemoveByName(phrase: string)
    | ClearList
    | NotAvailable(phrase: string)
    | NotRecognised

  // ---------------------------------------------------------------- the tables

  const AddTemplates: seq<Template> := [
    Keyed(["add "], Counted(Some("to"))),
    Keyed(["i need to buy ", "i need ", "i want to buy ", "i want "], Counted(None)),
    Keyed(["buy "], Counted(None)),
    Keyed(["get "], Counted(None)),
    Keyed(["purchase "], Counted(None)),
    Keyed(["please add ", "add "], Phrase(None)),
    Keyed(["i want ", "i need ", "i'd like "], Phrase(None)),
    Keyed(["can you add ", "could you add "], Phrase(None)),
    Keyed(["put ", "include "], Phrase(Some("on"))),
    LettersOnly
  ]

  const RemoveTemplates: seq<Template> := [
    Keyed(["remove "], Phrase(Some("from"))),
    Keyed(["delete "], Phrase(Some("from"))),
    Keyed(["take off ", "take out ", "take "], Phrase(Some("from"))),
    Keyed(["please remove ", "remove "], Phrase(None)),
    Keyed(["can you remove ", "could you remove "], Phrase(None)),
    Keyed(["take out ", "take off "], Phrase(None))
  ]

  /** The alternatives of the filler-word pattern, `costs?` and `dollars?` spelled out. */
  const Fillers: seq<string> := [
    "a", "an", "the", "some", "few", "many", "couple of", "dozen", "pack of", "bottle of",
    "can of", "box of", "bag of", "loaf of", "pound of", "pounds of", "ounces of", "oz of",
    "for", "costs", "cost", "dollars", "dollar"
  ]

  const ListPhrases: seq<string> := ["from my list", "from the list", "from list"]

  const ClearPhrases: seq<string> :=
    ["clear all", "delete all", "remove all", "empty list", "clear list", "delete everything"]

  const StopWords: seq<string> := [
    "add", "get", "buy", "need", "want", "please", "can", "could", "you", "the", "a", "an",
    "some", "and", "or", "but", "to", "from", "my", "list"
  ]

  // ---------------------------------------------------------------- the cascade, stated

  predicate CountIsDigits(c: Capture) {
    c.Two? && c.count.Some? ==> AllDigits(c.count.value)
  }

  /** The quantity and item phrase read from a match before the leading-count check: both
      groups give the count and the trimmed phrase; a missing count leaves the phrase empty;
      a single group is the phrase unless `parseInt` reads a number from it, in which case the
      phrase is empty (and the number read is dropped with it). */
  function Groups(c: Capture): (r: (nat, string))
    requires CountIsDigits(c)
  {
    match c
    case Two(Some(d), item) => (DigitsValue(d), Trim(item))
    case Two(None, _) => (1, "")
    case One(g) => if ParseInt(g).Some? then (1, "") else (1, Trim(g))
  }

  /** The leading-count override applied to a phrase. */
  function Recount(quantity: nat, name: string): (r: (nat, string)) {
    match LeadingCount(name)
    case Some((k, rest)) => (k, Trim(rest))
    case None => (quantity, name)
  }

  function PriceOf(m: Option<PriceMatch>): Option<real> {
    if m.Some? then Some(m.value.amount) else None
  }

  /** The phrase once the first price match of the command has been removed from it. */
  function Unpriced(name: string, m: Option<PriceMatch>): string {
    if m.Some? && m.value.text != [] then Trim(RemovePattern(name, m.value.text)) else name
  }

  /** The item phrase a match leaves once its groups are read, the leading count is applied,
      the command's price is removed and the fillers are stripped; `None` when it is empty. */
  function AddFromCapture(lc: string, c: Capture): (r: Option<Intent>)
    requires CountIsDigits(c)
    ensures r.Some? ==> r.value.AddIntent? && r.value.name != []
    ensures r.Some? ==> r.value.price == PriceOf(FirstPrice(lc, PriceKinds))
  {
    var (q, n) := Recount(Groups(c).0, Groups(c).1);
    if n == [] then None
    else
      var price := FirstPrice(lc, PriceKinds);
      var name := Trim(StripWords(Unpriced(n, price), Fillers));
      if name == [] then None else Some(AddIntent(name, q, PriceOf(price)))
  }

  /** One add template applied to the lowered, trimmed command `lc`: `None` when the template
      does not match or leaves an empty item phrase. */
  function AddAttempt(lc: string, t: Template): (r: Option<Intent>)
    ensures r.Some? ==> r.value.AddIntent? && r.value.name != []
    ensures r.Some? ==> TemplateMatch(lc, t).Some?
    ensures r.Some? ==> r.value.price == PriceOf(FirstPrice(lc, PriceKinds))
  {
    var m := TemplateMatch(lc, t);
    if m.None? then None else AddFromCapture(lc, m.value)
  }

  /** The first add template, in order, that yields an intent. */
  function FirstAdd(lc: string, ts: seq<Template>): (r: Option<Intent>)
    ensures r.Some? <==> exists i :: 0 <= i < |ts| && AddAttempt(lc, ts[i]).Some?
    ensures r.Some? ==> r.value.AddIntent?
  {
    if ts == [] then None
    else if AddAttempt(lc, ts[0]).Some? then AddAttempt(lc, ts[0])
    else
      var r := FirstAdd(lc, ts[1..]);
      assert r.Some? ==> exists i :: 0 <= i < |ts| && AddAttempt(lc, ts[i]).Some? by {
        if r.Some? {
          var i :| 0 <= i < |ts[1..]| && AddAttempt(lc, ts[1..][i]).Some?;
          assert ts[i + 1] == ts[1..][i];
        }
      }
      assert (exists i :: 0 <= i < |ts| && AddAttempt(lc, ts[i]).Some?) ==> r.Some? by {
        if exists i :: 0 <= i < |ts| && AddAttempt(lc, ts[i]).Some? {
          var i :| 0 <= i < |ts| && AddAttempt(lc, ts[i]).Some?;
          assert i > 0 && ts[1..][i - 1] == ts[i];
        }
      }
      r
  }

  /** One remove template: the captured phrase, trimmed, with the list phrases removed as whole
      words, trimmed again. Any match removes; the phrase is never longer than the capture. */
  function RemoveAttempt(lc: string, t: Template): (r: Option<Intent>)
    ensures r.Some? <==> TemplateMatch(lc, t).Some? && TemplateMatch(lc, t).value.One?
    ensures r.Some? ==> r.value.RemoveIntent?
    ensures r.Some? ==> r.value.phrase == Trim(StripWords(Trim(TemplateMatch(lc, t).value.text), ListPhrases))
    ensures r.Some? ==> |r.value.phrase| <= |TemplateMatch(lc, t).value.text|
  {
    match TemplateMatch(lc, t)
    case Some(One(g)) => Some(RemoveIntent(Trim(StripWords(Trim(g), ListPhrases))))
    case _ => None
  }

  /** A capture in which no list phrase stands as a whole word is removed as it is, trimmed. */
  lemma RemovePhraseIsCapture(lc: string, t: Template)
    requires TemplateMatch(lc, t).Some? && TemplateMatch(lc, t).value.One?
    requires var g := Trim(TemplateMatch(lc, t).value.text);
             forall j, k :: 0 <= j < |g| && 0 <= k < |ListPhrases| ==> !WordAt(g, ListPhrases[k], j)
    ensures RemoveAttempt(lc, t) == Some(RemoveIntent(Trim(TemplateMatch(lc, t).value.text)))
  {
    var g := Trim(TemplateMatch(lc, t).value.text);
    StripNothing(g, ListPhrases, 0);
    TrimIdempotent(TemplateMatch(lc, t).value.text);
  }

  /** The first intent the attempts along `ts` give: a loop that returns from its first hit. */
  function FirstGiven<T>(ts: seq<T>, attempt: T -> Option<Intent>): (r: Option<Intent>)
    ensures r.Some? <==> exists i :: 0 <= i < |ts| && attempt(ts[i]).Some?
  {
    if ts == [] then None
    else if attempt(ts[0]).Some? then attempt(ts[0])
    else
      var r := FirstGiven(ts[1..], attempt);
      assert r.Some? ==> exists i :: 0 <= i < |ts| && attempt(ts[i]).Some? by {
        if r.Some? {
          var i :| 0 <= i < |ts[1..]| && attempt(ts[1..][i]).Some?;
          assert ts[i + 1] == ts[1..][i];
        }
      }
      r
  }

  /** What the loop gives is what its earliest hit gives: every attempt before that one gives
      nothing. */
  lemma {:induction false} FirstGivenWinner<T>(ts: seq<T>, attempt: T -> Option<Intent>) returns (i: nat)
    requires FirstGiven(ts, attempt).Some?
    ensures i < |ts| && FirstGiven(ts, attempt) == attempt(ts[i])
    ensures forall j :: 0 <= j < i ==> attempt(ts[j]).None?
  {
    if attempt(ts[0]).Some? {
      i := 0;
    } else {
      var k := FirstGivenWinner(ts[1..], attempt);
      i := k + 1;
      assert ts[i] == ts[1..][k];
      forall j | 0 <= j < i ensures attempt(ts[j]).None? {
        if j > 0 {
          assert ts[j] == ts[1..][j - 1];
        }
      }
    }
  }

  function RemoveAttempts(lc: string): Template -> Option<Intent> {
    t => RemoveAttempt(lc, t)
  }

  /** The remove loop: the first template that matches decides. */
  function FirstRemove(lc: string, ts: seq<Template>): (r: Option<Intent>)
    ensures r.Some? <==> exists i :: 0 <= i < |ts| && RemoveAttempt(lc, ts[i]).Some?
    ensures r.Some? ==> r.value.RemoveIntent?
  {
    var r := FirstGiven(ts, RemoveAttempts(lc));
    assert r.Some? ==> r.value.RemoveIntent? by {
      if r.Some? {
        var i := FirstGivenWinner(ts, RemoveAttempts(lc));
        assert r == RemoveAttempt(lc, ts[i]);
      }
    }
    r
  }

  /** What the remove loop gives is what the earliest matching template gives: every template
      before it misses. */
  lemma FirstRemoveWinner(lc: string, ts: seq<Template>) returns (i: nat)
    requires FirstRemove(lc, ts).Some?
    ensures i < |ts| && FirstRemove(lc, ts) == RemoveAttempt(lc, ts[i])
    ensures forall j :: 0 <= j < i ==> RemoveAttempt(lc, ts[j]).None?
  {
    i := FirstGivenWinner(ts, RemoveAttempts(lc));
    forall j | 0 <= j < i ensures RemoveAttempt(lc, ts[j]).None? {
      assert RemoveAttempts(lc)(ts[j]).None?;
    }
  }

  predicate MentionsClear(lc: string) {
    exists i :: 0 <= i < |ClearPhrases| && Contains(lc, ClearPhrases[i])
  }

  /** A token salvage keeps: longer than two characters and, lowered, not a stop word. */
  predicate Salvageable(w: string, stop: seq<string>) {
    |w| > 2 && Lower(w) !in stop
  }

  /** The tokens salvage keeps, in order. */
  function Salvaged(ws: seq<string>, stop: seq<string>): (r: seq<string>)
    ensures forall i :: 0 <= i < |r| ==> Salvageable(r[i], stop)
    ensures forall w :: w in r <==> w in ws && Salvageable(w, stop)
  {
    var r := Seqs.Filter(ws, w => Salvageable(w, stop));
    assert forall w :: w in r <==> w in ws && Salvageable(w, stop) by {
      forall w {
        Seqs.FilterMembership(ws, w => Salvageable(w, stop), w);
      }
    }
    r
  }

  /** The intent the cascade yields for a transcript. */
  function Interpret(command: string): Intent {
    var lc := Trim(Lower(command));
    match FirstAdd(lc, AddTemplates)
    case Some(a) => a
    case None =>
      match FirstRemove(lc, RemoveTemplates)
      case Some(r) => r
      case None =>
        if MentionsClear(lc) then ClearAllIntent else Salvage(lc)
  }

  /** The last resort: the salvageable tokens of the command, joined, if there are any. */
  function Salvage(lc: string): (r: Intent) {
    var kept := Salvaged(SplitWs(lc), StopWords);
    if kept != [] then SalvageIntent(JoinWords(kept)) else Unrecognised
  }

  // ---------------------------------------------------------------- the cascade, computed

  /** `processCommand`, up to the catalog lookup. */
  method ProcessCommand(command: string) returns (intent: Intent)
    ensures intent == Interpret(command)
  {
    var lowerCommand := Trim(Lower(command));
    var added := AddLoop(lowerCommand);
    if added.Some? {
      return added.value;
    }
    var removed := RemoveLoop(lowerCommand);
    if removed.Some? {
      return removed.value;
    }
    var clear := ClearLoop(lowerCommand);
    if clear {
      return ClearAllIntent;
    }
    var potentialItems := Salvaged(SplitWs(lowerCommand), StopWords);
    if |potentialItems| > 0 {
      return SalvageIntent(JoinWords(potentialItems));
    }
    return Unrecognised;
  }

  /** The add templates tried in order; the first that yields an item phrase returns. */
  method AddLoop(lowerCommand: string) returns (r: Option<Intent>)
    ensures r == FirstAdd(lowerCommand, AddTemplates)
  {
    var i := 0;
    while i < |AddTemplates|
      invariant 0 <= i <= |AddTemplates|
      invariant FirstAdd(lowerCommand, AddTemplates) == FirstAdd(lowerCommand, AddTemplates[i..])
    {
      Seqs.DropOne(AddTemplates, i);
      var attempt := TryAdd(lowerCommand, AddTemplates[i]);
      if attempt.Some? {
        return attempt;
      }
      i := i + 1;
    }
    return None;
  }

  /** The remove templates tried in order; the first that matches returns. */
  method RemoveLoop(lowerCommand: string) returns (r: Option<Intent>)
    ensures r == FirstRemove(lowerCommand, RemoveTemplates)
  {
    var i := 0;
    while i < |RemoveTemplates|
      invariant 0 <= i <= |RemoveTemplates|
      invariant FirstRemove(lowerCommand, RemoveTemplates) == FirstRemove(lowerCommand, RemoveTemplates[i..])
    {
      Seqs.DropOne(RemoveTemplates, i);
      var m := TemplateMatch(lowerCommand, RemoveTemplates[i]);
      if m.Some? && m.value.One? {
        var itemName := Trim(m.value.text);
        itemName := Trim(StripWords(itemName, ListPhrases));
        return Some(RemoveIntent(itemName));
      }
      i := i + 1;
    }
    return None;
  }

  /** The chain of `includes` tests for the clear-all phrases. */
  method ClearLoop(lowerCommand: string) returns (b: bool)
    ensures b == MentionsClear(lowerCommand)
  {
    var i := 0;
    while i < |ClearPhrases|
      invariant 0 <= i <= |ClearPhrases|
      invariant forall j :: 0 <= j < i ==> !Contains(lowerCommand, ClearPhrases[j])
    {
      if Contains(lowerCommand, ClearPhrases[i]) {
        return true;
      }
      i := i + 1;
    }
    return false;
  }

  /** The body of the add loop for one template. */
  method TryAdd(lowerCommand: string, t: Template) returns (r: Option<Intent>)
    ensures r == AddAttempt(lowerCommand, t)
  {
    var m := TemplateMatch(lowerCommand, t);
    if m.None? {
      return None;
    }
    var quantity, itemName := ReadGroups(m.value);
    if itemName == [] {
      return None;
    }
    var extractedPrice;
    extractedPrice, itemName := ExtractPrice(lowerCommand, itemName);
    itemName := Trim(StripWords(itemName, Fillers));
    if itemName == [] {
      return None;
    }
    return Some(AddIntent(itemName, quantity, extractedPrice));
  }

  /** Reads the quantity and the item phrase from the groups, then applies the leading count. */
  method ReadGroups(c: Capture) returns (quantity: nat, itemName: string)
    requires CountIsDigits(c)
    ensures (quantity, itemName) == Recount(Groups(c).0, Groups(c).1)
  {
    quantity := 1;
    itemName := "";
    match c {
      case Two(count, item) =>
        if count.Some? {
          quantity := DigitsValue(count.value);
          itemName := Trim(item);
        }
      case One(g) =>
        if ParseInt(g).None? {
          itemName := Trim(g);
        }
    }
    var quantityMatch := LeadingCount(itemName);
    if quantityMatch.Some? {
      quantity := quantityMatch.value.0;
      itemName := Trim(quantityMatch.value.1);
    }
  }

  /** Tries the price patterns in order against the whole command; the first that matches sets
      the price and has its text removed from the phrase. */
  method ExtractPrice(lowerCommand: string, name: string) returns (extractedPrice: Option<real>, itemName: string)
    ensures extractedPrice == PriceOf(FirstPrice(lowerCommand, PriceKinds))
    ensures itemName == Unpriced(name, FirstPrice(lowerCommand, PriceKinds))
  {
    extractedPrice, itemName := None, name;
    var k := 0;
    while k < |PriceKinds|
      invariant 0 <= k <= |PriceKinds|
      invariant FirstPrice(lowerCommand, PriceKinds) == FirstPrice(lowerCommand, PriceKinds[k..])
      invariant extractedPrice == None && itemName == name
    {
      var priceMatch := PriceScan(lowerCommand, PriceKinds[k], 0);
      if priceMatch.Some? {
        assert PriceKinds[k..][0] == PriceKinds[k];
        extractedPrice := Some(priceMatch.value.amount);
        itemName := Unpriced(itemName, priceMatch);
        return;
      }
      assert PriceKinds[k..][1..] == PriceKinds[k + 1..];
      k := k + 1;
    }
  }

  // ---------------------------------------------------------------- resolution

  /** The catalog lookup that follows an add or salvage intent: the best match is added with its
      own name and category, at the spoken price unless that is absent or zero. */
  function Resolve(intent: Intent, catalog: seq<Catalog.Product>): (a: Action)
    ensures intent.RemoveIntent? ==> a == RemoveByName(intent.phrase)
    ensures intent.ClearAllIntent? ==> a == ClearList
    ensures intent.Unrecognised? ==> a == NotRecognised
  {
    match intent
    case AddIntent(name, quantity, price) =>
      var results := Catalog.SearchProducts(name, catalog);
      if results == [] then NotAvailable(name)
      else
        var best := results[0];
        AddItem(best.name, quantity, best.category,
                if price.Some? && price.value != 0.0 then price.value else best.price)
    case SalvageIntent(phrase) =>
      var results := Catalog.SearchProducts(phrase, catalog);
      if results == [] then NotAvailable(phrase)
      else AddItem(results[0].name, 1, results[0].category, results[0].price)
    case RemoveIntent(phrase) => RemoveByName(phrase)
    case ClearAllIntent => ClearList
    case Unrecognised => NotRecognised
  }

  // ---------------------------------------------------------------- properties

  /** The catch-all on a trimmed letters-only command: the whole command, filler-stripped,
      with quantity 1 and no price. */
  lemma CatchAllAdds(lc: string)
    requires lc != [] && LettersAndSpaces(lc) && Trim(lc) == lc
    requires Trim(StripWords(lc, Fillers)) != []
    ensures AddAttempt(lc, LettersOnly) == Some(AddIntent(Trim(StripWords(lc, Fillers)), 1, None))
  {
    assert TemplateMatch(lc, LettersOnly) == Some(One(lc));
    WholeCommandAdds(lc);
  }

  /** The whole command as the single capture: no count, no price, the fillers stripped. */
  lemma WholeCommandAdds(lc: string)
    requires lc != [] && LettersAndSpaces(lc) && Trim(lc) == lc
    requires Trim(StripWords(lc, Fillers)) != []
    ensures AddFromCapture(lc, One(lc)) == Some(AddIntent(Trim(StripWords(lc, Fillers)), 1, None))
  {
    LettersHaveNoDigit(lc);
    assert Groups(One(lc)) == (1, lc);
    NoLeadingCount(lc);
    NoDigitNoPrice(lc, PriceKinds);
  }

  /** The catch-all swallows letters-only commands: a lowered, trimmed command made of letters
      and white space whose filler-stripped phrase is not empty becomes an add intent, so it
      never reaches the remove templates or the clear-all test. */
  lemma LettersOnlyCommandIsAdd(command: string)
    requires Trim(Lower(command)) != [] && LettersAndSpaces(Trim(Lower(command)))
    requires Trim(StripWords(Trim(Lower(command)), Fillers)) != []
    ensures Interpret(command).AddIntent?
  {
    var lc := Trim(Lower(command));
    TrimIdempotent(Lower(command));
    CatchAllAdds(lc);
    LastTemplateIsCatchAll();
    AddFirst(command);
  }

  lemma LastTemplateIsCatchAll()
    ensures |AddTemplates| == 10 && AddTemplates[9] == LettersOnly
  {
  }

  /** Once an add template yields an intent, that intent is the result. */
  lemma AddFirst(command: string)
    requires exists i :: 0 <= i < |AddTemplates| && AddAttempt(Trim(Lower(command)), AddTemplates[i]).Some?
    ensures Interpret(command) == FirstAdd(Trim(Lower(command)), AddTemplates).value
    ensures Interpret(command).AddIntent?
  {
  }

  /** The contrapositive: a remove or clear-all intent comes only from a command holding a
      character other than a letter or white space, or one made of filler words alone. */
  lemma RemoveNeedsNonLetter(command: string)
    requires Interpret(command).RemoveIntent? || Interpret(command).ClearAllIntent?
    ensures var lc := Trim(Lower(command));
      !LettersAndSpaces(lc) || Trim(StripWords(lc, Fillers)) == []
  {
    var lc := Trim(Lower(command));
    if lc != [] && LettersAndSpaces(lc) && Trim(StripWords(lc, Fillers)) != [] {
      LettersOnlyCommandIsAdd(command);
    }
  }

  /** With no add template applying, the first remove template that matches decides. */
  lemma RemoveSecond(command: string)
    requires FirstAdd(Trim(Lower(command)), AddTemplates) == None
    requires FirstRemove(Trim(Lower(command)), RemoveTemplates).Some?
    ensures Interpret(command) == FirstRemove(Trim(Lower(command)), RemoveTemplates).value
  {
  }

  /** A two-group template whose count is absent, or a single group that `parseInt` reads as a
      number, leaves the item phrase empty: the template is skipped. */
  lemma EmptyPhraseSkips(lc: string, t: Template)
    requires TemplateMatch(lc, t).Some?
    requires var c := TemplateMatch(lc, t).value;
      (c.Two? && c.count.None?) || (c.One? && ParseInt(c.text).Some?)
    ensures AddAttempt(lc, t) == None
  {
  }

  /** Both groups present: the count is the quantity (what `parseInt` reads from it) unless the
      phrase itself starts with a count. */
  lemma CountGroupSetsQuantity(lc: string, t: Template)
    requires TemplateMatch(lc, t).Some? && TemplateMatch(lc, t).value.Two?
    requires TemplateMatch(lc, t).value.count.Some?
    requires LeadingCount(Trim(TemplateMatch(lc, t).value.item)) == None
    requires AddAttempt(lc, t).Some?
    ensures var d := TemplateMatch(lc, t).value.count.value;
      ParseInt(d) == Some(DigitsValue(d)) && AddAttempt(lc, t).value.quantity == DigitsValue(d)
  {
    var c := TemplateMatch(lc, t).value;
    var d := c.count.value;
    ParseIntDigits(d);
    assert Groups(c) == (DigitsValue(d), Trim(c.item));
    assert Recount(DigitsValue(d), Trim(c.item)).0 == DigitsValue(d);
  }

  /** A phrase starting with a count overrides the quantity, whatever the groups said. */
  lemma LeadingCountOverrides(lc: string, t: Template, k: nat, rest: string)
    requires TemplateMatch(lc, t).Some?
    requires LeadingCount(Groups(TemplateMatch(lc, t).value).1) == Some((k, rest))
    requires AddAttempt(lc, t).Some?
    ensures AddAttempt(lc, t).value.quantity == k
  {
  }

  /** Without a count group or a leading count, the quantity is 1. */
  lemma QuantityDefaultsToOne(lc: string, t: Template)
    requires TemplateMatch(lc, t).Some? && TemplateMatch(lc, t).value.One?
    requires LeadingCount(Groups(TemplateMatch(lc, t).value).1) == None
    requires AddAttempt(lc, t).Some?
    ensures AddAttempt(lc, t).value.quantity == 1
  {
  }

  /** An add intent carries the price of the first price pattern that matches the command. */
  lemma AddPriceIsFirstMatch(command: string)
    requires Interpret(command).AddIntent?
    ensures Interpret(command).price == PriceOf(FirstPrice(Trim(Lower(command)), PriceKinds))
    ensures (forall k :: 0 <= k < |Trim(Lower(command))| ==> !IsDigit(Trim(Lower(command))[k]))
            ==> Interpret(command).price == None
  {
    var lc := Trim(Lower(command));
    AddComesFromAddLoop(command);
    FirstAddIsAnAttempt(lc, AddTemplates);
    if forall k :: 0 <= k < |lc| ==> !IsDigit(lc[k]) {
      NoDigitNoPrice(lc, PriceKinds);
    }
  }

  /** Only the add loop makes an add intent. */
  lemma AddComesFromAddLoop(command: string)
    ensures Interpret(command).AddIntent? ==> FirstAdd(Trim(Lower(command)), AddTemplates) == Some(Interpret(command))
  {
    var lc := Trim(Lower(command));
    if FirstAdd(lc, AddTemplates).None? {
      var removed := FirstRemove(lc, RemoveTemplates);
      if removed.Some? {
        assert Interpret(command) == removed.value;
      } else if MentionsClear(lc) {
        assert Interpret(command) == ClearAllIntent;
      } else {
        assert Interpret(command) == Salvage(lc);
      }
    }
  }

  lemma {:induction false} FirstAddIsAnAttempt(lc: string, ts: seq<Template>)
    requires FirstAdd(lc, ts).Some?
    ensures exists i :: 0 <= i < |ts| && FirstAdd(lc, ts) == AddAttempt(lc, ts[i])
  {
    if AddAttempt(lc, ts[0]).None? {
      assert FirstAdd(lc, ts) == FirstAdd(lc, ts[1..]);
      FirstAddIsAnAttempt(lc, ts[1..]);
      var i :| 0 <= i < |ts[1..]| && FirstAdd(lc, ts[1..]) == AddAttempt(lc, ts[1..][i]);
      assert ts[1..][i] == ts[i + 1];
      assert 0 <= i + 1 < |ts| && FirstAdd(lc, ts) == AddAttempt(lc, ts[i + 1]);
    } else {
      assert 0 <= 0 < |ts| && FirstAdd(lc, ts) == AddAttempt(lc, ts[0]);
    }
  }

  /** A salvage or unrecognised intent is what the last resort makes of the command: no
      earlier stage of the cascade produces one. */
  lemma SalvageIsLastResort(command: string)
    requires Interpret(command).SalvageIntent? || Interpret(command) == Unrecognised
    ensures Interpret(command) == Salvage(Trim(Lower(command)))
  {
    var lc := Trim(Lower(command));
    var added := FirstAdd(lc, AddTemplates);
    assert added.None? by {
      if added.Some? {
        assert added.value.AddIntent?;
      }
    }
    var removed := FirstRemove(lc, RemoveTemplates);
    assert removed.None? by {
      if removed.Some? {
        assert removed.value.RemoveIntent?;
      }
    }
  }

  /** A command with no salvageable token, reaching salvage, is not recognised. */
  lemma UnrecognisedHasNoSalvageableToken(command: string)
    requires Interpret(command) == Unrecognised
    ensures forall w :: w in SplitWs(Trim(Lower(command))) ==> !Salvageable(w, StopWords)
  {
    SalvageIsLastResort(command);
    var kept := Salvaged(SplitWs(Trim(Lower(command))), StopWords);
    assert kept == [];
  }

  /** The phrase of a salvage intent joins only tokens longer than two characters outside the
      stop list, and every such token of the command. */
  lemma SalvageKeepsQualifyingTokens(command: string, w: string)
    requires Interpret(command).SalvageIntent?
    ensures Interpret(command).phrase == JoinWords(Salvaged(SplitWs(Trim(Lower(command))), StopWords))
    ensures w in Salvaged(SplitWs(Trim(Lower(command))), StopWords)
        <==> w in SplitWs(Trim(Lower(command))) && |w| > 2 && Lower(w) !in StopWords
  {
    SalvageIsLastResort(command);
  }

  // ---------------------------------------------------------------- resolution properties

  /** The product added for an add intent is the best catalog match for its phrase: a catalog
      row the phrase selects that no other selected row outranks; its own name and category are
      used, with the spoken price unless that is absent or zero. */
  lemma ResolvedAddIsBestMatch(name: string, quantity: nat, price: Option<real>,
                               catalog: seq<Catalog.Product>, other: Catalog.Product)
    requires Resolve(AddIntent(name, quantity, price), catalog).AddItem?
    ensures var a := Resolve(AddIntent(name, quantity, price), catalog);
      var words := Catalog.QueryWords(name);
      exists best :: best in catalog && Catalog.Selected(words, best)
        && a.name == best.name && a.category == best.category && a.quantity == quantity
        && a.price == (if price.Some? && price.value != 0.0 then price.value else best.price)
        && (other in catalog && Catalog.Selected(words, other)
            ==> Catalog.Relevance(words, other) <= Catalog.Relevance(words, best))
  {
    Catalog.FirstResultIsBest(name, catalog, other);
  }

  /** A salvaged phrase that resolves to an add puts a best-ranked selected product on the list:
      its own name, category and catalog price, once. */
  lemma ResolvedSalvageIsBestMatch(phrase: string, catalog: seq<Catalog.Product>, other: Catalog.Product)
    requires Resolve(SalvageIntent(phrase), catalog).AddItem?
    ensures var a := Resolve(SalvageIntent(phrase), catalog);
      var words := Catalog.QueryWords(phrase);
      exists best :: best in catalog && Catalog.Selected(words, best)
        && a == AddItem(best.name, 1, best.category, best.price)
        && (other in catalog && Catalog.Selected(words, other)
            ==> Catalog.Relevance(words, other) <= Catalog.Relevance(words, best))
  {
    Catalog.FirstResultIsBest(phrase, catalog, other);
  }

  /** An add or salvage intent is reported unavailable exactly when no catalog row matches. */
  lemma NotAvailableIffNoMatch(intent: Intent, catalog: seq<Catalog.Product>)
    requires intent.AddIntent? || intent.SalvageIntent?
    ensures var phrase := if intent.AddIntent? then intent.name else intent.phrase;
      Resolve(intent, catalog).NotAvailable?
      <==> (Trim(Lower(phrase)) == [] || forall p :: p in catalog ==> !Catalog.Selected(Catalog.QueryWords(phrase), p))
  {
    var phrase := if intent.AddIntent? then intent.name else intent.phrase;
    Catalog.NothingFoundIff(phrase, catalog);
  }
}
