/**
 * The lookup tables read in table order: a name can meet a short key before the longer, more
 * specific one, and the first key a name contains decides.
 */
module SuggestionExamples {
  import opened Wrappers
  import opened Text
  import Suggestions
  import Catalog

  /** "Almond Milk" contains "milk", which comes before "almond milk" in the table, so it is
      offered itself as its own substitute. */
  lemma AlmondMilkStaysAlmondMilk()
    ensures Suggestions.SubstituteFor("Almond Milk") == Some("Almond Milk")
  {
    assert Lower("Almond Milk") == "almond milk";
    ContainsAt("almond milk", "milk", 7);
  }

  lemma NoPastaInTortillaChips()
    ensures !Contains("tortilla chips", "pasta")
  {
    var n := "tortilla chips";
    forall j | 0 <= j && j + 1 < |n| ensures !(n[j] == 'p' && n[j + 1] == 'a') {
      if n[j] == 'p' {
        assert j == 12;
      }
    }
    MissingPair(n, "pasta", 0);
  }

  lemma NoBreadInTortillaChips()
    ensures !Contains("tortilla chips", "bread")
  {
    MissingChar("tortilla chips", "bread", 'b');
  }

  lemma NoCerealInTortillaChips()
    ensures !Contains("tortilla chips", "cereal")
  {
    MissingChar("tortilla chips", "cereal", 'e');
  }

  lemma NoCoffeeInTortillaChips()
    ensures !Contains("tortilla chips", "coffee")
  {
    MissingChar("tortilla chips", "coffee", 'f');
  }

  lemma FirstComplementKeys()
    ensures |Suggestions.Complements| > 4
    ensures Suggestions.Complements[0].0 == "bread" && Suggestions.Complements[1].0 == "pasta"
    ensures Suggestions.Complements[2].0 == "cereal" && Suggestions.Complements[3].0 == "coffee"
    ensures Suggestions.Complements[4] == ("chips", "Salsa")
  {
  }

  /** "tortilla chips" contains the complements table's key "chips". */
  lemma ChipsInTortillaChips()
    ensures Contains("tortilla chips", "chips")
  {
    var n := "tortilla chips";
    assert n[9..14] == "chips";
    ContainsAt(n, "chips", 9);
  }

  lemma TortillaChipsKey(n: string)
    requires n == "tortilla chips"
    ensures Suggestions.FirstKey(n, Suggestions.Complements) == Some(4)
  {
    var table := Suggestions.Complements;
    assert !Contains(n, table[0].0) by { FirstComplementKeys(); NoBreadInTortillaChips(); }
    assert !Contains(n, table[1].0) by { FirstComplementKeys(); NoPastaInTortillaChips(); }
    assert !Contains(n, table[2].0) by { FirstComplementKeys(); NoCerealInTortillaChips(); }
    assert !Contains(n, table[3].0) by { FirstComplementKeys(); NoCoffeeInTortillaChips(); }
    assert Contains(n, table[4].0) by { FirstComplementKeys(); ChipsInTortillaChips(); }
    Suggestions.FirstKeySkips(n, table, 3);
    Suggestions.FirstKeySkips(n, table, 2);
    Suggestions.FirstKeySkips(n, table, 1);
    Suggestions.FirstKeySkips(n, table, 0);
  }

  /** A name that lowers to "tortilla chips" meets "chips" before "tortilla chips", so it
      gets salsa, not guacamole. */
  lemma TortillaChipsGetSalsa(name: string)
    requires Lower(name) == "tortilla chips"
    ensures Suggestions.ComplementFor(name) == Some("Salsa")
  {
    TortillaChipsKey(Lower(name));
    FirstComplementKeys();
  }

  lemma AccessoriesHead()
    ensures |Suggestions.Accessories| > 0
    ensures Suggestions.Accessories[0] == ("iphone", ["iPhone Screen Protector", "iPhone Case", "AirPods", "iPhone Charger"])
  {
  }

  /** With the component's `complementaryMappings`, a cart item whose lowered name contains
      "iphone" is served by the first row: its offers are those for the four iPhone accessories. */
  lemma IPhoneGetsIPhoneAccessories(name: string, current: seq<string>, catalog: seq<Catalog.Product>)
    requires Contains(Lower(name), "iphone")
    ensures Suggestions.ItemOffers(name, Suggestions.Accessories, current, catalog)
         == Suggestions.ComplementOffers(["iPhone Screen Protector", "iPhone Case", "AirPods", "iPhone Charger"],
                                         current, catalog)
  {
    var table := Suggestions.Accessories;
    AccessoriesHead();
    var r := Suggestions.FirstKey(Lower(name), table);
    assert r.Some?;
    assert r.value == 0;
  }
}
