/**
 * A worked search over two catalog rows: the query "iPhone Case" selects both the phone and
 * its case, and the case comes first because it mentions both query words.
 */
module CatalogExamples {
  import opened Text
  import opened Catalog
  import Sorting

  const Phone := Product("iPhone 15", "electronics", "Apple", "128GB", 799.99, true)
  const Case := Product("iPhone Case", "electronics", "Generic", "Clear", 14.99, true)

  lemma LoweredFields()
    ensures Lower(Phone.name) == "iphone 15" && Lower(Case.name) == "iphone case"
    ensures Lower("electronics") == "electronics" && Lower("Apple") == "apple"
  {
  }

  lemma QueryIsTrimmed()
    ensures Trim(Lower("iPhone Case")) == "iphone case"
  {
    LoweredFields();
    TrimNoop("iphone case");
  }

  lemma LastWord()
    ensures SplitWs("case") == ["case"]
  {
    SpanIs("case", 0, 4, NotSpace);
  }

  lemma QueryIsTwoWords()
    ensures SplitWs("iphone case") == ["iphone", "case"]
  {
    FirstWord();
    LastWord();
  }

  lemma FirstWord()
    ensures SplitWs("iphone case") == ["iphone"] + SplitWs("case")
  {
    assert NoSpace("iphone");
    assert "iphone" + " " + "case" == "iphone case";
    SplitWsAtSpace("iphone", "case");
  }

  lemma PhoneMentions()
    ensures Mentions(Phone, "iphone") && !Mentions(Phone, "case")
  {
    LoweredFields();
    ContainsAt("iphone 15", "iphone", 0);
    NoCaseInPhone();
  }

  /** No lowered field of the phone holds the word "case". */
  lemma NoCaseInPhone()
    ensures !Contains("iphone 15", "case") && !Contains("apple", "case") && !Contains("electronics", "case")
  {
    MissingChar("iphone 15", "case", 'c');
    MissingChar("apple", "case", 'c');
    MissingChar("electronics", "case", 'a');
  }

  lemma CaseMentions()
    ensures Mentions(Case, "iphone") && Mentions(Case, "case")
  {
    LoweredFields();
    ContainsAt("iphone case", "iphone", 0);
    ContainsAt("iphone case", "case", 7);
  }

  lemma PhoneRelevance()
    ensures Relevance(["iphone", "case"], Phone) == 1
  {
    PhoneMentions();
    var ws := ["iphone", "case"];
    assert ws[..1] == ["iphone"];
    assert ws[..1][..0] == [];
  }

  lemma CaseRelevance()
    ensures Relevance(["iphone", "case"], Case) == 2
  {
    CaseMentions();
    var ws := ["iphone", "case"];
    assert ws[..1] == ["iphone"];
    assert ws[..1][..0] == [];
  }

  lemma BothMatch()
    ensures Matching([Phone, Case], ["iphone", "case"]) == [Phone, Case]
  {
    var ws := ["iphone", "case"];
    BothSelected();
    var c := [Phone, Case];
    Seqs.FilterAll(c, p => Selected(ws, p));
  }

  /** The word "iphone" selects both rows. */
  lemma BothSelected()
    ensures Selected(["iphone", "case"], Phone) && Selected(["iphone", "case"], Case)
  {
    LoweredFields();
    ContainsAt("iphone 15", "iphone", 0);
    ContainsAt("iphone case", "iphone", 0);
    var ws := ["iphone", "case"];
    assert WordSelects(ws[0], Phone) && WordSelects(ws[0], Case);
  }

  /** The case outranks the phone, although the phone comes first in the catalog. */
  lemma CaseOutranksPhone()
    ensures SearchProducts("iPhone Case", [Phone, Case]) == [Case, Phone]
  {
    var ws := ["iphone", "case"];
    QueryIsTrimmed();
    QueryIsTwoWords();
    BothMatch();
    PhoneRelevance();
    CaseRelevance();
    Sorting.SortSwapsPair(Phone, Case, RankKey(ws));
  }
}
