/** Worked examples of the phrase matcher on the sales catalog. Each string
    fact is proved in a lemma of its own so that the solver never has to
    evaluate several literal strings at once. */
module MatcherExamples {
  import opened Strings
  import opened Catalog
  import opened Matcher

  /** Whether an entry is mentioned, once both sides are known lower-cased. */
  lemma MentionsVia(text: string, entry: string, lowText: string, lowEntry: string)
    requires Lower(text) == lowText && Lower(entry) == lowEntry
    ensures Mentions(text, entry) <==> Contains(lowText, lowEntry)
  {
  }

  /** Matching a three-entry list keeps exactly the mentioned entries. */
  lemma MatchingOfThree(text: string, a: string, b: string, c: string)
    ensures Matching([a, b, c], text) ==
            (if Mentions(text, a) then [a] else []) +
            (if Mentions(text, b) then [b] else []) +
            (if Mentions(text, c) then [c] else [])
  {
    var ka := if Mentions(text, a) then [a] else [];
    var kb := if Mentions(text, b) then [b] else [];
    var kc := if Mentions(text, c) then [c] else [];
    assert [c][1..] == [];
    assert Matching([c], text) == kc;
    assert [b, c][1..] == [c];
    assert Matching([b, c], text) == kb + kc;
    assert [a, b, c][1..] == [b, c];
    assert Matching([a, b, c], text) == ka + (kb + kc);
    assert ka + (kb + kc) == ka + kb + kc;
  }

  /** Matching a four-entry list keeps exactly the mentioned entries. */
  lemma MatchingOfFour(text: string, a: string, b: string, c: string, d: string)
    ensures Matching([a, b, c, d], text) ==
            (if Mentions(text, a) then [a] else []) + Matching([b, c, d], text)
  {
    assert [a, b, c, d][1..] == [b, c, d];
  }

  /** The example sentence "show me segment and company data", written as
      its pieces so that no long literal has to be taken apart. */
  predicate IsSentence(text: string) {
    text == "show me " + "segment" + " and " + "company" + " data"
  }

  lemma SentenceIsLower(text: string)
    requires IsSentence(text)
    ensures Lower(text) == text
  {
    var a, b, c, d, e := "show me ", "segment", " and ", "company", " data";
    LowerPointwise(a, a);
    LowerPointwise(b, b);
    LowerPointwise(c, c);
    LowerPointwise(d, d);
    LowerPointwise(e, e);
    LowerAppend(a, b);
    LowerAppend(a + b, c);
    LowerAppend(a + b + c, d);
    LowerAppend(a + b + c + d, e);
  }

  lemma CompanyLower() ensures Lower("Company") == "company" { LowerPointwise("Company", "company"); }
  lemma SegmentLower() ensures Lower("Segment") == "segment" { LowerPointwise("Segment", "segment"); }
  lemma SalesGroupLower() ensures Lower("Sales Group") == "sales group" { LowerPointwise("Sales Group", "sales group"); }
  lemma YearLower() ensures Lower("Year") == "year" { LowerPointwise("Year", "year"); }

  /** In a sentence of five pieces the second and the fourth occur. */
  lemma PiecesOccur(a: string, b: string, c: string, d: string, e: string)
    ensures Contains(a + b + c + d + e, b) && Contains(a + b + c + d + e, d)
  {
    assert a + b + c + d + e == a + b + (c + d + e);
    ContainsMiddle(a, b, c + d + e);
    ContainsMiddle(a + b + c, d, e);
  }

  /** The sentence mentions neither "sales group" nor "year": it has no `r`. */
  lemma SentenceOmits(text: string)
    requires IsSentence(text)
    ensures !Contains(text, "sales group") && !Contains(text, "year")
  {
    assert 'r' !in text;
    LacksChar(text, "sales group", 'r');
    LacksChar(text, "year", 'r');
  }

  /** Catalog order, not input order: "segment" comes first in the sentence,
      yet the result lists Company before Segment, as the catalog does. */
  lemma SalesDimensionsExample(text: string)
    requires IsSentence(text)
    ensures Matching(FilterKeywords["sales_revenue"], text) == ["Company", "Segment"]
  {
    SentenceIsLower(text);
    CompanyLower();
    SegmentLower();
    SalesGroupLower();
    YearLower();
    PiecesOccur("show me ", "segment", " and ", "company", " data");
    SentenceOmits(text);
    MentionsVia(text, "Company", text, "company");
    MentionsVia(text, "Segment", text, "segment");
    MentionsVia(text, "Sales Group", text, "sales group");
    MentionsVia(text, "Year", text, "year");
    MatchingOfFour(text, "Company", "Segment", "Sales Group", "Year");
    MatchingOfThree(text, "Segment", "Sales Group", "Year");
  }

  lemma RequestLower()
    ensures Lower("show DEW and PRIL") == "show dew and pril"
  {
    LowerPointwise("show DEW and PRIL", "show dew and pril");
  }

  lemma DewLower() ensures Lower("DEW") == "dew" { LowerPointwise("DEW", "dew"); }
  lemma IconLower() ensures Lower("ICON") == "icon" { LowerPointwise("ICON", "icon"); }
  lemma PrilLower() ensures Lower("PRIL") == "pril" { LowerPointwise("PRIL", "pril"); }

  /** The lower-cased request mentions "dew" and "pril" but not "icon"
      (it has no `c`). */
  lemma RequestMentions(low: string)
    requires low == "show dew and pril"
    ensures Contains(low, "dew") && Contains(low, "pril") && !Contains(low, "icon")
  {
    assert low == "show " + "dew" + " and pril";
    ContainsMiddle("show ", "dew", " and pril");
    assert low == "show dew and " + "pril" + "";
    ContainsMiddle("show dew and ", "pril", "");
    LacksChar(low, "icon", 'c');
  }

  lemma CompanyValues()
    ensures FilterValues["sales_revenue"]["Company"] == ["DEW", "ICON", "PRIL"]
  {
  }

  /** Two companies named in one input are both kept, whatever their case. */
  lemma CompaniesExample(text: string)
    requires text == "show DEW and PRIL"
    ensures Matching(FilterValues["sales_revenue"]["Company"], text) == ["DEW", "PRIL"]
  {
    RequestLower();
    DewLower();
    IconLower();
    PrilLower();
    RequestMentions("show dew and pril");
    MentionsVia(text, "DEW", "show dew and pril", "dew");
    MentionsVia(text, "ICON", "show dew and pril", "icon");
    MentionsVia(text, "PRIL", "show dew and pril", "pril");
    MatchingOfThree(text, "DEW", "ICON", "PRIL");
    CompanyValues();
  }
}
