/** The static configuration of the dialog: the report URL of each dashboard,
    the filter dimensions each dashboard offers and the values of each
    dimension, all in declaration order. */
module Catalog {

  /** `powerBILinks`: dashboard name to base report URL. */
  const PowerBILinks: map<string, string> := map[
    "sales_revenue" :=
      "https://app.powerbi.com/groups/me/reports/07353a90-7b2a-44fe-92d3-d6b8565fa43e/ReportSection8da7d6bdc07307d92cd8?experience=power-bi",
    "production" :=
      "https://app.powerbi.com/groups/me/reports/b5d3ec85-a88d-4241-8dca-61c3852e3f66/ReportSection0b965e5f0ff4c1d12917?experience=power-bi",
    "cost_analysis" :=
      "https://app.powerbi.com/groups/me/reports/b5d3ec85-a88d-4241-8dca-61c3852e3f66/ReportSection76e661661e1efa82616c?experience=power-bi",
    "raw_material" :=
      "https://app.powerbi.com/groups/me/reports/b5d3ec85-a88d-4241-8dca-61c3852e3f66/ReportSectionfbdc3e3fdaae956b9024?experience=power-bi"
  ]

  /** `filterKeywords`: dashboard name to its filter dimensions.
      Only two of the four dashboards have an entry. */
  const FilterKeywords: map<string, seq<string>> := map[
    "raw_material" := ["Plant"],
    "sales_revenue" := ["Company", "Segment", "Sales Group", "Year"]
  ]

  const Plants: seq<string> :=
    ["Anara", "BBSR", "Bhurwal", "BLSPR CP", "BLSPR LL", "Gaya", "Hubli",
     "Mirza", "Pathri", "Sholaka", "TMQ", "Udvada", "Wadiyaram"]
  const Companies: seq<string> := ["DEW", "ICON", "PRIL"]
  const Segments: seq<string> := ["Select all", "Other Sales", "Sleeper"]
  const SalesGroups: seq<string> :=
    ["Asset Sales", "Scrap Sales", "Sleeper Sales", "Sleeper Transportation Income", "Traded Goods Sales"]
  const Years: seq<string> := ["2022", "2023"]

  /** `filterValues`: dashboard name to dimension to allowed values. */
  const FilterValues: map<string, map<string, seq<string>>> := map[
    "raw_material" := map["Plant" := Plants],
    "sales_revenue" := map[
      "Company" := Companies,
      "Segment" := Segments,
      "Sales Group" := SalesGroups,
      "Year" := Years
    ]
  ]

  predicate NoDuplicates(s: seq<string>) {
    forall i, j :: 0 <= i < j < |s| ==> s[i] != s[j]
  }

  /** No string of the list contains a single quote. */
  predicate QuoteFree(s: seq<string>) {
    forall i :: 0 <= i < |s| ==> '\'' !in s[i]
  }

  /** Every dashboard with dimensions also has values for each of them, and
      the dimension lists carry no duplicates. */
  lemma KeywordsHaveValues()
    ensures forall n :: n in FilterKeywords ==> n in FilterValues
    ensures forall n, k :: n in FilterKeywords && k in FilterKeywords[n] ==> k in FilterValues[n]
    ensures forall n :: n in FilterKeywords ==> NoDuplicates(FilterKeywords[n])
  {
    assert FilterKeywords.Keys == {"raw_material", "sales_revenue"};
  }

  /** The value lists carry no duplicates and no single quotes, so every
      filter clause built from them can be read back unambiguously. */
  lemma ValuesWellFormed()
    ensures forall n, k :: n in FilterValues && k in FilterValues[n] ==>
              NoDuplicates(FilterValues[n][k]) && QuoteFree(FilterValues[n][k])
  {
    PlantsWellFormed();
    SalesValuesWellFormed();
    assert FilterValues.Keys == {"raw_material", "sales_revenue"};
    assert FilterValues["raw_material"].Keys == {"Plant"};
    assert FilterValues["sales_revenue"].Keys == {"Company", "Segment", "Sales Group", "Year"};
  }

  lemma PlantsWellFormed()
    ensures NoDuplicates(Plants) && QuoteFree(Plants)
  {
  }

  lemma SalesValuesWellFormed()
    ensures NoDuplicates(Companies) && QuoteFree(Companies)
    ensures NoDuplicates(Segments) && QuoteFree(Segments)
    ensures NoDuplicates(SalesGroups) && QuoteFree(SalesGroups)
    ensures NoDuplicates(Years) && QuoteFree(Years)
  {
  }
}
