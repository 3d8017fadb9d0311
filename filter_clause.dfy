/** The filter expression builder (`addFilters`) and a reader for the clause
    it appends, which shows that the clause carries exactly the values given,
    in their order. */
module FilterClause {
  import opened Wrappers
  import opened Strings
  import opened Catalog

  /** `'${value}'`: a value in single quotes, without escaping. */
  function Quote(value: string): string {
    "'" + value + "'"
  }

  /** `values.map((value) => `'${value}'`)`. */
  function QuoteAll(values: seq<string>): (r: seq<string>)
    ensures |r| == |values|
    ensures forall i :: 0 <= i < |values| ==> r[i] == Quote(values[i])
  {
    if values == [] then [] else [Quote(values[0])] + QuoteAll(values[1..])
  }

  /** `parts.join(sep)`. */
  function Join(sep: string, parts: seq<string>): string {
    if |parts| == 0 then ""
    else if |parts| == 1 then parts[0]
    else parts[0] + sep + Join(sep, parts[1..])
  }

  /** `addFilters(link, tableName, filterName, filterValues)`: no values leave
      the link alone, one value appends an `eq` clause, several an `in` list. */
  function AddFilters(link: string, tableName: string, filterName: string, filterValues: seq<string>): (r: string)
    ensures link <= r
    ensures r == link <==> filterValues == []
  {
    if |filterValues| == 1 then
      link + "&filter=" + tableName + "/" + filterName + " eq '" + filterValues[0] + "'"
    else if |filterValues| > 1 then
      link + "&filter=" + tableName + "/" + filterName + " in (" + Join(",", QuoteAll(filterValues)) + ")"
    else
      link
  }

  /** Reads a comma-separated list of single-quoted values, such as `'a','b'`. */
  function ParseQuotedList(s: string): Option<seq<string>>
    decreases |s|
  {
    if |s| < 2 || s[0] != '\'' then None
    else
      var n := IndexOf(s[1..], '\'');
      if n == |s| - 1 then None
      else
        var rest := s[n + 2..];
        if rest == [] then Some([s[1..n + 1]])
        else if rest[0] == ',' then
          match ParseQuotedList(rest[1..])
          case Some(vs) => Some([s[1..n + 1]] + vs)
          case None => None
        else None
  }

  /** Reads the values back from what follows `&filter=<table>/<dimension>`. */
  function DecodeClause(clause: string): Option<seq<string>> {
    if StartsWith(clause, " eq ") then
      match ParseQuotedList(clause[4..])
      case Some(vs) => if |vs| == 1 then Some(vs) else None
      case None => None
    else if StartsWith(clause, " in (") && |clause| > 5 && clause[|clause| - 1] == ')' then
      match ParseQuotedList(clause[5..|clause| - 1])
      case Some(vs) => if |vs| > 1 then Some(vs) else None
      case None => None
    else None
  }

  /** A lone quoted value reads back as that value. */
  lemma ParseLast(v: string)
    requires '\'' !in v
    ensures ParseQuotedList(Quote(v)) == Some([v])
  {
    var s := Quote(v);
    assert s[1..] == v + ['\''] + [];
    IndexOfAfter(v, '\'', []);
    assert s[1..|v| + 1] == v;
  }

  /** A quoted value, a comma and more text read back as that value followed
      by whatever the rest reads back as. */
  lemma ParseNext(v: string, more: string)
    requires '\'' !in v
    ensures ParseQuotedList(Quote(v) + "," + more) ==
            match ParseQuotedList(more)
            case Some(vs) => Some([v] + vs)
            case None => None
  {
    var s := Quote(v) + "," + more;
    assert s[1..] == v + ['\''] + ("," + more);
    IndexOfAfter(v, '\'', "," + more);
    assert s[1..|v| + 1] == v;
    assert s[|v| + 2..] == "," + more;
    assert s[|v| + 2..][1..] == more;
  }

  /** The joined, quoted list reads back as the original values. */
  lemma {:induction false} ParseJoined(values: seq<string>)
    requires values != [] && QuoteFree(values)
    ensures ParseQuotedList(Join(",", QuoteAll(values))) == Some(values)
  {
    var quoted := QuoteAll(values);
    if |values| == 1 {
      assert Join(",", quoted) == Quote(values[0]);
      ParseLast(values[0]);
      assert values == [values[0]];
    } else {
      var tail := values[1..];
      assert quoted[1..] == QuoteAll(tail);
      ParseJoined(tail);
      var more := Join(",", QuoteAll(tail));
      assert Join(",", quoted) == Quote(values[0]) + "," + more;
      ParseNext(values[0], more);
      assert [values[0]] + tail == values;
    }
  }

  /** An `eq` clause reads back as its one value. */
  lemma DecodeEq(v: string)
    requires '\'' !in v
    ensures DecodeClause(" eq " + Quote(v)) == Some([v])
  {
    var clause := " eq " + Quote(v);
    assert clause[..4] == " eq ";
    assert clause[4..] == Quote(v);
    ParseLast(v);
  }

  /** An `in` clause reads back as the values of its list. */
  lemma DecodeIn(list: string, values: seq<string>)
    requires ParseQuotedList(list) == Some(values) && |values| > 1
    ensures DecodeClause(" in (" + list + ")") == Some(values)
  {
    var clause := " in (" + list + ")";
    assert clause[..4] == " in " != " eq ";
    assert clause[..5] == " in (";
    assert clause[5..|clause| - 1] == list;
  }

  /** Round trip: after the link and the `&filter=<table>/<dimension>` head,
      the appended clause reads back as exactly the values passed, in order,
      provided no value contains a single quote (no escaping is done). */
  lemma {:induction false} AddFiltersRoundTrip(link: string, tableName: string, filterName: string, filterValues: seq<string>)
    requires filterValues != [] && QuoteFree(filterValues)
    ensures var head := link + "&filter=" + tableName + "/" + filterName;
            var r := AddFilters(link, tableName, filterName, filterValues);
            head <= r && DecodeClause(r[|head|..]) == Some(filterValues)
  {
    var head := link + "&filter=" + tableName + "/" + filterName;
    var r := AddFilters(link, tableName, filterName, filterValues);
    if |filterValues| == 1 {
      var v := filterValues[0];
      assert r == head + (" eq " + Quote(v));
      assert r[|head|..] == " eq " + Quote(v);
      DecodeEq(v);
      assert [v] == filterValues;
    } else {
      var list := Join(",", QuoteAll(filterValues));
      assert r == head + (" in (" + list + ")");
      assert r[|head|..] == " in (" + list + ")";
      ParseJoined(filterValues);
      DecodeIn(list, filterValues);
    }
  }

  /** Every filter built from the catalog reads back unambiguously. */
  lemma CatalogFiltersRoundTrip(link: string, tableName: string, name: string, dim: string, picked: seq<string>)
    requires name in FilterValues && dim in FilterValues[name]
    requires picked != [] && forall v :: v in picked ==> v in FilterValues[name][dim]
    ensures var head := link + "&filter=" + tableName + "/" + dim;
            var r := AddFilters(link, tableName, dim, picked);
            head <= r && DecodeClause(r[|head|..]) == Some(picked)
  {
    ValuesWellFormed();
    forall i | 0 <= i < |picked| ensures '\'' !in picked[i] {
      assert picked[i] in FilterValues[name][dim];
    }
    AddFiltersRoundTrip(link, tableName, dim, picked);
  }

  /** The single-value form. */
  lemma OneValueExample(link: string)
    ensures AddFilters(link, "PRILFY2023", "Company", ["DEW"]) == link + "&filter=PRILFY2023/Company eq 'DEW'"
  {
  }

  /** The several-values form keeps the order of the values. */
  lemma TwoValuesExample(link: string)
    ensures AddFilters(link, "PRILFY2023", "Company", ["DEW", "PRIL"]) == link + "&filter=PRILFY2023/Company in ('DEW','PRIL')"
  {
    var quoted := QuoteAll(["DEW", "PRIL"]);
    assert Quote("DEW") == "'DEW'";
    assert Quote("PRIL") == "'PRIL'";
    assert quoted == ["'DEW'", "'PRIL'"];
    assert quoted[1..] == ["'PRIL'"];
    assert Join(",", quoted) == "'DEW','PRIL'";
  }
}
