/** The phrase matcher (`getFilters`, `getFilterValues`): keep every catalog
    entry whose lower-cased text occurs in the lower-cased user input, in
    catalog order. */
module Matcher {
  import opened Wrappers
  import opened Strings
  import opened Catalog

  /** Whether one catalog entry is mentioned by the input. */
  predicate Mentions(text: string, entry: string) {
    Contains(Lower(text), Lower(entry))
  }

  /** The entries mentioned by `text`, in the order the catalog lists them. */
  function Matching(entries: seq<string>, text: string): (r: seq<string>)
    ensures |r| <= |entries|
  {
    if entries == [] then []
    else (if Mentions(text, entries[0]) then [entries[0]] else []) + Matching(entries[1..], text)
  }

  /** `a` is `b` with some entries left out, the rest in their order. */
  predicate IsSubsequence(a: seq<string>, b: seq<string>)
    decreases |b|
  {
    if a == [] then true
    else if b == [] then false
    else if a[0] == b[0] then IsSubsequence(a[1..], b[1..])
    else IsSubsequence(a, b[1..])
  }

  /** Exactly the mentioned entries are kept. */
  lemma {:induction false} MatchingMembers(entries: seq<string>, text: string, x: string)
    ensures x in Matching(entries, text) <==> x in entries && Mentions(text, x)
  {
    if entries != [] {
      MatchingMembers(entries[1..], text, x);
      assert entries == [entries[0]] + entries[1..];
    }
  }

  /** The result keeps catalog order: it is a subsequence of the catalog list. */
  lemma {:induction false} MatchingInCatalogOrder(entries: seq<string>, text: string)
    ensures IsSubsequence(Matching(entries, text), entries)
  {
    if entries != [] {
      var rest := Matching(entries[1..], text);
      MatchingInCatalogOrder(entries[1..], text);
      if Mentions(text, entries[0]) {
        assert Matching(entries, text) == [entries[0]] + rest;
      } else {
        assert Matching(entries, text) == rest;
        if rest != [] {
          MatchingMembers(entries[1..], text, rest[0]);
        }
      }
    }
  }

  /** A catalog list without duplicates gives a result without duplicates. */
  lemma {:induction false} MatchingNoDuplicates(entries: seq<string>, text: string)
    requires NoDuplicates(entries)
    ensures NoDuplicates(Matching(entries, text))
  {
    if entries != [] {
      var rest := Matching(entries[1..], text);
      MatchingNoDuplicates(entries[1..], text);
      if Mentions(text, entries[0]) {
        MatchingMembers(entries[1..], text, entries[0]);
        var r := [entries[0]] + rest;
        forall i, j | 0 <= i < j < |r| ensures r[i] != r[j] {
          if i == 0 {
            assert r[j] == rest[j - 1];
          } else {
            assert r[i] == rest[i - 1] && r[j] == rest[j - 1];
          }
        }
      }
    }
  }

  /** The result depends on the input only through its lower-cased form. */
  lemma {:induction false} MatchingIgnoresCase(entries: seq<string>, text1: string, text2: string)
    requires Lower(text1) == Lower(text2)
    ensures Matching(entries, text1) == Matching(entries, text2)
  {
    if entries != [] {
      MatchingIgnoresCase(entries[1..], text1, text2);
    }
  }

  /** Matching a list extended at the end extends the result at the end:
      the step the accumulating loop takes. */
  lemma {:induction false} MatchingSnoc(entries: seq<string>, x: string, text: string)
    ensures Matching(entries + [x], text) ==
            Matching(entries, text) + (if Mentions(text, x) then [x] else [])
  {
    if entries == [] {
      assert [x][1..] == [];
    } else {
      assert (entries + [x])[1..] == entries[1..] + [x];
      MatchingSnoc(entries[1..], x, text);
      assert Matching(entries + [x], text) ==
             (if Mentions(text, entries[0]) then [entries[0]] else []) + Matching(entries[1..] + [x], text);
    }
  }

  /** The loop shared by `getFilters` and `getFilterValues`: lower-case every
      entry, then push each entry whose lower-cased form the lower-cased
      input includes. */
  method CollectMatches(entries: seq<string>, filterText: string) returns (found: seq<string>)
    ensures found == Matching(entries, filterText)
  {
    var available := seq(|entries|, i requires 0 <= i < |entries| => Lower(entries[i]));
    found := [];
    for i := 0 to |available|
      invariant found == Matching(entries[..i], filterText)
    {
      if Contains(Lower(filterText), available[i]) {
        found := found + [entries[i]];
      }
      MatchingSnoc(entries[..i], entries[i], filterText);
      assert entries[..i + 1] == entries[..i] + [entries[i]];
    }
    assert entries[..|entries|] == entries;
  }

  /** `getFilters(name, filterText)`: the dimensions of `name` mentioned by the
      input; reading `.map` of a missing catalog entry throws. */
  method GetFilters(name: string, filterText: string) returns (r: Outcome<seq<string>>)
    ensures r.TypeError? <==> name !in FilterKeywords
    ensures r.Ok? ==> r.value == Matching(FilterKeywords[name], filterText)
  {
    if name !in FilterKeywords {
      return TypeError;
    }
    var found := CollectMatches(FilterKeywords[name], filterText);
    return Ok(found);
  }

  /** `getFilterValues(name, filterName, filterText)`: the values of dimension
      `filterName` mentioned by the input. `filterName` is `undefined` (None)
      when no dimension matched; indexing a missing dashboard or reading
      `.map` of a missing dimension throws. */
  method GetFilterValues(name: string, filterName: Option<string>, filterText: string)
    returns (r: Outcome<seq<string>>)
    ensures r.TypeError? <==>
            name !in FilterValues || filterName.None? || filterName.value !in FilterValues[name]
    ensures r.Ok? ==> r.value == Matching(FilterValues[name][filterName.value], filterText)
  {
    if name !in FilterValues || filterName.None? || filterName.value !in FilterValues[name] {
      return TypeError;
    }
    var found := CollectMatches(FilterValues[name][filterName.value], filterText);
    return Ok(found);
  }
}
