/** Normalisation of the user's dashboard choice and filter choice:
    `input.toLowerCase().replace(/\s+/g, "_").replace(".", "")`. */
module Naming {
  import opened Strings

  /** Drops the whitespace at the front of `s`. */
  function TrimLeadingSpace(s: string): (r: string)
    ensures |r| <= |s| && r == s[|s| - |r|..]
    ensures r == [] || !IsSpace(r[0])
    ensures forall k :: 0 <= k < |s| - |r| ==> IsSpace(s[k])
  {
    if s != [] && IsSpace(s[0]) then
      var r := TrimLeadingSpace(s[1..]);
      assert s[1..][|s| - 1 - |r|..] == s[|s| - |r|..];
      assert forall k :: 1 <= k < |s| - |r| ==> s[k] == s[1..][k - 1];
      r
    else s
  }

  /** `s.replace(/\s+/g, "_")`: every maximal run of whitespace becomes one
      underscore. */
  function CollapseSpace(s: string): (r: string)
    ensures NoSpace(r)
    decreases |s|
  {
    if s == [] then []
    else if IsSpace(s[0]) then "_" + CollapseSpace(TrimLeadingSpace(s[1..]))
    else [s[0]] + CollapseSpace(s[1..])
  }

  lemma NoUpperSuffix(s: string, k: nat)
    requires NoUpper(s) && k <= |s|
    ensures NoUpper(s[k..])
  {
    forall i | 0 <= i < |s| - k ensures !IsUpper(s[k..][i]) {
      assert s[k..][i] == s[k + i];
    }
  }

  lemma NoUpperPrepend(c: char, s: string)
    requires !IsUpper(c) && NoUpper(s)
    ensures NoUpper([c] + s)
  {
    forall i | 0 <= i < |s| + 1 ensures !IsUpper(([c] + s)[i]) {
      if i > 0 {
        assert ([c] + s)[i] == s[i - 1];
      }
    }
  }

  /** Collapsing whitespace introduces no upper-case letter. */
  lemma {:induction false} CollapseKeepsLower(s: string)
    requires NoUpper(s)
    ensures NoUpper(CollapseSpace(s))
    decreases |s|
  {
    if s == [] {
    } else if IsSpace(s[0]) {
      var t := TrimLeadingSpace(s[1..]);
      assert t == s[|s| - |t|..];
      NoUpperSuffix(s, |s| - |t|);
      CollapseKeepsLower(t);
      NoUpperPrepend('_', CollapseSpace(t));
    } else {
      NoUpperSuffix(s, 1);
      CollapseKeepsLower(s[1..]);
      NoUpperPrepend(s[0], CollapseSpace(s[1..]));
    }
  }

  /** A string without whitespace is left unchanged. */
  lemma {:induction false} CollapseNoSpace(s: string)
    requires NoSpace(s)
    ensures CollapseSpace(s) == s
  {
    if s != [] {
      CollapseNoSpace(s[1..]);
    }
  }

  /** `s.replace(c, "")` with a one-character string pattern: only the first
      occurrence of `c` is removed. */
  function RemoveFirst(s: string, c: char): (r: string)
    ensures c !in s ==> r == s
    ensures multiset(r) + (if c in s then multiset{c} else multiset{}) == multiset(s)
    ensures r[..IndexOf(s, c)] == s[..IndexOf(s, c)]
    ensures c in s ==> r[IndexOf(s, c)..] == s[IndexOf(s, c) + 1..]
    ensures forall k :: 0 <= k < |r| ==> r[k] in s
  {
    var i := IndexOf(s, c);
    if i < |s| then
      assert s == s[..i] + [s[i]] + s[i + 1..];
      s[..i] + s[i + 1..]
    else s
  }

  /** The dashboard name stored by the `start` transition. */
  function DashboardName(input: string): (r: string)
    ensures NoSpace(r) && NoUpper(r)
  {
    LowerFacts(input);
    CollapseKeepsLower(Lower(input));
    RemoveFirst(CollapseSpace(Lower(input)), '.')
  }

  /** The filter type stored by each dashboard's transition (no period is
      removed there). */
  function FilterType(input: string): (r: string)
    ensures NoSpace(r) && NoUpper(r)
  {
    LowerFacts(input);
    CollapseKeepsLower(Lower(input));
    CollapseSpace(Lower(input))
  }

  /** A name already in canonical form: no whitespace, no capitals, no period. */
  predicate Canonical(n: string) {
    NoSpace(n) && NoUpper(n) && '.' !in n
  }

  /** Removing whitespace from the front of a run followed by a non-space
      leaves exactly what follows the run. */
  lemma {:induction false} TrimRun(run: string, rest: string)
    requires forall i :: 0 <= i < |run| ==> IsSpace(run[i])
    requires rest == [] || !IsSpace(rest[0])
    ensures TrimLeadingSpace(run + rest) == rest
  {
    if run != [] {
      assert (run + rest)[1..] == run[1..] + rest;
      TrimRun(run[1..], rest);
    } else {
      assert run + rest == rest;
    }
  }

  /** A maximal whitespace run after a word becomes exactly one underscore. */
  lemma {:induction false} CollapseRun(word: string, run: string, rest: string)
    requires NoSpace(word)
    requires run != [] && forall i :: 0 <= i < |run| ==> IsSpace(run[i])
    requires rest == [] || !IsSpace(rest[0])
    ensures CollapseSpace(word + run + rest) == word + "_" + CollapseSpace(rest)
  {
    var s := word + run + rest;
    if word == [] {
      assert s == run + rest;
      assert IsSpace(s[0]);
      assert s[1..] == run[1..] + rest;
      TrimRun(run[1..], rest);
      assert CollapseSpace(s) == "_" + CollapseSpace(rest);
    } else {
      assert s[0] == word[0];
      assert !IsSpace(s[0]);
      assert s[1..] == word[1..] + run + rest;
      CollapseRun(word[1..], run, rest);
      assert CollapseSpace(s) == [word[0]] + CollapseSpace(s[1..]);
      assert [word[0]] + (word[1..] + "_" + CollapseSpace(rest)) == word + "_" + CollapseSpace(rest);
    }
  }

  /** The canonical names are exactly the fixed points of the normalisation. */
  lemma DashboardNameFixedPoint(n: string)
    ensures DashboardName(n) == n <==> Canonical(n)
  {
    if Canonical(n) {
      LowerOfLower(n);
      CollapseNoSpace(n);
      assert DashboardName(n) == RemoveFirst(n, '.');
    }
    if DashboardName(n) == n {
      assert NoSpace(n) && NoUpper(n);
      LowerOfLower(n);
      CollapseNoSpace(n);
      assert RemoveFirst(n, '.') == n;
      if '.' in n {
        assert false;
      }
    }
  }

  /** Normalising twice changes nothing once the result has no period left
      (the second pass would remove a further period). */
  lemma DashboardNameIdempotent(input: string)
    requires '.' !in DashboardName(input)
    ensures DashboardName(DashboardName(input)) == DashboardName(input)
  {
    DashboardNameFixedPoint(DashboardName(input));
  }

  /** Two words with one space between them are joined by an underscore. */
  lemma CollapseTwoWords(first: string, second: string)
    requires NoSpace(first) && NoSpace(second) && second != []
    ensures CollapseSpace(first + " " + second) == first + "_" + second
  {
    CollapseRun(first, " ", second);
    CollapseNoSpace(second);
  }

  /** A single trailing period is the one removed. */
  lemma RemoveTrailing(name: string, c: char)
    requires c !in name
    ensures RemoveFirst(name + [c], c) == name
  {
    IndexOfAfter(name, c, []);
    assert name + [c] == name + [c] + [];
    assert (name + [c])[..|name|] == name;
  }

  lemma SalesRevenueLower(text: string)
    requires text == "Sales Revenue"
    ensures Lower(text) == "sales revenue"
  {
    LowerPointwise(text, "sales revenue");
  }

  lemma SalesRevenueDotLower(text: string)
    requires text == "Sales Revenue."
    ensures Lower(text) == "sales revenue."
  {
    LowerPointwise(text, "sales revenue.");
  }

  lemma SalesRevenueWords()
    ensures NoSpace("sales") && NoSpace("revenue") && NoSpace("revenue.")
    ensures "sales" + " " + "revenue" == "sales revenue"
    ensures "sales" + "_" + "revenue" == "sales_revenue"
    ensures "sales" + " " + "revenue." == "sales revenue."
    ensures "sales" + "_" + "revenue." == "sales_revenue."
    ensures "sales_revenue" + ['.'] == "sales_revenue." && '.' !in "sales_revenue"
  {
  }

  /** "Sales Revenue" and "Sales Revenue." both name the sales dashboard. */
  lemma SalesRevenueExamples(a: string, b: string)
    requires a == "Sales Revenue" && b == "Sales Revenue."
    ensures DashboardName(a) == "sales_revenue" && DashboardName(b) == "sales_revenue"
  {
    SalesRevenueLower(a);
    SalesRevenueDotLower(b);
    SalesRevenueWords();
    CollapseTwoWords("sales", "revenue");
    CollapseTwoWords("sales", "revenue.");
    RemoveTrailing("sales_revenue", '.');
  }

  /** A one-word option is its lower-cased self. */
  lemma OneWordName(text: string, word: string)
    requires Lower(text) == word && NoSpace(word) && '.' !in word
    ensures DashboardName(text) == word
  {
    CollapseNoSpace(word);
  }

  /** A two-word option becomes its lower-cased words joined by `_`. */
  lemma TwoWordName(text: string, first: string, second: string)
    requires Lower(text) == first + " " + second
    requires NoSpace(first) && NoSpace(second) && second != []
    requires '.' !in first + "_" + second
    ensures DashboardName(text) == first + "_" + second
  {
    CollapseTwoWords(first, second);
  }
}
