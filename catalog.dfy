/**
 * The public catalog page: a search box, the sidebar filter and a sort
 * selector over the list of tools.
 */
module Catalog {
  import opened Api
  import opened Text
  import opened Seqs
  import opened CatalogFilter

  /** The query is empty, or the name or the description contains it, ignoring case. */
  predicate MatchesSearch(t: Tool, query: string) {
    query == "" || Matches(t.name, query) || Matches(t.description, query)
  }

  /** No category is selected, or the tool's category is one of those selected. */
  predicate MatchesCategory(t: Tool, categories: seq<string>) {
    |categories| == 0 || t.category in categories
  }

  /** The daily price lies in the inclusive band. */
  predicate MatchesPrice(t: Tool, priceRange: (int, int)) {
    t.pricePerDay >= priceRange.0 && t.pricePerDay <= priceRange.1
  }

  predicate MatchesAvailability(t: Tool, onlyAvailable: bool) {
    !onlyAvailable || t.available
  }

  predicate Keeps(t: Tool, query: string, categories: seq<string>, priceRange: (int, int), onlyAvailable: bool) {
    MatchesSearch(t, query) && MatchesCategory(t, categories) && MatchesPrice(t, priceRange)
    && MatchesAvailability(t, onlyAvailable)
  }

  /** `applyFilters`. */
  function ApplyFilters(tools: seq<Tool>, query: string, categories: seq<string>,
                        priceRange: (int, int), onlyAvailable: bool): seq<Tool>
  {
    Filter(tools, t => Keeps(t, query, categories, priceRange, onlyAvailable))
  }

  /** The result keeps the catalog's order and invents nothing. */
  lemma ApplyFiltersIsSubseq(tools: seq<Tool>, query: string, categories: seq<string>,
                             priceRange: (int, int), onlyAvailable: bool)
    ensures IsSubseq(ApplyFilters(tools, query, categories, priceRange, onlyAvailable), tools)
  {
    FilterIsSubseq(tools, t => Keeps(t, query, categories, priceRange, onlyAvailable));
  }

  /** A tool is kept exactly when it passes all four tests. */
  lemma ApplyFiltersMembers(tools: seq<Tool>, query: string, categories: seq<string>,
                            priceRange: (int, int), onlyAvailable: bool, t: Tool)
    ensures t in ApplyFilters(tools, query, categories, priceRange, onlyAvailable) <==>
      t in tools
      && (query == "" || Matches(t.name, query) || Matches(t.description, query))
      && (|categories| == 0 || t.category in categories)
      && priceRange.0 <= t.pricePerDay <= priceRange.1
      && (!onlyAvailable || t.available)
  {
    FilterMembership(tools, t => Keeps(t, query, categories, priceRange, onlyAvailable), t);
  }

  /** Asking for available tools only narrows the result to a subsequence of the unrestricted one. */
  lemma OnlyAvailableNarrows(tools: seq<Tool>, query: string, categories: seq<string>, priceRange: (int, int))
    ensures IsSubseq(ApplyFilters(tools, query, categories, priceRange, true),
                     ApplyFilters(tools, query, categories, priceRange, false))
  {
    FilterStronger(tools, t => Keeps(t, query, categories, priceRange, true),
                   t => Keeps(t, query, categories, priceRange, false));
  }

  /** The sidebar's default price band, which the search box also applies. */
  const SearchPriceRange := (0, 5000)

  /** `handleSearch`: the query alone, with the sidebar's filters ignored. */
  function HandleSearch(tools: seq<Tool>, query: string): (r: seq<Tool>)
    ensures IsSubseq(r, tools)
    ensures forall t :: t in r <==> t in tools && MatchesSearch(t, query) && 0 <= t.pricePerDay <= 5000
  {
    ApplyFiltersIsSubseq(tools, query, [], SearchPriceRange, false);
    forall t ensures t in ApplyFilters(tools, query, [], SearchPriceRange, false) <==>
                     t in tools && MatchesSearch(t, query) && 0 <= t.pricePerDay <= 5000 {
      ApplyFiltersMembers(tools, query, [], SearchPriceRange, false, t);
    }
    ApplyFilters(tools, query, [], SearchPriceRange, false)
  }

  /** `clearSearch`: the query is emptied and the search is rerun with it. */
  function ClearSearch(tools: seq<Tool>): (r: (string, seq<Tool>))
    ensures r.0 == ""
    ensures r.1 == HandleSearch(tools, "")
    ensures (forall i :: 0 <= i < |tools| ==> 0 <= tools[i].pricePerDay <= 5000) ==> r.1 == tools
  {
    ClearSearchShowsBand(tools);
    ("", ApplyFilters(tools, "", [], SearchPriceRange, false))
  }

  /** With the query cleared, every tool priced inside the default band is shown, in catalog order. */
  lemma ClearSearchShowsBand(tools: seq<Tool>)
    ensures (forall i :: 0 <= i < |tools| ==> 0 <= tools[i].pricePerDay <= 5000) ==>
              ApplyFilters(tools, "", [], SearchPriceRange, false) == tools
  {
    if forall i :: 0 <= i < |tools| ==> 0 <= tools[i].pricePerDay <= 5000 {
      FilterKeepsAll(tools, t => Keeps(t, "", [], SearchPriceRange, false));
    }
  }

  /** `handleFilterChange`: the sidebar's state together with the current query. */
  function HandleFilterChange(tools: seq<Tool>, searchQuery: string, filters: FilterState): seq<Tool> {
    ApplyFilters(tools, searchQuery, filters.categories, filters.priceRange, filters.availability)
  }

  /** After the sidebar's reset the catalog shows exactly what a search would show. */
  lemma ResetMatchesSearch(tools: seq<Tool>, searchQuery: string)
    ensures HandleFilterChange(tools, searchQuery, ResetFilters()) == HandleSearch(tools, searchQuery)
  {
  }

  // ----- sorting -----

  /** Code-point lexicographic order, the model of `localeCompare(...) <= 0`. */
  predicate NameLeq(a: string, b: string) {
    a == [] || (b != [] && (a[0] < b[0] || (a[0] == b[0] && NameLeq(a[1..], b[1..]))))
  }

  lemma {:induction false} NameLeqTotal(a: string, b: string)
    ensures NameLeq(a, b) || NameLeq(b, a)
  {
    if a != [] && b != [] && a[0] == b[0] {
      NameLeqTotal(a[1..], b[1..]);
    }
  }

  lemma {:induction false} NameLeqTransitive(a: string, b: string, c: string)
    requires NameLeq(a, b) && NameLeq(b, c)
    ensures NameLeq(a, c)
  {
    if a != [] && a[0] == b[0] && b[0] == c[0] {
      NameLeqTransitive(a[1..], b[1..], c[1..]);
    }
  }

  /**
   * The order `handleSort`'s comparator puts tools in: a may stand before b
   * when the comparator returns a value <= 0. Any option other than the
   * three named ones sorts by id.
   */
  predicate Precedes(option: string, a: Tool, b: Tool) {
    if option == "price-asc" then a.pricePerDay <= b.pricePerDay
    else if option == "price-desc" then b.pricePerDay <= a.pricePerDay
    else if option == "name" then NameLeq(a.name, b.name)
    else a.id <= b.id
  }

  lemma PrecedesTotal(option: string, a: Tool, b: Tool)
    ensures Precedes(option, a, b) || Precedes(option, b, a)
  {
    NameLeqTotal(a.name, b.name);
  }

  lemma PrecedesTransitive(option: string, a: Tool, b: Tool, c: Tool)
    requires Precedes(option, a, b) && Precedes(option, b, c)
    ensures Precedes(option, a, c)
  {
    if option == "name" {
      NameLeqTransitive(a.name, b.name, c.name);
    }
  }

  predicate SortedBy(option: string, s: seq<Tool>) {
    forall i, j :: 0 <= i < j < |s| ==> Precedes(option, s[i], s[j])
  }

  predicate AdjacentSorted(option: string, s: seq<Tool>) {
    forall k :: 0 < k < |s| ==> Precedes(option, s[k - 1], s[k])
  }

  lemma {:induction false} AdjacentToSorted(option: string, s: seq<Tool>)
    requires AdjacentSorted(option, s)
    ensures SortedBy(option, s)
  {
    if |s| > 1 {
      var t := s[1..];
      assert AdjacentSorted(option, t) by {
        forall k | 0 < k < |t|
          ensures Precedes(option, t[k - 1], t[k])
        {
          assert t[k - 1] == s[k] && t[k] == s[k + 1];
        }
      }
      AdjacentToSorted(option, t);
      forall i, j | 0 <= i < j < |s|
        ensures Precedes(option, s[i], s[j])
      {
        if i == 0 && j > 1 {
          assert s[j] == t[j - 1] && s[1] == t[0];
          PrecedesTransitive(option, s[0], s[1], s[j]);
        } else if i > 0 {
          assert s[i] == t[i - 1] && s[j] == t[j - 1];
        }
      }
    }
  }

  /** The first i + 1 tools are in order, except possibly around position j, the tool being moved left. */
  predicate InsertionStep(option: string, s: seq<Tool>, i: int, j: int)
    requires 0 <= j <= i < |s|
  {
    (forall k :: 0 < k <= i && k != j ==> Precedes(option, s[k - 1], s[k]))
    && (0 < j < i ==> Precedes(option, s[j - 1], s[j + 1]))
  }

  /** Swapping the moved tool with a left neighbour it must precede keeps the step's invariant. */
  lemma SwapLeft(option: string, s: seq<Tool>, i: int, j: int)
    requires 0 < j <= i < |s|
    requires InsertionStep(option, s, i, j) && !Precedes(option, s[j - 1], s[j])
    ensures InsertionStep(option, s[j - 1 := s[j]][j := s[j - 1]], i, j - 1)
  {
    PrecedesTotal(option, s[j - 1], s[j]);
  }

  /** The moved tool has come to rest: the first i + 1 tools are in order. */
  lemma StepDone(option: string, s: seq<Tool>, i: int, j: int)
    requires 0 <= j <= i < |s|
    requires InsertionStep(option, s, i, j) && (j == 0 || Precedes(option, s[j - 1], s[j]))
    ensures forall k :: 0 < k < i + 1 ==> Precedes(option, s[k - 1], s[k])
  {
  }

  /** Swapping two neighbours keeps the same tools. */
  lemma SwapKeepsTools(s: seq<Tool>, j: int)
    requires 0 < j < |s|
    ensures multiset(s[j - 1 := s[j]][j := s[j - 1]]) == multiset(s)
  {
  }

  /** Insertion sort of the copied array, swapping a tool left while it must precede its neighbour. */
  method SortInPlace(a: array<Tool>, option: string)
    modifies a
    ensures AdjacentSorted(option, a[..])
    ensures multiset(a[..]) == multiset(old(a[..]))
  {
    var i := 1;
    while i < a.Length
      invariant a.Length == 0 || 1 <= i <= a.Length
      invariant forall k :: 0 < k < i && k < a.Length ==> Precedes(option, a[k - 1], a[k])
      invariant multiset(a[..]) == multiset(old(a[..]))
    {
      var j := i;
      while j > 0 && !Precedes(option, a[j - 1], a[j])
        invariant 0 <= j <= i < a.Length
        invariant InsertionStep(option, a[..], i, j)
        invariant multiset(a[..]) == multiset(old(a[..]))
      {
        ghost var s := a[..];
        SwapLeft(option, s, i, j);
        SwapKeepsTools(s, j);
        a[j - 1], a[j] := a[j], a[j - 1];
        assert a[..] == s[j - 1 := s[j]][j := s[j - 1]];
        j := j - 1;
      }
      StepDone(option, a[..], i, j);
      i := i + 1;
    }
  }

  /**
   * `handleSort`: a sorted copy of the shown tools. The result is a
   * permutation of its input, ordered by the chosen option.
   */
  method HandleSort(option: string, filteredTools: seq<Tool>) returns (sorted: seq<Tool>)
    ensures multiset(sorted) == multiset(filteredTools) && |sorted| == |filteredTools|
    ensures SortedBy(option, sorted)
    ensures option == "price-asc" ==>
      forall i, j :: 0 <= i < j < |sorted| ==> sorted[i].pricePerDay <= sorted[j].pricePerDay
    ensures option == "price-desc" ==>
      forall i, j :: 0 <= i < j < |sorted| ==> sorted[i].pricePerDay >= sorted[j].pricePerDay
    ensures option != "price-asc" && option != "price-desc" && option != "name" ==>
      forall i, j :: 0 <= i < j < |sorted| ==> sorted[i].id <= sorted[j].id
  {
    var a := new Tool[|filteredTools|](i requires 0 <= i < |filteredTools| => filteredTools[i]);
    assert a[..] == filteredTools;
    SortInPlace(a, option);
    sorted := a[..];
    AdjacentToSorted(option, sorted);
    assert |multiset(sorted)| == |sorted|;
  }
}
