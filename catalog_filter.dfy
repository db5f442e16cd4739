/**
 * The catalog's sidebar filter. Its state is replaced wholesale by each
 * handler; every handler stores the new state and passes that same value to
 * the catalog's `onFilter` callback, so one returned value models both.
 */
module CatalogFilter {
  import opened Seqs

  datatype FilterState = FilterState(categories: seq<string>, priceRange: (int, int), availability: bool)

  /** The state the component starts in. */
  const InitialFilters := FilterState([], (0, 5000), false)

  /** Whether a category's checkbox is shown checked. */
  predicate IsChecked(f: FilterState, category: string) {
    category in f.categories
  }

  /** `handleCategoryChange`: checking appends the category, unchecking removes every occurrence. */
  function HandleCategoryChange(f: FilterState, category: string, checked: bool): (r: FilterState)
    ensures r.priceRange == f.priceRange && r.availability == f.availability
    ensures checked ==> r.categories == f.categories + [category]
    ensures !checked ==> IsSubseq(r.categories, f.categories)
    ensures !checked ==> forall c :: c in r.categories <==> c in f.categories && c != category
    ensures !checked ==> forall c :: c != category ==> multiset(r.categories)[c] == multiset(f.categories)[c]
    ensures IsChecked(r, category) == checked
  {
    var keep := (c: string) => c != category;
    FilterIsSubseq(f.categories, keep);
    FilterMembershipAll(f.categories, keep);
    forall c | c != category
      ensures multiset(Filter(f.categories, keep))[c] == multiset(f.categories)[c]
    {
      FilterCount(f.categories, keep, c);
    }
    f.(categories := if checked then f.categories + [category] else Filter(f.categories, keep))
  }

  /** `handlePriceChange`: the price band becomes the slider's first two values. */
  function HandlePriceChange(f: FilterState, value: seq<int>): (r: FilterState)
    requires |value| >= 2
    ensures r.priceRange.0 == value[0] && r.priceRange.1 == value[1]
    ensures r.categories == f.categories && r.availability == f.availability
  {
    f.(priceRange := (value[0], value[1]))
  }

  /** `handleAvailabilityChange`. */
  function HandleAvailabilityChange(f: FilterState, checked: bool): (r: FilterState)
    ensures r.availability == checked
    ensures r.categories == f.categories && r.priceRange == f.priceRange
  {
    f.(availability := checked)
  }

  /** `resetFilters`: the default state, which is the state the component starts in. */
  function ResetFilters(): (r: FilterState)
    ensures r == InitialFilters
    ensures r.categories == [] && r.priceRange == (0, 5000) && !r.availability
  {
    FilterState([], (0, 5000), false)
  }

  /** Checking a category that was unchecked and then unchecking it restores the state. */
  lemma CheckThenUncheck(f: FilterState, category: string)
    requires !IsChecked(f, category)
    ensures HandleCategoryChange(HandleCategoryChange(f, category, true), category, false) == f
  {
    var keep := (c: string) => c != category;
    FilterAppend(f.categories, [category], keep);
    FilterKeepsAll(f.categories, keep);
    assert Filter([category], keep) == [];
  }

  /**
   * The checkboxes only check an unchecked category, so the category list
   * never holds a duplicate.
   */
  lemma NoDuplicateCategories(f: FilterState, category: string, checked: bool)
    requires NoDuplicates(f.categories)
    requires checked ==> !IsChecked(f, category)
    ensures NoDuplicates(HandleCategoryChange(f, category, checked).categories)
  {
    if !checked {
      FilterNoDuplicates(f.categories, (c: string) => c != category);
    }
  }
}
