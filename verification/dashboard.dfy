/**
 * The destination list of the dashboard page (frontend/src/pages/Dashboard.tsx):
 * a filter-and-sort pipeline re-run by an effect whenever the fetched list or
 * one of the six filter controls changes, and the "clear filters" action.
 */
module Dashboard {
  import opened Common
  import opened Text
  import opened Seqs
  import opened Types

  datatype SortKey = Name | Price | Country
  datatype SortOrder = Asc | Desc

  /**
   * The six filter controls. An empty price box is `None`; any entered number,
   * zero included, is an active bound.
   */
  datatype Criteria = Criteria(
    search: string,
    country: string,
    minPrice: Option<int>,
    maxPrice: Option<int>,
    sortBy: SortKey,
    sortOrder: SortOrder)

  /** The controls as the page starts and as "clear filters" leaves them. */
  const Cleared: Criteria := Criteria("", "", None, None, Name, Asc)

  // ---------------------------------------------------------------- filters

  /** The free-text search: the term occurs, ignoring case, in the name, the country or the city. */
  predicate SearchHit(d: Destination, term: string) {
    ContainsIgnoreCase(d.name, term) || ContainsIgnoreCase(d.country, term) || ContainsIgnoreCase(d.city, term)
  }

  function SearchFilter(term: string): Destination -> bool {
    (d: Destination) => SearchHit(d, term)
  }

  function CountryFilter(country: string): Destination -> bool {
    (d: Destination) => ContainsIgnoreCase(d.country, country)
  }

  function MinPriceFilter(min: int): Destination -> bool {
    (d: Destination) => d.price >= min
  }

  function MaxPriceFilter(max: int): Destination -> bool {
    (d: Destination) => d.price <= max
  }

  /** The filter steps of the effect, each applied only when its control is non-empty. */
  function ApplyFilters(ds: seq<Destination>, c: Criteria): (r: seq<Destination>)
    ensures |r| <= |ds|
    ensures c.search == "" && c.country == "" && c.minPrice.None? && c.maxPrice.None? ==> r == ds
    ensures c.maxPrice.Some? ==> forall i :: 0 <= i < |r| ==> r[i].price <= c.maxPrice.value
  {
    var bySearch := if c.search != "" then Filter(ds, SearchFilter(c.search)) else ds;
    var byCountry := if c.country != "" then Filter(bySearch, CountryFilter(c.country)) else bySearch;
    var byMin := if c.minPrice.Some? then Filter(byCountry, MinPriceFilter(c.minPrice.value)) else byCountry;
    if c.maxPrice.Some? then Filter(byMin, MaxPriceFilter(c.maxPrice.value)) else byMin
  }

  /**
   * Reference definition of "passes every active control": the controls combine
   * conjunctively, the search is a disjunction over three fields, the price
   * bounds are inclusive and an empty control imposes nothing.
   */
  predicate Matches(d: Destination, c: Criteria) {
    && (c.search == "" || SearchHit(d, c.search))
    && (c.country == "" || ContainsIgnoreCase(d.country, c.country))
    && (c.minPrice.None? || d.price >= c.minPrice.value)
    && (c.maxPrice.None? || d.price <= c.maxPrice.value)
  }

  // ---------------------------------------------------------------- sorting

  /** The comparator's `switch`: locale order on names and countries, numeric difference on prices. */
  function Compare(a: Destination, b: Destination, key: SortKey): (r: int)
    ensures a == b ==> r == 0
    ensures key == Price ==> (r < 0 <==> a.price < b.price) && (r > 0 <==> a.price > b.price)
  {
    match key
    case Name => StrCompare(a.name, b.name)
    case Price => a.price - b.price
    case Country => StrCompare(a.country, b.country)
  }

  /** `sortOrder === 'asc' ? comparison : -comparison`. */
  function Comparator(a: Destination, b: Destination, key: SortKey, order: SortOrder): int {
    if order == Asc then Compare(a, b, key) else -Compare(a, b, key)
  }

  /** `a` may precede `b`: the comparator does not put `a` after `b`. */
  predicate InOrder(a: Destination, b: Destination, key: SortKey, order: SortOrder) {
    Comparator(a, b, key, order) <= 0
  }

  predicate SortedBy(s: seq<Destination>, key: SortKey, order: SortOrder) {
    forall i, j :: 0 <= i < j < |s| ==> InOrder(s[i], s[j], key, order)
  }

  /** Insert `x` before the first element it may precede, so it stays ahead of elements that compare equal. */
  function Insert(x: Destination, s: seq<Destination>, key: SortKey, order: SortOrder): (r: seq<Destination>)
    ensures multiset(r) == multiset(s) + multiset{x}
    decreases |s|
  {
    if |s| == 0 then [x]
    else if InOrder(x, s[0], key, order) then [x] + s
    else
      assert s == [s[0]] + s[1..];
      [s[0]] + Insert(x, s[1..], key, order)
  }

  /**
   * `result.sort(comparator)`. The library sort is stable, so elements the
   * comparator calls equal keep their relative order; a stable insertion sort
   * stands for it here.
   */
  function Sort(s: seq<Destination>, key: SortKey, order: SortOrder): (r: seq<Destination>)
    ensures multiset(r) == multiset(s)
    decreases |s|
  {
    if |s| == 0 then []
    else
      assert s == [s[0]] + s[1..];
      Insert(s[0], Sort(s[1..], key, order), key, order)
  }

  /** The effect body: copy, filter, then sort. */
  function ApplyFiltersAndSort(ds: seq<Destination>, c: Criteria): (r: seq<Destination>)
    ensures |r| <= |ds|
  {
    var filtered := ApplyFilters(ds, c);
    var sorted := Sort(filtered, c.sortBy, c.sortOrder);
    assert |sorted| == |multiset(sorted)| == |multiset(filtered)| == |filtered|;
    sorted
  }

  // ---------------------------------------------------------------- comparator lemmas

  lemma CompareAntisymmetric(a: Destination, b: Destination, key: SortKey)
    ensures Compare(b, a, key) == -Compare(a, b, key)
  {
    match key
    case Name => StrCompareAntisymmetric(a.name, b.name);
    case Price =>
    case Country => StrCompareAntisymmetric(a.country, b.country);
  }

  lemma CompareTransitive(a: Destination, b: Destination, c: Destination, key: SortKey)
    requires Compare(a, b, key) <= 0 && Compare(b, c, key) <= 0
    ensures Compare(a, c, key) <= 0
  {
    match key
    case Name => StrCompareTransitive(a.name, b.name, c.name);
    case Price =>
    case Country => StrCompareTransitive(a.country, b.country, c.country);
  }

  /** Descending order is ascending order with the arguments swapped. */
  lemma DescendingNegates(a: Destination, b: Destination, key: SortKey)
    ensures InOrder(a, b, key, Desc) <==> InOrder(b, a, key, Asc)
  {
    CompareAntisymmetric(a, b, key);
  }

  /** Any two destinations can be placed relative to each other. */
  lemma InOrderTotal(a: Destination, b: Destination, key: SortKey, order: SortOrder)
    ensures InOrder(a, b, key, order) || InOrder(b, a, key, order)
  {
    CompareAntisymmetric(a, b, key);
  }

  lemma InOrderTransitive(a: Destination, b: Destination, c: Destination, key: SortKey, order: SortOrder)
    requires InOrder(a, b, key, order) && InOrder(b, c, key, order)
    ensures InOrder(a, c, key, order)
  {
    if order == Asc {
      CompareTransitive(a, b, c, key);
    } else {
      CompareAntisymmetric(a, b, key);
      CompareAntisymmetric(b, c, key);
      CompareAntisymmetric(a, c, key);
      CompareTransitive(c, b, a, key);
    }
  }

  /** Two destinations the comparator calls equal under `key`. */
  predicate SameKey(a: Destination, b: Destination, key: SortKey) {
    Compare(a, b, key) == 0
  }

  lemma SameKeyTransitive(a: Destination, b: Destination, c: Destination, key: SortKey)
    requires SameKey(a, b, key) && SameKey(b, c, key)
    ensures SameKey(a, c, key)
  {
    match key
    case Name => StrCompareZero(a.name, b.name); StrCompareZero(b.name, c.name); StrCompareZero(a.name, c.name);
    case Price =>
    case Country => StrCompareZero(a.country, b.country); StrCompareZero(b.country, c.country); StrCompareZero(a.country, c.country);
  }

  // ---------------------------------------------------------------- sort lemmas

  lemma {:induction false} InsertSorted(x: Destination, s: seq<Destination>, key: SortKey, order: SortOrder)
    requires SortedBy(s, key, order)
    ensures SortedBy(Insert(x, s, key, order), key, order)
    decreases |s|
  {
    if |s| > 0 {
      if InOrder(x, s[0], key, order) {
        forall j | 0 < j < |s| ensures InOrder(x, s[j], key, order) {
          InOrderTransitive(x, s[0], s[j], key, order);
        }
      } else {
        InOrderTotal(x, s[0], key, order);
        InsertSorted(x, s[1..], key, order);
        var t := Insert(x, s[1..], key, order);
        forall j | 0 <= j < |t| ensures InOrder(s[0], t[j], key, order) {
          assert t[j] in multiset(t);
          assert t[j] == x || t[j] in multiset(s[1..]);
          if t[j] != x {
            var k :| 0 <= k < |s[1..]| && s[1..][k] == t[j];
          }
        }
      }
    }
  }

  /** The sorted list is a permutation of its input. */
  lemma {:induction false} SortPermutation(s: seq<Destination>, key: SortKey, order: SortOrder)
    ensures multiset(Sort(s, key, order)) == multiset(s)
    decreases |s|
  {
    if |s| > 0 {
      SortPermutation(s[1..], key, order);
      assert s == [s[0]] + s[1..];
    }
  }

  /** The sorted list is ordered by the comparator for the chosen key and direction. */
  lemma {:induction false} SortOrdered(s: seq<Destination>, key: SortKey, order: SortOrder)
    ensures SortedBy(Sort(s, key, order), key, order)
    decreases |s|
  {
    if |s| > 0 {
      SortOrdered(s[1..], key, order);
      InsertSorted(s[0], Sort(s[1..], key, order), key, order);
    }
  }

  lemma {:induction false} InsertStable(x: Destination, s: seq<Destination>, key: SortKey, order: SortOrder,
                                        p: Destination, P: Destination -> bool)
    requires forall e :: P(e) <==> SameKey(e, p, key)
    ensures Filter(Insert(x, s, key, order), P) == if P(x) then [x] + Filter(s, P) else Filter(s, P)
    decreases |s|
  {
    if |s| == 0 {
      FilterCons(x, s, P);
    } else if InOrder(x, s[0], key, order) {
      FilterCons(x, s, P);
    } else {
      var t := Insert(x, s[1..], key, order);
      InsertStable(x, s[1..], key, order, p, P);
      FilterCons(s[0], t, P);
      assert s == [s[0]] + s[1..];
      FilterCons(s[0], s[1..], P);
      if P(x) && P(s[0]) {
        // both compare equal to p, hence to each other, and then x would precede s[0]
        CompareAntisymmetric(s[0], p, key);
        SameKeyTransitive(x, p, s[0], key);
        assert false;
      }
    }
  }

  /**
   * Stability: for every class of destinations the comparator calls equal,
   * the sorted list holds that class in its input order.
   */
  lemma {:induction false} SortStable(s: seq<Destination>, key: SortKey, order: SortOrder,
                                      p: Destination, P: Destination -> bool)
    requires forall e :: P(e) <==> SameKey(e, p, key)
    ensures Filter(Sort(s, key, order), P) == Filter(s, P)
    decreases |s|
  {
    if |s| > 0 {
      SortStable(s[1..], key, order, p, P);
      InsertStable(s[0], Sort(s[1..], key, order), key, order, p, P);
    }
  }

  /** Sorting by price is numeric: ascending prices never decrease, descending never increase. */
  lemma SortByPriceIsNumeric(s: seq<Destination>)
    ensures var up := Sort(s, Price, Asc);
            forall i, j :: 0 <= i < j < |up| ==> up[i].price <= up[j].price
    ensures var down := Sort(s, Price, Desc);
            forall i, j :: 0 <= i < j < |down| ==> down[i].price >= down[j].price
  {
    SortOrdered(s, Price, Asc);
    SortOrdered(s, Price, Desc);
  }

  // ---------------------------------------------------------------- pipeline lemmas

  /** Each element occurs in the filtered list exactly as often as in the input if it matches, else never. */
  lemma FiltersMultiplicity(ds: seq<Destination>, c: Criteria, x: Destination)
    ensures multiset(ApplyFilters(ds, c))[x] == if Matches(x, c) then multiset(ds)[x] else 0
  {
    var bySearch := if c.search != "" then Filter(ds, SearchFilter(c.search)) else ds;
    if c.search != "" { FilterMultiplicity(ds, SearchFilter(c.search), x); }
    var byCountry := if c.country != "" then Filter(bySearch, CountryFilter(c.country)) else bySearch;
    if c.country != "" { FilterMultiplicity(bySearch, CountryFilter(c.country), x); }
    var byMin := if c.minPrice.Some? then Filter(byCountry, MinPriceFilter(c.minPrice.value)) else byCountry;
    if c.minPrice.Some? { FilterMultiplicity(byCountry, MinPriceFilter(c.minPrice.value), x); }
    if c.maxPrice.Some? { FilterMultiplicity(byMin, MaxPriceFilter(c.maxPrice.value), x); }
  }

  /**
   * Soundness and completeness of the whole effect: the displayed list holds
   * each matching destination exactly as often as the fetched list does, and
   * nothing else.
   */
  lemma PipelineMultiplicity(ds: seq<Destination>, c: Criteria, x: Destination)
    ensures multiset(ApplyFiltersAndSort(ds, c))[x] == if Matches(x, c) then multiset(ds)[x] else 0
  {
    SortPermutation(ApplyFilters(ds, c), c.sortBy, c.sortOrder);
    FiltersMultiplicity(ds, c, x);
  }

  /** Every displayed destination passes every active control; every fetched one that passes is displayed. */
  lemma PipelineSoundAndComplete(ds: seq<Destination>, c: Criteria, x: Destination)
    ensures x in ApplyFiltersAndSort(ds, c) <==> x in ds && Matches(x, c)
  {
    PipelineMultiplicity(ds, c, x);
  }

  /** The displayed list is ordered by the chosen key in the chosen direction, ties in fetched order. */
  lemma PipelineOrdered(ds: seq<Destination>, c: Criteria, p: Destination, P: Destination -> bool)
    requires forall e :: P(e) <==> SameKey(e, p, c.sortBy)
    ensures SortedBy(ApplyFiltersAndSort(ds, c), c.sortBy, c.sortOrder)
    ensures Filter(ApplyFiltersAndSort(ds, c), P) == Filter(ApplyFilters(ds, c), P)
  {
    SortOrdered(ApplyFilters(ds, c), c.sortBy, c.sortOrder);
    SortStable(ApplyFilters(ds, c), c.sortBy, c.sortOrder, p, P);
  }

  /** Displayed prices lie within the entered bounds, both ends included. */
  lemma PipelinePriceBounds(ds: seq<Destination>, c: Criteria)
    ensures forall x :: x in ApplyFiltersAndSort(ds, c) ==>
              (c.minPrice.Some? ==> c.minPrice.value <= x.price) &&
              (c.maxPrice.Some? ==> x.price <= c.maxPrice.value)
  {
    forall x | x in ApplyFiltersAndSort(ds, c)
      ensures (c.minPrice.Some? ==> c.minPrice.value <= x.price) && (c.maxPrice.Some? ==> x.price <= c.maxPrice.value)
    {
      PipelineSoundAndComplete(ds, c, x);
    }
  }

  /** With no search, country or price control set, the page shows the whole list, merely sorted. */
  lemma NoFiltersOnlySorts(ds: seq<Destination>, c: Criteria)
    requires c.search == "" && c.country == "" && c.minPrice.None? && c.maxPrice.None?
    ensures ApplyFiltersAndSort(ds, c) == Sort(ds, c.sortBy, c.sortOrder)
    ensures multiset(ApplyFiltersAndSort(ds, c)) == multiset(ds)
  {
    SortPermutation(ds, c.sortBy, c.sortOrder);
  }

  // ---------------------------------------------------------------- page state

  /** The dashboard's list state: the fetched list, the six controls and the derived list. */
  class DashboardPage {
    var destinations: seq<Destination>
    var filteredDestinations: seq<Destination>
    var loading: bool
    var error: string
    var criteria: Criteria

    /** The effect has run since the last change of its inputs. */
    ghost predicate Valid()
      reads this
    {
      filteredDestinations == ApplyFiltersAndSort(destinations, criteria)
    }

    constructor ()
      ensures Valid()
      ensures destinations == [] && filteredDestinations == [] && loading && error == ""
      ensures criteria == Cleared
    {
      destinations := [];
      filteredDestinations := [];
      loading := true;
      error := "";
      criteria := Cleared;
    }

    /** `fetchDestinations`: store the fetched list or the error text, stop loading, re-run the effect. */
    method FetchDestinations(response: Result<seq<Destination>, string>)
      requires Valid()
      modifies this
      ensures Valid()
      ensures criteria == old(criteria) && !loading
      ensures response.Success? ==> destinations == response.value && error == old(error)
      ensures response.Failure? ==>
                destinations == old(destinations) &&
                error == ErrorText(response.error, "Failed to load destinations")
    {
      if response.Success? {
        destinations := response.value;
      } else {
        error := ErrorText(response.error, "Failed to load destinations");
      }
      loading := false;
      filteredDestinations := ApplyFiltersAndSort(destinations, criteria);
    }

    /** A change of any filter or sort control; the effect re-derives the list and leaves the fetched list alone. */
    method SetCriteria(c: Criteria)
      requires Valid()
      modifies this
      ensures Valid()
      ensures criteria == c
      ensures destinations == old(destinations) && loading == old(loading) && error == old(error)
    {
      criteria := c;
      filteredDestinations := ApplyFiltersAndSort(destinations, criteria);
    }

    /** `clearFilters`: empty search, country and price boxes, sort by name ascending. */
    method ClearFilters()
      requires Valid()
      modifies this
      ensures Valid()
      ensures criteria == Cleared
      ensures destinations == old(destinations) && loading == old(loading) && error == old(error)
      ensures filteredDestinations == Sort(destinations, Name, Asc)
    {
      criteria := Cleared;
      filteredDestinations := ApplyFiltersAndSort(destinations, criteria);
      NoFiltersOnlySorts(destinations, criteria);
    }
  }
}
