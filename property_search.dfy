/** The property listing page (`src/app/properties/page.tsx`): the filter state it starts with,
    the six filter predicates, the comparator table, and the filter-then-stable-sort pipeline. */
module PropertySearch {
  import opened Options
  import opened Text
  import opened Seqs
  import opened Listings
  import opened StableSort
  import opened JsNumber

  /** A budget bound as the filter panel leaves it: an integer, or NaN when `parseInt`
      found no digits. Every comparison with NaN is false. */
  datatype Bound = Value(n: int) | NotANumber

  datatype Budget = Budget(min: Bound, max: Bound)

  /** The page's filter record. */
  datatype Filters = Filters(
    distance: real,
    roomType: string,
    budget: Budget,
    facilities: seq<string>,
    messAvailable: bool)

  /** The filters the page starts with. */
  function InitialFilters(): (f: Filters)
    ensures f.roomType == "any" && f.facilities == [] && !f.messAvailable
    ensures f.distance == 5.0 && f.budget == Budget(Value(0), Value(50000))
  {
    Filters(5.0, "any", Budget(Value(0), Value(50000)), [], false)
  }

  /** Case-insensitive search over name, college name and address. */
  predicate MatchesSearch(query: string, p: Property)
  {
    var q := Lower(query);
    Includes(Lower(p.name), q) || Includes(Lower(p.collegeName), q) || Includes(Lower(p.address), q)
  }

  predicate MatchesDistance(f: Filters, p: Property)
  {
    p.distanceFromCollege <= f.distance
  }

  /** `'any'` is a wildcard; any other value must equal the property's type. */
  predicate MatchesRoomType(f: Filters, p: Property)
  {
    f.roomType == "any" || RoomTypeName(p.roomType) == f.roomType
  }

  predicate AtLeast(x: int, b: Bound) { b.Value? && x >= b.n }

  predicate AtMost(x: int, b: Bound) { b.Value? && x <= b.n }

  /** `rent >= budget.min && rent <= budget.max`. */
  predicate MatchesBudget(f: Filters, p: Property)
  {
    AtLeast(p.rent, f.budget.min) && AtMost(p.rent, f.budget.max)
  }

  /** `required.every(x => have.includes(x))`, scanning the required list in order. */
  function EveryIncluded(required: seq<string>, have: seq<string>): bool
  {
    required == [] || (required[0] in have && EveryIncluded(required[1..], have))
  }

  /** The facility filter is conjunctive: every selected facility must be offered. */
  lemma {:induction false} EveryIncludedIff(required: seq<string>, have: seq<string>)
    ensures EveryIncluded(required, have) <==> forall x :: x in required ==> x in have
  {
    if required != [] {
      EveryIncludedIff(required[1..], have);
      assert required == [required[0]] + required[1..];
    }
  }

  predicate MatchesFacilities(f: Filters, p: Property)
  {
    EveryIncluded(f.facilities, p.facilities)
  }

  /** `!messAvailable || property.messDetails?.available === true`. */
  predicate MatchesMess(f: Filters, p: Property)
  {
    !f.messAvailable || (p.messDetails.Some? && p.messDetails.value.available)
  }

  predicate Matches(query: string, f: Filters, p: Property)
  {
    MatchesSearch(query, p) && MatchesDistance(f, p) && MatchesRoomType(f, p)
    && MatchesBudget(f, p) && MatchesFacilities(f, p) && MatchesMess(f, p)
  }

  /** The filtered list: the properties that pass every predicate, each as often as in
      `ps`, and nothing else. */
  function FilterProperties(ps: seq<Property>, query: string, f: Filters): (r: seq<Property>)
    ensures forall p :: p in r <==>
      p in ps && MatchesSearch(query, p) && MatchesDistance(f, p) && MatchesRoomType(f, p)
      && MatchesBudget(f, p) && MatchesFacilities(f, p) && MatchesMess(f, p)
    ensures forall p :: multiset(r)[p] == if Matches(query, f, p) then multiset(ps)[p] else 0
  {
    FilterMultiset(p => Matches(query, f, p), ps);
    Filter(p => Matches(query, f, p), ps)
  }

  /** The key the comparator for `sortBy` compares; descending orders negate it. */
  function PropertyKey(sortBy: string, p: Property): Key
  {
    if sortBy == "rent-asc" then Finite(p.rent as real)
    else if sortBy == "rent-desc" then Finite(-(p.rent as real))
    else if sortBy == "rating-desc" then Finite(-p.averageRating.GetOr(0.0))
    else if sortBy == "distance-asc" then Finite(p.distanceFromCollege)
    else Finite(-(p.reviewCount.GetOr(0) as real))
  }

  function SortKey(sortBy: string): Property -> Key
  {
    p => PropertyKey(sortBy, p)
  }

  /** The comparator of the sort, case by case as the page's `switch` writes it. */
  function Compare(sortBy: string, a: Property, b: Property): Num
  {
    if sortBy == "rent-asc" then Sub(Fin(a.rent as real), Fin(b.rent as real))
    else if sortBy == "rent-desc" then Sub(Fin(b.rent as real), Fin(a.rent as real))
    else if sortBy == "rating-desc" then Sub(OrReal(b.averageRating, Fin(0.0)), OrReal(a.averageRating, Fin(0.0)))
    else if sortBy == "distance-asc" then Sub(Fin(a.distanceFromCollege), Fin(b.distanceFromCollege))
    else Sub(OrInt(b.reviewCount, Fin(0.0)), OrInt(a.reviewCount, Fin(0.0)))
  }

  /** The comparator orders every pair exactly as the sort key does, so sorting by the
      comparator is sorting by the key. */
  lemma CompareMatchesKey(sortBy: string, a: Property, b: Property)
    ensures SortOrder(Compare(sortBy, a, b)) == KeyOrder(PropertyKey(sortBy, a), PropertyKey(sortBy, b))
  {
    if sortBy == "rent-asc" {
      AscendingDifference(a.rent as real, b.rent as real);
    } else if sortBy == "rent-desc" {
      DescendingDifference(a.rent as real, b.rent as real);
    } else if sortBy == "rating-desc" {
      assert OrReal(a.averageRating, Fin(0.0)) == Fin(a.averageRating.GetOr(0.0));
      assert OrReal(b.averageRating, Fin(0.0)) == Fin(b.averageRating.GetOr(0.0));
      DescendingDifference(a.averageRating.GetOr(0.0), b.averageRating.GetOr(0.0));
    } else if sortBy == "distance-asc" {
      AscendingDifference(a.distanceFromCollege, b.distanceFromCollege);
    } else {
      assert OrInt(a.reviewCount, Fin(0.0)) == Fin(a.reviewCount.GetOr(0) as real);
      assert OrInt(b.reviewCount, Fin(0.0)) == Fin(b.reviewCount.GetOr(0) as real);
      DescendingDifference(a.reviewCount.GetOr(0) as real, b.reviewCount.GetOr(0) as real);
    }
  }

  /** `filteredAndSortedProperties`: the filtered list, stably sorted by the chosen key. */
  function SearchProperties(ps: seq<Property>, query: string, f: Filters, sortBy: string): (r: seq<Property>)
    ensures multiset(r) == multiset(FilterProperties(ps, query, f))
    ensures Sorted(r, SortKey(sortBy))
  {
    Sort(FilterProperties(ps, query, f), SortKey(sortBy))
  }

  /** A property is shown iff it is in the collection and passes all six predicates. */
  lemma SearchPropertiesMembers(ps: seq<Property>, query: string, f: Filters, sortBy: string, p: Property)
    ensures p in SearchProperties(ps, query, f, sortBy) <==> p in ps && Matches(query, f, p)
  {
    var r := SearchProperties(ps, query, f, sortBy);
    assert p in r <==> p in multiset(r);
  }

  /** Ties keep their order in the collection. */
  lemma SearchPropertiesStable(ps: seq<Property>, query: string, f: Filters, sortBy: string, k: Key)
    ensures KeyClass(SearchProperties(ps, query, f, sortBy), SortKey(sortBy), k)
         == KeyClass(FilterProperties(ps, query, f), SortKey(sortBy), k)
  {
    SortStable(FilterProperties(ps, query, f), SortKey(sortBy), k);
  }

  /** Ordered and tie-stable characterises the page's result completely. */
  lemma SearchPropertiesCharacterized(ps: seq<Property>, query: string, f: Filters, sortBy: string, r: seq<Property>)
    ensures r == SearchProperties(ps, query, f, sortBy) ==>
      Sorted(r, SortKey(sortBy)) &&
      forall k :: KeyClass(r, SortKey(sortBy), k) == KeyClass(FilterProperties(ps, query, f), SortKey(sortBy), k)
    ensures Sorted(r, SortKey(sortBy)) &&
      (forall k :: KeyClass(r, SortKey(sortBy), k) == KeyClass(FilterProperties(ps, query, f), SortKey(sortBy), k))
      ==> r == SearchProperties(ps, query, f, sortBy)
  {
    SortCharacterized(FilterProperties(ps, query, f), r, SortKey(sortBy));
  }

  /** The order of the result in the page's own terms, for each sort key. */
  lemma SearchPropertiesOrder(ps: seq<Property>, query: string, f: Filters, sortBy: string, i: int, j: int)
    requires 0 <= i < j < |SearchProperties(ps, query, f, sortBy)|
    ensures var r := SearchProperties(ps, query, f, sortBy);
      && (sortBy == "rent-asc" ==> r[i].rent <= r[j].rent)
      && (sortBy == "rent-desc" ==> r[i].rent >= r[j].rent)
      && (sortBy == "rating-desc" ==> r[i].averageRating.GetOr(0.0) >= r[j].averageRating.GetOr(0.0))
      && (sortBy == "distance-asc" ==> r[i].distanceFromCollege <= r[j].distanceFromCollege)
      && (sortBy !in {"rent-asc", "rent-desc", "rating-desc", "distance-asc"} ==>
            r[i].reviewCount.GetOr(0) >= r[j].reviewCount.GetOr(0))
  {
    var r := SearchProperties(ps, query, f, sortBy);
    assert KeyLe(SortKey(sortBy)(r[i]), SortKey(sortBy)(r[j]));
  }

  /** With the initial filters and an empty query, a collection whose properties all lie
      within 5 km and within the 0..50000 budget is kept whole and in order. */
  lemma InitialFiltersKeepAll(ps: seq<Property>)
    requires forall p :: p in ps ==> p.distanceFromCollege <= 5.0 && 0 <= p.rent <= 50000
    ensures FilterProperties(ps, "", InitialFilters()) == ps
  {
    forall p | p in ps
      ensures Matches("", InitialFilters(), p)
    {
      IncludesEmpty(Lower(p.name));
    }
    FilterKeepsAll(p => Matches("", InitialFilters(), p), ps);
  }

  /** An empty query matches every property, and the query's case never matters. */
  lemma SearchQueryCases(query: string, p: Property)
    ensures MatchesSearch("", p)
    ensures MatchesSearch(Lower(query), p) == MatchesSearch(query, p)
  {
    IncludesEmpty(Lower(p.name));
    LowerIdempotent(query);
  }

  /** No two different properties of `s` share a rent. */
  ghost predicate DistinctRents(s: seq<Property>)
  {
    forall p, q :: p in s && q in s && p.rent == q.rent ==> p == q
  }

  /** When no two filtered properties share a rent, sorting by `rent-desc` gives exactly the
      reverse of sorting by `rent-asc`. */
  lemma RentDescReversesRentAsc(ps: seq<Property>, query: string, f: Filters)
    requires DistinctRents(FilterProperties(ps, query, f))
    ensures SearchProperties(ps, query, f, "rent-desc") == Reverse(SearchProperties(ps, query, f, "rent-asc"))
  {
    var filtered := FilterProperties(ps, query, f);
    var rev := Reverse(SearchProperties(ps, query, f, "rent-asc"));
    ReverseOfAscendingIsDescending(SearchProperties(ps, query, f, "rent-asc"));
    DistinctRentsNoTies(filtered);
    SortNoTies(filtered, rev, SortKey("rent-desc"));
  }

  /** Distinct rents leave no ties under the `rent-desc` key. */
  lemma DistinctRentsNoTies(s: seq<Property>)
    requires DistinctRents(s)
    ensures NoTies(s, SortKey("rent-desc"))
  {
    forall p, q | p in s && q in s && SortKey("rent-desc")(p) == SortKey("rent-desc")(q)
      ensures p == q
    {
      assert p.rent == q.rent;
    }
  }

  lemma ReverseOfAscendingIsDescending(asc: seq<Property>)
    requires Sorted(asc, SortKey("rent-asc"))
    ensures Sorted(Reverse(asc), SortKey("rent-desc"))
  {
    var rev, n := Reverse(asc), |asc|;
    forall i, j | 0 <= i < j < n
      ensures KeyLe(SortKey("rent-desc")(rev[i]), SortKey("rent-desc")(rev[j]))
    {
      assert KeyLe(SortKey("rent-asc")(asc[n - 1 - j]), SortKey("rent-asc")(asc[n - 1 - i]));
    }
  }

  /** A listing with the given rent and review count, within 1 km and with no other
      distinguishing data. */
  function Sample(id: string, rent: int, reviewCount: int): (p: Property)
    ensures p.rent == rent && p.reviewCount == Some(reviewCount) && p.id == id
  {
    Property(id, "", "", "", rent, Single, [], [], 1.0, 1, 1, "", "", None, Some(reviewCount), "", None)
  }

  /** Under wildcard room type, facility and mess filters and a distance of at least 1 km,
      a sample listing passes exactly when its rent is within the budget. */
  lemma SampleMatches(id: string, rent: int, reviewCount: int, f: Filters)
    requires f.roomType == "any" && f.facilities == [] && !f.messAvailable && f.distance >= 1.0
    ensures Matches("", f, Sample(id, rent, reviewCount)) <==> MatchesBudget(f, Sample(id, rent, reviewCount))
  {
    SearchQueryCases("", Sample(id, rent, reviewCount));
  }

  /** Rents 5000, 12000 and 8000 with a budget of 0..10000, sorted by `rent-asc`: the
      listings at 5000 and 8000, in that order. */
  lemma BudgetThenRentAscExample()
    ensures var a, b, c := Sample("a", 5000, 0), Sample("b", 12000, 0), Sample("c", 8000, 0);
      SearchProperties([a, b, c], "", InitialFilters().(budget := Budget(Value(0), Value(10000))), "rent-asc") == [a, c]
  {
    var a, c := Sample("a", 5000, 0), Sample("c", 8000, 0);
    BudgetExampleFilter();
    BudgetExampleKeys();
    SortNoTies([a, c], [a, c], SortKey("rent-asc"));
  }

  /** The rents 5000 and 8000 are in `rent-asc` order, and they do not tie. */
  lemma BudgetExampleKeys()
    ensures var a, c := Sample("a", 5000, 0), Sample("c", 8000, 0);
      Sorted([a, c], SortKey("rent-asc")) && NoTies([a, c], SortKey("rent-asc"))
  {
    var a, c := Sample("a", 5000, 0), Sample("c", 8000, 0);
    var key := SortKey("rent-asc");
    assert key(a) == Finite(5000.0) && key(c) == Finite(8000.0);
    assert forall p :: p in [a, c] ==> p == a || p == c;
  }

  lemma BudgetExampleFilter()
    ensures var a, b, c := Sample("a", 5000, 0), Sample("b", 12000, 0), Sample("c", 8000, 0);
      FilterProperties([a, b, c], "", InitialFilters().(budget := Budget(Value(0), Value(10000)))) == [a, c]
  {
    var a, b, c := Sample("a", 5000, 0), Sample("b", 12000, 0), Sample("c", 8000, 0);
    var f := InitialFilters().(budget := Budget(Value(0), Value(10000)));
    BudgetExamplePasses();
    var pass := p => Matches("", f, p);
    assert [a, b, c][1..] == [b, c] && [b, c][1..] == [c];
    assert Filter(pass, [c]) == [c];
    assert Filter(pass, [b, c]) == [c];
    assert Filter(pass, [a, b, c]) == [a, c];
  }

  /** Under the budget 0..10000 the listings at 5000 and 8000 pass and the one at 12000
      does not. */
  lemma BudgetExamplePasses()
    ensures var f := InitialFilters().(budget := Budget(Value(0), Value(10000)));
      && Matches("", f, Sample("a", 5000, 0))
      && !Matches("", f, Sample("b", 12000, 0))
      && Matches("", f, Sample("c", 8000, 0))
  {
    var f := InitialFilters().(budget := Budget(Value(0), Value(10000)));
    SampleMatches("a", 5000, 0, f);
    SampleMatches("b", 12000, 0, f);
    SampleMatches("c", 8000, 0, f);
  }

  /** An unfiltered collection with review counts 10, 3 and 7 under the default
      (popularity) key comes out as 10, 7, 3. */
  lemma PopularityExample()
    ensures var a, b, c := Sample("a", 1000, 10), Sample("b", 1000, 3), Sample("c", 1000, 7);
      SearchProperties([a, b, c], "", InitialFilters(), "popularity") == [a, c, b]
  {
    var a, b, c := Sample("a", 1000, 10), Sample("b", 1000, 3), Sample("c", 1000, 7);
    PopularityExampleKeepsAll();
    PopularityExampleKeys();
    assert multiset([a, c, b]) == multiset([a, b, c]);
    SortNoTies([a, b, c], [a, c, b], SortKey("popularity"));
  }

  lemma PopularityExampleKeepsAll()
    ensures var a, b, c := Sample("a", 1000, 10), Sample("b", 1000, 3), Sample("c", 1000, 7);
      FilterProperties([a, b, c], "", InitialFilters()) == [a, b, c]
  {
    var a, b, c := Sample("a", 1000, 10), Sample("b", 1000, 3), Sample("c", 1000, 7);
    assert forall p :: p in [a, b, c] ==> p == a || p == b || p == c;
    InitialFiltersKeepAll([a, b, c]);
  }

  /** The review counts 10, 7, 3 are in popularity order, and no two of them tie. */
  lemma PopularityExampleKeys()
    ensures var a, b, c := Sample("a", 1000, 10), Sample("b", 1000, 3), Sample("c", 1000, 7);
      Sorted([a, c, b], SortKey("popularity")) && NoTies([a, b, c], SortKey("popularity"))
  {
    var a, b, c := Sample("a", 1000, 10), Sample("b", 1000, 3), Sample("c", 1000, 7);
    var key := SortKey("popularity");
    assert key(a) == Finite(-10.0) && key(b) == Finite(-3.0) && key(c) == Finite(-7.0);
    assert forall p :: p in [a, b, c] ==> p == a || p == b || p == c;
  }
}
