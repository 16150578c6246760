/** The mess listing page (`src/app/mess/page.tsx`): image requirement, search, price and
    food-type filters, and the price / rating / popularity comparators. */
module MessSearch {
  import opened Options
  import opened Text
  import opened Seqs
  import opened Listings
  import opened StableSort
  import opened JsNumber

  /** The page's filter record: a maximum monthly price and a food type or `'any'`. */
  datatype MessFilters = MessFilters(price: int, foodType: string)

  function InitialMessFilters(): (f: MessFilters)
    ensures f.price == 5000 && f.foodType == "any"
  {
    MessFilters(5000, "any")
  }

  /** Listings without a picture are never shown. */
  predicate HasImage(m: MessListing) { |m.imageIds| > 0 }

  /** Case-insensitive search over name and address only. */
  predicate MatchesSearch(query: string, m: MessListing)
  {
    var q := Lower(query);
    Includes(Lower(m.name), q) || Includes(Lower(m.address), q)
  }

  /** A listing without a monthly price always passes; otherwise its price is at most the limit. */
  predicate MatchesPrice(f: MessFilters, m: MessListing)
  {
    if m.pricing.monthly.Some? then m.pricing.monthly.value <= f.price else true
  }

  predicate MatchesFoodType(f: MessFilters, m: MessListing)
  {
    f.foodType == "any" || FoodTypeName(m.foodType) == f.foodType
  }

  predicate Matches(query: string, f: MessFilters, m: MessListing)
  {
    HasImage(m) && MatchesSearch(query, m) && MatchesPrice(f, m) && MatchesFoodType(f, m)
  }

  function FilterMess(ms: seq<MessListing>, query: string, f: MessFilters): (r: seq<MessListing>)
    ensures forall m :: m in r <==>
      m in ms && HasImage(m) && MatchesSearch(query, m) && MatchesPrice(f, m) && MatchesFoodType(f, m)
    ensures forall m :: multiset(r)[m] == if Matches(query, f, m) then multiset(ms)[m] else 0
  {
    FilterMultiset(m => Matches(query, f, m), ms);
    Filter(m => Matches(query, f, m), ms)
  }

  /** With the initial filters and an empty query, a listing is kept exactly when it has an
      image and its monthly price, if it has one, is at most 5000; the food type never
      excludes anything. */
  lemma InitialMessFiltersKeep(ms: seq<MessListing>, m: MessListing)
    ensures m in FilterMess(ms, "", InitialMessFilters()) <==>
      m in ms && HasImage(m) && (m.pricing.monthly.None? || m.pricing.monthly.value <= 5000)
  {
    IncludesEmpty(Lower(m.name));
  }

  /** A monthly price that is present and non-zero (truthy in `monthly || x`). */
  predicate HasMonthlyPrice(m: MessListing)
  {
    m.pricing.monthly.Some? && m.pricing.monthly.value != 0
  }

  /** `pricing.monthly || 0`. */
  function MonthlyOrZero(m: MessListing): int
  {
    m.pricing.monthly.GetOr(0)
  }

  /** The key each comparator compares. Under `price-asc` a listing without a (truthy)
      monthly price counts as infinitely expensive, so it goes after every priced one. */
  function MessKey(sortBy: string, m: MessListing): Key
  {
    if sortBy == "price-asc" then (if HasMonthlyPrice(m) then Finite(m.pricing.monthly.value as real) else Last)
    else if sortBy == "price-desc" then Finite(-(MonthlyOrZero(m) as real))
    else if sortBy == "rating-desc" then Finite(-m.averageRating)
    else Finite(-(m.reviewCount as real))
  }

  function SortKey(sortBy: string): MessListing -> Key
  {
    m => MessKey(sortBy, m)
  }

  /** The comparator of the sort, case by case as the page's `switch` writes it. */
  function Compare(sortBy: string, a: MessListing, b: MessListing): Num
  {
    if sortBy == "price-asc" then Sub(OrInt(a.pricing.monthly, PosInf), OrInt(b.pricing.monthly, PosInf))
    else if sortBy == "price-desc" then Sub(OrInt(b.pricing.monthly, Fin(0.0)), OrInt(a.pricing.monthly, Fin(0.0)))
    else if sortBy == "rating-desc" then Sub(OrReal(Some(b.averageRating), Fin(0.0)), OrReal(Some(a.averageRating), Fin(0.0)))
    else Sub(OrInt(Some(b.reviewCount), Fin(0.0)), OrInt(Some(a.reviewCount), Fin(0.0)))
  }

  /** The comparator orders every pair as the key does. For two unpriced listings under
      `price-asc` it computes `Infinity - Infinity`, which is NaN, and the sort keeps them in order. */
  lemma CompareMatchesKey(sortBy: string, a: MessListing, b: MessListing)
    ensures SortOrder(Compare(sortBy, a, b)) == KeyOrder(MessKey(sortBy, a), MessKey(sortBy, b))
  {
    if sortBy == "price-asc" {
      PriceAscCompare(a, b);
    } else if sortBy == "price-desc" {
      var x, y := MonthlyOrZero(a) as real, MonthlyOrZero(b) as real;
      assert OrInt(a.pricing.monthly, Fin(0.0)) == Fin(x);
      assert OrInt(b.pricing.monthly, Fin(0.0)) == Fin(y);
      assert Compare(sortBy, a, b) == Sub(Fin(y), Fin(x));
      assert MessKey(sortBy, a) == Finite(-x) && MessKey(sortBy, b) == Finite(-y);
      DescendingDifference(x, y);
    } else if sortBy == "rating-desc" {
      var x, y := a.averageRating, b.averageRating;
      assert OrReal(Some(x), Fin(0.0)) == Fin(x);
      assert OrReal(Some(y), Fin(0.0)) == Fin(y);
      assert Compare(sortBy, a, b) == Sub(Fin(y), Fin(x));
      assert MessKey(sortBy, a) == Finite(-x) && MessKey(sortBy, b) == Finite(-y);
      DescendingDifference(x, y);
    } else {
      var x, y := a.reviewCount as real, b.reviewCount as real;
      assert OrInt(Some(a.reviewCount), Fin(0.0)) == Fin(x);
      assert OrInt(Some(b.reviewCount), Fin(0.0)) == Fin(y);
      assert Compare(sortBy, a, b) == Sub(Fin(y), Fin(x));
      assert MessKey(sortBy, a) == Finite(-x) && MessKey(sortBy, b) == Finite(-y);
      DescendingDifference(x, y);
    }
  }

  /** The `price-asc` comparator `(a.monthly || Infinity) - (b.monthly || Infinity)`, case by
      case on which listings have a monthly price. */
  lemma PriceAscCompare(a: MessListing, b: MessListing)
    ensures SortOrder(Compare("price-asc", a, b)) == KeyOrder(MessKey("price-asc", a), MessKey("price-asc", b))
  {
    var x, y := OrInt(a.pricing.monthly, PosInf), OrInt(b.pricing.monthly, PosInf);
    assert Compare("price-asc", a, b) == Sub(x, y);
    if HasMonthlyPrice(a) && HasMonthlyPrice(b) {
      assert x == Fin(a.pricing.monthly.value as real) && y == Fin(b.pricing.monthly.value as real);
      AscendingDifference(a.pricing.monthly.value as real, b.pricing.monthly.value as real);
    } else if HasMonthlyPrice(a) {
      assert x.Fin? && y == PosInf && MessKey("price-asc", b) == Last;
    } else if HasMonthlyPrice(b) {
      assert x == PosInf && y.Fin? && MessKey("price-asc", a) == Last;
    } else {
      assert x == PosInf && y == PosInf;
    }
  }

  /** `filteredAndSortedMess`: the filtered list, stably sorted by the chosen key. */
  function SearchMess(ms: seq<MessListing>, query: string, f: MessFilters, sortBy: string): (r: seq<MessListing>)
    ensures multiset(r) == multiset(FilterMess(ms, query, f))
    ensures Sorted(r, SortKey(sortBy))
  {
    Sort(FilterMess(ms, query, f), SortKey(sortBy))
  }

  /** A listing is shown iff it is in the collection and passes the four checks; in
      particular a listing with no image is never shown, and one without a monthly price
      is never excluded by the price limit. */
  lemma SearchMessMembers(ms: seq<MessListing>, query: string, f: MessFilters, sortBy: string, m: MessListing)
    ensures m in SearchMess(ms, query, f, sortBy) <==> m in ms && Matches(query, f, m)
    ensures m in SearchMess(ms, query, f, sortBy) ==> |m.imageIds| > 0
    ensures m.pricing.monthly.None? ==> MatchesPrice(f, m)
  {
    var r := SearchMess(ms, query, f, sortBy);
    assert m in r <==> m in multiset(r);
  }

  /** Ties keep their order in the collection. */
  lemma SearchMessStable(ms: seq<MessListing>, query: string, f: MessFilters, sortBy: string, k: Key)
    ensures KeyClass(SearchMess(ms, query, f, sortBy), SortKey(sortBy), k)
         == KeyClass(FilterMess(ms, query, f), SortKey(sortBy), k)
  {
    SortStable(FilterMess(ms, query, f), SortKey(sortBy), k);
  }

  /** Ordered and tie-stable characterises the page's result completely. */
  lemma SearchMessCharacterized(ms: seq<MessListing>, query: string, f: MessFilters, sortBy: string, r: seq<MessListing>)
    ensures r == SearchMess(ms, query, f, sortBy) ==>
      Sorted(r, SortKey(sortBy)) &&
      forall k :: KeyClass(r, SortKey(sortBy), k) == KeyClass(FilterMess(ms, query, f), SortKey(sortBy), k)
    ensures Sorted(r, SortKey(sortBy)) &&
      (forall k :: KeyClass(r, SortKey(sortBy), k) == KeyClass(FilterMess(ms, query, f), SortKey(sortBy), k))
      ==> r == SearchMess(ms, query, f, sortBy)
  {
    SortCharacterized(FilterMess(ms, query, f), r, SortKey(sortBy));
  }

  /** Under `price-asc`: priced listings come first, in non-decreasing price; a listing
      without a (truthy) monthly price is followed only by unpriced ones; and the unpriced
      ones keep their order from the collection. */
  lemma PriceAscOrder(ms: seq<MessListing>, query: string, f: MessFilters, i: int, j: int)
    requires 0 <= i < j < |SearchMess(ms, query, f, "price-asc")|
    ensures var r := SearchMess(ms, query, f, "price-asc");
      && (HasMonthlyPrice(r[j]) ==> HasMonthlyPrice(r[i]) && r[i].pricing.monthly.value <= r[j].pricing.monthly.value)
      && (!HasMonthlyPrice(r[i]) ==> !HasMonthlyPrice(r[j]))
    ensures KeyClass(SearchMess(ms, query, f, "price-asc"), SortKey("price-asc"), Last)
         == KeyClass(FilterMess(ms, query, f), SortKey("price-asc"), Last)
  {
    var r := SearchMess(ms, query, f, "price-asc");
    assert KeyLe(SortKey("price-asc")(r[i]), SortKey("price-asc")(r[j]));
    SearchMessStable(ms, query, f, "price-asc", Last);
  }

  /** The order of the result for the other keys, in the page's own terms. */
  lemma SearchMessOrder(ms: seq<MessListing>, query: string, f: MessFilters, sortBy: string, i: int, j: int)
    requires 0 <= i < j < |SearchMess(ms, query, f, sortBy)|
    ensures var r := SearchMess(ms, query, f, sortBy);
      && (sortBy == "price-desc" ==> MonthlyOrZero(r[i]) >= MonthlyOrZero(r[j]))
      && (sortBy == "rating-desc" ==> r[i].averageRating >= r[j].averageRating)
      && (sortBy !in {"price-asc", "price-desc", "rating-desc"} ==> r[i].reviewCount >= r[j].reviewCount)
  {
    var r := SearchMess(ms, query, f, sortBy);
    assert KeyLe(SortKey(sortBy)(r[i]), SortKey(sortBy)(r[j]));
  }
}
