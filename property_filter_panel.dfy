/** The property filter panel (`src/components/properties/property-search-filters.tsx`):
    each handler is a functional update of the page's filter record. */
module PropertyFilterPanel {
  import opened Options
  import opened Text
  import opened Seqs
  import opened Listings
  import opened PropertySearch

  /** The values the distance slider can produce: 0 to 5 in steps of 0.5. */
  predicate OnSliderGrid(d: real)
  {
    0.0 <= d <= 5.0 && (2.0 * d).Floor as real == 2.0 * d
  }

  /** `handleSliderChange(value, 'distance')`. The slider reports the `step`-th mark of its
      0..5 range, which is `step * 0.5`. */
  function SliderChange(s: Filters, step: nat): (r: Filters)
    requires step <= 10
    ensures r == s.(distance := r.distance)
    ensures OnSliderGrid(r.distance) && 2.0 * r.distance == step as real
  {
    s.(distance := step as real / 2.0)
  }

  /** `handleFacilityChange`: a selected facility is removed (every occurrence), any other is
      appended at the end; the rest of the record is unchanged. */
  function FacilityChange(s: Filters, facility: string): (r: Filters)
    ensures r == s.(facilities := r.facilities)
    ensures facility in s.facilities ==> facility !in r.facilities
    ensures facility in s.facilities ==>
      forall x :: x != facility ==> multiset(r.facilities)[x] == multiset(s.facilities)[x]
    ensures facility !in s.facilities ==> r.facilities == s.facilities + [facility]
  {
    var fs := if facility in s.facilities then RemoveAll(s.facilities, facility) else s.facilities + [facility];
    s.(facilities := fs)
  }

  /** Toggling a facility that is not selected, then toggling it again, restores the record. */
  lemma FacilityToggleTwice(s: Filters, facility: string)
    requires facility !in s.facilities
    ensures FacilityChange(FacilityChange(s, facility), facility) == s
  {
    RemoveAllAppended(s.facilities, facility);
  }

  /** `handleRoomTypeChange`. */
  function RoomTypeChange(s: Filters, value: string): (r: Filters)
    ensures r == s.(roomType := value)
  {
    s.(roomType := value)
  }

  /** After choosing `'any'` every property passes the room-type check; after choosing a
      type's name, exactly the properties of that type pass. */
  lemma RoomTypeChoice(s: Filters, value: string, p: Property)
    ensures value == "any" ==> MatchesRoomType(RoomTypeChange(s, value), p)
    ensures value != "any" ==> (MatchesRoomType(RoomTypeChange(s, value), p) <==> RoomTypeName(p.roomType) == value)
  {
  }

  datatype BudgetField = Min | Max

  /** The bound an input edits: empty input gives the field's default (0 for `min`, 50000
      for `max`), otherwise `parseInt(input, 10)`, where no digits give NaN. */
  function BudgetInputValue(input: string, field: BudgetField): (b: Bound)
    ensures input == "" ==> b == (if field == Min then Value(0) else Value(50000))
    ensures input != "" && ParseInt(input).Some? ==> b == Value(ParseInt(input).value)
    ensures input != "" && ParseInt(input).None? ==> b == NotANumber
  {
    if input != "" then
      match ParseInt(input)
      case Some(n) => Value(n)
      case None => NotANumber
    else if field == Min then Value(0) else Value(50000)
  }

  /** `handleBudgetChange`: only the edited bound changes. */
  function BudgetChange(s: Filters, input: string, field: BudgetField): (r: Filters)
    ensures r == s.(budget := r.budget)
    ensures field == Min ==> r.budget == s.budget.(min := BudgetInputValue(input, field))
    ensures field == Max ==> r.budget == s.budget.(max := BudgetInputValue(input, field))
  {
    var v := BudgetInputValue(input, field);
    s.(budget := if field == Min then s.budget.(min := v) else s.budget.(max := v))
  }

  /** Typing the decimal form of an integer sets that bound to exactly that integer. */
  lemma BudgetTypedNumber(s: Filters, n: int, field: BudgetField)
    ensures field == Min ==> BudgetChange(s, IntToString(n), field).budget.min == Value(n)
    ensures field == Max ==> BudgetChange(s, IntToString(n), field).budget.max == Value(n)
  {
    ParseIntOfIntToString(n);
    assert IntToString(n) != "";
  }

  /** A NaN bound rejects every property, whatever the other bound. */
  lemma NaNBoundExcludesAll(f: Filters, p: Property)
    requires f.budget.min == NotANumber || f.budget.max == NotANumber
    ensures !MatchesBudget(f, p)
  {
  }

  /** `handleMessChange`. */
  function MessChange(s: Filters, checked: bool): (r: Filters)
    ensures r == s.(messAvailable := checked)
  {
    s.(messAvailable := checked)
  }

  /** `clearFilters`: the panel's own literal for the cleared record. */
  function ClearFilters(): (r: Filters)
    ensures r == InitialFilters()
  {
    Filters(5.0, "any", Budget(Value(0), Value(50000)), [], false)
  }

  /** The user actions the panel handles. */
  datatype Event =
    | Slide(step: nat)
    | ToggleFacility(facility: string)
    | ChooseRoomType(value: string)
    | EditBudget(input: string, field: BudgetField)
    | CheckMess(checked: bool)
    | Clear

  /** A slider event reports one of the slider's eleven marks. */
  predicate WellFormed(e: Event) { e.Slide? ==> e.step <= 10 }

  function Apply(s: Filters, e: Event): Filters
    requires WellFormed(e)
  {
    match e
    case Slide(step) => SliderChange(s, step)
    case ToggleFacility(x) => FacilityChange(s, x)
    case ChooseRoomType(v) => RoomTypeChange(s, v)
    case EditBudget(input, field) => BudgetChange(s, input, field)
    case CheckMess(c) => MessChange(s, c)
    case Clear => ClearFilters()
  }

  /** The record after a sequence of actions. */
  function ApplyAll(s: Filters, es: seq<Event>): Filters
    requires forall i :: 0 <= i < |es| ==> WellFormed(es[i])
    decreases |es|
  {
    if es == [] then s else ApplyAll(Apply(s, es[0]), es[1..])
  }

  /** What the panel keeps true of its record: the distance is a slider mark and no
      facility is selected twice. */
  ghost predicate PanelInvariant(s: Filters)
  {
    OnSliderGrid(s.distance) && forall x :: multiset(s.facilities)[x] <= 1
  }

  lemma {:induction false} ApplyKeepsInvariant(s: Filters, e: Event)
    requires WellFormed(e) && PanelInvariant(s)
    ensures PanelInvariant(Apply(s, e))
  {
    if e.ToggleFacility? {
      var r := Apply(s, e);
      forall x
        ensures multiset(r.facilities)[x] <= 1
      {
        if e.facility !in s.facilities && x == e.facility {
          assert multiset(r.facilities)[x] == multiset(s.facilities)[x] + 1;
        } else if e.facility in s.facilities && x == e.facility {
          assert x !in multiset(r.facilities);
        }
      }
    } else if e.Clear? {
      assert 2.0 * 5.0 == 10.0;
    }
  }

  /** From the initial record, every sequence of panel actions keeps the distance on the
      slider's 0..5 grid in steps of 0.5 and the facility list free of duplicates. */
  lemma {:induction false} SessionKeepsInvariant(s: Filters, es: seq<Event>)
    requires forall i :: 0 <= i < |es| ==> WellFormed(es[i])
    requires PanelInvariant(s)
    ensures PanelInvariant(ApplyAll(s, es))
    decreases |es|
  {
    if es != [] {
      ApplyKeepsInvariant(s, es[0]);
      SessionKeepsInvariant(Apply(s, es[0]), es[1..]);
    }
  }

  /** The page's initial record satisfies the panel invariant. */
  lemma InitialFiltersInvariant()
    ensures PanelInvariant(InitialFilters())
  {
    assert 2.0 * 5.0 == 10.0;
  }
}
