/** The owner dashboard's portfolio figures (`src/app/dashboard/owner/page.tsx`): the totals
    folded over the owner's properties, the occupancy rate and the per-row status. */
module OwnerDashboard {
  import opened Options
  import opened Listings

  datatype Field = Rent | Capacity | Availability

  function FieldValue(p: Property, field: Field): int
  {
    match field
    case Rent => p.rent
    case Capacity => p.totalCapacity
    case Availability => p.currentAvailability
  }

  /** `ps.reduce((acc, p) => acc + p.<field>, 0)`, folded from the left. */
  function Sum(ps: seq<Property>, field: Field): int
  {
    if ps == [] then 0 else Sum(ps[..|ps| - 1], field) + FieldValue(ps[|ps| - 1], field)
  }

  datatype Totals = Totals(
    totalProperties: int,
    totalRent: int,
    totalCapacity: int,
    totalAvailability: int,
    occupancy: real)

  /** The `useMemo` block: all zeros while the list is not loaded (`null`), otherwise the
      count, the three sums and the occupancy percentage. */
  function PortfolioTotals(props: Option<seq<Property>>): (t: Totals)
    ensures props.None? ==> t == Totals(0, 0, 0, 0, 0.0)
    ensures props.Some? ==> t.totalProperties == |props.value|
    ensures props.Some? ==> t.totalRent == Sum(props.value, Rent)
    ensures props.Some? ==> t.totalCapacity == Sum(props.value, Capacity)
    ensures props.Some? ==> t.totalAvailability == Sum(props.value, Availability)
    ensures t.occupancy == Occupancy(t.totalCapacity, t.totalAvailability)
  {
    match props
    case None => Totals(0, 0, 0, 0, 0.0)
    case Some(ps) =>
      var capacity := Sum(ps, Capacity);
      var availability := Sum(ps, Availability);
      Totals(|ps|, Sum(ps, Rent), capacity, availability, Occupancy(capacity, availability))
  }

  /** `totalCapacity > 0 ? ((totalCapacity - totalAvailability) / totalCapacity) * 100 : 0`:
      the share of beds filled, as a percentage; 0 when there is no capacity. */
  function Occupancy(capacity: int, availability: int): (r: real)
    ensures capacity <= 0 ==> r == 0.0
    ensures capacity > 0 ==> r * capacity as real == (capacity - availability) as real * 100.0
    ensures 0 <= availability <= capacity ==> 0.0 <= r <= 100.0
    ensures capacity > 0 ==> (r == 100.0 <==> availability == 0)
    ensures capacity > 0 ==> (r == 0.0 <==> availability == capacity)
  {
    if capacity > 0 then
      var c, a := capacity as real, availability as real;
      var q := (c - a) / c;
      assert q * c == c - a;
      assert 0 <= availability <= capacity ==> 0.0 <= q <= 1.0;
      q * 100.0
    else 0.0
  }

  /** A row's badge. */
  function RowStatus(p: Property): string
  {
    if p.currentAvailability > 0 then "Available" else "Full"
  }

  /** A row's filled beds: `totalCapacity - currentAvailability`. */
  function FilledBeds(p: Property): int
  {
    p.totalCapacity - p.currentAvailability
  }

  function SumFilled(ps: seq<Property>): int
  {
    if ps == [] then 0 else SumFilled(ps[..|ps| - 1]) + FilledBeds(ps[|ps| - 1])
  }

  /** The headline "beds filled" figure is the sum of the per-row filled figures. */
  lemma {:induction false} FilledBedsAddUp(ps: seq<Property>)
    ensures Sum(ps, Capacity) - Sum(ps, Availability) == SumFilled(ps)
  {
    if ps != [] {
      FilledBedsAddUp(ps[..|ps| - 1]);
    }
  }

  /** Every property's availability lies between 0 and its capacity. */
  predicate Consistent(ps: seq<Property>)
  {
    forall i :: 0 <= i < |ps| ==> 0 <= ps[i].currentAvailability <= ps[i].totalCapacity
  }

  lemma {:induction false} ConsistentSums(ps: seq<Property>)
    requires Consistent(ps)
    ensures 0 <= Sum(ps, Availability) <= Sum(ps, Capacity)
    ensures Sum(ps, Availability) == 0 <==> forall i :: 0 <= i < |ps| ==> ps[i].currentAvailability == 0
  {
    if ps != [] {
      var init := ps[..|ps| - 1];
      assert Consistent(init) by {
        forall i | 0 <= i < |init| ensures 0 <= init[i].currentAvailability <= init[i].totalCapacity {
          assert init[i] == ps[i];
        }
      }
      ConsistentSums(init);
      if Sum(ps, Availability) == 0 {
        forall i | 0 <= i < |ps| ensures ps[i].currentAvailability == 0 {
          if i < |ps| - 1 {
            assert init[i] == ps[i];
          }
        }
      }
      if forall i :: 0 <= i < |ps| ==> ps[i].currentAvailability == 0 {
        forall i | 0 <= i < |init| ensures init[i].currentAvailability == 0 {
          assert init[i] == ps[i];
        }
      }
    }
  }

  /** When every availability lies between 0 and its capacity, the occupancy rate is a
      percentage. */
  lemma OccupancyIsPercentage(ps: seq<Property>)
    requires Consistent(ps)
    ensures 0.0 <= PortfolioTotals(Some(ps)).occupancy <= 100.0
  {
    ConsistentSums(ps);
  }

  /** With some capacity, the rate is 100% exactly when every row is shown as full. */
  lemma FullPortfolio(ps: seq<Property>)
    requires Consistent(ps)
    requires Sum(ps, Capacity) > 0
    ensures PortfolioTotals(Some(ps)).occupancy == 100.0 <==> forall i :: 0 <= i < |ps| ==> RowStatus(ps[i]) == "Full"
  {
    ConsistentSums(ps);
    forall i | 0 <= i < |ps|
      ensures RowStatus(ps[i]) == "Full" <==> ps[i].currentAvailability == 0
    {
    }
  }
}
