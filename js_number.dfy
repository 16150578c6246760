/** The JavaScript number arithmetic the sort comparators use: subtraction over finite values,
    the infinities and NaN, the `x || d` fallback, and how `Array.prototype.sort` reads the
    comparator's value. Floating-point rounding is not modelled: finite values are reals. */
module JsNumber {
  import opened Options
  import opened StableSort

  datatype Num = Fin(r: real) | PosInf | NegInf | NaN

  /** `a - b` under IEEE 754 rules, without rounding. */
  function Sub(a: Num, b: Num): (d: Num)
    ensures a.Fin? && b.Fin? ==> d == Fin(a.r - b.r)
    ensures a == b && !a.Fin? ==> d == NaN
    ensures a.Fin? && b == PosInf ==> d == NegInf
    ensures a == PosInf && b.Fin? ==> d == PosInf
  {
    match (a, b)
    case (NaN, _) => NaN
    case (_, NaN) => NaN
    case (Fin(x), Fin(y)) => Fin(x - y)
    case (PosInf, PosInf) => NaN
    case (NegInf, NegInf) => NaN
    case (PosInf, _) => PosInf
    case (NegInf, _) => NegInf
    case (Fin(_), PosInf) => NegInf
    case (Fin(_), NegInf) => PosInf
  }

  /** How `Array.prototype.sort` reads `v = compare(a, b)`: a negative value puts `a` first,
      a positive one puts `b` first, and zero or NaN keeps the two in their current order. */
  function SortOrder(v: Num): Order
  {
    match v
    case NegInf => Before
    case PosInf => After
    case NaN => Tie
    case Fin(x) => if x < 0.0 then Before else if x > 0.0 then After else Tie
  }

  /** `x || d` for an optional integer field: `undefined` and `0` are falsy and give `d`. */
  function OrInt(x: Option<int>, d: Num): (v: Num)
    ensures x.Some? && x.value != 0 ==> v == Fin(x.value as real)
    ensures x.None? || x.value == 0 ==> v == d
  {
    if x.Some? && x.value != 0 then Fin(x.value as real) else d
  }

  /** `x || d` for an optional real field. */
  function OrReal(x: Option<real>, d: Num): (v: Num)
    ensures x.Some? && x.value != 0.0 ==> v == Fin(x.value)
    ensures x.None? || x.value == 0.0 ==> v == d
  {
    if x.Some? && x.value != 0.0 then Fin(x.value) else d
  }

  /** A comparator `key(a) - key(b)` over finite keys orders exactly as the keys do. */
  lemma AscendingDifference(x: real, y: real)
    ensures SortOrder(Sub(Fin(x), Fin(y))) == KeyOrder(Finite(x), Finite(y))
  {
  }

  /** A comparator `key(b) - key(a)` over finite keys orders as the negated keys do. */
  lemma DescendingDifference(x: real, y: real)
    ensures SortOrder(Sub(Fin(y), Fin(x))) == KeyOrder(Finite(-x), Finite(-y))
  {
  }
}
