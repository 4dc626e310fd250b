/** Comparing a stored interval with a whole requested interval (`domain/quantities.py`). */
module Intervals {
  import opened Wrappers

  datatype Interval = Interval(lo: real, hi: real) {
    predicate Valid() { lo <= hi }

    ghost predicate Has(x: real) { lo <= x <= hi }
  }

  datatype Comparison = Eq | Gte | Lte

  /** `compare_intervals`: True confirms all values, False rules the requirement out, None leaves it open. */
  function CompareIntervals(left: Interval, right: Interval, comparison: Comparison): Option<bool> {
    match comparison
    case Eq =>
      if left == right then Some(true)
      else if left.hi < right.lo || left.lo > right.hi then Some(false) else None
    case Gte =>
      if left.lo >= right.hi then Some(true)
      else if left.hi < right.hi then Some(false) else None
    case Lte =>
      if left.hi <= right.lo then Some(true)
      else if left.lo > right.lo then Some(false) else None
  }

  function Max(x: real, y: real): real { if x >= y then x else y }
  function Abs(x: real): real { if x >= 0.0 then x else -x }

  function Gap(left: Interval, right: Interval, comparison: Comparison): real {
    match comparison
    case Gte => Max(0.0, right.hi - left.hi)
    case Lte => Max(0.0, left.lo - right.lo)
    case Eq => Max(0.0, Max(right.lo - left.hi, left.lo - right.hi))
  }

  /** `relative_interval_gap`, in exact arithmetic. */
  function RelativeGap(left: Interval, right: Interval, comparison: Comparison): real {
    var scale := Max(Max(Abs(left.lo), Abs(left.hi)), Max(Abs(right.lo), Abs(right.hi)));
    if scale == 0.0 then 0.0 else Gap(left, right, comparison) / scale
  }

  // ----- what the comparison means -----

  ghost predicate Compares(x: real, y: real, comparison: Comparison) {
    match comparison
    case Eq => x == y
    case Gte => x >= y
    case Lte => x <= y
  }

  /** The comparison holds between every stored and every requested value. */
  ghost predicate AllCompare(left: Interval, right: Interval, comparison: Comparison) {
    forall x, y :: left.Has(x) && right.Has(y) ==> Compares(x, y, comparison)
  }

  ghost predicate FailsAgainst(left: Interval, y: real, comparison: Comparison) {
    forall x :: left.Has(x) ==> !Compares(x, y, comparison)
  }

  /** Confirmed: for a bound, every stored value meets every requested one; for equality, the same values. */
  lemma {:induction false} ConfirmedMeans(left: Interval, right: Interval, comparison: Comparison)
    requires left.Valid() && right.Valid()
    ensures comparison != Eq ==> (CompareIntervals(left, right, comparison) == Some(true) <==> AllCompare(left, right, comparison))
    ensures CompareIntervals(left, right, Eq) == Some(true) <==> forall x :: left.Has(x) <==> right.Has(x)
  {
    assert left.Has(left.lo) && left.Has(left.hi) && right.Has(right.lo) && right.Has(right.hi);
    match comparison
    case Gte => if AllCompare(left, right, Gte) { assert Compares(left.lo, right.hi, Gte); }
    case Lte => if AllCompare(left, right, Lte) { assert Compares(left.hi, right.lo, Lte); }
    case Eq =>
  }

  /** Ruled out: for a bound, some requested value is met by no stored value; for equality, no value is shared. */
  lemma {:induction false} RuledOutMeans(left: Interval, right: Interval, comparison: Comparison)
    requires left.Valid() && right.Valid()
    ensures comparison != Eq ==>
              (CompareIntervals(left, right, comparison) == Some(false) <==>
                 exists y :: right.Has(y) && FailsAgainst(left, y, comparison))
    ensures CompareIntervals(left, right, Eq) == Some(false) <==> forall x :: !(left.Has(x) && right.Has(x))
  {
    assert left.Has(left.lo) && left.Has(left.hi) && right.Has(right.lo) && right.Has(right.hi);
    if comparison == Gte && CompareIntervals(left, right, Gte) == Some(false) {
      assert FailsAgainst(left, right.hi, Gte);
    } else if comparison == Lte && CompareIntervals(left, right, Lte) == Some(false) {
      assert FailsAgainst(left, right.lo, Lte);
    }
    if CompareIntervals(left, right, Eq) != Some(false) {
      var x := Max(left.lo, right.lo);
      assert left.Has(x) && right.Has(x);
    }
  }

  /** The ranking distance of a requirement is positive exactly when it is ruled out. */
  lemma {:induction false} GapIsFailure(left: Interval, right: Interval, comparison: Comparison)
    requires left.Valid() && right.Valid()
    ensures RelativeGap(left, right, comparison) >= 0.0
    ensures RelativeGap(left, right, comparison) > 0.0 <==> CompareIntervals(left, right, comparison) == Some(false)
  {
    var gap := Gap(left, right, comparison);
    var scale := Max(Max(Abs(left.lo), Abs(left.hi)), Max(Abs(right.lo), Abs(right.hi)));
    assert gap > 0.0 <==> CompareIntervals(left, right, comparison) == Some(false);
    if scale == 0.0 {
      assert left.lo == 0.0 && left.hi == 0.0 && right.lo == 0.0 && right.hi == 0.0;
    } else {
      QuotientSign(gap, scale);
    }
  }

  lemma {:induction false} QuotientSign(x: real, y: real)
    requires x >= 0.0 && y > 0.0
    ensures x / y >= 0.0 && (x / y > 0.0 <==> x > 0.0)
  {
    var q := x / y;
    assert q * y == x;
  }
}
