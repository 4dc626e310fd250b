/** Decimal arithmetic in a context of 220 digits (`domain/quantities.py`, `domain/specification_conditions.py`):
    exact integers scaled by powers of ten, half-even rounding, and the reals they stand for. */
module Numbers {
  const PRECISION: nat := 220

  /** coefficient * 10 ^ exponent */
  datatype Number = Number(coefficient: int, exponent: int)

  function Pow10(n: nat): (p: nat)
    ensures p >= 1
  {
    if n == 0 then 1 else 10 * Pow10(n - 1)
  }

  function Min(a: int, b: int): int { if a < b then a else b }
  function AbsInt(a: int): nat { if a < 0 then -a else a }

  /** The coefficient of a number written with a smaller exponent. */
  function At(n: Number, exponent: int): int
    requires exponent <= n.exponent
  {
    n.coefficient * Pow10(n.exponent - exponent)
  }

  function Sum(a: Number, b: Number): Number {
    var e := Min(a.exponent, b.exponent);
    Number(At(a, e) + At(b, e), e)
  }

  function Negated(a: Number): Number { a.(coefficient := -a.coefficient) }

  predicate AtMost(a: Number, b: Number) {
    var e := Min(a.exponent, b.exponent);
    At(a, e) <= At(b, e)
  }

  /** How many digits a coefficient has beyond the precision. */
  function Excess(c: nat, precision: nat): nat
    requires precision > 0
    decreases c
  {
    if c < Pow10(precision) then 0 else PowGrows(precision); 1 + Excess(c / 10, precision)
  }

  lemma {:induction false} PowGrows(n: nat)
    requires n > 0
    ensures Pow10(n) >= 10
  {
  }

  /** Half-even division: the kept digits, or one more. */
  function HalfEven(c: int, unit: int): int
    requires unit > 0
  {
    var kept, rest := c / unit, c % unit;
    if 2 * rest > unit || (2 * rest == unit && kept % 2 == 1) then kept + 1 else kept
  }

  /** Without its last `drop` digits. */
  function Dropped(n: Number, drop: nat): Number {
    var magnitude := HalfEven(AbsInt(n.coefficient), Pow10(drop));
    Number(if n.coefficient < 0 then -magnitude else magnitude, n.exponent + drop)
  }

  /** Half-even rounding to the precision of the context. */
  function Rounded(n: Number, precision: nat): Number
    requires precision > 0
  {
    var drop := Excess(AbsInt(n.coefficient), precision);
    if drop == 0 then n else Dropped(n, drop)
  }

  function Exact(n: Number): Number { n }
  function InContext(n: Number): Number { Rounded(n, PRECISION) }

  // ----- powers of ten -----

  lemma {:induction false} PowAdds(m: nat, n: nat)
    ensures Pow10(m + n) == Pow10(m) * Pow10(n)
  {
    if m > 0 {
      PowAdds(m - 1, n);
      assert Pow10(m) * Pow10(n) == 10 * (Pow10(m - 1) * Pow10(n));
    }
  }

  lemma {:induction false} PowMonotone(m: nat, n: nat)
    requires m <= n
    ensures Pow10(m) <= Pow10(n)
  {
    PowAdds(m, n - m);
    assert Pow10(m) * 1 <= Pow10(m) * Pow10(n - m);
  }

  lemma {:induction false} Scaled(c: int, bound: int, factor: int)
    requires 0 <= c < bound && factor >= 1
    ensures 0 <= c * factor < bound * factor && (-c) * factor == -(c * factor)
  {
  }

  lemma {:induction false} NegatedAt(a: Number, e: int)
    requires e <= a.exponent
    ensures At(Negated(a), e) == -At(a, e)
  {
  }

  lemma {:induction false} SumFits(a: Number, b: Number, n: nat)
    requires var e := Min(a.exponent, b.exponent);
             AbsInt(At(a, e)) < Pow10(n) && AbsInt(At(b, e)) < Pow10(n)
    requires n < PRECISION
    ensures InContext(Sum(a, b)) == Sum(a, b)
  {
    PowMonotone(n + 1, PRECISION);
    assert Pow10(n + 1) == 10 * Pow10(n);
    assert AbsInt(Sum(a, b).coefficient) < Pow10(PRECISION);
  }

  // ----- the reals -----

  function Ten(e: int): (t: real)
    ensures t > 0.0
    decreases AbsInt(e)
  {
    if e == 0 then 1.0 else if e > 0 then 10.0 * Ten(e - 1) else Ten(e + 1) / 10.0
  }

  function RealOf(n: Number): real { n.coefficient as real * Ten(n.exponent) }

  lemma {:induction false} TenUp(e: int)
    ensures Ten(e + 1) == 10.0 * Ten(e)
  {
  }

  function TenTimes(t: real, k: nat): real {
    if k == 0 then t else 10.0 * TenTimes(t, k - 1)
  }

  lemma {:induction false} TenSteps(e: int, k: nat)
    ensures Ten(e + k) == TenTimes(Ten(e), k)
    decreases k
  {
    if k > 0 {
      TenSteps(e, k - 1);
      TenUp(e + k - 1);
    }
  }

  lemma {:induction false} TimesPower(t: real, k: nat)
    ensures TenTimes(t, k) == Pow10(k) as real * t
    decreases k
  {
    if k > 0 {
      TimesPower(t, k - 1);
      TenfoldProduct(Pow10(k - 1), t);
    }
  }

  lemma {:induction false} TenfoldProduct(p: int, t: real)
    ensures 10.0 * (p as real * t) == (10 * p) as real * t
  {
    assert (10 * p) as real == 10.0 * p as real;
    assert 10.0 * (p as real * t) == (10.0 * p as real) * t;
  }

  lemma {:induction false} TenAdds(e: int, k: nat)
    ensures Ten(e + k) == Pow10(k) as real * Ten(e)
  {
    TenSteps(e, k);
    TimesPower(Ten(e), k);
  }

  /** Writing a number with a smaller exponent leaves its value alone. */
  lemma {:induction false} AtIsSame(n: Number, e: int)
    requires e <= n.exponent
    ensures At(n, e) as real * Ten(e) == RealOf(n)
  {
    var k := n.exponent - e;
    TenAdds(e, k);
    Times(n.coefficient, Pow10(k), Ten(e), Ten(n.exponent));
  }

  lemma {:induction false} Times(c: int, p: int, t: real, u: real)
    requires u == p as real * t
    ensures (c * p) as real * t == c as real * u
  {
    assert (c * p) as real == c as real * p as real;
    assert (c as real * p as real) * t == c as real * (p as real * t);
  }

  lemma {:induction false} SumIsReal(a: Number, b: Number)
    ensures RealOf(Sum(a, b)) == RealOf(a) + RealOf(b)
  {
    var e := Min(a.exponent, b.exponent);
    AtIsSame(a, e);
    AtIsSame(b, e);
    Distributed(At(a, e), At(b, e), Ten(e));
  }

  lemma {:induction false} Distributed(a: int, b: int, t: real)
    ensures (a + b) as real * t == a as real * t + b as real * t
  {
    assert (a + b) as real == a as real + b as real;
  }

  lemma {:induction false} NegatedIsReal(a: Number)
    ensures RealOf(Negated(a)) == -RealOf(a)
  {
  }

  lemma {:induction false} AtMostIsReal(a: Number, b: Number)
    ensures AtMost(a, b) <==> RealOf(a) <= RealOf(b)
  {
    var e := Min(a.exponent, b.exponent);
    AtIsSame(a, e);
    AtIsSame(b, e);
    Compared(At(a, e), At(b, e), Ten(e), RealOf(a), RealOf(b));
  }

  lemma {:induction false} Compared(x: int, y: int, t: real, u: real, v: real)
    requires t > 0.0 && u == x as real * t && v == y as real * t
    ensures x <= y <==> u <= v
    ensures x == y <==> u == v
  {
    var d := (y - x) as real;
    assert d * t == v - u;
    if d > 0.0 { assert d * t > 0.0; } else if d < 0.0 { assert (-d) * t > 0.0; }
  }

  // ----- when rounding loses nothing -----

  /** At most `precision` significant digits: those beyond are zeros. */
  predicate Representable(n: Number, precision: nat)
    requires precision > 0
  {
    AbsInt(n.coefficient) % Pow10(Excess(AbsInt(n.coefficient), precision)) == 0
  }

  lemma {:induction false} KeptExactly(c: int, unit: int)
    requires unit > 0
    ensures HalfEven(c, unit) * unit == c <==> c % unit == 0
  {
    var kept, rest := c / unit, c % unit;
    assert c == kept * unit + rest && 0 <= rest < unit;
    assert (kept + 1) * unit == kept * unit + unit;
  }

  lemma {:induction false} DroppedExactly(n: Number, drop: nat)
    ensures RealOf(Dropped(n, drop)) == RealOf(n) <==> AbsInt(n.coefficient) % Pow10(drop) == 0
  {
    KeptExactly(AbsInt(n.coefficient), Pow10(drop));
    SignKept(n.coefficient, HalfEven(AbsInt(n.coefficient), Pow10(drop)), Pow10(drop));
    WidenedIs(Dropped(n, drop), n, drop);
  }

  lemma {:induction false} NothingDropped(c: int, precision: nat)
    requires precision > 0 && Excess(AbsInt(c), precision) == 0
    ensures AbsInt(c) % Pow10(Excess(AbsInt(c), precision)) == 0
  {
    assert Pow10(0) == 1;
  }

  /** Rounding keeps the value exactly when no digit is lost. */
  lemma {:induction false} RoundedExactly(n: Number, precision: nat)
    requires precision > 0
    ensures RealOf(Rounded(n, precision)) == RealOf(n) <==> Representable(n, precision)
  {
    var drop := Excess(AbsInt(n.coefficient), precision);
    if drop == 0 { NothingDropped(n.coefficient, precision); } else { DroppedExactly(n, drop); }
  }

  lemma {:induction false} SignKept(c: int, magnitude: int, unit: nat)
    ensures (if c < 0 then -magnitude else magnitude) * unit == c <==> magnitude * unit == AbsInt(c)
  {
    SignedProduct(magnitude, unit);
  }

  lemma {:induction false} WidenedIs(wide: Number, n: Number, drop: nat)
    requires wide.exponent == n.exponent + drop
    ensures RealOf(wide) == RealOf(n) <==> wide.coefficient * Pow10(drop) == n.coefficient
  {
    AtIsSame(wide, n.exponent);
    Compared(wide.coefficient * Pow10(drop), n.coefficient, Ten(n.exponent), RealOf(wide), RealOf(n));
  }

  lemma {:induction false} SignedProduct(m: int, unit: int)
    ensures (-m) * unit == -(m * unit)
  {
  }

  /** So the context never shows on a number of at most 220 digits. */
  lemma {:induction false} ShortIsExact(n: Number)
    requires AbsInt(n.coefficient) < Pow10(PRECISION)
    ensures InContext(n) == n && Representable(n, PRECISION)
  {
  }
}
