/** A condition and its separately stated tolerance (`domain/specification_conditions.py`): when adding and
    subtracting the two in the 220-digit context gives the exact sums, and two strings for which it does not. */
module Merging {
  import opened Wrappers
  import opened Decimals
  import opened Numbers
  import opened Tolerance
  import opened Intervals
  import opened Conditions
  import Nominal
  import NominalRoundTrip

  type Splitter = string -> seq<string>

  /** Splitting at a `to` or a dash loses at least one character. */
  ghost predicate Splits(ranges: Splitter) {
    forall text :: SplitAt(ranges, text)
  }

  ghost predicate SplitAt(ranges: Splitter, text: string) {
    |ranges(text)| == 2 ==> |ranges(text)[0]| + |ranges(text)[1]| < |text|
  }

  // ----- where a number's digits are -----

  /** Written with exponent `e`, the number stays below 10^hi. */
  predicate AtBelow(n: Number, e: int, hi: int) {
    e <= n.exponent && e <= hi ==> AbsInt(At(n, e)) < Pow10(hi - e)
  }

  /** A multiple of 10^lo, of magnitude below 10^hi. */
  ghost predicate Within(n: Number, lo: int, hi: int) {
    lo <= n.exponent && lo <= hi && forall e :: e <= lo ==> AtBelow(n, e, hi)
  }

  lemma {:induction false} WidenWithin(n: Number, lo: int, hi: int, lower: int, higher: int)
    requires Within(n, lo, hi) && lower <= lo && hi <= higher
    ensures Within(n, lower, higher)
  {
    forall e | e <= lower ensures AtBelow(n, e, higher) {
      assert AtBelow(n, e, hi);
      PowMonotone(hi - e, higher - e);
    }
  }

  lemma {:induction false} NegatedWithin(n: Number, lo: int, hi: int)
    requires Within(n, lo, hi)
    ensures Within(Numbers.Negated(n), lo, hi)
  {
    forall e | e <= lo ensures AtBelow(Numbers.Negated(n), e, hi) {
      assert AtBelow(n, e, hi);
      NegatedAt(n, e);
    }
  }

  lemma {:induction false} Rescaled(c: int, p: int, q: int)
    ensures (c * p) * q == c * (p * q)
  {
  }

  lemma {:induction false} AtLower(n: Number, lo: int, lower: int)
    requires lower <= lo <= n.exponent
    ensures At(n, lower) == At(n, lo) * Pow10(lo - lower)
  {
    PowAdds(n.exponent - lo, lo - lower);
    Rescaled(n.coefficient, Pow10(n.exponent - lo), Pow10(lo - lower));
  }

  lemma {:induction false} SumAt(a: Number, b: Number, lo: int)
    requires lo <= a.exponent && lo <= b.exponent
    ensures At(Sum(a, b), lo) == At(a, lo) + At(b, lo)
  {
    var e := Min(a.exponent, b.exponent);
    AtLower(a, e, lo);
    AtLower(b, e, lo);
    Distributes(At(a, e), At(b, e), Pow10(e - lo));
  }

  lemma {:induction false} Distributes(a: int, b: int, p: int)
    ensures (a + b) * p == a * p + b * p
  {
  }

  /** A sum has at most one digit more. */
  lemma {:induction false} SumWithin(a: Number, b: Number, lo: int, hi: int)
    requires Within(a, lo, hi) && Within(b, lo, hi)
    ensures Within(Sum(a, b), lo, hi + 1)
  {
    var above := hi + 1;
    forall e | e <= lo ensures AtBelow(Sum(a, b), e, above) {
      assert AtBelow(a, e, hi) && AtBelow(b, e, hi);
      SumAt(a, b, e);
      assert Pow10(hi + 1 - e) == 10 * Pow10(hi - e);
    }
  }

  /** A number whose digits span at most 220 places is unchanged by the context. */
  lemma {:induction false} SpanIsExact(n: Number, lo: int, hi: int)
    requires Within(n, lo, hi) && hi - lo <= PRECISION
    ensures InContext(n) == n && Representable(n, PRECISION)
  {
    assert AtBelow(n, lo, hi);
    PowMonotone(hi - lo, PRECISION);
    Shrunk(n.coefficient, Pow10(n.exponent - lo));
    ShortIsExact(n);
  }

  lemma {:induction false} Shrunk(c: int, p: int)
    requires p >= 1
    ensures AbsInt(c) <= AbsInt(c * p)
  {
    if c >= 0 { assert c * p >= c; } else { assert (-c) * p >= -c && (-c) * p == -(c * p); }
  }

  lemma {:induction false} SumsAreExact(a: Number, b: Number, lo: int, hi: int)
    requires Within(a, lo, hi) && Within(b, lo, hi) && hi - lo < PRECISION
    ensures SumsExactly(a, b)
  {
    SumWithin(a, b, lo, hi);
    SpanIsExact(Sum(a, b), lo, hi + 1);
    NegatedWithin(b, lo, hi);
    SumWithin(a, Numbers.Negated(b), lo, hi);
    SpanIsExact(Sum(a, Numbers.Negated(b)), lo, hi + 1);
  }

  // ----- what one text can hold -----

  predicate Unprefixed(unit: string) { unit == Tolerance.CELSIUS || unit == "%" }

  /** No prefix ever moves the point in this unit. */
  ghost predicate Unshifted(unit: string) {
    forall e :: UnshiftedBy(unit, e)
  }

  predicate UnshiftedBy(unit: string, e: int) { ShiftOf(unit, e) ==> e == 0 }

  lemma {:induction false} UnprefixedIsUnshifted(unit: string)
    ensures Unshifted(unit) <==> Unprefixed(unit)
  {
    assert UnshiftedBy(unit, 3) <==> Unprefixed(unit);
  }

  /** The longest digits of a quantity in any other unit, with every prefix. */
  predicate Ample(lo: int, hi: int) { lo <= -110 && 107 <= hi }

  lemma {:induction false} ShapeWithin(d: Decimal, whole: nat, fraction: nat, shift: int)
    requires Shape(d, whole, fraction, shift)
    ensures Within(NumberOf(d), shift - fraction, shift + whole)
  {
    var lo, hi := shift - fraction, shift + whole;
    forall e | e <= lo ensures AtBelow(NumberOf(d), e, hi) {
      AtBound(d, whole, fraction, shift, e, whole + shift - e);
    }
  }

  /** Outside Celsius and percent, a quantity is read from at most 98 characters of digits. */
  lemma {:induction false} QuantityShort(raw: string, unit: string, size: int)
    requires QuantityOf(raw, unit).Some? && !Unprefixed(unit) && size >= 98
    ensures Bounded(QuantityOf(raw, unit).value, unit, size)
  {
    var (negative, rest) := Nominal.Unsigned(Nominal.SkipSpaces(raw));
    var number := Nominal.LeadingNumber(rest).value;
    LeadingDigits(rest);
    SymbolLength(number.rest);
    QuantityBound(raw, unit, size);
  }

  lemma {:induction false} ShortWithin(d: Decimal, unit: string, size: int, lo: int, hi: int)
    requires Bounded(d, unit, size) && size <= 98 && unit != "V/s" && Ample(lo, hi)
    ensures Within(NumberOf(d), lo, hi)
  {
    var whole: nat, fraction: nat, shift :| Shape(d, whole, fraction, shift) && ShiftOf(unit, shift) && whole + fraction <= size;
    ShapeWithin(d, whole, fraction, shift);
    WidenWithin(NumberOf(d), shift - fraction, shift + whole, lo, hi);
  }

  lemma {:induction false} QuantitySmall(raw: string, unit: string, lo: int, hi: int)
    requires QuantityOf(raw, unit).Some? && !Unprefixed(unit) && unit != "V/s" && Ample(lo, hi)
    ensures Within(NumberOf(QuantityOf(raw, unit).value), lo, hi)
  {
    QuantityShort(raw, unit, 98);
    ShortWithin(QuantityOf(raw, unit).value, unit, 98, lo, hi);
  }

  /** Whatever is read in this unit has its digits between these places. */
  ghost predicate Spanned(unit: string, lo: int, hi: int) {
    forall raw :: SpannedBy(raw, unit, lo, hi)
  }

  ghost predicate SpannedBy(raw: string, unit: string, lo: int, hi: int) {
    QuantityOf(raw, unit).Some? ==> Within(NumberOf(QuantityOf(raw, unit).value), lo, hi)
  }

  lemma {:induction false} PrefixedIsSpanned(unit: string, lo: int, hi: int)
    requires !Unprefixed(unit) && unit != "V/s" && Ample(lo, hi)
    ensures Spanned(unit, lo, hi)
  {
    forall raw ensures SpannedBy(raw, unit, lo, hi) {
      if QuantityOf(raw, unit).Some? { QuantitySmall(raw, unit, lo, hi); }
    }
  }

  /** The text the first quantity of a pair is read from. */
  lemma {:induction false} FirstText(first: string, second: string, unit: string) returns (text: string)
    requires FirstOf(first, second, unit).Some?
    ensures FirstOf(first, second, unit) == QuantityOf(text, unit)
  {
    text := if IsNumber(first) then first + (" " + TrailingSymbol(second).value) else first;
  }

  lemma {:induction false} FirstSmall(first: string, second: string, unit: string, lo: int, hi: int)
    requires FirstOf(first, second, unit).Some? && Spanned(unit, lo, hi)
    ensures Within(NumberOf(FirstOf(first, second, unit).value), lo, hi)
  {
    var text := FirstText(first, second, unit);
    assert SpannedBy(text, unit, lo, hi);
  }

  /** In Celsius and percent, digits are bounded by the length of the text. */
  lemma {:induction false} PlainWithin(d: Decimal, unit: string, size: int) returns (lo: int, hi: int)
    requires Bounded(d, unit, size) && Unshifted(unit)
    ensures lo <= 0 <= hi && hi - lo <= size && Within(NumberOf(d), lo, hi)
  {
    var w: nat, f: nat, shift :| Shape(d, w, f, shift) && ShiftOf(unit, shift) && w + f <= size;
    lo, hi := 0 - f, w;
    assert UnshiftedBy(unit, shift);
    ShapeWithin(d, w, f, shift);
  }

  // ----- both endpoints of an interval -----

  ghost predicate BothWithin(endpoints: (Number, Number), lo: int, hi: int) {
    Within(endpoints.0, lo, hi) && Within(endpoints.1, lo, hi)
  }

  /** What is done with a pair of quantities keeps their digits, and at most one more. */
  lemma {:induction false} AroundWithin(l: Number, r: Number, lo: int, hi: int)
    requires Within(l, lo, hi) && Within(r, lo, hi)
    ensures Around(l, r, Exact).Some? ==> BothWithin(Around(l, r, Exact).value, lo, hi + 1)
    ensures Within(l, lo, hi + 1) && Within(r, lo, hi + 1)
  {
    SumWithin(l, r, lo, hi);
    NegatedWithin(r, lo, hi);
    SumWithin(l, Numbers.Negated(r), lo, hi);
    WidenWithin(l, lo, hi, lo, hi + 1);
    WidenWithin(r, lo, hi, lo, hi + 1);
  }

  lemma {:induction false} PiecesLength(text: string, ranges: Splitter, pieces: seq<string>)
    requires Splits(ranges) && |pieces| == 2
    requires pieces == if PLUS_MINUS in text then Split(text, PLUS_MINUS) else ranges(Nominal.Strip(text))
    ensures |Nominal.Strip(pieces[0])| + |Nominal.Strip(pieces[1])| < |text|
  {
    StripLength(pieces[0]);
    StripLength(pieces[1]);
    if PLUS_MINUS in text {
      SplitLengths(text, PLUS_MINUS);
      TwoLengths(pieces);
    } else {
      StripLength(text);
      assert SplitAt(ranges, Nominal.Strip(text));
    }
  }

  lemma {:induction false} PairSpan(first: string, second: string, unit: string) returns (lo: int, hi: int)
    requires PairOf(first, second, unit).Some? && Unshifted(unit)
    ensures lo <= 0 <= hi && hi - lo < |first| + |second|
    ensures Within(NumberOf(PairOf(first, second, unit).value.0), lo, hi)
    ensures Within(NumberOf(PairOf(first, second, unit).value.1), lo, hi)
  {
    PairBound(first, second, unit);
    var pair := PairOf(first, second, unit).value;
    var lo1, hi1 := PlainWithin(pair.0, unit, |first|);
    var lo2, hi2 := PlainWithin(pair.1, unit, |second| - 1);
    lo, hi := lo1 + lo2, hi1 + hi2;
    WidenWithin(NumberOf(pair.0), lo1, hi1, lo, hi);
    WidenWithin(NumberOf(pair.1), lo2, hi2, lo, hi);
  }

  lemma {:induction false} PointSpan(raw: string, unit: string) returns (lo: int, hi: int)
    requires QuantityOf(raw, unit).Some? && Unshifted(unit)
    ensures lo <= 0 <= hi && hi - lo < |raw| && Within(NumberOf(QuantityOf(raw, unit).value), lo, hi)
  {
    PlainBound(raw, unit);
    lo, hi := PlainWithin(QuantityOf(raw, unit).value, unit, |raw| - 1);
  }

  lemma {:induction false} PiecesSpan(first: string, second: string, unit: string, size: int) returns (lo: int, hi: int)
    requires PairOf(first, second, unit).Some? && Unshifted(unit) && |first| + |second| < size
    ensures lo <= 0 <= hi && hi - lo < size
    ensures var l, r := NumberOf(PairOf(first, second, unit).value.0), NumberOf(PairOf(first, second, unit).value.1);
            && Within(l, lo, hi) && Within(r, lo, hi)
            && (Around(l, r, Exact).Some? ==> BothWithin(Around(l, r, Exact).value, lo, hi))
  {
    lo, hi := PairSpan(first, second, unit);
    AroundWithin(NumberOf(PairOf(first, second, unit).value.0), NumberOf(PairOf(first, second, unit).value.1), lo, hi);
    hi := hi + 1;
  }

  /** The endpoints of an interval: a point, the two quantities, or what the tolerance makes of them. */
  lemma {:induction false} EndpointsAre(raw: string, unit: string, ranges: Splitter, text: string, pieces: seq<string>)
    requires IntervalOf(raw, unit, ranges, Exact).Some? && text == ReplaceMinus(raw)
    requires pieces == if PLUS_MINUS in text then Split(text, PLUS_MINUS) else ranges(Nominal.Strip(text))
    ensures var point, value := QuantityOf(text, unit), IntervalOf(raw, unit, ranges, Exact).value;
            if point.Some? then value == (NumberOf(point.value), NumberOf(point.value))
            else
              && |pieces| == 2 && PairOf(Nominal.Strip(pieces[0]), Nominal.Strip(pieces[1]), unit).Some?
              && var pair := PairOf(Nominal.Strip(pieces[0]), Nominal.Strip(pieces[1]), unit).value;
                 var l, r := NumberOf(pair.0), NumberOf(pair.1);
                 if PLUS_MINUS in text then Around(l, r, Exact) == Some(value) else value == (l, r)
  {
  }

  lemma {:induction false} PiecesSmall(first: string, second: string, unit: string, lo: int, hi: int)
    requires PairOf(first, second, unit).Some? && Spanned(unit, lo, hi)
    ensures var l, r := NumberOf(PairOf(first, second, unit).value.0), NumberOf(PairOf(first, second, unit).value.1);
            && Within(l, lo, hi + 1) && Within(r, lo, hi + 1)
            && (Around(l, r, Exact).Some? ==> BothWithin(Around(l, r, Exact).value, lo, hi + 1))
  {
    FirstSmall(first, second, unit, lo, hi);
    assert SpannedBy(second, unit, lo, hi);
    AroundWithin(NumberOf(PairOf(first, second, unit).value.0), NumberOf(PairOf(first, second, unit).value.1), lo, hi);
  }

  lemma {:induction false} IntervalSmall(raw: string, unit: string, ranges: Splitter, lo: int, hi: int)
    requires IntervalOf(raw, unit, ranges, Exact).Some? && Spanned(unit, lo, hi) && Spanned(unit, lo, hi + 1)
    ensures BothWithin(IntervalOf(raw, unit, ranges, Exact).value, lo, hi + 1)
  {
    var text := ReplaceMinus(raw);
    var pieces := if PLUS_MINUS in text then Split(text, PLUS_MINUS) else ranges(Nominal.Strip(text));
    EndpointsAre(raw, unit, ranges, text, pieces);
    if QuantityOf(text, unit).Some? {
      assert SpannedBy(text, unit, lo, hi + 1);
    } else {
      PiecesSmall(Nominal.Strip(pieces[0]), Nominal.Strip(pieces[1]), unit, lo, hi);
    }
  }

  /** In Celsius and percent, the digits of an interval span fewer places than its text has characters. */
  lemma {:induction false} IntervalSpan(raw: string, unit: string, ranges: Splitter) returns (lo: int, hi: int)
    requires IntervalOf(raw, unit, ranges, Exact).Some? && Unshifted(unit) && Splits(ranges)
    ensures lo <= 0 <= hi && hi - lo < |raw|
    ensures BothWithin(IntervalOf(raw, unit, ranges, Exact).value, lo, hi)
  {
    var text := ReplaceMinus(raw);
    var pieces := if PLUS_MINUS in text then Split(text, PLUS_MINUS) else ranges(Nominal.Strip(text));
    EndpointsAre(raw, unit, ranges, text, pieces);
    if QuantityOf(text, unit).Some? {
      lo, hi := PointSpan(text, unit);
    } else {
      PiecesLength(text, ranges, pieces);
      lo, hi := PiecesSpan(Nominal.Strip(pieces[0]), Nominal.Strip(pieces[1]), unit, |text|);
    }
  }

  // ----- the merge -----

  /** The reader of condition texts the service uses. */
  function CodeReader(ranges: Splitter): Reader {
    Reader((text, unit) => IntervalOf(text, unit, ranges, InContext), InContext)
  }

  ghost predicate MergesExactly(center: Number, delta: Number) {
    Merged(center, delta, InContext) == Interval(RealOf(center) - RealOf(delta), RealOf(center) + RealOf(delta))
  }

  /** The merged condition is the exact center ± tolerance exactly when neither sum loses a digit. */
  lemma {:induction false} MergeIsExactWhen(center: Number, delta: Number)
    ensures MergesExactly(center, delta) <==>
              Representable(Sum(center, Numbers.Negated(delta)), PRECISION) && Representable(Sum(center, delta), PRECISION)
  {
    SumIsReal(center, delta);
    SumIsReal(center, Numbers.Negated(delta));
    NegatedIsReal(delta);
    RoundedExactly(Sum(center, delta), PRECISION);
    RoundedExactly(Sum(center, Numbers.Negated(delta)), PRECISION);
  }

  /** What a caller can check: any dimension but Celsius and percent, or two texts of together at most 221
      characters. */
  predicate Mergeable(center: string, delta: string, unit: string) {
    |center| <= 200 && |delta| <= 200 && unit != "V/s" && (Unprefixed(unit) ==> |center| + |delta| <= 221)
  }

  lemma {:induction false} SpansAreExact(c: Number, d: Number, lo1: int, hi1: int, lo2: int, hi2: int)
    requires Within(c, lo1, hi1) && Within(d, lo2, hi2)
    requires lo1 <= 0 <= hi1 && lo2 <= 0 <= hi2 && (hi1 - lo1) + (hi2 - lo2) < PRECISION
    ensures SumsExactly(c, d)
  {
    WidenWithin(c, lo1, hi1, lo1 + lo2, hi1 + hi2);
    WidenWithin(d, lo2, hi2, lo1 + lo2, hi1 + hi2);
    SumsAreExact(c, d, lo1 + lo2, hi1 + hi2);
  }

  lemma {:induction false} ShortSums(center: string, delta: string, unit: string, ranges: Splitter)
    requires Splits(ranges) && Unshifted(unit) && |center| + |delta| <= 221
    requires IntervalOf(center, unit, ranges, Exact).Some? && IntervalOf(delta, unit, ranges, Exact).Some?
    ensures SumsExactly(IntervalOf(center, unit, ranges, Exact).value.0, IntervalOf(delta, unit, ranges, Exact).value.0)
  {
    var c, d := IntervalOf(center, unit, ranges, Exact).value.0, IntervalOf(delta, unit, ranges, Exact).value.0;
    var lo1, hi1 := IntervalSpan(center, unit, ranges);
    var lo2, hi2 := IntervalSpan(delta, unit, ranges);
    SpansAreExact(c, d, lo1, hi1, lo2, hi2);
  }

  predicate SumsExactly(a: Number, b: Number) {
    InContext(Sum(a, b)) == Sum(a, b) && InContext(Sum(a, Numbers.Negated(b))) == Sum(a, Numbers.Negated(b))
  }

  lemma {:induction false} SmallSums(center: string, delta: string, unit: string, ranges: Splitter, lo: int, hi: int)
    requires Spanned(unit, lo, hi) && Spanned(unit, lo, hi + 1) && hi - lo <= 217
    requires IntervalOf(center, unit, ranges, Exact).Some? && IntervalOf(delta, unit, ranges, Exact).Some?
    ensures SumsExactly(IntervalOf(center, unit, ranges, Exact).value.0, IntervalOf(delta, unit, ranges, Exact).value.0)
  {
    IntervalSmall(center, unit, ranges, lo, hi);
    IntervalSmall(delta, unit, ranges, lo, hi);
    SumsAreExact(IntervalOf(center, unit, ranges, Exact).value.0, IntervalOf(delta, unit, ranges, Exact).value.0, lo, hi + 1);
  }

  lemma {:induction false} PrefixedSums(center: string, delta: string, unit: string, ranges: Splitter, lo: int, hi: int)
    requires !Unprefixed(unit) && unit != "V/s" && Ample(lo, hi) && hi - lo <= 217
    requires IntervalOf(center, unit, ranges, Exact).Some? && IntervalOf(delta, unit, ranges, Exact).Some?
    ensures SumsExactly(IntervalOf(center, unit, ranges, Exact).value.0, IntervalOf(delta, unit, ranges, Exact).value.0)
  {
    PrefixedIsSpanned(unit, lo, hi);
    PrefixedIsSpanned(unit, lo, hi + 1);
    SmallSums(center, delta, unit, ranges, lo, hi);
  }

  lemma {:induction false} ExactSumsMerge(c: Number, d: Number)
    requires SumsExactly(c, d)
    ensures MergesExactly(c, d)
  {
    SumIsReal(c, d);
    SumIsReal(c, Numbers.Negated(d));
    NegatedIsReal(d);
  }

  /** Then the two scalars are merged without rounding. */
  lemma {:induction false} ShortTextsMergeExactly(center: string, delta: string, unit: string, ranges: Splitter)
    requires Splits(ranges) && Mergeable(center, delta, unit)
    requires IntervalOf(center, unit, ranges, InContext).Some? && IntervalOf(delta, unit, ranges, InContext).Some?
    ensures MergesExactly(IntervalOf(center, unit, ranges, InContext).value.0, IntervalOf(delta, unit, ranges, InContext).value.0)
  {
    ContextIsExact(center, unit, ranges);
    ContextIsExact(delta, unit, ranges);
    UnprefixedIsUnshifted(unit);
    if Unshifted(unit) { ShortSums(center, delta, unit, ranges); } else { PrefixedSums(center, delta, unit, ranges, -110, 107); }
    ExactSumsMerge(IntervalOf(center, unit, ranges, Exact).value.0, IntervalOf(delta, unit, ranges, Exact).value.0);
  }

  /** In the comparable form of conditions: the merged range is the exact center ± tolerance exactly when the
      sums keep all their digits, which two texts a caller finds mergeable always do. */
  lemma {:induction false} CombinedExactly(raw: Stated, ranges: Splitter, dimension: (string, string))
    requires Splits(ranges) && dimension.0 in raw && ToleranceKey(dimension.0) in raw
    requires Combined(raw, CodeReader(ranges), dimension).Some?
    ensures var (key, unit) := dimension;
            var center, delta := IntervalOf(raw[key], unit, ranges, InContext), IntervalOf(raw[ToleranceKey(key)], unit, ranges, InContext);
            && center.Some? && delta.Some?
            && var c, d := center.value.0, delta.value.0;
               var exact := Combined(raw, CodeReader(ranges), dimension) == Some(Interval(RealOf(c) - RealOf(d), RealOf(c) + RealOf(d)));
               && (exact <==> Representable(Sum(c, Numbers.Negated(d)), PRECISION) && Representable(Sum(c, d), PRECISION))
               && (Mergeable(raw[key], raw[ToleranceKey(key)], unit) ==> exact)
  {
    var (key, unit) := dimension;
    var center, delta := IntervalOf(raw[key], unit, ranges, InContext), IntervalOf(raw[ToleranceKey(key)], unit, ranges, InContext);
    MergeIsExactWhen(center.value.0, delta.value.0);
    if Mergeable(raw[key], raw[ToleranceKey(key)], unit) { ShortTextsMergeExactly(raw[key], raw[ToleranceKey(key)], unit, ranges); }
  }

  // ----- two strings that do not merge exactly -----

  const PLACES: nat := 196

  function Long(unit: string): string { ("1" + Zeros(PLACES + 2)) + unit }
  function Tiny(unit: string): string { "0" + (['.'] + ((Zeros(PLACES) + "1") + unit)) }

  /** The unit is one word, and no number runs on into it. */
  predicate Symbol(unit: string) {
    Unprefixed(unit) && Nominal.SymbolAfter(unit) == Some(unit) && NominalRoundTrip.NotNumeric(unit)
  }

  lemma {:induction false} PowerCoefficient(n: nat)
    ensures Tolerance.Coefficient("1" + Zeros(n)) == Pow10(n)
  {
    if n == 0 {
      assert "1" + Zeros(0) == "1" && "1"[..0] == "";
    } else {
      var s := "1" + Zeros(n);
      assert s[..|s| - 1] == "1" + Zeros(n - 1) && s[|s| - 1] == '0';
      PowerCoefficient(n - 1);
    }
  }

  lemma {:induction false} LeadingDropped(n: nat)
    ensures Decimals.Coefficient(Zeros(n) + "1") == "1"
  {
    if n > 0 {
      var s := Zeros(n) + "1";
      assert s[1..] == Zeros(n - 1) + "1";
      LeadingDropped(n - 1);
    } else {
      assert Zeros(0) + "1" == "1";
    }
  }

  lemma {:induction false} PercentSymbol(s: string)
    requires s == "%"
    ensures Symbol(s)
  {
    assert s[1..] == [] && Nominal.NonSpaces(s[1..]) == [];
    assert Nominal.SkipSpaces(s) == s && Nominal.NonSpaces(s) == s;
    assert s[|s|..] == [];
  }

  /** An unsigned number with the unit itself as its symbol is that number. */
  lemma {:induction false} PercentReads(text: string, unit: string, number: Nominal.Number)
    requires text != [] && IsDigit(text[0]) && number.Valid() && Nominal.LeadingNumber(text) == Some(number)
    requires Unprefixed(unit) && Nominal.SymbolAfter(number.rest) == Some(unit)
    ensures QuantityOf(text, unit) == Some(FromParts(number.whole, number.fraction))
  {
    assert Nominal.Unsigned(Nominal.SkipSpaces(text)) == (false, text);
    assert number.Value().(negative := false) == number.Value();
  }

  predicate ReadsAs(text: string, unit: string, n: Number) {
    QuantityOf(text, unit).Some? && NumberOf(QuantityOf(text, unit).value) == n
  }

  lemma {:induction false} LongReads(n: nat, unit: string)
    requires Symbol(unit)
    ensures ReadsAs(("1" + Zeros(n)) + unit, unit, Number(Pow10(n), 0))
  {
    var whole := "1" + Zeros(n);
    NominalRoundTrip.WholeNumber(whole, unit);
    assert (whole + unit)[0] == '1' && whole + "" == whole;
    PercentReads(whole + unit, unit, Nominal.Number(whole, "", unit));
    PowerCoefficient(n);
  }

  lemma {:induction false} OneCoefficient(digits: string)
    requires digits == "1"
    ensures Tolerance.Coefficient(digits) == 1
  {
    assert digits[..0] == "";
  }

  lemma {:induction false} FractionReads(whole: string, fraction: string, unit: string)
    requires Symbol(unit) && whole != [] && AllDigits(whole) && fraction != [] && AllDigits(fraction)
    ensures QuantityOf(whole + (['.'] + (fraction + unit)), unit) == Some(FromParts(whole, fraction))
  {
    var text := whole + (['.'] + (fraction + unit));
    NominalRoundTrip.FractionNumber(whole, fraction, unit);
    assert text[0] == whole[0];
    PercentReads(text, unit, Nominal.Number(whole, fraction, unit));
  }

  lemma {:induction false} TinyIs(n: nat, whole: string)
    requires whole == "0"
    ensures NumberOf(FromParts(whole, Zeros(n) + "1")) == Number(1, 0 - (n + 1))
  {
    var fraction := Zeros(n) + "1";
    assert whole + fraction == Zeros(n + 1) + "1";
    LeadingDropped(n + 1);
    OneCoefficient(FromParts(whole, fraction).digits);
  }

  lemma {:induction false} TinyReads(n: nat, unit: string, whole: string)
    requires Symbol(unit) && whole == "0"
    ensures ReadsAs(whole + (['.'] + ((Zeros(n) + "1") + unit)), unit, Number(1, 0 - (n + 1)))
  {
    FractionReads(whole, Zeros(n) + "1", unit);
    TinyIs(n, whole);
  }

  lemma {:induction false} NoMinusSign(text: string)
    requires forall i :: 0 <= i < |text| ==> IsDigit(text[i]) || text[i] == '.' || text[i] == '%'
    ensures ReplaceMinus(text) == text
  {
  }

  lemma {:induction false} LongChars(n: nat, unit: string)
    requires unit == "%"
    ensures var text := ("1" + Zeros(n)) + unit; |text| == n + 2 && ReplaceMinus(text) == text
  {
    NoMinusSign(("1" + Zeros(n)) + unit);
  }

  lemma {:induction false} TinyChars(n: nat, unit: string)
    requires unit == "%"
    ensures var text := "0" + (['.'] + ((Zeros(n) + "1") + unit)); |text| == n + 4 && ReplaceMinus(text) == text
  {
    NoMinusSign("0" + (['.'] + ((Zeros(n) + "1") + unit)));
  }

  /** A number ending in 1 with more than 220 digits is not representable. */
  lemma {:induction false} LastDigitLost(c: nat, drop: nat)
    requires drop > 0 && c % 10 == 1
    ensures c % Pow10(drop) != 0
  {
    var unit := Pow10(drop);
    assert unit == 10 * Pow10(drop - 1);
    if c % unit == 0 { Multiple(c, Pow10(drop - 1), c / unit); }
  }

  lemma {:induction false} Multiple(c: int, p: int, k: int)
    requires c == (10 * p) * k
    ensures c % 10 == 0
  {
    assert c == 10 * (p * k);
  }

  lemma {:induction false} FarSum(m: nat, n: nat)
    ensures Sum(Number(Pow10(m), 0), Number(1, 0 - n)) == Number(Pow10(m + n) + 1, 0 - n)
  {
    PowAdds(m, n);
    assert Pow10(0) == 1;
  }

  lemma {:induction false} TooLong(c: nat, size: nat, precision: nat)
    requires precision > 0 && size >= precision && c == Pow10(size) + 1
    ensures c % Pow10(Excess(c, precision)) != 0
  {
    PowMonotone(precision, size);
    assert Pow10(size) == 10 * Pow10(size - 1);
    LastDigitLost(c, Excess(c, precision));
  }

  lemma {:induction false} TooFarApart(m: nat, n: nat, precision: nat)
    requires precision > 0 && m + n >= precision
    ensures !Representable(Sum(Number(Pow10(m), 0), Number(1, 0 - n)), precision)
  {
    FarSum(m, n);
    TooLong(Pow10(m + n) + 1, m + n, precision);
  }

  lemma {:induction false} PointReads(text: string, unit: string, ranges: Splitter, n: Number)
    requires ReadsAs(text, unit, n) && ReplaceMinus(text) == text
    ensures IntervalOf(text, unit, ranges, InContext) == Some((n, n))
  {
  }

  predicate ReadScalar(endpoints: Option<(Number, Number)>) { endpoints.Some? && endpoints.value.0 == endpoints.value.1 }

  /** Two percentages of 200 characters each, both read exactly, whose merge is rounded. */
  lemma {:induction false} LongTextsMergeInexactly(unit: string, ranges: Splitter)
    requires unit == "%"
    ensures |Long(unit)| == 200 && |Tiny(unit)| == 200
    ensures var c, d := IntervalOf(Long(unit), unit, ranges, InContext), IntervalOf(Tiny(unit), unit, ranges, InContext);
            ReadScalar(c) && ReadScalar(d) && !MergesExactly(c.value.0, d.value.0)
  {
    PercentSymbol(unit);
    LongReads(PLACES + 2, unit);
    TinyReads(PLACES, unit, "0");
    LongChars(PLACES + 2, unit);
    TinyChars(PLACES, unit);
    FarReads(Long(unit), Tiny(unit), unit, ranges, PLACES + 2, PLACES + 1);
  }

  lemma {:induction false} FarReads(long: string, tiny: string, unit: string, ranges: Splitter, m: nat, n: nat)
    requires ReadsAs(long, unit, Number(Pow10(m), 0)) && ReplaceMinus(long) == long
    requires ReadsAs(tiny, unit, Number(1, 0 - n)) && ReplaceMinus(tiny) == tiny
    requires n > 0 && m + n >= PRECISION
    ensures var c, d := IntervalOf(long, unit, ranges, InContext), IntervalOf(tiny, unit, ranges, InContext);
            ReadScalar(c) && ReadScalar(d) && !MergesExactly(c.value.0, d.value.0)
  {
    PointReads(long, unit, ranges, Number(Pow10(m), 0));
    PointReads(tiny, unit, ranges, Number(1, 0 - n));
    TooFarApart(m, n, PRECISION);
    MergeIsExactWhen(Number(Pow10(m), 0), Number(1, 0 - n));
  }
}
