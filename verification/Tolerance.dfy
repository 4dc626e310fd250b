/** Reading an interval (`interval` in `domain/quantities.py`): a scalar, an explicit range, or a center
    with a tolerance, whose endpoints are computed in a 220-digit decimal context. Within the lengths the
    domain admits, that context never rounds. */
module Tolerance {
  import opened Wrappers
  import opened Decimals
  import Nominal
  import opened NominalRoundTrip
  import opened Numbers

  const PLUS_MINUS: char := '\U{B1}'
  const MINUS_SIGN: char := '\U{2212}'
  const CELSIUS: string := "\U{B0}C"

  // ----- the number a decimal stands for -----

  function DigitValue(c: char): nat { if IsDigit(c) then c as int - '0' as int else 0 }

  function Coefficient(digits: string): nat {
    if digits == "" then 0 else 10 * Coefficient(digits[..|digits| - 1]) + DigitValue(digits[|digits| - 1])
  }

  function NumberOf(d: Decimal): Number {
    Number(if d.negative then -(Coefficient(d.digits) as int) else Coefficient(d.digits), d.exponent)
  }

  // ----- reading one quantity -----

  /** `_quantity`: one signed quantity with its unit. */
  function QuantityOf(raw: string, unit: string): (d: Option<Decimal>)
    ensures d.Some? ==> d.value.Valid()
  {
    var (negative, rest) := Nominal.Unsigned(Nominal.SkipSpaces(raw));
    match Nominal.LeadingNumber(rest)
    case None => None
    case Some(number) =>
      match Nominal.SymbolAfter(number.rest)
      case None => None
      case Some(symbol) =>
        if unit == CELSIUS || unit == "%" then
          if symbol == unit then Some(number.Value().(negative := negative)) else None
        else
          match Nominal.NumericValue(NumberText(rest, number) + " " + symbol, unit)
          case None => None
          case Some(d) => Some(d.(negative := negative))
  }

  /** The text a leading number was read from. */
  function NumberText(s: string, number: Nominal.Number): string {
    if |number.rest| <= |s| then s[..|s| - |number.rest|] else ""
  }

  // ----- reading an interval -----

  function ReplaceMinus(s: string): (t: string)
    ensures |t| == |s|
  {
    seq(|s|, i requires 0 <= i < |s| => if s[i] == MINUS_SIGN then '-' else s[i])
  }

  /** `raw.split(mark)`. */
  function Split(s: string, mark: char): (pieces: seq<string>)
    ensures |pieces| >= 1
    decreases |s|
  {
    if s == "" then [""]
    else
      var rest := Split(s[1..], mark);
      if s[0] == mark then [""] + rest else [[s[0]] + rest[0]] + rest[1..]
  }

  predicate IsNumber(s: string) {
    var (_, rest) := Nominal.Unsigned(s);
    var n := Nominal.LeadingNumber(rest);
    n.Some? && n.value.rest == []
  }

  /** The unit a trailing quantity lends to a bare leading number. */
  function TrailingSymbol(s: string): Option<string> {
    var (_, rest) := Nominal.Unsigned(Nominal.SkipSpaces(s));
    match Nominal.LeadingNumber(rest)
    case None => None
    case Some(number) => Nominal.SymbolAfter(number.rest)
  }

  /** The first quantity of a pair, with its own unit or the other's. */
  function FirstOf(first: string, second: string, unit: string): (d: Option<Decimal>)
    ensures d.Some? ==> d.value.Valid()
  {
    if !IsNumber(first) then QuantityOf(first, unit)
    else match TrailingSymbol(second)
         case None => None
         case Some(symbol) => QuantityOf(first + (" " + symbol), unit)
  }

  /** The two quantities of an interval in two pieces. */
  function PairOf(first: string, second: string, unit: string): (pair: Option<(Decimal, Decimal)>)
    ensures pair.Some? ==> pair.value.0.Valid() && pair.value.1.Valid()
  {
    var left, right := FirstOf(first, second, unit), QuantityOf(second, unit);
    if left.Some? && right.Some? then Some((left.value, right.value)) else None
  }

  /** `interval`, with arithmetic rounded to `precision` digits; `ranges` splits a text at an explicit
      `to` or dash. */
  function IntervalOf(raw: string, unit: string, ranges: string -> seq<string>, round: Number -> Number): Option<(Number, Number)> {
    var text := ReplaceMinus(raw);
    var point := QuantityOf(text, unit);
    if point.Some? then Some((NumberOf(point.value), NumberOf(point.value)))
    else
      var tolerance := PLUS_MINUS in text;
      var pieces := if tolerance then Split(text, PLUS_MINUS) else ranges(Nominal.Strip(text));
      if |pieces| != 2 then None
      else
        match PairOf(Nominal.Strip(pieces[0]), Nominal.Strip(pieces[1]), unit)
        case None => None
        case Some((l, r)) =>
          if tolerance then Around(NumberOf(l), NumberOf(r), round)
          else if AtMost(NumberOf(l), NumberOf(r)) then Some((NumberOf(l), NumberOf(r))) else None
  }

  /** `center - tolerance` and `center + tolerance`. */
  function Around(center: Number, tolerance: Number, round: Number -> Number): Option<(Number, Number)> {
    if AtMost(Number(0, 0), tolerance)
    then Some((round(Sum(center, Negated(tolerance))), round(Sum(center, tolerance)))) else None
  }

  // ----- how long a number can be -----

  /** A number with `whole` digits before the point and `fraction` after it, shifted. */
  predicate Shape(d: Decimal, whole: nat, fraction: nat, shift: int) {
    |d.digits| <= whole + fraction && d.exponent == shift - fraction && AllDigits(d.digits)
  }

  lemma {:induction false} LeadingDigits(s: string)
    requires Nominal.LeadingNumber(s).Some?
    ensures var n := Nominal.LeadingNumber(s).value; |n.whole| + |n.fraction| + |n.rest| <= |s|
  {
  }

  lemma {:induction false} CoefficientLength(s: string)
    requires s != [] && AllDigits(s)
    ensures |Decimals.Coefficient(s)| <= |s|
  {
    if |s| > 1 && s[0] == '0' { CoefficientLength(s[1..]); }
  }

  lemma {:induction false} SkipLength(s: string)
    ensures |Nominal.SkipSpaces(s)| <= |s|
  {
  }

  lemma {:induction false} SymbolLength(rest: string)
    requires Nominal.SymbolAfter(rest).Some?
    ensures 1 <= |Nominal.SymbolAfter(rest).value| <= |rest|
  {
    SkipLength(rest);
  }

  lemma {:induction false} PrefixRange(prefix: string)
    requires Nominal.Prefix(prefix).Some?
    ensures -12 <= Nominal.Prefix(prefix).value <= 9
  {
  }

  lemma {:induction false} ShiftRange(symbol: string, unit: string)
    requires Nominal.SymbolExponent(symbol, unit).Some?
    ensures var e := Nominal.SymbolExponent(symbol, unit).value;
            if unit == "V/s" then -21 <= e <= 21 else -12 <= e <= 9
  {
    var s := Nominal.SpelledOhms(symbol);
    if unit == "V/s" {
      RateRange(s);
    } else if unit != "%" && unit != "ratio" {
      PrefixRange(Nominal.Without(s, unit));
    }
  }

  lemma {:induction false} RateRange(symbol: string)
    requires Nominal.Rate(symbol).Some?
    ensures -21 <= Nominal.Rate(symbol).value <= 21
  {
    if symbol[..1] == "V" && symbol[1..2] == "/" {
      PrefixRange(symbol[2..|symbol| - 1]);
    } else {
      PrefixRange(symbol[..1]);
      PrefixRange(symbol[3..|symbol| - 1]);
    }
  }

  predicate ShiftOf(unit: string, e: int) {
    if unit == CELSIUS || unit == "%" then e == 0
    else if unit == "V/s" then -21 <= e <= 21 else -12 <= e <= 9
  }

  /** A value read with a unit symbol is bounded by the length of its text. */
  ghost predicate Bounded(d: Decimal, unit: string, size: int) {
    exists whole: nat, fraction: nat, shift :: Shape(d, whole, fraction, shift) && ShiftOf(unit, shift) && whole + fraction <= size
  }

  lemma {:induction false} ValueShape(number: Nominal.Number, negative: bool, shift: int)
    requires number.Valid()
    ensures Shape(Shifted(number.Value(), shift).(negative := negative), |number.whole|, |number.fraction|, shift)
  {
    CoefficientLength(number.whole + number.fraction);
  }

  lemma {:induction false} WholeSplit(s: string)
    requires Nominal.LeadingNumber(s).Some? && Nominal.LeadingNumber(s).value.fraction == []
    ensures s == Nominal.LeadingNumber(s).value.whole + Nominal.LeadingNumber(s).value.rest
  {
  }

  lemma {:induction false} Cut(s: string, n: nat)
    requires n <= |s|
    ensures s == s[..n] + s[n..]
  {
  }

  lemma {:induction false} FractionShape(s: string, rest: string)
    requires Nominal.LeadingNumber(s).Some? && Nominal.LeadingNumber(s).value.fraction != []
    requires rest == s[|Nominal.LeadingNumber(s).value.whole|..]
    ensures var n := Nominal.LeadingNumber(s).value;
            && n.whole == s[..|n.whole|] && rest != [] && rest[0] == '.'
            && |n.fraction| < |rest| && n.fraction == rest[1..][..|n.fraction|] && n.rest == rest[1..][|n.fraction|..]
  {
    assert rest[1..][|Nominal.Digits(rest[1..])|..] == rest[1 + |Nominal.Digits(rest[1..])|..];
  }

  lemma {:induction false} FractionSplit(s: string)
    requires Nominal.LeadingNumber(s).Some? && Nominal.LeadingNumber(s).value.fraction != []
    ensures var n := Nominal.LeadingNumber(s).value; s == n.whole + PointAnd(n.fraction) + n.rest
  {
    var n := Nominal.LeadingNumber(s).value;
    var rest := s[|n.whole|..];
    FractionShape(s, rest);
    assert s == n.whole + rest by { Cut(s, |n.whole|); }
    assert rest[1..] == n.fraction + n.rest by { Cut(rest[1..], |n.fraction|); }
    assert rest == ['.'] + rest[1..];
    PointSplit(n.whole, n.fraction, n.rest);
  }

  /** A leading number is its digits, in place. */
  lemma {:induction false} NumberSplit(s: string)
    requires Nominal.LeadingNumber(s).Some?
    ensures var n := Nominal.LeadingNumber(s).value;
            |n.rest| <= |s| && NumberText(s, n) == n.whole + PointAnd(n.fraction)
  {
    var n := Nominal.LeadingNumber(s).value;
    if n.fraction == [] {
      WholeSplit(s);
      Before(n.whole, n.rest);
    } else {
      FractionSplit(s);
      Before(n.whole + PointAnd(n.fraction), n.rest);
    }
  }

  lemma {:induction false} Before(head: string, tail: string)
    ensures (head + tail)[..|head + tail| - |tail|] == head
  {
  }

  lemma {:induction false} PlainReread(whole: string, fraction: string, tail: string)
    requires AllDigits(whole) && AllDigits(fraction) && whole + fraction != [] && NotNumeric(tail)
    ensures Nominal.LeadingNumber(whole + PointAnd(fraction) + tail) == Some(Nominal.Number(whole, fraction, tail))
  {
    if fraction == [] {
      assert whole + PointAnd(fraction) == whole && whole + fraction == whole;
      WholeNumber(whole, tail);
    } else {
      PointSplit(whole, fraction, tail);
      FractionNumber(whole, fraction, tail);
    }
  }

  /** A number reads the same in front of any text that starts with a blank. */
  lemma {:induction false} NumberReread(s: string, tail: string)
    requires Nominal.LeadingNumber(s).Some? && tail != [] && tail[0] == ' '
    ensures var n := Nominal.LeadingNumber(s).value;
            && |n.rest| <= |s| && |n.whole| + |n.fraction| <= |s| - |n.rest|
            && Nominal.LeadingNumber(NumberText(s, n) + tail) == Some(n.(rest := tail))
  {
    var n := Nominal.LeadingNumber(s).value;
    NumberSplit(s);
    PlainReread(n.whole, n.fraction, tail);
  }

  lemma {:induction false} NumericIs(text: string, number: Nominal.Number, symbol: string, unit: string)
    requires text != [] && !Nominal.IsSpace(text[0]) && Nominal.LeadingNumber(text) == Some(number)
    requires Nominal.NumericValue(text, unit).Some?
    ensures Nominal.SymbolAfter(number.rest).Some?
    ensures Nominal.SymbolExponent(Nominal.SymbolAfter(number.rest).value, unit).Some?
    ensures Nominal.NumericValue(text, unit).value
         == Shifted(number.Value(), Nominal.SymbolExponent(Nominal.SymbolAfter(number.rest).value, unit).value)
  {
    assert Nominal.SkipSpaces(text) == text;
  }

  lemma {:induction false} NumberStarts(s: string)
    requires Nominal.LeadingNumber(s).Some?
    ensures s != [] && (IsDigit(s[0]) || s[0] == '.')
  {
  }

  lemma {:induction false} ReadBound(text: string, number: Nominal.Number, unit: string, negative: bool)
    requires text != [] && !Nominal.IsSpace(text[0]) && Nominal.LeadingNumber(text) == Some(number)
    requires Nominal.NumericValue(text, unit).Some? && unit != CELSIUS && unit != "%"
    ensures Bounded(Nominal.NumericValue(text, unit).value.(negative := negative), unit, |number.whole| + |number.fraction|)
  {
    NumericIs(text, number, Nominal.SymbolAfter(number.rest).GetOr(""), unit);
    var symbol := Nominal.SymbolAfter(number.rest).value;
    ShiftRange(symbol, unit);
    ValueShape(number, negative, Nominal.SymbolExponent(symbol, unit).value);
  }

  /** What `numeric_value` makes of a number and a symbol put side by side. */
  lemma {:induction false} RejoinedBound(rest: string, number: Nominal.Number, symbol: string, unit: string, negative: bool)
    requires Nominal.LeadingNumber(rest) == Some(number) && unit != CELSIUS && unit != "%"
    requires Nominal.NumericValue(NumberText(rest, number) + (" " + symbol), unit).Some?
    ensures Bounded(Nominal.NumericValue(NumberText(rest, number) + (" " + symbol), unit).value.(negative := negative), unit,
                    |number.whole| + |number.fraction|)
  {
    var tail := " " + symbol;
    var text := NumberText(rest, number) + tail;
    assert Nominal.LeadingNumber(text) == Some(number.(rest := tail)) by { NumberReread(rest, tail); }
    assert text != [] && !Nominal.IsSpace(text[0]) by { NumberStarts(text); }
    ReadBound(text, number.(rest := tail), unit, negative);
  }

  lemma {:induction false} WiderBound(d: Decimal, unit: string, size: int, more: int)
    requires Bounded(d, unit, size) && size <= more
    ensures Bounded(d, unit, more)
  {
  }

  /** A quantity read from a text whose number takes `size` characters. */
  lemma {:induction false} QuantityBound(raw: string, unit: string, size: int)
    requires QuantityOf(raw, unit).Some?
    requires var (_, rest) := Nominal.Unsigned(Nominal.SkipSpaces(raw));
             Nominal.LeadingNumber(rest).Some? &&
             |Nominal.LeadingNumber(rest).value.whole| + |Nominal.LeadingNumber(rest).value.fraction| <= size
    ensures Bounded(QuantityOf(raw, unit).value, unit, size)
  {
    var (negative, rest) := Nominal.Unsigned(Nominal.SkipSpaces(raw));
    var number := Nominal.LeadingNumber(rest).value;
    var symbol := Nominal.SymbolAfter(number.rest).value;
    if unit == CELSIUS || unit == "%" {
      ValueShape(number, negative, 0);
      assert Shifted(number.Value(), 0) == number.Value();
    } else {
      assert NumberText(rest, number) + " " + symbol == NumberText(rest, number) + (" " + symbol);
      RejoinedBound(rest, number, symbol, unit, negative);
      WiderBound(QuantityOf(raw, unit).value, unit, |number.whole| + |number.fraction|, size);
    }
  }

  // ----- the sum fits -----

  lemma {:induction false} CoefficientBound(digits: string)
    requires AllDigits(digits)
    ensures Coefficient(digits) < Pow10(|digits|)
  {
    if digits != "" { CoefficientBound(digits[..|digits| - 1]); }
  }

  /** Written with a smaller exponent, a bounded number stays below a power of ten. */
  lemma {:induction false} AtBound(d: Decimal, whole: nat, fraction: nat, shift: int, e: int, n: nat)
    requires Shape(d, whole, fraction, shift) && e <= d.exponent && whole + shift - e <= n
    ensures AbsInt(At(NumberOf(d), e)) < Pow10(n)
  {
    var c := Coefficient(d.digits);
    var k := d.exponent - e;
    CoefficientBound(d.digits);
    PowMonotone(|d.digits|, whole + fraction);
    PowAdds(whole + fraction, k);
    PowMonotone(whole + fraction + k, n);
    Scaled(c, Pow10(whole + fraction), Pow10(k));
  }

  /** Two quantities of together at most 198 digits (98 for V/s) add and subtract exactly. */
  lemma {:induction false} PairFits(l: Decimal, r: Decimal, unit: string, first: int, second: int)
    requires Bounded(l, unit, first) && Bounded(r, unit, second)
    requires first + second <= if unit == "V/s" then 98 else 198
    ensures InContext(Sum(NumberOf(l), NumberOf(r))) == Sum(NumberOf(l), NumberOf(r))
    ensures InContext(Sum(NumberOf(l), Negated(NumberOf(r)))) == Sum(NumberOf(l), Negated(NumberOf(r)))
  {
    var w1: nat, f1: nat, s1 :| Shape(l, w1, f1, s1) && ShiftOf(unit, s1) && w1 + f1 <= first;
    var w2: nat, f2: nat, s2 :| Shape(r, w2, f2, s2) && ShiftOf(unit, s2) && w2 + f2 <= second;
    var e := Min(l.exponent, r.exponent);
    AtBound(l, w1, f1, s1, e, PRECISION - 1);
    AtBound(r, w2, f2, s2, e, PRECISION - 1);
    SumFits(NumberOf(l), NumberOf(r), PRECISION - 1);
    NegatedAt(NumberOf(r), e);
    SumFits(NumberOf(l), Negated(NumberOf(r)), PRECISION - 1);
  }

  // ----- the pieces -----

  function Lengths(pieces: seq<string>): nat {
    if pieces == [] then 0 else |pieces[0]| + Lengths(pieces[1..])
  }

  lemma {:induction false} TwoLengths(pieces: seq<string>)
    requires |pieces| == 2
    ensures Lengths(pieces) == |pieces[0]| + |pieces[1]|
  {
    var rest := pieces[1..];
    assert rest[0] == pieces[1] && rest[1..] == [];
    assert Lengths(rest) == |rest[0]| + Lengths(rest[1..]);
  }

  lemma {:induction false} SplitLengths(s: string, mark: char)
    ensures Lengths(Split(s, mark)) + |Split(s, mark)| == |s| + 1
    decreases |s|
  {
    if s == "" {
    } else {
      SplitLengths(s[1..], mark);
      var rest := Split(s[1..], mark);
      if s[0] == mark {
        assert ([""] + rest)[1..] == rest;
      } else {
        assert ([[s[0]] + rest[0]] + rest[1..])[1..] == rest[1..];
      }
    }
  }

  lemma {:induction false} StripLength(s: string)
    ensures |Nominal.Strip(s)| <= |s|
  {
    TrimLength(Nominal.SkipSpaces(s));
  }

  lemma {:induction false} TrimLength(s: string)
    ensures |Nominal.TrimSpaces(s)| <= |s|
  {
    if s != [] && Nominal.IsSpace(s[|s| - 1]) { TrimLength(s[..|s| - 1]); }
  }

  lemma {:induction false} PlainBound(raw: string, unit: string)
    requires QuantityOf(raw, unit).Some?
    ensures Bounded(QuantityOf(raw, unit).value, unit, |raw| - 1)
  {
    var (_, rest) := Nominal.Unsigned(Nominal.SkipSpaces(raw));
    var number := Nominal.LeadingNumber(rest).value;
    LeadingDigits(rest);
    SymbolLength(number.rest);
    QuantityBound(raw, unit, |raw| - 1);
  }

  /** Lending a unit to a bare number leaves its sign and digits where they were. */
  lemma {:induction false} BorrowedReads(first: string, tail: string)
    requires IsNumber(first) && tail != [] && tail[0] == ' '
    ensures var (negative, rest) := Nominal.Unsigned(first);
            && Nominal.SkipSpaces(first + tail) == first + tail
            && Nominal.Unsigned(first + tail) == (negative, rest + tail)
  {
    var (negative, rest) := Nominal.Unsigned(first);
    NumberStarts(rest);
    assert (first + tail)[0] == first[0];
    assert (first + tail)[1..] == first[1..] + tail;
  }

  lemma {:induction false} BareReread(rest: string, tail: string)
    requires Nominal.LeadingNumber(rest).Some? && Nominal.LeadingNumber(rest).value.rest == []
    requires tail != [] && tail[0] == ' '
    ensures Nominal.LeadingNumber(rest + tail).Some?
    ensures var n := Nominal.LeadingNumber(rest + tail).value; |n.whole| + |n.fraction| <= |rest|
  {
    NumberReread(rest, tail);
    assert NumberText(rest, Nominal.LeadingNumber(rest).value) == rest;
  }

  /** A bare number that borrows its unit is still only as long as itself. */
  lemma {:induction false} BorrowedBound(first: string, tail: string, unit: string)
    requires IsNumber(first) && tail != [] && tail[0] == ' ' && QuantityOf(first + tail, unit).Some?
    ensures Bounded(QuantityOf(first + tail, unit).value, unit, |first|)
  {
    BorrowedReads(first, tail);
    BareReread(Nominal.Unsigned(first).1, tail);
    QuantityBound(first + tail, unit, |first|);
  }

  lemma {:induction false} FirstBound(first: string, second: string, unit: string)
    requires FirstOf(first, second, unit).Some?
    ensures Bounded(FirstOf(first, second, unit).value, unit, |first|)
  {
    if IsNumber(first) {
      BorrowedBound(first, " " + TrailingSymbol(second).value, unit);
    } else {
      PlainBound(first, unit);
      WiderBound(QuantityOf(first, unit).value, unit, |first| - 1, |first|);
    }
  }

  lemma {:induction false} PairBound(first: string, second: string, unit: string)
    requires PairOf(first, second, unit).Some?
    ensures Bounded(PairOf(first, second, unit).value.0, unit, |first|)
    ensures Bounded(PairOf(first, second, unit).value.1, unit, |second| - 1)
  {
    PlainBound(second, unit);
    FirstBound(first, second, unit);
  }

  // ----- the result -----

  /** The lengths the domain admits: values of 100 characters, conditions of 200 in units without a rate. */
  predicate Admitted(raw: string, unit: string) {
    |raw| <= 100 || (|raw| <= 200 && unit != "V/s")
  }

  lemma {:induction false} PiecesFit(text: string, unit: string, pieces: seq<string>)
    requires pieces == Split(text, PLUS_MINUS) && |pieces| == 2 && Admitted(text, unit)
    requires PairOf(Nominal.Strip(pieces[0]), Nominal.Strip(pieces[1]), unit).Some?
    ensures var (l, r) := PairOf(Nominal.Strip(pieces[0]), Nominal.Strip(pieces[1]), unit).value;
            && InContext(Sum(NumberOf(l), NumberOf(r))) == Sum(NumberOf(l), NumberOf(r))
            && InContext(Sum(NumberOf(l), Negated(NumberOf(r)))) == Sum(NumberOf(l), Negated(NumberOf(r)))
  {
    SplitLengths(text, PLUS_MINUS);
    TwoLengths(pieces);
    StripLength(pieces[0]);
    StripLength(pieces[1]);
    var first, second := Nominal.Strip(pieces[0]), Nominal.Strip(pieces[1]);
    PairBound(first, second, unit);
    var (l, r) := PairOf(first, second, unit).value;
    PairFits(l, r, unit, |first|, |second| - 1);
  }

  /** Within those lengths the 220-digit context never rounds: the endpoints of every interval are the
      exact decimal difference and sum. */
  lemma {:induction false} ContextIsExact(raw: string, unit: string, ranges: string -> seq<string>)
    requires Admitted(raw, unit)
    ensures IntervalOf(raw, unit, ranges, InContext) == IntervalOf(raw, unit, ranges, Exact)
  {
    var text := ReplaceMinus(raw);
    var pieces := Split(text, PLUS_MINUS);
    if PLUS_MINUS in text && |pieces| == 2 && PairOf(Nominal.Strip(pieces[0]), Nominal.Strip(pieces[1]), unit).Some? {
      PiecesFit(text, unit, pieces);
      var (l, r) := PairOf(Nominal.Strip(pieces[0]), Nominal.Strip(pieces[1]), unit).value;
      assert Around(NumberOf(l), NumberOf(r), InContext) == Around(NumberOf(l), NumberOf(r), Exact);
    }
  }
}
