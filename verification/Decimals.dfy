/** Decimal text as `domain/nominal.py` uses Python's `decimal`: an exact sign, digit string and exponent,
    `format(value, 'f')`, and the plain text `decimal_text` with no trailing zeros. */
module Decimals {
  predicate IsDigit(c: char) { '0' <= c <= '9' }

  predicate AllDigits(s: string) { forall i :: 0 <= i < |s| ==> IsDigit(s[i]) }

  /** `Decimal.as_tuple()`: the digits have no leading zero, except that zero is "0". */
  datatype Decimal = Decimal(negative: bool, digits: string, exponent: int) {
    predicate Valid() {
      && digits != [] && AllDigits(digits)
      && (|digits| > 1 ==> digits[0] != '0')
    }

    predicate IsZero() { digits == "0" }
  }

  function Zeros(n: nat): (s: string)
    ensures |s| == n && AllDigits(s) && forall i :: 0 <= i < n ==> s[i] == '0'
  {
    if n == 0 then "" else "0" + Zeros(n - 1)
  }

  // ----- reading -----

  /** The digits of a coefficient: leading zeros dropped, but never all of them. */
  function Coefficient(s: string): (digits: string)
    requires s != [] && AllDigits(s)
    ensures digits != [] && AllDigits(digits) && (|digits| > 1 ==> digits[0] != '0')
  {
    if |s| > 1 && s[0] == '0' then Coefficient(s[1..]) else s
  }

  /** `Decimal(whole + '.' + fraction)`. */
  function FromParts(whole: string, fraction: string): (d: Decimal)
    requires AllDigits(whole) && AllDigits(fraction) && whole + fraction != []
    ensures d.Valid()
  {
    Decimal(false, Coefficient(whole + fraction), -|fraction|)
  }

  /** `shifted`: move the decimal point, keeping every digit. */
  function Shifted(d: Decimal, places: int): Decimal {
    d.(exponent := d.exponent + places)
  }

  // ----- writing -----

  function PlainDigits(d: Decimal): string
    requires d.Valid()
  {
    var point := |d.digits| + d.exponent;
    if d.exponent >= 0 then d.digits + Zeros(d.exponent)
    else if point > 0 then d.digits[..point] + "." + d.digits[point..]
    else "0." + Zeros(-point) + d.digits
  }

  function TrimEnd(s: string, c: char): string {
    if s != [] && s[|s| - 1] == c then TrimEnd(s[..|s| - 1], c) else s
  }

  function Signed(negative: bool, s: string): string {
    if negative then "-" + s else s
  }

  /** Trailing zeros after a point, and a point left bare, are dropped. */
  function Trimmed(text: string): string {
    if '.' in text then TrimEnd(TrimEnd(text, '0'), '.') else text
  }

  /** `decimal_text`. */
  function DecimalText(d: Decimal): string
    requires d.Valid()
  {
    if d.IsZero() then "0" else Signed(d.negative, Trimmed(PlainDigits(d)))
  }

  // ----- what the text means -----

  /** A decimal in lowest terms: its digits neither start nor end with zero. */
  predicate Lowest(d: Decimal) {
    d.Valid() && (if d.IsZero() then d.exponent == 0 && !d.negative else d.digits[|d.digits| - 1] != '0')
  }

  /** The one decimal in lowest terms of the same value. */
  function Reduced(d: Decimal): (r: Decimal)
    requires d.Valid()
    ensures Lowest(r)
    decreases |d.digits|
  {
    if d.IsZero() then Decimal(false, "0", 0)
    else if d.digits[|d.digits| - 1] == '0' then
      Reduced(Decimal(d.negative, d.digits[..|d.digits| - 1], d.exponent + 1))
    else d
  }

  lemma {:induction false} ReducedShift(d: Decimal, places: int)
    requires d.Valid() && !d.IsZero()
    ensures Reduced(Shifted(d, places)) == Shifted(Reduced(d), places)
    ensures !Reduced(d).IsZero() && Reduced(d).negative == d.negative
    decreases |d.digits|
  {
    if d.digits[|d.digits| - 1] == '0' {
      ReducedShift(Decimal(d.negative, d.digits[..|d.digits| - 1], d.exponent + 1), places);
    }
  }

  /** Reduction only moves trailing zeros into the exponent. */
  lemma {:induction false} ReducedDigits(d: Decimal)
    requires d.Valid() && !d.IsZero()
    ensures Reduced(d).negative == d.negative && Reduced(d).exponent >= d.exponent
    ensures d.digits == Reduced(d).digits + Zeros(Reduced(d).exponent - d.exponent)
    decreases |d.digits|
  {
    if d.digits[|d.digits| - 1] == '0' {
      var less := Decimal(d.negative, d.digits[..|d.digits| - 1], d.exponent + 1);
      ReducedDigits(less);
      var n := Reduced(d).exponent - less.exponent;
      ZerosSnoc(n);
      assert d.digits == less.digits + "0";
      assert Reduced(d).digits + (Zeros(n) + "0") == (Reduced(d).digits + Zeros(n)) + "0";
    } else {
      assert d.digits + Zeros(0) == d.digits;
    }
  }

  lemma {:induction false} ZerosSnoc(n: nat)
    ensures Zeros(n) + "0" == Zeros(n + 1)
  {
    if n > 0 { ZerosSnoc(n - 1); }
  }

  lemma {:induction false} ZerosSplit(m: nat, n: nat)
    ensures Zeros(m) + Zeros(n) == Zeros(m + n)
  {
    if m > 0 {
      ZerosSplit(m - 1, n);
      assert ("0" + Zeros(m - 1)) + Zeros(n) == "0" + (Zeros(m - 1) + Zeros(n));
    } else {
      assert Zeros(0) + Zeros(n) == Zeros(n);
    }
  }

  lemma {:induction false} TrimSnoc(s: string, c: char)
    ensures TrimEnd(s + [c], c) == TrimEnd(s, c)
  {
    var t := s + [c];
    assert t[..|t| - 1] == s;
  }

  lemma {:induction false} TrimZeros(s: string, n: nat)
    requires s == [] || s[|s| - 1] != '0'
    ensures TrimEnd(s + Zeros(n), '0') == s
  {
    if n > 0 {
      TrimZeros(s, n - 1);
      ZerosSnoc(n - 1);
      TrimSnoc(s + Zeros(n - 1), '0');
      assert s + Zeros(n) == (s + Zeros(n - 1)) + ['0'];
    } else {
      assert s + Zeros(0) == s;
    }
  }

  lemma NoPoint(s: string)
    requires AllDigits(s)
    ensures '.' !in s
  {
  }

  lemma {:induction false} TrimPoint(whole: string)
    requires whole != [] && AllDigits(whole)
    ensures TrimEnd(whole + ".", '.') == whole
  {
    assert (whole + ".")[..|whole|] == whole;
    assert IsDigit(whole[|whole| - 1]);
  }

  lemma {:induction false} TrimmedWhole(whole: string)
    requires AllDigits(whole)
    ensures Trimmed(whole) == whole
  {
  }

  /** Only zeros follow the point: the point goes, too. */
  lemma {:induction false} TrimmedZeros(whole: string, n: nat)
    requires whole != [] && AllDigits(whole)
    ensures Trimmed(whole + "." + Zeros(n)) == whole
  {
    var text := whole + "." + Zeros(n);
    assert text[|whole|] == '.';
    TrimZeros(whole + ".", n);
    TrimPoint(whole);
  }

  /** Zeros after a significant digit of the fraction go, and nothing else. */
  lemma {:induction false} TrimmedFraction(text: string, n: nat)
    requires '.' in text && text[|text| - 1] != '0' && text[|text| - 1] != '.'
    ensures Trimmed(text + Zeros(n)) == text
  {
    assert '.' in text + Zeros(n);
    TrimZeros(text, n);
  }

  lemma {:induction false} PointInside(d: Decimal, whole: string, fraction: string)
    requires d.Valid() && d.exponent < 0 && whole != [] && d.digits == whole + fraction && |fraction| == -d.exponent
    ensures PlainDigits(d) == whole + "." + fraction
  {
    assert d.digits[..|whole|] == whole && d.digits[|whole|..] == fraction;
  }

  lemma {:induction false} WholeText(d: Decimal, r: Decimal, n: nat)
    requires d.Valid() && Lowest(r) && d.exponent < 0 && !r.IsZero() && r.exponent >= 0
    requires d.digits == r.digits + Zeros(n) && r.exponent == d.exponent + n
    ensures Trimmed(PlainDigits(d)) == PlainDigits(r)
  {
    var whole, k := PlainDigits(r), -d.exponent;
    assert d.digits == whole + Zeros(k) by {
      ZerosSplit(r.exponent, k);
      assert r.digits + (Zeros(r.exponent) + Zeros(k)) == (r.digits + Zeros(r.exponent)) + Zeros(k);
    }
    PointInside(d, whole, Zeros(k));
    TrimmedZeros(whole, k);
  }

  /** The digits of a fraction, in place. */
  lemma {:induction false} FractionPadded(d: Decimal, r: Decimal, n: nat)
    requires d.Valid() && r.Valid() && d.exponent < 0 && r.exponent < 0
    requires d.digits == r.digits + Zeros(n) && r.exponent == d.exponent + n
    ensures PlainDigits(d) == PlainDigits(r) + Zeros(n)
  {
    var point := |d.digits| + d.exponent;
    if point > 0 {
      assert d.digits[..point] == r.digits[..point];
      assert d.digits[point..] == r.digits[point..] + Zeros(n);
    }
  }

  lemma {:induction false} FractionEnds(r: Decimal)
    requires Lowest(r) && r.exponent < 0 && !r.IsZero()
    ensures var text := PlainDigits(r); '.' in text && text[|text| - 1] == r.digits[|r.digits| - 1]
  {
    var point := |r.digits| + r.exponent;
    var text := PlainDigits(r);
    assert text[if point > 0 then point else 1] == '.';
  }

  lemma {:induction false} FractionText(d: Decimal, r: Decimal, n: nat)
    requires d.Valid() && Lowest(r) && d.exponent < 0 && !r.IsZero() && r.exponent < 0
    requires d.digits == r.digits + Zeros(n) && r.exponent == d.exponent + n
    ensures Trimmed(PlainDigits(d)) == PlainDigits(r)
  {
    FractionPadded(d, r, n);
    FractionEnds(r);
    assert IsDigit(r.digits[|r.digits| - 1]);
    TrimmedFraction(PlainDigits(r), n);
  }

  /** The text of a decimal is that of its lowest terms: trailing zeros never show. */
  lemma {:induction false} TextOfReduced(d: Decimal)
    requires d.Valid() && !d.IsZero()
    ensures DecimalText(d) == Signed(d.negative, PlainDigits(Reduced(d)))
  {
    var r := Reduced(d);
    ReducedDigits(d);
    ReducedShift(d, 0);
    var n := r.exponent - d.exponent;
    if d.exponent >= 0 {
      ZerosSplit(n, d.exponent);
      assert r.digits + Zeros(n) + Zeros(d.exponent) == r.digits + (Zeros(n) + Zeros(d.exponent));
      TrimmedWhole(PlainDigits(d));
    } else if r.exponent >= 0 {
      WholeText(d, r, n);
    } else {
      FractionText(d, r, n);
    }
  }

  lemma {:induction false} SameDigits(d: Decimal, negative: bool)
    requires d.Valid()
    ensures PlainDigits(d.(negative := negative)) == PlainDigits(d)
  {
  }

  // ----- reading what was written -----

  /** The two parts of a plain text without sign. */
  function WholeOf(r: Decimal): string
    requires r.Valid()
  {
    var point := |r.digits| + r.exponent;
    if r.exponent >= 0 then r.digits + Zeros(r.exponent) else if point > 0 then r.digits[..point] else "0"
  }

  function FractionOf(r: Decimal): string
    requires r.Valid()
  {
    var point := |r.digits| + r.exponent;
    if r.exponent >= 0 then "" else if point > 0 then r.digits[point..] else Zeros(-point) + r.digits
  }

  lemma {:induction false} PlainParts(r: Decimal)
    requires r.Valid()
    ensures AllDigits(WholeOf(r)) && AllDigits(FractionOf(r)) && WholeOf(r) != []
    ensures PlainDigits(r) == WholeOf(r) + if r.exponent >= 0 then "" else "." + FractionOf(r)
    ensures r.exponent < 0 ==> FractionOf(r) != []
  {
    var point := |r.digits| + r.exponent;
    if r.exponent < 0 && point <= 0 {
      assert "0." + Zeros(-point) + r.digits == "0" + ("." + (Zeros(-point) + r.digits));
    }
  }

  lemma {:induction false} CoefficientOf(n: nat, s: string)
    requires s != [] && AllDigits(s) && s[0] != '0'
    ensures AllDigits(Zeros(n) + s) && Coefficient(Zeros(n) + s) == s
  {
    if n > 0 {
      CoefficientOf(n - 1, s);
      assert (Zeros(n) + s)[1..] == Zeros(n - 1) + s;
    } else {
      assert Zeros(0) + s == s;
    }
  }

  predicate ReducesTo(d: Decimal, r: Decimal) { d.Valid() && !d.IsZero() && Reduced(d) == r }

  /** A trailing zero and one more in the exponent are the same. */
  lemma {:induction false} ReducedSnoc(d: Decimal, r: Decimal)
    requires ReducesTo(d, r)
    ensures ReducesTo(Decimal(d.negative, d.digits + "0", d.exponent - 1), r)
  {
    var more := d.digits + "0";
    assert more[..|more| - 1] == d.digits && |more| > 1;
  }

  lemma {:induction false} ReducedAlready(r: Decimal)
    requires Lowest(r) && !r.IsZero()
    ensures ReducesTo(Decimal(r.negative, r.digits + Zeros(0), r.exponent - 0), r)
  {
    assert r.digits + Zeros(0) == r.digits;
  }

  /** Appending zeros and taking them back into the exponent changes nothing. */
  lemma {:induction false} ReducedPadded(r: Decimal, n: nat)
    requires Lowest(r) && !r.IsZero()
    ensures ReducesTo(Decimal(r.negative, r.digits + Zeros(n), r.exponent - n), r)
  {
    if n == 0 {
      ReducedAlready(r);
    } else {
      ReducedPadded(r, n - 1);
      ReducedSnoc(Decimal(r.negative, r.digits + Zeros(n - 1), r.exponent - (n - 1)), r);
      assert r.digits + Zeros(n) == (r.digits + Zeros(n - 1)) + "0" by { ZerosSnoc(n - 1); }
    }
  }

  lemma {:induction false} ReadWhole(r: Decimal)
    requires Lowest(r) && !r.IsZero() && !r.negative && r.exponent >= 0
    ensures Reduced(FromParts(WholeOf(r), FractionOf(r))) == r
    ensures !FromParts(WholeOf(r), FractionOf(r)).IsZero()
  {
    ReducedPadded(r, r.exponent);
    var digits := r.digits + Zeros(r.exponent);
    CoefficientOf(0, digits);
    assert WholeOf(r) + FractionOf(r) == digits && Zeros(0) + digits == digits;
  }

  lemma {:induction false} ReadFraction(r: Decimal)
    requires Lowest(r) && !r.IsZero() && !r.negative && r.exponent < 0
    ensures Coefficient(WholeOf(r) + FractionOf(r)) == r.digits && |FractionOf(r)| == -r.exponent
  {
    var point := |r.digits| + r.exponent;
    if point > 0 {
      CoefficientOf(0, r.digits);
      assert WholeOf(r) + FractionOf(r) == r.digits && Zeros(0) + r.digits == r.digits;
    } else {
      CoefficientOf(1 - point, r.digits);
      assert Zeros(1 - point) == "0" + Zeros(-point);
      assert WholeOf(r) + FractionOf(r) == Zeros(1 - point) + r.digits;
    }
  }

  /** Reading back the written parts of a decimal in lowest terms gives the same number. */
  lemma {:induction false} ReadWritten(r: Decimal)
    requires Lowest(r) && !r.IsZero() && !r.negative
    ensures WholeOf(r) + FractionOf(r) != [] && AllDigits(WholeOf(r)) && AllDigits(FractionOf(r))
    ensures Reduced(FromParts(WholeOf(r), FractionOf(r))) == r
    ensures !FromParts(WholeOf(r), FractionOf(r)).IsZero()
  {
    PlainParts(r);
    if r.exponent >= 0 {
      ReadWhole(r);
    } else {
      ReadFraction(r);
      assert FromParts(WholeOf(r), FractionOf(r)) == r;
    }
  }
}
