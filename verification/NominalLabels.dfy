/** The main results on stock labels: what `display` shows, `parse_nominal` reads back. */
module NominalLabels {
  import opened Wrappers
  import opened Decimals
  import opened Nominal
  import opened NominalRoundTrip

  // ----- unit symbols -----

  predicate SiStep(e: int) {
    e == -12 || e == -9 || e == -6 || e == -3 || e == 0 || e == 3 || e == 6 || e == 9
  }

  lemma PrefixReads(e: int)
    requires SiStep(e)
    ensures |SiPrefix(e)| <= 1 && Prefix(SiPrefix(e)) == Some(e)
    ensures e != 0 ==> |SiPrefix(e)| == 1 && PrefixChar(SiPrefix(e)[0]) && SymbolChar(SiPrefix(e)[0])
  {
  }

  /** The letters of a unit: no prefix letter doubles as the start of a repaired unit. */
  predicate UnitText(unit: string) {
    && 1 <= |unit| <= 2 && SymbolText(unit)
    && unit != [OHM_SIGN] && unit != "hm"
    && (UnitCase(unit) == None || (UnitCase(unit) == Some(unit) && !PrefixChar(unit[0])))
    && (|unit| == 2 ==> !PrefixChar(unit[0]))
  }

  predicate SiUnit(unit: string) { unit in ["F", "H", "A", "V", "W", "Hz", "s", "m", "cd", "VA"] }

  lemma UnitsAreText(unit: string)
    requires SiUnit(unit)
    ensures UnitText(unit)
  {
  }

  lemma {:induction false} SymbolExponentOf(prefix: string, unit: string)
    requires |prefix| <= 1 && UnitText(unit) && unit != "%" && unit != "ratio" && unit != "V/s"
    ensures SymbolExponent(prefix + unit, unit) == Prefix(prefix)
  {
    var symbol := prefix + unit;
    NotSpelled(prefix, unit);
    assert symbol[|symbol| - |unit|..] == unit && symbol[..|symbol| - |unit|] == prefix;
  }

  lemma {:induction false} NotSpelled(prefix: string, unit: string)
    requires |prefix| <= 1 && UnitText(unit)
    ensures SpelledOhms(prefix + unit) == prefix + unit
  {
    var symbol := prefix + unit;
    if |symbol| == 3 {
      assert symbol[1..] == unit;
      assert "ohm"[1..] == "hm";
    } else if |symbol| == 1 {
      assert symbol == unit;
    }
  }

  lemma {:induction false} RepairedOf(prefix: string, unit: string)
    requires |prefix| <= 1 && UnitText(unit)
    requires |prefix| == 1 ==> PrefixChar(prefix[0])
    ensures RepairedSymbol(prefix + unit) == None || RepairedSymbol(prefix + unit) == Some(prefix + unit)
  {
    var symbol := prefix + unit;
    if prefix == "" {
      assert symbol == unit;
      if |unit| == 1 { assert unit[1..] == ""; }
    } else {
      assert symbol[1..] == unit && symbol[..1] == prefix;
    }
  }

  lemma {:induction false} MicroKept(symbol: string)
    requires forall i :: 0 <= i < |symbol| ==> symbol[i] != Nominal.MU
    ensures MicroAll(symbol) == symbol
  {
  }

  lemma {:induction false} LastLower(prefix: string, unit: string)
    requires |unit| == 1
    ensures EndsWith(LowerAll(prefix + unit), LowerAll(unit))
  {
    var lower := LowerAll(prefix + unit);
    assert (prefix + unit)[|prefix|] == unit[0];
    assert lower[|prefix|..] == [Lower(unit[0])] && LowerAll(unit) == [Lower(unit[0])];
  }

  /** The legacy reading of a farad or henry symbol looks at its prefix only. */
  lemma {:induction false} LegacyPrefix(prefix: string, unit: string)
    requires |prefix| <= 1 && (|prefix| == 1 ==> prefix[0] != Nominal.MU) && (unit == "F" || unit == "H")
    ensures LegacyExponent(prefix + unit, unit) == if |prefix| == 1 then PassivePrefix(prefix[0]) else None
  {
    var symbol := prefix + unit;
    assert unit[0] != Nominal.MU;
    MicroKept(symbol);
    LastLower(prefix, unit);
    assert unit != RESISTANCE by { assert unit[0] != OHM; }
    assert symbol[..|prefix|] == prefix;
  }

  lemma {:induction false} PrefixesAgree(e: int)
    requires SiStep(e) && e != 0
    ensures SiPrefix(e)[0] != Nominal.MU
    ensures PassivePrefix(SiPrefix(e)[0]) == None || PassivePrefix(SiPrefix(e)[0]) == Some(e)
  {
  }

  lemma {:induction false} LegacyOf(e: int, unit: string)
    requires SiStep(e) && (unit == "F" || unit == "H")
    ensures var d := LegacyExponent(SiPrefix(e) + unit, unit); d == None || d == Some(e)
  {
    PrefixReads(e);
    if e != 0 { PrefixesAgree(e); }
    LegacyPrefix(SiPrefix(e), unit);
  }

  lemma SiInBase(unit: string)
    requires SiUnit(unit)
    ensures unit in BASE_UNITS && unit != RESISTANCE && unit != "%" && unit != "ratio" && unit != "V/s"
  {
  }

  lemma {:induction false} SymbolJoined(prefix: string, unit: string)
    requires SymbolText(unit) && (prefix == "" || (|prefix| == 1 && SymbolChar(prefix[0])))
    ensures SymbolText(prefix + unit)
  {
    var symbol := prefix + unit;
    forall i | 0 <= i < |symbol| ensures SymbolChar(symbol[i]) {
      if i >= |prefix| { assert symbol[i] == unit[i - |prefix|]; }
    }
  }

  lemma {:induction false} SiReads(e: int, unit: string)
    requires SiStep(e) && SiUnit(unit)
    ensures Reads(SiPrefix(e) + unit, unit, e)
  {
    var prefix := SiPrefix(e);
    SiInBase(unit);
    PrefixReads(e);
    UnitsAreText(unit);
    SymbolExponentOf(prefix, unit);
    RepairedOf(prefix, unit);
    SymbolJoined(prefix, unit);
    if unit == "F" || unit == "H" { LegacyOf(e, unit); }
    Gathered(prefix + unit, unit, e);
  }

  lemma {:induction false} Gathered(symbol: string, unit: string, e: int)
    requires SymbolText(symbol) && SymbolExponent(symbol, unit) == Some(e)
    requires RepairedSymbol(symbol) == None || RepairedSymbol(symbol) == Some(symbol)
    requires unit in BASE_UNITS && unit != RESISTANCE
    requires unit == "F" || unit == "H" ==> LegacyExponent(symbol, unit) == None || LegacyExponent(symbol, unit) == Some(e)
    ensures Reads(symbol, unit, e)
  {
  }

  predicate RatioUnit(unit: string) { unit == "%" || unit == "ratio" || unit == "V/s" }

  lemma {:induction false} RateReads(s: string)
    requires s == "V/s"
    ensures Rate(s) == Some(0) && SpelledOhms(s) == s
  {
    assert s[|s| - 1] == 's' && s[..1] == "V" && s[1..2] == "/" && s[2..|s| - 1] == "";
    assert s[0] == 'V' && "ohm"[0] == 'o';
  }

  lemma {:induction false} RatioText(unit: string)
    requires RatioUnit(unit)
    ensures SymbolText(unit) && RepairedSymbol(unit) == None && unit in BASE_UNITS && unit != RESISTANCE
  {
  }

  lemma {:induction false} RatioExponent(unit: string)
    requires RatioUnit(unit)
    ensures SymbolExponent(unit, unit) == Some(0)
  {
    if unit == "V/s" {
      RateReads(unit);
    } else {
      assert unit[|unit| - 1] == '%' || unit[|unit| - 1] == 'o';
      if EndsWith(unit, "ohms") { SameEnd(unit, "ohms"); }
      if EndsWith(unit, "ohm") { SameEnd(unit, "ohm"); }
    }
  }

  lemma {:induction false} RatioReads(unit: string)
    requires RatioUnit(unit)
    ensures Reads(unit, unit, 0)
  {
    RatioText(unit);
    RatioExponent(unit);
    Gathered(unit, unit, 0);
  }

  // ----- what display writes -----

  lemma {:induction false} WrittenShift(d: Decimal, r: Decimal, e: int)
    requires d.Valid() && !d.IsZero() && Lowest(r) && Reduced(d) == r
    ensures DecimalText(Shifted(d, -e)) == Signed(r.negative, PlainDigits(Shifted(Abs(r), -e)))
  {
    var x, y := Shifted(d, -e), Shifted(r, -e);
    assert Reduced(x) == y && x.negative == r.negative by { ReducedShift(d, -e); }
    assert DecimalText(x) == Signed(r.negative, PlainDigits(y)) by { TextOfReduced(x); }
    assert y.(negative := false) == Shifted(Abs(r), -e);
    SameDigits(y, false);
  }

  /** A read-back number written `e` places down is written like the number itself. */
  lemma {:induction false} ShiftedText(r: Decimal, e: int)
    requires Lowest(r) && MayShift(r, e)
    ensures DecimalText(Shifted(ReadBack(r), -e)) == Signed(r.negative, PlainDigits(Shifted(Abs(r), -e)))
  {
    if r.IsZero() {
      ReadBackZero(r);
      assert "0" + Zeros(0) == "0";
    } else {
      ReadAdjusted(r);
      WrittenShift(ReadBack(r), r, e);
    }
  }

  lemma SiExponentSteps(d: Decimal)
    ensures SiStep(SiExponent(d)) && MayShift(d, SiExponent(d))
  {
  }

  lemma {:induction false} SymbolAppend(negative: bool, body: string, gap: string, prefix: string, unit: string)
    ensures Signed(negative, body) + gap + prefix + unit == Signed(negative, body + (gap + (prefix + unit)))
  {
  }

  /** A read-back decimal steps like the one written. */
  lemma SameSteps(d: Decimal, r: Decimal)
    requires d.IsZero() == r.IsZero() && Adjusted(d) == Adjusted(r)
    ensures SiExponent(d) == SiExponent(r) && OhmExponent(d) == OhmExponent(r)
  {
  }

  lemma {:induction false} PrefixAppend(negative: bool, body: string, prefix: string, unit: string)
    ensures Signed(negative, body) + prefix + unit == Signed(negative, body + ("" + (prefix + unit)))
  {
    SignAppend(negative, body, prefix + unit);
    assert "" + (prefix + unit) == prefix + unit;
    assert Signed(negative, body) + prefix + unit == Signed(negative, body) + (prefix + unit);
  }

  lemma {:induction false} SameSiExponent(r: Decimal)
    requires Lowest(r)
    ensures SiExponent(ReadBack(r)) == SiExponent(r)
  {
    ReadAdjusted(r);
    SameSteps(ReadBack(r), r);
  }

  lemma {:induction false} SiParts(d: Decimal, unit: string, e: int, text: string)
    requires d.Valid() && e == SiExponent(d) && text == DecimalText(Shifted(d, -e))
    ensures SiDisplay(d, unit) == text + SiPrefix(e) + unit
  {
    assert Some(SiDisplay(d, unit)) == Some(text + SiPrefix(e) + unit);
  }

  lemma {:induction false} SiText(r: Decimal, unit: string)
    requires Lowest(r)
    ensures SiDisplay(ReadBack(r), unit)
         == Signed(r.negative, PlainDigits(Shifted(Abs(r), -SiExponent(r))) + ("" + (SiPrefix(SiExponent(r)) + unit)))
  {
    var e := SiExponent(r);
    var body := PlainDigits(Shifted(Abs(r), -e));
    PrefixAppend(r.negative, body, SiPrefix(e), unit);
    assert SiDisplay(ReadBack(r), unit) == Signed(r.negative, body) + SiPrefix(e) + unit by {
      SameSiExponent(r);
      SiExponentSteps(r);
      ShiftedText(r, e);
      SiParts(ReadBack(r), unit, e, Signed(r.negative, body));
    }
  }

  lemma {:induction false} SiReadBack(r: Decimal, unit: string)
    requires Lowest(r) && SiUnit(unit)
    ensures |SiDisplay(ReadBack(r), unit)| <= LIMIT ==>
              ParseNominal(SiDisplay(ReadBack(r), unit), Some(unit)) == Some(Quantity(DecimalText(r), unit))
  {
    var e := SiExponent(r);
    SiExponentSteps(r);
    SiReads(e, unit);
    LabelReads(r, e, "", SiPrefix(e) + unit, unit);
    SiText(r, unit);
  }

  lemma {:induction false} SiRoundTrip(r: Decimal, unit: string)
    requires Lowest(r) && SiUnit(unit)
    ensures var q := Quantity(DecimalText(r), unit);
            && PlainDecimal(q.decimal).Some?
            && (|Display(q)| <= LIMIT ==> ParseNominal(Display(q), Some(unit)) == Some(q))
  {
    SiInBase(unit);
    PlainReads(r);
    SiReadBack(r, unit);
  }

  lemma {:induction false} RatioShown(r: Decimal, unit: string)
    requires Lowest(r) && RatioUnit(unit) && PlainDecimal(DecimalText(r)).Some?
    ensures Display(Quantity(DecimalText(r), unit)) == Signed(r.negative, PlainDigits(Abs(r)) + (" " + unit))
  {
    Written(r);
    SameDigits(r, false);
    SymbolAppend(r.negative, PlainDigits(r), " ", "", unit);
    assert DecimalText(r) + " " + "" == DecimalText(r) + " " && "" + unit == unit;
  }

  lemma {:induction false} RatioRead(r: Decimal, unit: string)
    requires Lowest(r) && RatioUnit(unit)
    ensures var shown := Signed(r.negative, PlainDigits(Abs(r)) + (" " + unit));
            |shown| <= LIMIT ==> ParseNominal(shown, Some(unit)) == Some(Quantity(DecimalText(r), unit))
  {
    assert Shifted(Abs(r), -0) == Abs(r);
    assert unit != "F" && unit != "H";
    LabelReads(r, 0, " ", unit, unit) by {
      RatioReads(unit);
    }
  }

  lemma {:induction false} RatioRoundTrip(r: Decimal, unit: string)
    requires Lowest(r) && RatioUnit(unit)
    ensures var q := Quantity(DecimalText(r), unit);
            && PlainDecimal(q.decimal).Some?
            && (|Display(q)| <= LIMIT ==> ParseNominal(Display(q), Some(unit)) == Some(q))
  {
    PlainReads(r);
    RatioRead(r, unit);
    RatioShown(r, unit);
  }

  // ----- resistors -----

  lemma {:induction false} PointReplaced(whole: string, fraction: string, letter: char)
    requires AllDigits(whole) && AllDigits(fraction)
    ensures ReplacePoint(whole + ("." + fraction), letter) == whole + ([letter] + fraction)
  {
    if whole != [] {
      assert (whole + ("." + fraction))[1..] == whole[1..] + ("." + fraction);
      PointReplaced(whole[1..], fraction, letter);
    } else {
      assert whole + ("." + fraction) == "." + fraction;
      assert ("." + fraction)[1..] == fraction;
      NoPointReplaced(fraction, letter);
    }
  }

  lemma {:induction false} NoPointReplaced(s: string, letter: char)
    requires AllDigits(s)
    ensures ReplacePoint(s, letter) == s
  {
    if s != [] { NoPointReplaced(s[1..], letter); }
  }

  /** What a resistor label looks like: the letter stands for the point, or closes the number. */
  function OhmBody(whole: string, fraction: string, letter: char): string {
    whole + ([letter] + fraction)
  }

  predicate OhmStep(e: int) { e == 0 || e == 3 || e == 6 || e == 9 }

  lemma {:induction false} OhmNumber(whole: string, fraction: string, e: int)
    requires whole != [] && AllDigits(whole) && AllDigits(fraction) && OhmStep(e)
    ensures var rest := [OhmLetter(e)] + fraction;
            LeadingNumber(OhmBody(whole, fraction, OhmLetter(e))) == Some(Number(whole, "", rest)) && SkipSpaces(rest) == rest
  {
    WholeNumber(whole, [OhmLetter(e)] + fraction);
  }

  lemma {:induction false} OhmChars(whole: string, fraction: string, e: int)
    requires whole != [] && AllDigits(whole) && AllDigits(fraction) && OhmStep(e)
    ensures BodyText(OhmBody(whole, fraction, OhmLetter(e)))
  {
    var body := OhmBody(whole, fraction, OhmLetter(e));
    assert body[0] == whole[0];
    var rest := [OhmLetter(e)] + fraction;
    assert body[|body| - 1] == rest[|rest| - 1];
    forall i | 0 <= i < |body| ensures LabelChar(body[i]) {
      assert IsDigit(body[i]) || body[i] == OhmLetter(e);
    }
  }

  /** With a fraction, the letter-for-point reader takes the label. */
  lemma {:induction false} OhmEia(whole: string, fraction: string, e: int)
    requires whole != [] && AllDigits(whole) && AllDigits(fraction) && OhmStep(e)
    ensures EiaValue(OhmBody(whole, fraction, OhmLetter(e)), Some(RESISTANCE))
            == if fraction == [] then None else Some(Shifted(FromParts(whole, fraction), e))
  {
    var body := OhmBody(whole, fraction, OhmLetter(e));
    var rest := [OhmLetter(e)] + fraction;
    DigitsOf(whole, rest);
    assert body[|whole|..] == rest && rest[1..] == fraction;
    DigitsOf(fraction, "");
    assert fraction + "" == fraction;
  }

  /** Without one, the letter is a historical multiplier. */
  lemma {:induction false} OhmLegacy(whole: string, e: int)
    requires whole != [] && AllDigits(whole) && OhmStep(e)
    ensures LegacyValue(OhmBody(whole, "", OhmLetter(e)), Some(RESISTANCE)) == Some(Shifted(FromParts(whole, ""), e))
  {
    OhmNumber(whole, "", e);
    var letters := [OhmLetter(e)] + "";
    assert letters == [OhmLetter(e)];
    assert LowerAll(letters) == [Lower(OhmLetter(e))];
  }

  lemma {:induction false} OhmReads(whole: string, fraction: string, e: int)
    requires whole != [] && AllDigits(whole) && AllDigits(fraction) && OhmStep(e)
    ensures var body := OhmBody(whole, fraction, OhmLetter(e));
            |body| <= LIMIT ==>
              ParseNominal(body, Some(RESISTANCE))
              == Some(Quantity(DecimalText(Shifted(FromParts(whole, fraction), e)), RESISTANCE))
  {
    var body := OhmBody(whole, fraction, OhmLetter(e));
    OhmChars(whole, fraction, e);
    LabelStripped(false, body);
    OhmNumber(whole, fraction, e);
    LabelNotPlain(false, body);
    OhmEia(whole, fraction, e);
    if fraction == [] { OhmLegacy(whole, e); }
  }

  /** A negative resistor label is unreadable: no reader accepts a sign before a resistor letter. */
  lemma {:induction false} NegativeOhmUnread(whole: string, fraction: string, e: int)
    requires whole != [] && AllDigits(whole) && AllDigits(fraction) && OhmStep(e)
    ensures ParseNominal(Signed(true, OhmBody(whole, fraction, OhmLetter(e))), Some(RESISTANCE)) == None
  {
    var body := OhmBody(whole, fraction, OhmLetter(e));
    var symbol := [OhmLetter(e)] + fraction;
    if |Signed(true, body)| <= LIMIT {
      OhmChars(whole, fraction, e);
      OhmNumber(whole, fraction, e);
      LabelStripped(true, body);
      LabelNotPlain(true, body);
      NegativeReads(body, Some(RESISTANCE));
      OhmsKept(true, body);
      OhmUnrepaired(symbol, fraction, e);
      CaseKept(true, body, whole, symbol);
      OhmSymbol(e, fraction);
      NoSpaceFirst(body);
      SignedNone(true, body, RESISTANCE);
      UnreadInOrder(Signed(true, body), RESISTANCE);
    }
  }

  lemma {:induction false} UnreadInOrder(shown: string, unit: string)
    requires Strip(shown) == shown && PlainDecimal(shown) == None && EiaValue(shown, Some(unit)) == None
    requires LegacyValue(shown, Some(unit)) == None && RepairedCase(ReplaceOhms(shown)) == shown
    requires ExplicitValue(shown, unit) == None
    ensures ParseNominal(shown, Some(unit)) == None
  {
  }

  lemma {:induction false} OhmUnrepaired(symbol: string, fraction: string, e: int)
    requires OhmStep(e) && AllDigits(fraction) && symbol == [OhmLetter(e)] + fraction
    ensures RepairedSymbol(symbol) == None
  {
    assert symbol[1..] == fraction;
    assert UnitCase(fraction) == None && UnitCase(symbol) == None;
  }

  lemma {:induction false} SignedNone(negative: bool, body: string, unit: string)
    requires BodyText(body) && NumericValue(body, unit) == None
    ensures ExplicitValue(Signed(negative, body), unit) == None
  {
    SignReads(negative, body);
    assert Nominal.Magnitude(Signed(negative, body)) == (negative, body) || Signed(negative, body) == body;
  }

  lemma {:induction false} SameEnd(s: string, tail: string)
    requires EndsWith(s, tail) && tail != []
    ensures s != [] && s[|s| - 1] == tail[|tail| - 1]
  {
  }

  /** A symbol that ends in none of the letters of the resistance unit is not one of its symbols. */
  lemma {:induction false} NotResistance(symbol: string)
    requires symbol != [] && symbol[|symbol| - 1] != 'm' && symbol[|symbol| - 1] != 's'
    requires symbol[|symbol| - 1] != OHM && symbol[|symbol| - 1] != OHM_SIGN
    ensures SymbolExponent(symbol, RESISTANCE) == None
  {
    if EndsWith(symbol, "ohms") { SameEnd(symbol, "ohms"); }
    if EndsWith(symbol, "ohm") { SameEnd(symbol, "ohm"); }
    if EndsWith(symbol, RESISTANCE) { SameEnd(symbol, RESISTANCE); }
    assert symbol != "ohm" && symbol != "ohms" && symbol != [OHM_SIGN];
  }

  lemma {:induction false} OhmSymbol(e: int, fraction: string)
    requires OhmStep(e) && AllDigits(fraction)
    ensures var symbol := [OhmLetter(e)] + fraction;
            SymbolAfter(symbol) == Some(symbol) && SymbolExponent(symbol, RESISTANCE) == None
  {
    var symbol := [OhmLetter(e)] + fraction;
    NoSpacesRead(symbol);
    assert SkipSpaces(symbol) == symbol && symbol[|symbol|..] == [];
    assert symbol[|symbol| - 1] == if fraction == [] then OhmLetter(e) else fraction[|fraction| - 1];
    NotResistance(symbol);
  }

  lemma {:induction false} NoSpacesRead(s: string)
    requires forall i :: 0 <= i < |s| ==> !IsSpace(s[i])
    ensures NonSpaces(s) == s
  {
    if s != [] { NoSpacesRead(s[1..]); }
  }

  lemma OhmExponentSteps(d: Decimal)
    ensures OhmStep(OhmExponent(d)) && MayShift(d, OhmExponent(d))
  {
  }

  lemma {:induction false} OhmParts(r: Decimal, low: Decimal, e: int)
    requires Lowest(r) && MayShift(r, e) && low == Shifted(Abs(r), -e)
    ensures Lowest(low) && AllDigits(WholeOf(low)) && AllDigits(FractionOf(low)) && WholeOf(low) != []
    ensures DecimalText(Shifted(ReadBack(r), -e)) == Signed(r.negative, WholeOf(low) + PointAnd(FractionOf(low)))
  {
    assert Lowest(low) by { ShiftedBack(r, e); }
    Written(low);
    ShiftedText(r, e);
  }

  lemma {:induction false} SameOhmExponent(r: Decimal)
    requires Lowest(r)
    ensures OhmExponent(ReadBack(r)) == OhmExponent(r)
  {
    ReadAdjusted(r);
    SameSteps(ReadBack(r), r);
  }

  lemma {:induction false} OhmReadBack(r: Decimal)
    requires Lowest(r)
    ensures |OhmDisplay(ReadBack(r))| <= LIMIT ==>
              ParseNominal(OhmDisplay(ReadBack(r)), Some(RESISTANCE))
              == if r.negative then None else Some(Quantity(DecimalText(r), RESISTANCE))
  {
    var e := OhmExponent(r);
    var low := Shifted(Abs(r), -e);
    OhmExponentSteps(r);
    SameOhmExponent(r);
    OhmParts(r, low, e);
    var whole, fraction := WholeOf(low), FractionOf(low);
    OhmShown(ReadBack(r), r.negative, whole, fraction, e);
    if r.negative {
      NegativeOhmUnread(whole, fraction, e);
    } else {
      OhmReads(whole, fraction, e);
      UnsignedRead(r, e);
    }
  }

  lemma {:induction false} UnsignedRead(r: Decimal, e: int)
    requires Lowest(r) && !r.negative && MayShift(r, e)
    ensures var low := Shifted(Abs(r), -e);
            Lowest(low) && Number(WholeOf(low), FractionOf(low), "").Valid()
            && DecimalText(Shifted(FromParts(WholeOf(low), FractionOf(low)), e)) == DecimalText(r)
  {
    ReadSigned(r, e);
    var low := Shifted(Abs(r), -e);
    var d := Shifted(FromParts(WholeOf(low), FractionOf(low)), e);
    assert d.(negative := false) == d;
  }

  lemma {:induction false} OhmRoundTrip(r: Decimal)
    requires Lowest(r)
    ensures var q := Quantity(DecimalText(r), RESISTANCE);
            && PlainDecimal(q.decimal).Some?
            && (|Display(q)| <= LIMIT ==> ParseNominal(Display(q), Some(RESISTANCE)) == if r.negative then None else Some(q))
  {
    PlainReads(r);
    OhmReadBack(r);
  }

  lemma {:induction false} OhmLabelled(negative: bool, whole: string, fraction: string, letter: char)
    requires AllDigits(whole) && AllDigits(fraction)
    ensures OhmLabel(Signed(negative, whole + PointAnd(fraction)), letter) == Signed(negative, OhmBody(whole, fraction, letter))
  {
    var text := Signed(negative, whole + PointAnd(fraction));
    if fraction == [] {
      assert whole + PointAnd(fraction) == whole && [letter] + fraction == [letter];
      assert '.' !in text;
      SignAppend(negative, whole, [letter]);
    } else {
      var plain := whole + ("." + fraction);
      assert plain[|whole|] == '.' && '.' in plain;
      assert '.' in text;
      PointReplaced(whole, fraction, letter);
      SignPoint(negative, plain, letter);
    }
  }

  lemma {:induction false} OhmTextParts(value: Decimal, e: int)
    requires value.Valid() && e == OhmExponent(value)
    ensures OhmDisplay(value) == OhmLabel(DecimalText(Shifted(value, -e)), OhmLetter(e))
  {
    assert Some(OhmDisplay(value)) == Some(OhmLabel(DecimalText(Shifted(value, -e)), OhmLetter(e)));
  }

  lemma {:induction false} OhmShown(value: Decimal, negative: bool, whole: string, fraction: string, e: int)
    requires value.Valid() && AllDigits(whole) && AllDigits(fraction) && e == OhmExponent(value)
    requires DecimalText(Shifted(value, -e)) == Signed(negative, whole + PointAnd(fraction))
    ensures OhmDisplay(value) == Signed(negative, OhmBody(whole, fraction, OhmLetter(e)))
  {
    OhmTextParts(value, e);
    OhmLabelled(negative, whole, fraction, OhmLetter(e));
  }

  lemma {:induction false} SignPoint(negative: bool, s: string, letter: char)
    ensures ReplacePoint(Signed(negative, s), letter) == Signed(negative, ReplacePoint(s, letter))
  {
    assert ("-" + s)[1..] == s;
  }

  // ----- the main results -----

  /** For every canonical quantity in every unit whose label fits: the label reads back as the quantity
      exactly when it is not a negative resistance. */
  lemma {:induction false} DisplayRoundTrip(r: Decimal, unit: string)
    requires Lowest(r) && unit in BASE_UNITS
    ensures var q := Quantity(DecimalText(r), unit);
            && PlainDecimal(q.decimal).Some?
            && (|Display(q)| <= LIMIT ==>
                 (ParseNominal(Display(q), Some(unit)) == Some(q) <==> !(unit == RESISTANCE && r.negative)))
  {
    if unit == RESISTANCE { OhmRoundTrip(r); }
    else if RatioUnit(unit) { RatioRoundTrip(r, unit); }
    else { SiRoundTrip(r, unit); }
  }

  /** Whatever spelling a label had: the quantity read from it survives storage as decimal text, and its
      own label reads back as the same quantity. */
  lemma {:induction false} ParsedSurvives(raw: string, unit: Option<string>)
    requires ParseNominal(raw, unit).Some?
    ensures var q := ParseNominal(raw, unit).value;
            && PlainDecimal(q.decimal).Some?
            && (|q.decimal| <= LIMIT ==> ParseNominal(q.decimal, Some(q.unit)) == Some(q))
            && (|Display(q)| <= LIMIT ==> (ParseNominal(Display(q), Some(q.unit)) == Some(q)
                 <==> !(q.unit == RESISTANCE && PlainDecimal(q.decimal).value.negative)))
  {
    var q := ParseNominal(raw, unit).value;
    var r: Decimal :| Lowest(r) && q.decimal == DecimalText(r);
    PlainReads(r);
    DecimalRoundTrip(r, q.unit);
    DisplayRoundTrip(r, q.unit);
  }

  /** Stored decimal text has no blanks around it. */
  lemma {:induction false} StoredIsStripped(text: string)
    requires Canonical(text)
    ensures Strip(text) == text
  {
    var r: Decimal :| Lowest(r) && text == DecimalText(r);
    TextEnds(r);
    StripIdle(text);
  }

  lemma {:induction false} StoredIsText(text: string)
    requires Canonical(text)
    ensures text != []
  {
    var r: Decimal :| Lowest(r) && text == DecimalText(r);
    TextEnds(r);
  }

  /** Stored decimal text reads as itself, unless it is too long to read. */
  lemma {:induction false} StoredIsStable(text: string, unit: string)
    requires Canonical(text) && unit in BASE_UNITS
    ensures ParseNominal(text, Some(unit)) == if |text| <= LIMIT then Some(Quantity(text, unit)) else None
  {
    if |text| > LIMIT {
      TooLong(text, unit);
    } else {
      var r: Decimal :| Lowest(r) && text == DecimalText(r);
      DecimalRoundTrip(r, unit);
    }
  }

  lemma {:induction false} TooLong(text: string, unit: string)
    requires |text| > LIMIT
    ensures ParseNominal(text, Some(unit)) == None
  {
  }
}
