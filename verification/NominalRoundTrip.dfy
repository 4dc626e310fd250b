/** A quantity's label and its decimal text both read back as that quantity. */
module NominalRoundTrip {
  import opened Wrappers
  import opened Decimals
  import opened Nominal

  // ----- scanning a number that was written -----

  function PointAnd(fraction: string): string {
    if fraction == [] then [] else "." + fraction
  }

  /** Text that cannot be taken for more of a number. */
  predicate NotNumeric(rest: string) {
    rest == [] || (!IsDigit(rest[0]) && rest[0] != '.')
  }

  lemma {:induction false} DigitsOf(d: string, rest: string)
    requires AllDigits(d) && (rest == [] || !IsDigit(rest[0]))
    ensures Digits(d + rest) == d
  {
    if d != [] {
      assert (d + rest)[1..] == d[1..] + rest;
      DigitsOf(d[1..], rest);
    } else {
      assert d + rest == rest;
    }
  }

  lemma {:induction false} WholeNumber(whole: string, rest: string)
    requires whole != [] && AllDigits(whole) && NotNumeric(rest)
    ensures LeadingNumber(whole + rest) == Some(Number(whole, "", rest))
  {
    DigitsOf(whole, rest);
    assert (whole + rest)[|whole|..] == rest;
  }

  lemma {:induction false} FractionTail(fraction: string, rest: string)
    requires AllDigits(fraction) && NotNumeric(rest)
    ensures var tail := ['.'] + (fraction + rest);
            Digits(tail[1..]) == fraction && tail[1 + |fraction|..] == rest
  {
    var tail := ['.'] + (fraction + rest);
    assert tail[1..] == fraction + rest;
    DigitsOf(fraction, rest);
    assert tail[1 + |fraction|..] == rest;
  }

  lemma {:induction false} FractionNumber(whole: string, fraction: string, rest: string)
    requires AllDigits(whole) && AllDigits(fraction) && fraction != [] && NotNumeric(rest)
    ensures LeadingNumber(whole + (['.'] + (fraction + rest))) == Some(Number(whole, fraction, rest))
  {
    var tail := ['.'] + (fraction + rest);
    DigitsOf(whole, tail);
    FractionTail(fraction, rest);
    assert (whole + tail)[|whole|..] == tail;
  }

  lemma {:induction false} PointSplit(whole: string, fraction: string, rest: string)
    requires fraction != []
    ensures whole + PointAnd(fraction) + rest == whole + (['.'] + (fraction + rest))
  {
  }

  lemma {:induction false} NumberOf(whole: string, fraction: string, rest: string)
    requires whole != [] && AllDigits(whole) && AllDigits(fraction) && NotNumeric(rest)
    ensures LeadingNumber(whole + PointAnd(fraction) + rest) == Some(Number(whole, fraction, rest))
  {
    if fraction == [] {
      WholeNumber(whole, rest);
      assert whole + PointAnd(fraction) == whole;
    } else {
      FractionNumber(whole, fraction, rest);
      PointSplit(whole, fraction, rest);
    }
  }

  // ----- the written form -----

  /** The plain text of a non-negative decimal in lowest terms. */
  lemma {:induction false} Written(r: Decimal)
    requires Lowest(r)
    ensures AllDigits(WholeOf(r)) && AllDigits(FractionOf(r)) && WholeOf(r) != []
    ensures PlainDigits(r) == WholeOf(r) + PointAnd(FractionOf(r))
    ensures DecimalText(r) == Signed(r.negative, PlainDigits(r))
  {
    PlainParts(r);
    if r.IsZero() {
      assert "0" + Zeros(0) == "0";
    } else {
      TextOfReduced(r);
    }
  }

  /** Shifting a decimal in lowest terms keeps it so. */
  predicate MayShift(r: Decimal, e: int) { r.IsZero() ==> e == 0 }

  function Abs(r: Decimal): Decimal { r.(negative := false) }

  // ----- the decimal text reads back -----

  /** The number a canonical text reads as. */
  function ReadBack(r: Decimal): (d: Decimal)
    requires Lowest(r)
    ensures d.Valid()
  {
    var m := Abs(r);
    Written(m);
    FromParts(WholeOf(m), FractionOf(m)).(negative := r.negative)
  }

  lemma {:induction false} SignReads(negative: bool, plain: string)
    requires plain != [] && IsDigit(plain[0])
    ensures Unsigned(Signed(negative, plain)) == (negative, plain)
  {
    assert ("-" + plain)[1..] == plain;
  }

  lemma {:induction false} PlainReads(r: Decimal)
    requires Lowest(r)
    ensures PlainDecimal(DecimalText(r)) == Some(ReadBack(r))
  {
    var m := Abs(r);
    Written(r);
    SameDigits(r, false);
    Written(m);
    var plain := PlainDigits(r);
    NumberOf(WholeOf(m), FractionOf(m), "");
    assert plain + "" == plain;
    assert plain[0] == WholeOf(m)[0];
    SignReads(r.negative, plain);
  }

  lemma {:induction false} ReadBackZero(r: Decimal)
    requires Lowest(r) && r.IsZero()
    ensures ReadBack(r) == r
  {
    Written(Abs(r));
    assert "0" + Zeros(0) == "0" && "0" + "" == "0";
  }

  /** A canonical text reads back as the number it was written from. */
  lemma {:induction false} ReadAdjusted(r: Decimal)
    requires Lowest(r)
    ensures var d := ReadBack(r);
            Reduced(d) == r && d.IsZero() == r.IsZero() && Adjusted(d) == Adjusted(r)
  {
    if r.IsZero() {
      ReadBackZero(r);
    } else {
      var m := Abs(r);
      Written(m);
      ReadWritten(m);
      var d := FromParts(WholeOf(m), FractionOf(m));
      ReducedDigits(d);
      ReducedSign(d, r.negative);
    }
  }

  lemma {:induction false} ReducedSign(d: Decimal, negative: bool)
    requires d.Valid() && !d.IsZero()
    ensures Reduced(d.(negative := negative)) == Reduced(d).(negative := negative)
    decreases |d.digits|
  {
    if d.digits[|d.digits| - 1] == '0' {
      ReducedSign(Decimal(d.negative, d.digits[..|d.digits| - 1], d.exponent + 1), negative);
    }
  }

  /** The text depends on the number alone. */
  lemma {:induction false} TextOfValue(d: Decimal, r: Decimal)
    requires d.Valid() && Lowest(r) && Reduced(d) == r && d.IsZero() == r.IsZero()
    ensures DecimalText(d) == DecimalText(r)
  {
    if !r.IsZero() {
      TextOfReduced(d);
      TextOfReduced(r);
      ReducedShift(d, 0);
    }
  }

  lemma {:induction false} ReadBackText(r: Decimal)
    requires Lowest(r)
    ensures DecimalText(ReadBack(r)) == DecimalText(r)
  {
    ReadAdjusted(r);
    TextOfValue(ReadBack(r), r);
  }

  /** Reading a number written `e` places down and moving it `e` places up gives the number. */
  lemma {:induction false} ShiftedBack(r: Decimal, e: int)
    requires Lowest(r) && MayShift(r, e)
    ensures Lowest(Shifted(Abs(r), -e))
    ensures var d := Shifted(ReadBack(Shifted(Abs(r), -e)), e).(negative := r.negative);
            if r.IsZero() then d.IsZero() else !d.IsZero() && Reduced(d) == r
  {
    var low := Shifted(Abs(r), -e);
    ReadAdjusted(low);
    if !r.IsZero() {
      ReducedShift(ReadBack(low), e);
      ReducedSign(Shifted(ReadBack(low), e), r.negative);
    }
  }

  lemma {:induction false} ReadBackParts(low: Decimal)
    requires Lowest(low) && !low.negative
    ensures Number(WholeOf(low), FractionOf(low), "").Valid()
    ensures ReadBack(low) == FromParts(WholeOf(low), FractionOf(low))
  {
    Written(low);
    assert Abs(low) == low;
  }

  lemma {:induction false} ReadSigned(r: Decimal, e: int)
    requires Lowest(r) && MayShift(r, e)
    ensures var low := Shifted(Abs(r), -e);
            Lowest(low) && Number(WholeOf(low), FractionOf(low), "").Valid()
            && DecimalText(Shifted(FromParts(WholeOf(low), FractionOf(low)), e).(negative := r.negative)) == DecimalText(r)
  {
    ShiftedBack(r, e);
    var low := Shifted(Abs(r), -e);
    ReadBackParts(low);
    var d := Shifted(ReadBack(low), e).(negative := r.negative);
    if !r.IsZero() { TextOfValue(d, r); }
  }

  lemma {:induction false} StripIdle(s: string)
    requires s != [] ==> !IsSpace(s[0]) && !IsSpace(s[|s| - 1])
    ensures Strip(s) == s
  {
  }

  predicate DigitEnds(s: string) { s != [] && (IsDigit(s[0]) || s[0] == MINUS) && IsDigit(s[|s| - 1]) }

  lemma {:induction false} TextEnds(r: Decimal)
    requires Lowest(r)
    ensures DigitEnds(DecimalText(r))
  {
    Written(r);
    var whole, fraction := WholeOf(r), FractionOf(r);
    var plain := PlainDigits(r);
    assert IsDigit(plain[0]) by { assert plain[0] == whole[0]; }
    assert IsDigit(plain[|plain| - 1]) by {
      if fraction == [] { assert plain == whole; } else { assert plain[|plain| - 1] == fraction[|fraction| - 1]; }
    }
  }

  /** `parse_nominal(q.decimal, q.unit) == q` for every canonical quantity of at most 100 characters. */
  lemma {:induction false} DecimalRoundTrip(r: Decimal, unit: string)
    requires Lowest(r) && unit in BASE_UNITS
    ensures |DecimalText(r)| <= LIMIT ==>
              ParseNominal(DecimalText(r), Some(unit)) == Some(Quantity(DecimalText(r), unit))
  {
    TextEnds(r);
    StripIdle(DecimalText(r));
    PlainReads(r);
    ReadBackText(r);
  }

  // ----- labels with a unit symbol -----

  predicate SymbolChar(c: char) {
    !IsDigit(c) && c != '.' && !IsSpace(c) && ReplaceOhm(c) == c && c != MINUS && c != '+'
  }

  predicate SymbolText(s: string) { s != [] && forall i :: 0 <= i < |s| ==> SymbolChar(s[i]) }

  /** Everything the readers need to know about a unit symbol: it stands for `e`, its case needs no
      repair, and the legacy reading either does not apply or agrees. */
  predicate Reads(symbol: string, unit: string, e: int) {
    && SymbolText(symbol)
    && SymbolExponent(symbol, unit) == Some(e)
    && (RepairedSymbol(symbol) == None || RepairedSymbol(symbol) == Some(symbol))
    && unit in BASE_UNITS && unit != RESISTANCE
    && (unit == "F" || unit == "H" ==> LegacyExponent(symbol, unit) == None || LegacyExponent(symbol, unit) == Some(e))
  }

  /** A number, an optional space and a unit symbol. */
  function Body(whole: string, fraction: string, gap: string, symbol: string): string {
    whole + PointAnd(fraction) + (gap + symbol)
  }

  predicate Bodied(whole: string, fraction: string, gap: string, symbol: string) {
    whole != [] && AllDigits(whole) && AllDigits(fraction) && Gap(gap) && SymbolText(symbol)
  }

  predicate Gap(gap: string) { gap == "" || gap == " " }

  lemma {:induction false} GapSkipped(gap: string, symbol: string)
    requires Gap(gap) && SymbolText(symbol)
    ensures SkipSpaces(gap + symbol) == symbol && NotNumeric(gap + symbol)
  {
    if gap == "" { assert gap + symbol == symbol; } else { assert (gap + symbol)[1..] == symbol; }
  }

  lemma {:induction false} SymbolRead(symbol: string)
    requires SymbolText(symbol)
    ensures NonSpaces(symbol) == symbol
  {
    if |symbol| > 1 { SymbolRead(symbol[1..]); } else { assert symbol == [symbol[0]] + symbol[1..]; }
  }

  lemma {:induction false} BodyNumber(whole: string, fraction: string, gap: string, symbol: string)
    requires Bodied(whole, fraction, gap, symbol)
    ensures LeadingNumber(Body(whole, fraction, gap, symbol)) == Some(Number(whole, fraction, gap + symbol))
  {
    GapSkipped(gap, symbol);
    NumberOf(whole, fraction, gap + symbol);
  }

  predicate BodyText(body: string) {
    && body != [] && IsDigit(body[0]) && !IsSpace(body[|body| - 1])
    && forall i :: 0 <= i < |body| ==> LabelChar(body[i])
  }

  predicate LabelChar(c: char) { IsDigit(c) || c == '.' || c == ' ' || SymbolChar(c) }

  lemma {:induction false} BodyChars(whole: string, fraction: string, gap: string, symbol: string)
    requires Bodied(whole, fraction, gap, symbol)
    ensures BodyText(Body(whole, fraction, gap, symbol))
  {
    var body := Body(whole, fraction, gap, symbol);
    var plain, rest := whole + PointAnd(fraction), gap + symbol;
    assert body == plain + rest;
    assert body[0] == whole[0];
    assert body[|body| - 1] == symbol[|symbol| - 1];
    forall i | 0 <= i < |plain| ensures LabelChar(plain[i]) {
      assert plain[i] == '.' || IsDigit(plain[i]);
    }
    forall i | 0 <= i < |rest| ensures LabelChar(rest[i]) {
      if i >= |gap| { assert rest[i] == symbol[i - |gap|]; }
    }
  }

  lemma {:induction false} LabelStripped(negative: bool, body: string)
    requires BodyText(body)
    ensures Strip(Signed(negative, body)) == Signed(negative, body)
  {
    StripIdle(Signed(negative, body));
  }

  /** A label is not a plain decimal. */
  lemma {:induction false} LabelNotPlain(negative: bool, body: string)
    requires BodyText(body) && LeadingNumber(body).Some? && LeadingNumber(body).value.rest != []
    ensures PlainDecimal(Signed(negative, body)) == None
  {
    SignReads(negative, body);
  }

  lemma {:induction false} NotEiaTail(whole: string, tail: string)
    requires whole != [] && AllDigits(whole) && tail != [] && !IsDigit(tail[0])
    requires !EiaLetter(tail[0]) || Digits(tail[1..]) == []
    ensures Eia(whole + tail) == None
  {
    DigitsOf(whole, tail);
    assert (whole + tail)[|whole|..] == tail;
  }

  /** A label is not a letter-for-point label. */
  lemma {:induction false} NotEia(whole: string, fraction: string, gap: string, symbol: string)
    requires Bodied(whole, fraction, gap, symbol)
    ensures Eia(Body(whole, fraction, gap, symbol)) == None
  {
    var tail := PointAnd(fraction) + (gap + symbol);
    assert Body(whole, fraction, gap, symbol) == whole + tail;
    assert !IsDigit(tail[0]) && (!EiaLetter(tail[0]) || Digits(tail[1..]) == []) by {
      if fraction == [] {
        assert tail == gap + symbol;
        if gap == "" { assert tail == symbol; } else { assert tail[0] == ' '; }
      } else {
        assert tail[0] == '.';
      }
    }
    NotEiaTail(whole, tail);
  }

  lemma {:induction false} NegativeReads(body: string, unit: Option<string>)
    ensures Eia(Signed(true, body)) == None && LegacyValue(Signed(true, body), unit) == None
  {
    assert Signed(true, body)[0] == MINUS;
  }

  lemma {:induction false} LabelLegacy(whole: string, fraction: string, symbol: string, unit: string, e: int)
    requires Bodied(whole, fraction, "", symbol) && Reads(symbol, unit, e)
    ensures var d := LegacyValue(Body(whole, fraction, "", symbol), Some(unit));
            d.Some? ==> d.value == Shifted(FromParts(whole, fraction), e)
  {
    BodyNumber(whole, fraction, "", symbol);
    GapSkipped("", symbol);
  }

  lemma {:induction false} OhmsKept(negative: bool, body: string)
    requires BodyText(body)
    ensures ReplaceOhms(Signed(negative, body)) == Signed(negative, body)
  {
    var text := Signed(negative, body);
    forall i | 0 <= i < |text| ensures ReplaceOhm(text[i]) == text[i] {
      assert text[i] == MINUS || LabelChar(text[i]);
    }
    assert ReplaceOhms(text) == text;
  }

  lemma {:induction false} TailReplaced(head: string, symbol: string)
    ensures var text := head + symbol; text[..|text| - |symbol|] + symbol == text
  {
    var text := head + symbol;
    assert text[..|head|] == head;
  }

  lemma {:induction false} SignAppend(negative: bool, body: string, symbol: string)
    ensures Signed(negative, body) + symbol == Signed(negative, body + symbol)
  {
  }

  lemma {:induction false} CaseKept(negative: bool, body: string, head: string, symbol: string)
    requires BodyText(body) && LeadingNumber(body).Some?
    requires SkipSpaces(LeadingNumber(body).value.rest) == symbol
    requires body == head + symbol
    requires RepairedSymbol(symbol) == None || RepairedSymbol(symbol) == Some(symbol)
    ensures RepairedCase(Signed(negative, body)) == Signed(negative, body)
  {
    SignReads(negative, body);
    SignAppend(negative, head, symbol);
    TailReplaced(Signed(negative, head), symbol);
  }

  lemma {:induction false} SymbolFound(rest: string, symbol: string)
    requires SkipSpaces(rest) == symbol && SymbolText(symbol)
    ensures SymbolAfter(rest) == Some(symbol)
  {
    SymbolRead(symbol);
    assert symbol[|symbol|..] == [];
  }

  lemma {:induction false} NoSpaceFirst(body: string)
    requires BodyText(body)
    ensures SkipSpaces(body) == body
  {
  }

  lemma {:induction false} BodyValue(body: string, number: Number, symbol: string, unit: string, e: int)
    requires SkipSpaces(body) == body && |body| <= LIMIT
    requires LeadingNumber(body) == Some(number) && SymbolAfter(number.rest) == Some(symbol)
    requires SymbolExponent(symbol, unit) == Some(e)
    ensures NumericValue(body, unit) == Some(Shifted(number.Value(), e))
  {
  }

  lemma {:induction false} SignedValue(negative: bool, body: string, unit: string, d: Decimal)
    requires BodyText(body) && NumericValue(body, unit) == Some(d) && !d.negative
    ensures ExplicitValue(Signed(negative, body), unit) == Some(d.(negative := negative))
  {
    SignReads(negative, body);
    assert Nominal.Magnitude(Signed(negative, body)) == (negative, body);
    assert '\n' !in body by { assert !LabelChar('\n'); }
  }

  lemma {:induction false} TextReads(negative: bool, body: string, number: Number, head: string, symbol: string, unit: string, e: int)
    requires BodyText(body) && LeadingNumber(body) == Some(number) && number.rest != []
    requires SkipSpaces(number.rest) == symbol && body == head + symbol && Reads(symbol, unit, e)
    requires Eia(body) == None
    requires LegacyValue(body, Some(unit)).Some? ==> LegacyValue(body, Some(unit)).value == Shifted(number.Value(), e)
    ensures |Signed(negative, body)| <= LIMIT ==>
              ParseNominal(Signed(negative, body), Some(unit))
              == Some(Quantity(DecimalText(Shifted(number.Value(), e).(negative := negative)), unit))
  {
    if |Signed(negative, body)| <= LIMIT {
      LabelStripped(negative, body);
      LabelNotPlain(negative, body);
      NegativeReads(body, Some(unit));
      OhmsKept(negative, body);
      CaseKept(negative, body, head, symbol);
      NoSpaceFirst(body);
      SymbolFound(number.rest, symbol);
      BodyValue(body, number, symbol, unit, e);
      SignedValue(negative, body, unit, Shifted(number.Value(), e));
      ReadsInOrder(Signed(negative, body), unit, Shifted(number.Value(), e).(negative := negative));
    }
  }

  lemma {:induction false} BodySplit(whole: string, fraction: string, gap: string, symbol: string)
    ensures Body(whole, fraction, gap, symbol) == (whole + PointAnd(fraction) + gap) + symbol
  {
  }

  lemma {:induction false} BodyLegacy(whole: string, fraction: string, gap: string, symbol: string, unit: string, e: int)
    requires Bodied(whole, fraction, gap, symbol) && Reads(symbol, unit, e)
    requires gap != "" ==> unit != "F" && unit != "H"
    ensures var d := LegacyValue(Body(whole, fraction, gap, symbol), Some(unit));
            d.Some? ==> d.value == Shifted(FromParts(whole, fraction), e)
  {
    if gap == "" { LabelLegacy(whole, fraction, symbol, unit, e); }
  }

  /** Reading a label gives the number written, in the unit's own decimal text. */
  lemma {:induction false} BodyReads(negative: bool, whole: string, fraction: string, gap: string, symbol: string, unit: string, e: int)
    requires Bodied(whole, fraction, gap, symbol) && Reads(symbol, unit, e)
    requires gap != "" ==> unit != "F" && unit != "H"
    ensures |Signed(negative, Body(whole, fraction, gap, symbol))| <= LIMIT ==>
              ParseNominal(Signed(negative, Body(whole, fraction, gap, symbol)), Some(unit))
              == Some(Quantity(DecimalText(Shifted(FromParts(whole, fraction), e).(negative := negative)), unit))
  {
    var body := Body(whole, fraction, gap, symbol);
    var number := Number(whole, fraction, gap + symbol);
    TextReads(negative, body, number, whole + PointAnd(fraction) + gap, symbol, unit, e) by {
      BodyChars(whole, fraction, gap, symbol);
      BodyNumber(whole, fraction, gap, symbol);
      NotEia(whole, fraction, gap, symbol);
      BodyLegacy(whole, fraction, gap, symbol, unit, e);
      GapSkipped(gap, symbol);
      BodySplit(whole, fraction, gap, symbol);
    }
  }

  /** `parse_nominal` once every reader has spoken. */
  lemma {:induction false} ReadsInOrder(shown: string, unit: string, d: Decimal)
    requires d.Valid() && |shown| <= LIMIT && unit in BASE_UNITS
    requires Strip(shown) == shown && PlainDecimal(shown) == None && EiaValue(shown, Some(unit)) == None
    requires LegacyValue(shown, Some(unit)).Some? ==> LegacyValue(shown, Some(unit)).value == d
    requires RepairedCase(ReplaceOhms(shown)) == shown
    requires ExplicitValue(shown, unit) == Some(d)
    ensures ParseNominal(shown, Some(unit)) == Some(Quantity(DecimalText(d), unit))
  {
  }

  /** The label of a quantity: its number shifted `e` places down, an optional space, the symbol. */
  lemma {:induction false} LabelReads(r: Decimal, e: int, gap: string, symbol: string, unit: string)
    requires Lowest(r) && MayShift(r, e) && Gap(gap) && Reads(symbol, unit, e)
    requires gap != "" ==> unit != "F" && unit != "H"
    ensures var shown := Signed(r.negative, PlainDigits(Shifted(Abs(r), -e)) + (gap + symbol));
            |shown| <= LIMIT ==> ParseNominal(shown, Some(unit)) == Some(Quantity(DecimalText(r), unit))
  {
    var low := Shifted(Abs(r), -e);
    ReadSigned(r, e);
    Written(low);
    BodyReads(r.negative, WholeOf(low), FractionOf(low), gap, symbol, unit, e);
  }
}
