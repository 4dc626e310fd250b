/** Nominal quantities (`domain/nominal.py`) and their unit symbols (`domain/quantities.py`):
    reading stock labels into exact base-unit decimals, and writing them back as labels. */
module Nominal {
  import opened Wrappers
  import opened Decimals

  const OHM: char := '\U{3A9}'          // the Greek capital used for the base unit
  const OHM_SIGN: char := '\U{2126}'
  const OMEGA: char := '\U{3C9}'
  const MICRO: char := '\U{B5}'
  const MU: char := '\U{3BC}'
  const MINUS: char := '-'

  const RESISTANCE: string := [OHM]
  const BASE_UNITS: seq<string> :=
    [RESISTANCE, "F", "H", "A", "V", "W", "Hz", "s", "m", "cd", "VA", "%", "ratio", "V/s"]

  const LIMIT: nat := 100   // characters of a raw label

  /** `NominalQuantity`: decimal text in the base unit. */
  datatype Quantity = Quantity(decimal: string, unit: string)

  // ----- scanning -----

  predicate IsSpace(c: char) {
    || '\t' <= c <= '\r' || '\U{1C}' <= c <= ' ' || c == '\U{85}' || c == '\U{A0}' || c == '\U{1680}'
    || '\U{2000}' <= c <= '\U{200A}' || c == '\U{2028}' || c == '\U{2029}' || c == '\U{202F}' || c == '\U{205F}' || c == '\U{3000}'
  }

  function SkipSpaces(s: string): (rest: string)
    ensures |rest| <= |s| && (rest != [] ==> !IsSpace(rest[0]))
  {
    if s != [] && IsSpace(s[0]) then SkipSpaces(s[1..]) else s
  }

  function TrimSpaces(s: string): string {
    if s != [] && IsSpace(s[|s| - 1]) then TrimSpaces(s[..|s| - 1]) else s
  }

  function Strip(s: string): string { TrimSpaces(SkipSpaces(s)) }

  /** The leading digits. */
  function Digits(s: string): (d: string)
    ensures d <= s && AllDigits(d) && (|d| < |s| ==> !IsDigit(s[|d|]))
  {
    if s != [] && IsDigit(s[0]) then [s[0]] + Digits(s[1..]) else ""
  }

  /** The leading `\d+(\.\d+)?|\.\d+` and what follows it. */
  datatype Number = Number(whole: string, fraction: string, rest: string) {
    predicate Valid() { AllDigits(whole) && AllDigits(fraction) && whole + fraction != [] }

    function Value(): (d: Decimal)
      requires Valid()
      ensures d.Valid()
    {
      FromParts(whole, fraction)
    }
  }

  function LeadingNumber(s: string): (n: Option<Number>)
    ensures n.Some? ==> n.value.Valid()
  {
    var whole := Digits(s);
    var rest := s[|whole|..];
    if rest != [] && rest[0] == '.' && Digits(rest[1..]) != [] then
      var fraction := Digits(rest[1..]);
      Some(Number(whole, fraction, rest[1 + |fraction|..]))
    else if whole != [] then Some(Number(whole, "", rest))
    else None
  }

  /** An optional sign, and the text after it. */
  function Unsigned(s: string): (bool, string) {
    if s != [] && (s[0] == MINUS || s[0] == '+') then (s[0] == MINUS, s[1..]) else (false, s)
  }

  /** `Decimal(text)` for a signed plain decimal, if the whole text is one. */
  function PlainDecimal(s: string): (d: Option<Decimal>)
    ensures d.Some? ==> d.value.Valid()
  {
    var (negative, rest) := Unsigned(s);
    match LeadingNumber(rest)
    case Some(number) => if number.rest == [] then Some(number.Value().(negative := negative)) else None
    case None => None
  }

  // ----- SI prefixes and unit symbols -----

  function Prefix(prefix: string): Option<int> {
    if prefix == "" then Some(0)
    else if |prefix| != 1 then None
    else match prefix[0]
         case 'p' => Some(-12)
         case 'n' => Some(-9)
         case 'u' => Some(-6)
         case 'm' => Some(-3)
         case 'k' => Some(3)
         case 'M' => Some(6)
         case 'G' => Some(9)
         case c => if c == MICRO || c == MU then Some(-6) else None
  }

  predicate EndsWith(s: string, tail: string) {
    |tail| <= |s| && s[|s| - |tail|..] == tail
  }

  function Without(s: string, tail: string): string
    requires EndsWith(s, tail)
  {
    s[..|s| - |tail|]
  }

  /** Spelled-out ohms become the unit symbol. */
  function SpelledOhms(symbol: string): string {
    var s := if symbol == "ohm" || symbol == "ohms" || symbol == [OHM_SIGN] then RESISTANCE else symbol;
    if EndsWith(s, "ohms") then Without(s, "ohms") + RESISTANCE
    else if EndsWith(s, "ohm") then Without(s, "ohm") + RESISTANCE
    else s
  }

  /** `([prefix]?)V/([prefix]?)s`. */
  function Rate(symbol: string): Option<int> {
    if symbol != [] && symbol[|symbol| - 1] == 's' then
      if symbol[..1] == "V" && symbol[1..2] == "/" then RateBelow(0, symbol[2..|symbol| - 1])
      else if |symbol| > 3 && symbol[1] == 'V' && symbol[2] == '/' && Prefix(symbol[..1]).Some?
      then RateBelow(Prefix(symbol[..1]).value, symbol[3..|symbol| - 1])
      else None
    else None
  }

  function RateBelow(above: int, prefix: string): Option<int> {
    if Prefix(prefix).Some? then Some(above - Prefix(prefix).value) else None
  }

  /** The power of ten a unit symbol stands for, if it is a symbol of this unit. */
  function SymbolExponent(symbol: string, unit: string): Option<int> {
    var s := SpelledOhms(symbol);
    if unit == "V/s" then Rate(s)
    else if unit == "%" || unit == "ratio" then (if s == unit then Some(0) else None)
    else if EndsWith(s, unit) then Prefix(Without(s, unit))
    else None
  }

  function NonSpaces(s: string): (t: string)
    ensures t <= s
  {
    if s != [] && !IsSpace(s[0]) then [s[0]] + NonSpaces(s[1..]) else ""
  }

  /** The one word left after the number. */
  function SymbolAfter(rest: string): Option<string> {
    var after := SkipSpaces(rest);
    var symbol := NonSpaces(after);
    if symbol == [] || SkipSpaces(after[|symbol|..]) != [] then None else Some(symbol)
  }

  /** `numeric_value`; None where it raises. */
  function NumericValue(raw: string, unit: string): (d: Option<Decimal>)
    ensures d.Some? ==> d.value.Valid()
  {
    if |raw| > LIMIT then None
    else
      match LeadingNumber(SkipSpaces(raw))
      case None => None
      case Some(number) =>
        match SymbolAfter(number.rest)
        case None => None
        case Some(symbol) =>
          match SymbolExponent(symbol, unit)
          case None => None
          case Some(exponent) => Some(Shifted(number.Value(), exponent))
  }

  // ----- labels without an explicit unit -----

  predicate EiaLetter(c: char) {
    || c in "RrKkMmGgPpNnUu" || c == MICRO || c == MU
  }

  function Lower(c: char): char {
    if 'A' <= c <= 'Z' then c - 'A' + 'a' else if c == MU then MICRO else c
  }

  /** Resistor shorthand in any case: r, k, m for mega, g. */
  function ResistorPrefix(c: char): Option<int> {
    match c
    case 'r' => Some(0)
    case 'k' => Some(3)
    case 'm' => Some(6)
    case 'g' => Some(9)
    case _ => None
  }

  function PassivePrefix(c: char): Option<int> {
    match c
    case 'p' => Some(-12)
    case 'n' => Some(-9)
    case 'u' => Some(-6)
    case 'm' => Some(-3)
    case _ => if c == MICRO then Some(-6) else None
  }

  function LabelPrefix(c: char, unit: Option<string>): Option<int> {
    if unit == Some(RESISTANCE) then ResistorPrefix(c)
    else if unit == Some("F") || unit == Some("H") then PassivePrefix(c)
    else None
  }

  /** A letter standing for the decimal point: `4k7`. */
  function Eia(s: string): (n: Option<(Number, char)>)
    ensures n.Some? ==> n.value.0.Valid()
  {
    var whole := Digits(s);
    var rest := s[|whole|..];
    if whole == [] || rest == [] || !EiaLetter(rest[0]) || rest[1..] == [] || Digits(rest[1..]) != rest[1..] then None
    else Some((Number(whole, rest[1..], ""), rest[0]))
  }

  /** What an `Eia` label denotes for a known unit. */
  function EiaValue(s: string, unit: Option<string>): (d: Option<Decimal>)
    ensures d.Some? ==> d.value.Valid()
  {
    match Eia(s)
    case None => None
    case Some((number, letter)) =>
      if (unit == Some("F") || unit == Some("H")) && letter == 'M' then Some(Shifted(number.Value(), 6))
      else match LabelPrefix(Lower(letter), unit)
           case None => None
           case Some(exponent) => Some(Shifted(number.Value(), exponent))
  }

  predicate IsLetter(c: char) {
    'A' <= c <= 'Z' || 'a' <= c <= 'z' || c == MICRO || c == MU
  }

  predicate AllLetters(s: string) { forall i :: 0 <= i < |s| ==> IsLetter(s[i]) }

  function LowerAll(s: string): (t: string)
    ensures |t| == |s|
  {
    seq(|s|, i requires 0 <= i < |s| => Lower(s[i]))
  }

  function MicroAll(s: string): (t: string)
    ensures |t| == |s|
  {
    seq(|s|, i requires 0 <= i < |s| => if s[i] == MU then MICRO else s[i])
  }

  /** The older resistor, capacitor and inductor spellings, where case carried no meaning. */
  function LegacyValue(s: string, unit: Option<string>): (d: Option<Decimal>)
    ensures d.Some? ==> d.value.Valid()
  {
    if unit == Some(RESISTANCE) || unit == Some("F") || unit == Some("H") then
      match LeadingNumber(s)
      case None => None
      case Some(number) =>
        var letters := SkipSpaces(number.rest);
        if !AllLetters(letters) then None
        else match LegacyExponent(letters, unit.value)
             case None => None
             case Some(exponent) => Some(Shifted(number.Value(), exponent))
    else None
  }

  function LegacyExponent(letters: string, unit: string): Option<int> {
    if unit == RESISTANCE then
      var suffix := WithoutOhms(LowerAll(letters));
      if suffix == [] then (if letters != [] then Some(0) else None)
      else if |suffix| == 1 then ResistorPrefix(suffix[0]) else None
    else
      var text := MicroAll(letters);
      var suffix := if EndsWith(LowerAll(text), LowerAll(unit)) then text[..|text| - |unit|] else text;
      if |suffix| == 1 then PassivePrefix(suffix[0]) else None
  }

  function WithoutOhms(s: string): string {
    if EndsWith(s, "ohms") then Without(s, "ohms") else if EndsWith(s, "ohm") then Without(s, "ohm") else s
  }

  // ----- labels with an explicit unit -----

  function ReplaceOhm(c: char): char {
    if c == OMEGA || c == OHM_SIGN then OHM else c
  }

  function ReplaceOhms(s: string): (t: string)
    ensures |t| == |s|
  {
    seq(|s|, i requires 0 <= i < |s| => ReplaceOhm(s[i]))
  }

  predicate PrefixChar(c: char) { c in "pnumkMG" || c == MICRO || c == MU }

  /** Restores the case of a one- or two-letter unit symbol. */
  function UnitCase(s: string): Option<string> {
    if |s| == 1 && s[0] in "aAvVwWfFhH" then Some([Upper(s[0])])
    else if |s| == 2 && s[0] in "hH" && s[1] in "zZ" then Some("Hz")
    else None
  }

  function Upper(c: char): char {
    if 'a' <= c <= 'z' then c - 'a' + 'A' else c
  }

  /** `[prefix]?symbol` with the symbol's case restored, if it is one of the repaired units. */
  function RepairedSymbol(s: string): Option<string> {
    if s != [] && PrefixChar(s[0]) && UnitCase(s[1..]).Some? then Some(s[..1] + UnitCase(s[1..]).value)
    else UnitCase(s)
  }

  function RepairedCase(s: string): string {
    var (_, rest) := Unsigned(s);
    match LeadingNumber(rest)
    case None => s
    case Some(number) =>
      var symbol := SkipSpaces(number.rest);
      match RepairedSymbol(symbol)
      case None => s
      case Some(repaired) => s[..|s| - |symbol|] + repaired
  }

  /** Sign and magnitude; a sign alone is no sign. */
  function Magnitude(s: string): (bool, string) {
    if |s| > 1 then Unsigned(s) else (false, s)
  }

  function ExplicitValue(s: string, unit: string): (d: Option<Decimal>)
    ensures d.Some? ==> d.value.Valid()
  {
    var (negative, magnitude) := Magnitude(s);
    if magnitude == [] || '\n' in magnitude then None
    else
      match NumericValue(magnitude, unit)
      case None => None
      case Some(d) => Some(if negative then d.(negative := !d.negative) else d)
  }

  /** The first of the candidate units that reads the label. */
  function FirstUnit(s: string, units: seq<string>): (q: Option<Quantity>)
    ensures q.Some? ==> Canonical(q.value.decimal) && q.value.unit in units
  {
    if units == [] then None
    else
      match ExplicitValue(s, units[0])
      case Some(d) => Some(Labelled(d, units[0]))
      case None => FirstUnit(s, units[1..])
  }

  // ----- parse_nominal -----

  /** Decimal text in lowest terms. */
  ghost predicate Canonical(text: string) {
    exists r: Decimal :: Lowest(r) && text == DecimalText(r)
  }

  function Labelled(d: Decimal, unit: string): (q: Quantity)
    requires d.Valid()
    ensures q.unit == unit && Canonical(q.decimal)
  {
    TextIsCanonical(d);
    Quantity(DecimalText(d), unit)
  }

  lemma {:induction false} TextIsCanonical(d: Decimal)
    requires d.Valid()
    ensures Lowest(Reduced(d)) && DecimalText(d) == DecimalText(Reduced(d))
    ensures Canonical(DecimalText(d))
  {
    var r := Reduced(d);
    if !d.IsZero() {
      TextOfReduced(d);
      ReducedShift(d, 0);
      TextOfReduced(r);
    }
  }

  function TrailingR(s: string): (d: Option<Decimal>)
    ensures d.Some? ==> d.value.Valid()
  {
    match LeadingNumber(s)
    case Some(number) => if number.whole != [] && (number.rest == "R" || number.rest == "r") then Some(number.Value()) else None
    case None => None
  }

  /** `parse_nominal`: every quantity it returns is in canonical decimal text. */
  function ParseNominal(raw: string, unit: Option<string>): (q: Option<Quantity>)
    ensures q.Some? ==> Canonical(q.value.decimal) && q.value.unit in BASE_UNITS
    ensures q.Some? && unit.Some? ==> q.value.unit == unit.value
  {
    if |raw| > LIMIT || (unit.Some? && unit.value !in BASE_UNITS) then None
    else
      var text := Strip(raw);
      if unit.Some? && PlainDecimal(text).Some? then Some(Labelled(PlainDecimal(text).value, unit.value))
      else if unit.Some? && EiaValue(text, unit).Some? then Some(Labelled(EiaValue(text, unit).value, unit.value))
      else if unit.Some? && LegacyValue(text, unit).Some? then Some(Labelled(LegacyValue(text, unit).value, unit.value))
      else if unit == None && TrailingR(text).Some? then Some(Labelled(TrailingR(text).value, RESISTANCE))
      else FirstUnit(RepairedCase(ReplaceOhms(text)), if unit.Some? then [unit.value] else BASE_UNITS)
  }

  // ----- display -----

  /** `abs(value) >= 10 ** exponent`, read off the number of digits. */
  predicate AtLeast(d: Decimal, exponent: int) {
    !d.IsZero() && Adjusted(d) >= exponent
  }

  function Adjusted(d: Decimal): int { |d.digits| + d.exponent - 1 }

  function OhmExponent(d: Decimal): int {
    if AtLeast(d, 9) then 9 else if AtLeast(d, 6) then 6 else if AtLeast(d, 3) then 3 else 0
  }

  function OhmLetter(exponent: int): char {
    if exponent == 9 then 'G' else if exponent == 6 then 'M' else if exponent == 3 then 'k' else 'R'
  }

  function SiExponent(d: Decimal): int {
    if d.IsZero() then 0
    else
      var e := (Adjusted(d) / 3) * 3;
      if e > 9 then 9 else if e < -12 then -12 else e
  }

  function SiPrefix(exponent: int): string {
    if exponent == -12 then "p" else if exponent == -9 then "n" else if exponent == -6 then [MICRO]
    else if exponent == -3 then "m" else if exponent == 3 then "k" else if exponent == 6 then "M"
    else if exponent == 9 then "G" else ""
  }

  function ReplacePoint(s: string, letter: char): string {
    if s == [] then [] else [if s[0] == '.' then letter else s[0]] + ReplacePoint(s[1..], letter)
  }

  /** The letter takes the place of the point, or closes the number. */
  function OhmLabel(text: string, letter: char): string {
    if '.' in text then ReplacePoint(text, letter) else text + [letter]
  }

  function OhmDisplay(value: Decimal): string
    requires value.Valid()
  {
    OhmLabel(DecimalText(Shifted(value, -OhmExponent(value))), OhmLetter(OhmExponent(value)))
  }

  function SiDisplay(value: Decimal, unit: string): string
    requires value.Valid()
  {
    DecimalText(Shifted(value, -SiExponent(value))) + SiPrefix(SiExponent(value)) + unit
  }

  /** `NominalQuantity.display`. */
  function Display(q: Quantity): string
    requires PlainDecimal(q.decimal).Some?
  {
    var value := PlainDecimal(q.decimal).value;
    if q.unit == RESISTANCE then OhmDisplay(value)
    else if q.unit == "%" || q.unit == "ratio" || q.unit == "V/s" then q.decimal + " " + q.unit
    else SiDisplay(value, q.unit)
  }
}
