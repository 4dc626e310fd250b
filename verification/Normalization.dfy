/** Stock identity (`domain/normalization.py`): cleaning submitted fields, repairing the slots of older
    passive records, and the identity two records of the same stock share. */
module Normalization {
  import opened Wrappers
  import Decimals
  import Nominal
  import NominalLabels
  import NominalRoundTrip

  datatype Fields = Fields(
    category: string,
    profile: string,
    value: Option<string>,
    unit: Option<string>,
    package: Option<string>,
    partNumber: Option<string>,
    manufacturer: Option<string>,
    description: Option<string>,
    datasheetUrl: Option<string>,
    quantity: int)

  datatype Error = InvalidInput | DuplicatePart | Conflict | PartNotFound | ReviewNotFound

  // ----- text -----

  function LowerChar(c: char): char { if 'A' <= c <= 'Z' then c - 'A' + 'a' else c }

  function LowerText(s: string): (t: string)
    ensures |t| == |s|
  {
    seq(|s|, i requires 0 <= i < |s| => LowerChar(s[i]))
  }

  /** `clean_text`: stripped, and None when nothing is left. */
  function CleanText(text: Option<string>): Option<string> {
    match text
    case None => None
    case Some(s) => if Nominal.Strip(s) == [] then None else Some(Nominal.Strip(s))
  }

  predicate Clean(text: Option<string>) {
    text.Some? ==> text.value != [] && Nominal.Strip(text.value) == text.value
  }

  predicate CleanFields(f: Fields) {
    && Clean(f.value) && Clean(f.unit) && Clean(f.package) && Clean(f.partNumber)
  }

  function Cleaned(f: Fields): Fields {
    f.(category := Nominal.Strip(f.category), profile := Nominal.Strip(f.profile), value := CleanText(f.value),
       unit := CleanText(f.unit), package := CleanText(f.package), partNumber := CleanText(f.partNumber),
       manufacturer := CleanText(f.manufacturer), description := CleanText(f.description),
       datasheetUrl := CleanText(f.datasheetUrl))
  }

  // ----- nominal values -----

  function CategoryUnit(category: string): Option<string> {
    if category in ["resistor", "potentiometer", "resistance"] then Some(Nominal.RESISTANCE)
    else if category in ["capacitor", "capacitance"] then Some("F")
    else if category in ["inductor", "inductance"] then Some("H")
    else if category in ["current", "amperage"] then Some("A")
    else if category == "voltage" then Some("V")
    else if category == "power" then Some("W")
    else if category == "frequency" then Some("Hz")
    else None
  }

  /** `nominal_for_category`. */
  function NominalFor(raw: string, category: string, unit: Option<string>): Option<Nominal.Quantity> {
    Nominal.ParseNominal(raw, if unit.Some? then unit else CategoryUnit(LowerText(Nominal.Strip(category))))
  }

  // ----- shapes of tokens -----

  predicate StartsWith(s: string, head: string) { |head| <= |s| && s[..|head|] == head }

  predicate DigitText(s: string) { s != [] && Decimals.AllDigits(s) }

  /** A package family, an optional hyphen, and digits. */
  predicate Family(s: string, name: string) {
    StartsWith(s, name) &&
    var rest := s[|name|..];
    DigitText(if rest != [] && rest[0] == '-' then rest[1..] else rest)
  }

  /** `SOT-?\d+(-\d+)?`. */
  predicate SotFamily(s: string) {
    StartsWith(s, "sot") &&
    var rest := s[3..];
    var number := if rest != [] && rest[0] == '-' then rest[1..] else rest;
    var digits := Nominal.Digits(number);
    var tail := number[|digits|..];
    digits != [] && (tail == [] || (tail[0] == '-' && DigitText(tail[1..])))
  }

  const FAMILIES: seq<string> :=
    ["soic", "tssop", "msop", "ssop", "qfn", "dfn", "lqfp", "tqfp", "qfp", "dip", "sop", "to"]

  predicate Millimetres(s: string) {
    var n := Nominal.LeadingNumber(s);
    n.Some? && n.value.whole != [] && n.value.rest == "mm"
  }

  /** `_looks_like_package`, on the stripped and lower-cased token. */
  predicate PackageToken(s: string) {
    || (Decimals.AllDigits(s) && (|s| == 4 || |s| == 5))
    || SotFamily(s)
    || (exists i :: 0 <= i < |FAMILIES| && Family(s, FAMILIES[i]))
    || s == "led-smd" || s == "panel-mount" || s == "through-hole"
    || Millimetres(s)
  }

  predicate LooksLikePackage(text: Option<string>) {
    text.Some? && PackageToken(LowerText(Nominal.Strip(text.value)))
  }

  const VALUE_UNITS: seq<string> :=
    ["r", "k", "m", "g", "ohm", "ohms", "pf", "nf", "uf", [Nominal.MICRO] + "f", "mh", "uh", [Nominal.MICRO] + "h", "nh", "f", "h"]

  predicate NumberWithUnit(s: string) {
    var n := Nominal.LeadingNumber(s);
    n.Some? && n.value.whole != [] && Nominal.SkipSpaces(n.value.rest) in VALUE_UNITS
  }

  /** A letter between digits. */
  predicate LetterAsPoint(s: string) {
    var whole := Nominal.Digits(s);
    var rest := s[|whole|..];
    whole != [] && rest != [] && rest[0] in "rkmgpnu" && DigitText(rest[1..])
  }

  /** `_looks_like_value`, on the stripped and lower-cased token. */
  predicate ValueToken(s: string) {
    s != [] && (NumberWithUnit(s) || LetterAsPoint(s))
  }

  predicate LooksLikeValue(text: Option<string>) {
    text.Some? && ValueToken(LowerText(Nominal.Strip(text.value)))
  }

  // ----- repair and normalization -----

  predicate Passive(category: string) {
    LowerText(category) in ["resistor", "capacitor", "inductor"]
  }

  /** The value slot of a passive record holds a package: take the value from where it is. */
  function Unswapped(f: Fields): Fields {
    if LooksLikePackage(f.value) && LooksLikeValue(f.partNumber) then f.(value := f.partNumber, partNumber := None)
    else if LooksLikePackage(f.value) && LooksLikeValue(f.package) then f.(value := f.package, package := f.value)
    else f
  }

  /** A value never stays in the part number slot. */
  function Unnumbered(f: Fields): Fields {
    if LooksLikeValue(f.partNumber) then
      f.(value := if LooksLikeValue(f.value) then f.value else f.partNumber, partNumber := None)
    else f
  }

  /** `repair_fields`. */
  function Repaired(f: Fields): Fields {
    if !Passive(f.category) then f else Unnumbered(Unswapped(f.(profile := "passive")))
  }

  function WithNominal(f: Fields): Fields {
    match f.value
    case None => f.(unit := None)
    case Some(raw) =>
      match NominalFor(raw, f.category, f.unit)
      case Some(q) => f.(value := Some(q.decimal), unit := Some(q.unit))
      case None => if f.profile == "passive" then f.(value := Some(Nominal.Strip(raw))) else f
  }

  /** `normalize_part_payload`. */
  function Normalized(f: Fields): Fields { WithNominal(Repaired(f)) }

  predicate NormalForm(f: Fields) { Normalized(f) == f }

  /** `validate_fields`; the URL grammar is left to its parser. */
  function Validated(f: Fields): Result<Fields, Error> {
    var c := Cleaned(f);
    if c.category == [] then Failure(InvalidInput)
    else if c.profile != "passive" && c.profile != "discrete_ic" then Failure(InvalidInput)
    else if c.quantity < 0 then Failure(InvalidInput)
    else if c.unit.Some? && (c.unit.value !in Nominal.BASE_UNITS ||
              (CategoryUnit(LowerText(c.category)).Some? && CategoryUnit(LowerText(c.category)) != c.unit)) then Failure(InvalidInput)
    else if c.unit.Some? && c.value.Some? && NominalFor(c.value.value, c.category, c.unit) == None then Failure(InvalidInput)
    else Success(Normalized(c))
  }

  // ----- identity -----

  datatype Identity = Numbered(partNumber: string) | PassiveStock(category: string, value: Option<string>, package: Option<string>)

  /** `part_identity`: None when the record cannot be told from others. */
  function IdentityOf(f: Fields): Option<Identity> {
    var n := Normalized(f);
    if n.partNumber.Some? then Some(Numbered(n.partNumber.value))
    else if !Passive(n.category) then None
    else Some(PassiveStock(n.category, n.value, n.package))
  }

  // ----- when normalizing again changes nothing -----

  /** A passive record whose normalized value reads as a package while its package reads as a value. */
  predicate Misfiled(f: Fields) {
    Passive(f.category) && LooksLikePackage(f.value) && LooksLikeValue(f.package)
  }

  /** A misfiled record known by its slots alone: stored as it is, no search for its own identity finds it. */
  predicate Hidden(f: Fields) {
    f.partNumber == None && Misfiled(f)
  }

  /** A token that does not start with a letter is no member of a package family. */
  lemma {:induction false} NoLetterNoFamily(s: string)
    requires s != [] && !('a' <= s[0] <= 'z')
    ensures !SotFamily(s) && forall i :: 0 <= i < |FAMILIES| ==> !Family(s, FAMILIES[i])
    ensures s != "led-smd" && s != "panel-mount" && s != "through-hole"
  {
    forall i | 0 <= i < |FAMILIES| ensures !Family(s, FAMILIES[i]) { FamilyStartsWithLetter(s, i); }
    assert "sot"[0] == 's';
  }

  /** No token is both: a package never ends a number the way a value does. */
  lemma {:induction false} TokensDiffer(s: string)
    requires ValueToken(s)
    ensures !PackageToken(s)
  {
    ValueStartsWithDigit(s);
    NoLetterNoFamily(s);
    MillimetresAreNoValue(s);
    DigitsAreNoValue(s);
  }

  lemma {:induction false} ValueStartsWithDigit(s: string)
    requires ValueToken(s)
    ensures Decimals.IsDigit(s[0])
  {
    var whole := Nominal.Digits(s);
    assert whole != [] && whole[0] == s[0];
  }

  lemma FamilyStartsWithLetter(s: string, i: nat)
    requires i < |FAMILIES|
    ensures Family(s, FAMILIES[i]) ==> s != [] && 'a' <= s[0] <= 'z'
  {
    if Family(s, FAMILIES[i]) {
      assert s[0] == FAMILIES[i][0];
    }
  }

  lemma {:induction false} MillimetresAreNoValue(s: string)
    ensures !(Millimetres(s) && ValueToken(s))
  {
    if !Millimetres(s) { return; }
    var n := Nominal.LeadingNumber(s).value;
    assert s[|s| - 2..] == "mm" && s[|s| - 1] == 'm' by { NumberRest(s); }
    assert Nominal.SkipSpaces("mm") == "mm";
    assert "mm" !in VALUE_UNITS;
    var whole := Nominal.Digits(s);
    var rest := s[|whole|..];
    assert rest != [] ==> rest[|rest| - 1] == s[|s| - 1];
  }

  lemma {:induction false} NumberRest(s: string)
    requires Nominal.LeadingNumber(s).Some?
    ensures var n := Nominal.LeadingNumber(s).value; |n.rest| <= |s| && s[|s| - |n.rest|..] == n.rest
  {
  }

  lemma {:induction false} DigitsAreNoValue(s: string)
    ensures !(Decimals.AllDigits(s) && ValueToken(s))
  {
    if !Decimals.AllDigits(s) { return; }
    NominalRoundTrip.DigitsOf(s, "");
    assert s + "" == s;
    assert Nominal.Digits(s) == s && s[|s|..] == "";
    assert Nominal.SkipSpaces("") == "" && "" !in VALUE_UNITS;
  }

  lemma {:induction false} ShapesDiffer(text: Option<string>)
    ensures !(LooksLikePackage(text) && LooksLikeValue(text))
  {
    if LooksLikeValue(text) { TokensDiffer(LowerText(Nominal.Strip(text.value))); }
  }

  /** After one pass the value slot is settled: reading it again changes nothing. */
  lemma {:induction false} NominalIsStable(f: Fields)
    requires Clean(f.value)
    ensures WithNominal(WithNominal(f)) == WithNominal(f)
  {
    if f.value.Some? && NominalFor(f.value.value, f.category, f.unit).Some? {
      var q := NominalFor(f.value.value, f.category, f.unit).value;
      NominalLabels.StoredIsStable(q.decimal, q.unit);
      NominalLabels.StoredIsStripped(q.decimal);
    }
  }

  lemma {:induction false} RepairedIsClean(f: Fields)
    requires CleanFields(f)
    ensures CleanFields(Repaired(f))
  {
  }

  lemma {:induction false} RepairKeepsNumbers(f: Fields)
    requires Passive(f.category)
    ensures !LooksLikeValue(Repaired(f).partNumber) && Repaired(f).profile == "passive" && Repaired(f).category == f.category
  {
  }

  /** A settled passive record is repaired again only when it is misfiled. */
  lemma {:induction false} RepairIsIdle(n: Fields)
    requires Passive(n.category) ==> n.profile == "passive" && !LooksLikeValue(n.partNumber) && !Misfiled(n)
    ensures Repaired(n) == n
  {
  }

  /** A misfiled record swaps its two slots. */
  lemma {:induction false} MisfiledSwaps(n: Fields)
    requires Misfiled(n) && !LooksLikeValue(n.partNumber)
    ensures Normalized(n).package == n.value && n.value != n.package
  {
    ShapesDiffer(n.value);
    assert Repaired(n).package == n.value;
  }

  /** Normalization is idempotent exactly on records it does not leave misfiled. */
  lemma {:induction false} NormalizedIsNormal(f: Fields)
    requires CleanFields(f)
    ensures NormalForm(Normalized(f)) <==> !Misfiled(Normalized(f))
  {
    var n := Normalized(f);
    assert Passive(n.category) ==> n.profile == "passive" && !LooksLikeValue(n.partNumber) by {
      if Passive(f.category) { RepairKeepsNumbers(f); }
    }
    if Misfiled(n) {
      MisfiledSwaps(n);
    } else {
      RepairIsIdle(n);
      RepairedIsClean(f);
      NominalIsStable(Repaired(f));
    }
  }

  lemma {:induction false} CleanedIsClean(f: Fields)
    ensures CleanFields(Cleaned(f))
  {
    StripTwice(f.value.GetOr(""));
    StripTwice(f.unit.GetOr(""));
    StripTwice(f.package.GetOr(""));
    StripTwice(f.partNumber.GetOr(""));
  }

  lemma {:induction false} TrimKeepsFirst(s: string)
    requires s != [] && !Nominal.IsSpace(s[0])
    ensures var t := Nominal.TrimSpaces(s); t != [] && t[0] == s[0] && !Nominal.IsSpace(t[|t| - 1])
  {
    if Nominal.IsSpace(s[|s| - 1]) { TrimKeepsFirst(s[..|s| - 1]); }
  }

  lemma {:induction false} StripTwice(s: string)
    ensures Nominal.Strip(Nominal.Strip(s)) == Nominal.Strip(s)
  {
    var rest := Nominal.SkipSpaces(s);
    if rest != [] { TrimKeepsFirst(rest); }
  }

  /** What validation stores is in normal form exactly when it is not misfiled. */
  lemma {:induction false} ValidatedIsNormal(f: Fields)
    requires Validated(f).Success?
    ensures NormalForm(Validated(f).value) <==> !Misfiled(Validated(f).value)
  {
    CleanedIsClean(f);
    NormalizedIsNormal(Cleaned(f));
  }
}
