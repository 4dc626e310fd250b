/** What a hidden row does, concretely: a pair of additions to an empty inventory, each accepted, after which
    two rows have the same identity. */
module MisfiledStock {
  import opened Wrappers
  import opened Decimals
  import opened Normalization
  import opened Inventory
  import opened InventoryIdentity
  import opened HiddenStock
  import Nominal
  import NominalLabels
  import NominalRoundTrip

  const FOUR: string := "10000"
  const THREE: string := "1000"

  const SWAPPED: Fields := Fields("resistor", "passive", Some("10k"), None, Some("1k"), None, None, None, None, 5)
  const PLAIN: Fields := Fields("resistor", "passive", Some("1k"), None, Some(FOUR), None, None, None, None, 5)

  const SWAPPED_ROW: Fields := SWAPPED.(value := Some(FOUR), unit := Some(Nominal.RESISTANCE))
  const PLAIN_ROW: Fields := PLAIN.(value := Some(THREE), unit := Some(Nominal.RESISTANCE))

  lemma {:induction false} PowerText(zeros: nat)
    ensures var r := Decimal(false, "1", zeros); Lowest(r) && DecimalText(r) == "1" + Zeros(zeros)
  {
    NoPoint("1" + Zeros(zeros));
  }

  lemma {:induction false} PowerReads(zeros: nat)
    requires zeros < 10
    ensures Nominal.ParseNominal("1" + Zeros(zeros), Some(Nominal.RESISTANCE))
            == Some(Nominal.Quantity("1" + Zeros(zeros), Nominal.RESISTANCE))
  {
    PowerText(zeros);
    NominalLabels.StoredIsStable("1" + Zeros(zeros), Nominal.RESISTANCE);
  }

  lemma {:induction false} KiloText(whole: string)
    requires whole == "10" || whole == "1"
    ensures FromParts(whole, "") == Decimal(false, whole, 0)
    ensures DecimalText(Shifted(FromParts(whole, ""), 3)) == "1" + Zeros(if whole == "10" then 4 else 3)
  {
    assert whole + "" == whole;
    if whole == "10" { assert "10" + Zeros(3) == "1" + ("0" + Zeros(3)); }
    NoPoint(whole + Zeros(3));
  }

  lemma {:induction false} KiloReads(whole: string)
    requires whole == "10" || whole == "1"
    ensures Nominal.ParseNominal(whole + "k", Some(Nominal.RESISTANCE))
            == Some(Nominal.Quantity("1" + Zeros(if whole == "10" then 4 else 3), Nominal.RESISTANCE))
  {
    KiloText(whole);
    assert NominalLabels.OhmBody(whole, "", 'k') == whole + "k";
    NominalLabels.OhmReads(whole, "", 3);
  }

  lemma {:induction false} PowerTexts()
    ensures "1" + Zeros(4) == FOUR && "1" + Zeros(3) == THREE
  {
    assert Zeros(3) == "000" && Zeros(4) == "0000";
  }

  lemma {:induction false} Values()
    ensures NominalFor("10k", "resistor", None) == Some(Nominal.Quantity(FOUR, Nominal.RESISTANCE))
    ensures NominalFor("1k", "resistor", None) == Some(Nominal.Quantity(THREE, Nominal.RESISTANCE))
    ensures NominalFor("1k", "resistor", Some(Nominal.RESISTANCE)) == Some(Nominal.Quantity(THREE, Nominal.RESISTANCE))
    ensures NominalFor(THREE, "resistor", Some(Nominal.RESISTANCE)) == Some(Nominal.Quantity(THREE, Nominal.RESISTANCE))
  {
    PowerTexts();
    KiloReads("10");
    KiloReads("1");
    PowerReads(3);
    assert "10" + "k" == "10k" && "1" + "k" == "1k";
    ResistorUnit();
  }

  lemma {:induction false} ResistorUnit()
    ensures Nominal.Strip("resistor") == "resistor" && LowerText("resistor") == "resistor"
    ensures CategoryUnit(LowerText(Nominal.Strip("resistor"))) == Some(Nominal.RESISTANCE)
    ensures Passive("resistor")
  {
  }

  lemma {:induction false} TokenIsItself(s: string)
    requires s != [] && forall i :: 0 <= i < |s| ==> IsDigit(s[i]) || s[i] == 'k'
    ensures Nominal.Strip(s) == s && LowerText(s) == s && CleanText(Some(s)) == Some(s)
  {
  }

  lemma {:induction false} KiloShape(whole: string, text: string)
    requires (whole == "10" || whole == "1") && text == whole + "k"
    ensures LooksLikeValue(Some(text)) && !LooksLikePackage(Some(text))
  {
    TokenIsItself(text);
    KiloIsValue(whole);
    TokensDiffer(text);
  }

  lemma {:induction false} DigitShape(text: string)
    requires AllDigits(text) && (|text| == 4 || |text| == 5)
    ensures LooksLikePackage(Some(text)) && !LooksLikeValue(Some(text))
  {
    TokenIsItself(text);
    DigitsAreNoValue(text);
  }

  /** `10k` and `1k` are values and no packages. */
  lemma {:induction false} KiloShapes()
    ensures LooksLikeValue(Some("1k")) && !LooksLikePackage(Some("1k"))
    ensures !LooksLikePackage(Some("10k"))
  {
    KiloShape("1", "1k");
    KiloShape("10", "10k");
  }

  /** Four and five digits are a package and no value. */
  lemma {:induction false} DigitShapes()
    ensures LooksLikePackage(Some(FOUR)) && !LooksLikeValue(Some(FOUR))
    ensures LooksLikePackage(Some(THREE))
  {
    DigitShape(FOUR);
    DigitShape(THREE);
  }

  lemma {:induction false} KiloIsValue(whole: string)
    requires whole != [] && AllDigits(whole)
    ensures ValueToken(whole + "k")
  {
    NominalRoundTrip.WholeNumber(whole, "k");
    assert Nominal.SkipSpaces("k") == "k";
    assert VALUE_UNITS[1] == "k";
  }

  lemma {:induction false} CleanAlready()
    ensures Cleaned(SWAPPED) == SWAPPED && Cleaned(PLAIN) == PLAIN
  {
    TokenIsItself("1k");
    TokenIsItself("10k");
    TokenIsItself(FOUR);
    ResistorUnit();
    assert Nominal.Strip("passive") == "passive";
  }

  lemma {:induction false} NormalizedSwapped()
    ensures Normalized(SWAPPED) == SWAPPED_ROW
  {
    KiloShapes();
    DigitShapes();
    Values();
    ResistorUnit();
    assert Repaired(SWAPPED) == SWAPPED;
  }

  lemma {:induction false} NormalizedPlain()
    ensures Normalized(PLAIN) == PLAIN_ROW
    ensures Normalized(PLAIN_ROW) == PLAIN_ROW
  {
    KiloShapes();
    DigitShapes();
    Values();
    ResistorUnit();
    assert Repaired(PLAIN) == PLAIN;
    assert Repaired(PLAIN_ROW) == PLAIN_ROW;
  }

  lemma {:induction false} IdentitiesMeet()
    ensures IdentityOf(SWAPPED_ROW) == IdentityOf(PLAIN_ROW)
    ensures IdentityOf(PLAIN_ROW) == Some(PassiveStock("resistor", Some(THREE), Some(FOUR)))
  {
    KiloShapes();
    DigitShapes();
    Values();
    ResistorUnit();
    NormalizedPlain();
    assert Repaired(SWAPPED_ROW) == SWAPPED_ROW.(value := Some("1k"), package := Some(FOUR));
    assert Normalized(SWAPPED_ROW) == PLAIN_ROW;
  }

  lemma {:induction false} BothValidate()
    ensures Validated(SWAPPED) == Success(SWAPPED_ROW) && Validated(PLAIN) == Success(PLAIN_ROW)
  {
    CleanAlready();
    NormalizedSwapped();
    NormalizedPlain();
  }

  lemma {:induction false} PackagesDiffer()
    ensures !Narrowed(SWAPPED_ROW, PLAIN_ROW) && !Clash(SWAPPED_ROW, PLAIN_ROW)
  {
    TokenIsItself(FOUR);
    assert |"1k"| != |FOUR|;
  }

  lemma {:induction false} SecondNotFound(parts: map<PartId, Fields>)
    requires parts == map[1 := SWAPPED_ROW]
    ensures Duplicate(parts, PLAIN_ROW) == Success(None)
  {
    NormalizedPlain();
    PackagesDiffer();
    var found := set id | id in parts && Matches(parts, PLAIN_ROW, id);
    assert found == {};
  }

  lemma {:induction false} SecondStorable(parts: map<PartId, Fields>)
    requires parts == map[1 := SWAPPED_ROW]
    ensures Storable(parts, 2, PLAIN_ROW)
  {
    PackagesDiffer();
  }

  lemma {:induction false} FirstAdded()
    ensures Added(EMPTY, SWAPPED) == Success((Bin(map[1 := SWAPPED_ROW], 2, map[], map[]), 1))
  {
    BothValidate();
    var none: map<PartId, Fields> := map[];
    var found := set id | id in none && Matches(none, Normalized(SWAPPED_ROW), id);
    assert found == {};
    assert Duplicate(none, SWAPPED_ROW) == Success(None);
    assert EMPTY.parts[1 := SWAPPED_ROW] == map[1 := SWAPPED_ROW];
  }

  const FIRST: Bin := Bin(map[1 := SWAPPED_ROW], 2, map[], map[])

  lemma {:induction false} SecondAdded(b: Bin)
    requires b == FIRST
    ensures Added(b, PLAIN) == Success((b.(parts := b.parts[2 := PLAIN_ROW], next := 3), 2))
  {
    BothValidate();
    SecondNotFound(b.parts);
    SecondStorable(b.parts);
  }

  lemma {:induction false} RowsMeet(parts: map<PartId, Fields>)
    requires 1 in parts && 2 in parts && parts[1] == SWAPPED_ROW && parts[2] == PLAIN_ROW
    ensures !Unique(parts)
  {
    IdentitiesMeet();
    assert !Apart(parts, 1, 2);
  }

  lemma {:induction false} FirstIsMisfiled()
    ensures Misfiled(SWAPPED_ROW)
  {
    KiloShapes();
    DigitShapes();
    ResistorUnit();
  }

  /** Two additions to an empty inventory, both accepted, leave two rows with one identity. */
  lemma {:induction false} HiddenRowIsDoubled()
    ensures Validated(SWAPPED).Success? && HidesIdentity(SWAPPED)
    ensures Added(EMPTY, SWAPPED).Success? && Added(Added(EMPTY, SWAPPED).value.0, PLAIN).Success?
    ensures !Unique(Added(Added(EMPTY, SWAPPED).value.0, PLAIN).value.0.parts)
  {
    BothValidate();
    FirstIsMisfiled();
    HidesExactly(SWAPPED);
    FirstAdded();
    SecondAdded(FIRST);
    RowsMeet(FIRST.parts[2 := PLAIN_ROW]);
  }
}
