/** Enrichment (`update_with_provenance`) checks one record and writes another: a column named but cleared
    keeps its stored text. Exactly which enrichments keep identities unique and every row findable, as a test
    on the stored row and the submitted columns, and one that does not. */
module EnrichedStock {
  import opened Wrappers
  import opened Normalization
  import opened Inventory
  import opened InventoryIdentity
  import opened HiddenStock
  import opened MisfiledStock
  import Nominal
  import opened Decimals

  /** The validated record with every submitted column over the stored row. */
  function Submitted(current: Fields, e: Enrichment): Result<Fields, Error> {
    Validated(Merged(current, EditOf(e)))
  }

  /** The record whose identity is checked. */
  function Checked(current: Fields, e: Enrichment): Fields
    requires Submitted(current, e).Success?
  {
    Proposed(current, Submitted(current, e).value, e)
  }

  /** The record that is stored. */
  function Written(current: Fields, e: Enrichment): Fields
    requires Submitted(current, e).Success?
  {
    Enriched(current, Checked(current, e))
  }

  lemma {:induction false} WritesRow(b: Bin, id: PartId, e: Enrichment)
    requires UpdatedWithProvenance(b, id, e).Success?
    ensures id in b.parts && Submitted(b.parts[id], e).Success?
    ensures UpdatedWithProvenance(b, id, e).value == b.(parts := b.parts[id := Written(b.parts[id], e)])
    ensures Distinct(b.parts, id, Checked(b.parts[id], e)) && Storable(b.parts, id, Written(b.parts[id], e))
  {
  }

  // ----- unique identity -----

  /** The UNIQUE column over category, value and package names the record's own identity. */
  predicate Indexed(f: Fields) {
    PassiveKey(f).Some? && IdentityOf(f) == ColumnIdentity(f)
  }

  /** The plainest record of a passive identity. */
  function Bearer(category: string, value: Option<string>, package: Option<string>): Fields {
    var unit := if value.Some? && NominalFor(value.value, category, None).Some? then CategoryUnit(LowerText(category)) else None;
    Fields(category, "passive", value, unit, package, None, None, None, None, 0)
  }

  /** The identity of the written row is the current one, the checked one, one that a UNIQUE column carries,
      or one that no record can be stored under. */
  predicate KeepsIdentity(current: Fields, e: Enrichment)
    requires Submitted(current, e).Success?
  {
    var identity := IdentityOf(Written(current, e));
    match identity
    case None => true
    case Some(Numbered(_)) => true
    case Some(PassiveStock(category, value, package)) =>
      || identity == IdentityOf(current) || identity == IdentityOf(Checked(current, e))
      || Indexed(Written(current, e)) || !Settled(Bearer(category, value, package))
  }

  lemma {:induction false} NumberedColumn(f: Fields)
    requires IdentityOf(f).Some? && IdentityOf(f).value.Numbered?
    ensures f.partNumber == Some(IdentityOf(f).value.partNumber)
  {
  }

  lemma {:induction false} PassiveIdentity(f: Fields)
    requires IdentityOf(f).Some? && IdentityOf(f).value.PassiveStock?
    ensures Passive(IdentityOf(f).value.category)
  {
  }

  /** Whatever is stored under a passive identity, its plainest record could be stored too. */
  lemma {:induction false} BearerIsSettled(g: Fields)
    requires Settled(g) && IdentityOf(g).Some? && IdentityOf(g).value.PassiveStock?
    ensures var identity := IdentityOf(g).value; Settled(Bearer(identity.category, identity.value, identity.package))
  {
    SettledIdentity(g);
    PassiveHasUnit(g.category);
    if g.value.Some? {
      SameReading(g.value.value, g.category, g.unit);
      SameReading(g.value.value, g.category, CategoryUnit(LowerText(g.category)));
    }
    var bearer := Bearer(g.category, g.value, g.package);
    assert Cleaned(bearer) == bearer by { assert Nominal.Strip("passive") == "passive"; UnitIsClean(g.category); }
  }

  lemma {:induction false} UnitIsClean(category: string)
    requires Passive(category)
    ensures CleanText(CategoryUnit(LowerText(category))) == CategoryUnit(LowerText(category))
    ensures CategoryUnit(LowerText(category)).Some? && CategoryUnit(LowerText(category)).value in Nominal.BASE_UNITS
  {
    PassiveHasUnit(category);
    UnitsAreClean(CategoryUnit(LowerText(category)).value);
  }

  lemma {:induction false} BearerIdentity(category: string, value: Option<string>, package: Option<string>)
    requires Passive(category) && Settled(Bearer(category, value, package))
    ensures IdentityOf(Bearer(category, value, package)) == Some(PassiveStock(category, value, package))
  {
    SettledIdentity(Bearer(category, value, package));
  }

  /** No other row of the inventory has the identity of the written one. */
  lemma {:induction false} WrittenIsDistinct(b: Bin, id: PartId, e: Enrichment, other: PartId)
    requires Tidy(b) && UpdatedWithProvenance(b, id, e).Success? && KeepsIdentity(b.parts[id], e)
    requires other in b.parts && other != id
    ensures !SameStock(b.parts[other], Written(b.parts[id], e))
  {
    var row, w := b.parts[other], Written(b.parts[id], e);
    WritesRow(b, id, e);
    if SameStock(row, w) {
      assert SettledRow(b.parts, other) && Apart(b.parts, other, id) && !Clash(row, w);
      SettledIdentity(row);
      if IdentityOf(w).value.Numbered? { NumberedColumn(w); } else { BearerIsSettled(row); }
      assert false;
    }
  }

  lemma {:induction false} EnrichedStaysUnique(b: Bin, id: PartId, e: Enrichment)
    requires Tidy(b) && UpdatedWithProvenance(b, id, e).Success? && KeepsIdentity(b.parts[id], e)
    ensures Unique(UpdatedWithProvenance(b, id, e).value.parts)
  {
    WritesRow(b, id, e);
    forall other | other in b.parts && other != id ensures !SameStock(b.parts[other], Written(b.parts[id], e)) {
      WrittenIsDistinct(b, id, e, other);
    }
    DistinctIsUnique(b.parts, id, Written(b.parts[id], e));
  }

  /** When nothing is cleared, the operation's own check already keeps identities unique, in any inventory. */
  lemma {:induction false} NothingClearedStaysUnique(b: Bin, id: PartId, e: Enrichment)
    requires Unique(b.parts) && UpdatedWithProvenance(b, id, e).Success?
    requires Written(b.parts[id], e) == Checked(b.parts[id], e)
    ensures Unique(UpdatedWithProvenance(b, id, e).value.parts)
  {
    WritesRow(b, id, e);
    DistinctIsUnique(b.parts, id, Written(b.parts[id], e));
  }

  /** The stored row beside one of the identity the enrichment gives it. */
  function Pair(current: Fields, other: Fields): Bin {
    Bin(map[1 := current, 2 := other], 3, map[], map[])
  }

  lemma {:induction false} PairIsTidy(current: Fields, other: Fields)
    requires Settled(current) && Settled(other) && !SameStock(current, other)
    ensures Tidy(Pair(current, other))
  {
    var b := Pair(current, other);
    forall id ensures SettledRow(b.parts, id) && Assigned(b, id) { }
    forall i, j ensures Apart(b.parts, i, j) { }
  }

  lemma {:induction false} PairReplaces(b: Bin, current: Fields, other: Fields, checked: Fields, stored: Fields)
    requires b == Pair(current, other) && !SameStock(other, checked) && !Clash(other, stored)
    ensures Replaced(b, 1, checked, stored).Success?
  {
    assert Replaceable(b, 1, checked);
    assert Storable(b.parts, 1, stored);
  }

  lemma {:induction false} PairAccepts(current: Fields, other: Fields, e: Enrichment)
    requires Submitted(current, e).Success?
    requires !SameStock(other, Checked(current, e)) && !Clash(other, Written(current, e))
    ensures UpdatedWithProvenance(Pair(current, other), 1, e).Success?
  {
    PairReplaces(Pair(current, other), current, other, Checked(current, e), Written(current, e));
  }

  /** Otherwise some tidy inventory accepts the enrichment and has the new identity twice. */
  lemma {:induction false} EnrichmentCollides(current: Fields, e: Enrichment) returns (b: Bin)
    requires Settled(current) && Submitted(current, e).Success? && !KeepsIdentity(current, e)
    ensures Tidy(b) && 1 in b.parts && b.parts[1] == current && UpdatedWithProvenance(b, 1, e).Success?
    ensures !Unique(UpdatedWithProvenance(b, 1, e).value.parts)
  {
    var w := Written(current, e);
    var identity := IdentityOf(w).value;
    var other := Bearer(identity.category, identity.value, identity.package);
    PassiveIdentity(w);
    BearerIdentity(identity.category, identity.value, identity.package);
    b := Pair(current, other);
    PairIsTidy(current, other);
    PairAccepts(current, other, e);
    WritesRow(b, 1, e);
    assert !Apart(b.parts[1 := w], 1, 2);
  }

  ghost predicate StaysUnique(b: Bin, id: PartId, current: Fields, e: Enrichment) {
    Tidy(b) && id in b.parts && b.parts[id] == current && UpdatedWithProvenance(b, id, e).Success? ==>
      Unique(UpdatedWithProvenance(b, id, e).value.parts)
  }

  /** The test is exact: every tidy inventory that holds the row and accepts the enrichment keeps identities
      unique if and only if it passes. */
  lemma {:induction false} EnrichmentsKeepUniqueExactly(current: Fields, e: Enrichment)
    requires Settled(current) && Submitted(current, e).Success?
    ensures (forall b, id :: StaysUnique(b, id, current, e)) <==> KeepsIdentity(current, e)
  {
    if KeepsIdentity(current, e) {
      forall b, id ensures StaysUnique(b, id, current, e) {
        if Tidy(b) && id in b.parts && b.parts[id] == current && UpdatedWithProvenance(b, id, e).Success? {
          EnrichedStaysUnique(b, id, e);
        }
      }
    } else {
      var b := EnrichmentCollides(current, e);
      assert !StaysUnique(b, 1, current, e);
    }
  }

  // ----- settled rows -----

  /** Repair moves nothing out of or into a column that was not named. */
  predicate RepairsOnlyNamed(current: Fields, e: Enrichment) {
    var c := Cleaned(Merged(current, EditOf(e)));
    var r := Repaired(c);
    && (e.profile == None ==> r.profile == c.profile)
    && (e.value == None && e.category == None && e.unit == None ==> r.value == c.value)
    && (e.package == None ==> r.package == c.package)
    && (e.partNumber == None ==> r.partNumber == c.partNumber)
  }

  lemma {:induction false} RepairKeepsText(f: Fields)
    ensures var r := Repaired(f);
            r.manufacturer == f.manufacturer && r.description == f.description && r.datasheetUrl == f.datasheetUrl
  {
  }

  /** A value nobody named is normalized to itself. */
  lemma {:induction false} UnnamedValueStays(current: Fields, r: Fields)
    requires WithNominal(current) == current && CleanText(current.value) == current.value
    requires r.category == current.category && r.value == current.value && r.unit == current.unit
    ensures WithNominal(r).value == current.value && WithNominal(r).unit == current.unit
  {
  }

  lemma {:induction false} NominalPasses(f: Fields)
    ensures WithNominal(f).(value := f.value, unit := f.unit) == f
  {
  }

  /** When nothing unnamed is repaired, what is checked is the validated record. */
  lemma {:induction false} CheckedIsSubmitted(current: Fields, e: Enrichment)
    requires Proper(current) && Submitted(current, e).Success? && RepairsOnlyNamed(current, e)
    ensures Checked(current, e) == Submitted(current, e).value
  {
    var c := Cleaned(Merged(current, EditOf(e)));
    var r := Repaired(c);
    var f := Submitted(current, e).value;
    RepairKeepsColumns(c);
    RepairKeepsText(c);
    NominalPasses(r);
    QuantityPasses(c);
    assert f.(value := r.value, unit := r.unit) == r;
    if e.value == None && e.category == None && e.unit == None { UnnamedValueStays(current, r); }
  }

  /** And when nothing is cleared either, it is what is written: it is settled exactly when the submitted
      record does not hide its identity. */
  lemma {:induction false} WrittenIsSubmitted(current: Fields, e: Enrichment)
    requires Proper(current) && Submitted(current, e).Success?
    requires RepairsOnlyNamed(current, e) && Written(current, e) == Checked(current, e)
    ensures Written(current, e) == Submitted(current, e).value
    ensures Settled(Written(current, e)) <==> !HidesIdentity(Merged(current, EditOf(e)))
    ensures KeepsIdentity(current, e)
  {
    CheckedIsSubmitted(current, e);
    ValidatedIsProper(Merged(current, EditOf(e)));
    HidesExactly(Merged(current, EditOf(e)));
  }

  /** A submitted unit outlives normalization as long as there is a value. */
  lemma {:induction false} UnitStays(c: Fields)
    requires c.unit.Some? && Normalized(c).value.Some?
    ensures Normalized(c).unit.Some?
  {
    RepairKeepsColumns(c);
  }

  /** The value and unit that are written when neither category nor unit was named: the stored pair or the
      validated one. */
  lemma {:induction false} NominalPair(current: Fields, e: Enrichment)
    requires Proper(current) && Submitted(current, e).Success? && e.category == None && e.unit == None
    ensures var f, w := Submitted(current, e).value, Written(current, e);
            (w.value == current.value && w.unit == current.unit) || (w.value == f.value && w.unit == f.unit)
  {
    var c := Cleaned(Merged(current, EditOf(e)));
    ValidatedIsProper(Merged(current, EditOf(e)));
    assert c.unit == current.unit;
    if c.unit.Some? && Normalized(c).value.Some? { UnitStays(c); }
  }

  /** An enrichment that names neither category nor unit leaves a proper row, whatever is repaired or cleared:
      it is settled unless it is hidden. */
  lemma {:induction false} WrittenIsProper(current: Fields, e: Enrichment)
    requires Proper(current) && Submitted(current, e).Success? && e.category == None && e.unit == None
    ensures Proper(Written(current, e)) && (Settled(Written(current, e)) <==> !Hidden(Written(current, e)))
  {
    var c := Cleaned(Merged(current, EditOf(e)));
    ValidatedIsProper(Merged(current, EditOf(e)));
    NormalizedKeepsColumns(c);
    NominalPair(current, e);
    var w := Written(current, e);
    assert w.category == current.category == Submitted(current, e).value.category;
    assert Cleaned(w) == w;
  }

  // ----- tidy inventories -----

  /** The test on an enrichment: nothing it writes is hidden, and it takes nobody's identity. */
  predicate Harmless(current: Fields, e: Enrichment)
    requires Submitted(current, e).Success?
  {
    Settled(Written(current, e)) && KeepsIdentity(current, e)
  }

  lemma {:induction false} EnrichedStaysTidy(b: Bin, id: PartId, e: Enrichment)
    requires Tidy(b) && UpdatedWithProvenance(b, id, e).Success? && Harmless(b.parts[id], e)
    ensures Tidy(UpdatedWithProvenance(b, id, e).value)
  {
    WritesRow(b, id, e);
    EnrichedStaysUnique(b, id, e);
    RewrittenStaysTidy(b, id, Written(b.parts[id], e));
  }

  // ----- an enrichment that doubles an identity -----

  const LOWER: Fields := Fields("resistor", "passive", Some(THREE), None, None, None, None, None, None, 5)
  const UPPER: Fields := LOWER.(category := "Resistor")
  const LOWER_ROW: Fields := LOWER.(unit := Some(Nominal.RESISTANCE))
  const UPPER_ROW: Fields := UPPER.(unit := Some(Nominal.RESISTANCE))

  /** The category renamed, and a blank value beside it. */
  const CLEARING: Enrichment := Enrichment(Some("Resistor"), None, Some(" "), None, None, None, None, None, None)

  const CLEARED: Fields := UPPER.(value := None)

  lemma {:induction false} Spellings(category: string)
    requires category == "resistor" || category == "Resistor"
    ensures Nominal.Strip(category) == category && Passive(category)
    ensures CategoryUnit(LowerText(category)) == Some(Nominal.RESISTANCE)
  {
    assert LowerText(category) == "resistor";
  }

  lemma {:induction false} ThousandReads(text: string, category: string, unit: Option<string>)
    requires text == "1" + Zeros(3) && (category == "resistor" || category == "Resistor")
    requires unit == None || unit == Some(Nominal.RESISTANCE)
    ensures NominalFor(text, category, unit) == Some(Nominal.Quantity(text, Nominal.RESISTANCE))
  {
    Spellings(category);
    PowerReads(3);
  }

  predicate Plain(row: Fields, text: string) {
    && (row.category == "resistor" || row.category == "Resistor")
    && (row.unit == None || row.unit == Some(Nominal.RESISTANCE))
    && row == Fields(row.category, "passive", Some(text), row.unit, None, None, None, None, None, 5)
  }

  lemma {:induction false} PlainNormalized(row: Fields, text: string)
    requires text == "1" + Zeros(3) && Plain(row, text)
    ensures Normalized(row) == row.(unit := Some(Nominal.RESISTANCE))
  {
    Spellings(row.category);
    ThousandReads(text, row.category, row.unit);
    assert Repaired(row) == row;
  }

  lemma {:induction false} PlainValidated(row: Fields, text: string)
    requires text == "1" + Zeros(3) && Clean(Some(text)) && Plain(row, text) && row.unit == None
    ensures Validated(row) == Success(Normalized(row))
  {
    Spellings(row.category);
    assert Nominal.Strip("passive") == "passive";
    assert Cleaned(row) == row;
  }

  lemma {:induction false} ThousandOhms(row: Fields)
    requires row == LOWER || row == UPPER
    ensures Validated(row) == Success(row.(unit := Some(Nominal.RESISTANCE)))
    ensures Normalized(row.(unit := Some(Nominal.RESISTANCE))) == row.(unit := Some(Nominal.RESISTANCE))
  {
    PowerTexts();
    TokenIsItself(THREE);
    PlainValidated(row, THREE);
    PlainNormalized(row, THREE);
    PlainNormalized(row.(unit := Some(Nominal.RESISTANCE)), THREE);
  }

  lemma {:induction false} ClearedIsSubmitted()
    ensures Submitted(LOWER_ROW, CLEARING) == Success(CLEARED)
    ensures Checked(LOWER_ROW, CLEARING) == CLEARED && Written(LOWER_ROW, CLEARING) == UPPER_ROW
    ensures IdentityOf(CLEARED) == Some(PassiveStock("Resistor", None, None))
  {
    Spellings("Resistor");
    UnitsAreClean(Nominal.RESISTANCE);
    assert Nominal.Strip(" ") == "" && Nominal.Strip("passive") == "passive";
    var c := Cleaned(Merged(LOWER_ROW, EditOf(CLEARING)));
    assert c == UPPER_ROW.(value := None) && Repaired(c) == c;
  }

  lemma {:induction false} RowAdded(b: Bin, fields: Fields, row: Fields)
    requires Validated(fields) == Success(row) && Normalized(row) == row
    requires IdentityOf(row).Some? && PassiveKey(row) == None && row.partNumber == None
    requires forall id :: id in b.parts ==> IdentityOf(b.parts[id]) != IdentityOf(row)
    ensures Added(b, fields) == Success((b.(parts := b.parts[b.next := row], next := b.next + 1), b.next))
  {
    var found := set id | id in b.parts && Matches(b.parts, row, id);
    assert found == {};
    assert Duplicate(b.parts, row) == Success(None);
  }

  lemma {:induction false} BothAdded()
    ensures Added(EMPTY, LOWER).Success?
    ensures Added(Added(EMPTY, LOWER).value.0, UPPER).Success?
    ensures Added(Added(EMPTY, LOWER).value.0, UPPER).value.0 == Pair(LOWER_ROW, UPPER_ROW)
    ensures Settled(LOWER_ROW) && Settled(UPPER_ROW) && !SameStock(LOWER_ROW, UPPER_ROW) && IdentityOf(UPPER_ROW).Some?
  {
    ThousandOhms(LOWER);
    ThousandOhms(UPPER);
    ValidatedIsProper(LOWER);
    ValidatedIsProper(UPPER);
    Spellings(LOWER.category);
    Spellings(UPPER.category);
    RowAdded(EMPTY, LOWER, LOWER_ROW);
    var one := Added(EMPTY, LOWER).value.0;
    RowAdded(one, UPPER, UPPER_ROW);
    assert EMPTY.parts[1 := LOWER_ROW][2 := UPPER_ROW] == map[1 := LOWER_ROW, 2 := UPPER_ROW];
  }

  lemma {:induction false} ClearingAccepted(b: Bin)
    requires b == Pair(LOWER_ROW, UPPER_ROW) && IdentityOf(UPPER_ROW).Some?
    ensures UpdatedWithProvenance(b, 1, CLEARING).Success?
    ensures UpdatedWithProvenance(b, 1, CLEARING).value.parts == b.parts[1 := UPPER_ROW]
  {
    ClearedIsSubmitted();
    assert !SameStock(UPPER_ROW, CLEARED) by { ThousandOhms(UPPER); }
    PairAccepts(LOWER_ROW, UPPER_ROW, CLEARING);
    WritesRow(b, 1, CLEARING);
  }

  lemma {:induction false} PairDoubles(b: Bin)
    requires b == Pair(LOWER_ROW, UPPER_ROW) && Settled(UPPER_ROW) && IdentityOf(UPPER_ROW).Some?
    ensures UpdatedWithProvenance(b, 1, CLEARING).Success?
    ensures var parts := UpdatedWithProvenance(b, 1, CLEARING).value.parts; AllSettled(parts) && !Unique(parts)
  {
    ClearingAccepted(b);
    RowTwice(b, UPPER_ROW);
  }

  lemma {:induction false} RowTwice(b: Bin, row: Fields)
    requires b.parts.Keys == {1, 2} && b.parts[2] == row && Settled(row) && IdentityOf(row).Some?
    ensures AllSettled(b.parts[1 := row]) && !Unique(b.parts[1 := row])
  {
    var parts := b.parts[1 := row];
    forall id ensures SettledRow(parts, id) { }
    assert !Apart(parts, 1, 2);
  }

  /** Two additions and an enrichment, each accepted, leave two settled rows with one identity. */
  lemma {:induction false} ClearingDoubles()
    ensures Added(EMPTY, LOWER).Success? && Added(Added(EMPTY, LOWER).value.0, UPPER).Success?
    ensures var b := Added(Added(EMPTY, LOWER).value.0, UPPER).value.0;
            && UpdatedWithProvenance(b, 1, CLEARING).Success?
            && var parts := UpdatedWithProvenance(b, 1, CLEARING).value.parts;
               AllSettled(parts) && !Unique(parts)
    ensures Submitted(LOWER_ROW, CLEARING).Success? && !KeepsIdentity(LOWER_ROW, CLEARING)
  {
    BothAdded();
    PairDoubles(Pair(LOWER_ROW, UPPER_ROW));
    ClearedIsSubmitted();
    PairIsTidy(LOWER_ROW, UPPER_ROW);
    if KeepsIdentity(LOWER_ROW, CLEARING) { EnrichedStaysUnique(Pair(LOWER_ROW, UPPER_ROW), 1, CLEARING); }
  }
}
