/** Unique identity and faithful lookup: unless a stored row is hidden, the narrowed search behind every
    addition finds exactly the rows an identity scan of the whole inventory would, so additions keep
    identities unique. */
module InventoryIdentity {
  import opened Wrappers
  import opened Normalization
  import opened Inventory
  import Nominal
  import NominalLabels
  import opened Decimals

  predicate UnitFits(f: Fields) {
    f.unit.Some? ==>
      && f.unit.value in Nominal.BASE_UNITS
      && (CategoryUnit(LowerText(f.category)) == None || CategoryUnit(LowerText(f.category)) == f.unit)
  }

  /** A record as validation leaves it. */
  predicate Proper(f: Fields) {
    && Cleaned(f) == f && f.quantity >= 0 && f.category != []
    && (f.profile == "passive" || f.profile == "discrete_ic")
    && UnitFits(f) && WithNominal(f) == f
    && (Passive(f.category) ==> f.profile == "passive" && !LooksLikeValue(f.partNumber))
  }

  predicate Settled(f: Fields) { Proper(f) && !Hidden(f) }

  predicate SettledRow(parts: map<PartId, Fields>, id: PartId) { id in parts ==> Settled(parts[id]) }

  ghost predicate AllSettled(parts: map<PartId, Fields>) {
    forall id :: SettledRow(parts, id)
  }

  predicate Assigned(b: Bin, id: PartId) { id in b.parts ==> id < b.next }

  ghost predicate Tidy(b: Bin) {
    && AllSettled(b.parts) && Unique(b.parts)
    && forall id :: Assigned(b, id)
  }

  // ----- validation settles -----

  lemma {:induction false} CleanTwice(text: Option<string>)
    ensures CleanText(CleanText(text)) == CleanText(text)
  {
    if text.Some? { StripTwice(text.value); }
  }

  lemma {:induction false} CleanedTwice(f: Fields)
    ensures Cleaned(Cleaned(f)) == Cleaned(f)
  {
    StripTwice(f.category);
    StripTwice(f.profile);
    CleanTwice(f.value);
    CleanTwice(f.unit);
    CleanTwice(f.package);
    CleanTwice(f.partNumber);
    CleanTwice(f.manufacturer);
    CleanTwice(f.description);
    CleanTwice(f.datasheetUrl);
  }

  lemma {:induction false} UnswappedStaysClean(f: Fields)
    requires Cleaned(f) == f
    ensures Cleaned(Unswapped(f)) == Unswapped(f)
  {
  }

  lemma {:induction false} UnnumberedStaysClean(f: Fields)
    requires Cleaned(f) == f
    ensures Cleaned(Unnumbered(f)) == Unnumbered(f)
  {
  }

  /** Every column of a cleaned record stays clean when values move between slots. */
  lemma {:induction false} RepairedStaysClean(f: Fields)
    requires Cleaned(f) == f
    ensures Cleaned(Repaired(f)) == Repaired(f)
  {
    assert Nominal.Strip("passive") == "passive";
    var g := f.(profile := "passive");
    UnswappedStaysClean(g);
    UnnumberedStaysClean(Unswapped(g));
  }

  lemma {:induction false} UnitsAreClean(unit: string)
    requires unit in Nominal.BASE_UNITS
    ensures CleanText(Some(unit)) == Some(unit)
  {
  }

  lemma {:induction false} NominalStaysClean(f: Fields)
    requires Cleaned(f) == f
    ensures Cleaned(WithNominal(f)) == WithNominal(f)
  {
    if f.value.Some? && NominalFor(f.value.value, f.category, f.unit).Some? {
      var q := NominalFor(f.value.value, f.category, f.unit).value;
      NominalLabels.StoredIsStripped(q.decimal);
      NominalLabels.StoredIsText(q.decimal);
      UnitsAreClean(q.unit);
    }
  }

  lemma {:induction false} RepairedQuantity(f: Fields, quantity: int)
    ensures Repaired(f.(quantity := quantity)) == Repaired(f).(quantity := quantity)
  {
    UnswappedQuantity(f.(profile := "passive"), quantity);
    UnnumberedQuantity(Unswapped(f.(profile := "passive")), quantity);
  }

  lemma {:induction false} UnswappedQuantity(f: Fields, quantity: int)
    ensures Unswapped(f.(quantity := quantity)) == Unswapped(f).(quantity := quantity)
  {
  }

  lemma {:induction false} UnnumberedQuantity(f: Fields, quantity: int)
    ensures Unnumbered(f.(quantity := quantity)) == Unnumbered(f).(quantity := quantity)
  {
  }

  lemma {:induction false} NominalQuantity(f: Fields, quantity: int)
    ensures WithNominal(f.(quantity := quantity)) == WithNominal(f).(quantity := quantity)
  {
  }

  /** Normalization neither reads nor changes the quantity. */
  lemma {:induction false} NormalizedQuantity(f: Fields, quantity: int)
    ensures Normalized(f.(quantity := quantity)) == Normalized(f).(quantity := quantity)
  {
    RepairedQuantity(f, quantity);
    NominalQuantity(Repaired(f), quantity);
  }

  lemma {:induction false} QuantityPasses(f: Fields)
    ensures Normalized(f).quantity == f.quantity
  {
    NormalizedQuantity(f, f.quantity);
    assert f.(quantity := f.quantity) == f;
  }

  lemma {:induction false} NormalizedStaysClean(f: Fields)
    requires Cleaned(f) == f
    ensures Cleaned(Normalized(f)) == Normalized(f)
  {
    RepairedStaysClean(f);
    NominalStaysClean(Repaired(f));
  }

  lemma {:induction false} ValidatedIsClean(f: Fields)
    requires Validated(f).Success?
    ensures Cleaned(Validated(f).value) == Validated(f).value && Validated(f).value.quantity >= 0
  {
    CleanedTwice(f);
    NormalizedStaysClean(Cleaned(f));
    QuantityPasses(Cleaned(f));
  }

  lemma {:induction false} RepairKeepsColumns(f: Fields)
    ensures Repaired(f).category == f.category && Repaired(f).unit == f.unit
    ensures Repaired(f).profile == if Passive(f.category) then "passive" else f.profile
  {
  }

  lemma {:induction false} UnitStaysFit(f: Fields)
    requires UnitFits(f) && Nominal.Strip(f.category) == f.category
    ensures UnitFits(WithNominal(f))
  {
  }

  lemma {:induction false} NormalizedKeepsColumns(f: Fields)
    ensures Normalized(f).category == f.category
    ensures Normalized(f).profile == if Passive(f.category) then "passive" else f.profile
  {
    RepairKeepsColumns(f);
  }

  lemma {:induction false} NormalizedUnitFits(c: Fields)
    requires UnitFits(c) && Nominal.Strip(c.category) == c.category
    ensures UnitFits(Normalized(c))
  {
    RepairKeepsColumns(c);
    UnitStaysFit(Repaired(c));
  }

  lemma {:induction false} ValueStaysSettled(c: Fields)
    requires CleanFields(c)
    ensures WithNominal(Normalized(c)) == Normalized(c)
  {
    RepairedIsClean(c);
    NominalIsStable(Repaired(c));
  }

  lemma {:induction false} NumberStaysNone(c: Fields)
    requires Passive(c.category)
    ensures !LooksLikeValue(Normalized(c).partNumber)
  {
    RepairKeepsNumbers(c);
  }

  lemma {:induction false} ValidatedIsProper(f: Fields)
    requires Validated(f).Success?
    ensures Proper(Validated(f).value)
  {
    var c := Cleaned(f);
    ValidatedIsClean(f);
    NormalizedKeepsColumns(c);
    StripTwice(f.category);
    NormalizedUnitFits(c);
    CleanedIsClean(f);
    ValueStaysSettled(c);
    if Passive(c.category) { NumberStaysNone(c); }
  }

  lemma {:induction false} ProperIsClean(f: Fields)
    requires Cleaned(f) == f
    ensures CleanFields(f)
  {
    CleanedIsClean(f);
  }

  /** A proper record is normalized to itself, or has its two slots swapped. */
  lemma {:induction false} ProperIsNormal(f: Fields)
    requires Proper(f)
    ensures !Misfiled(f) ==> Normalized(f) == f
    ensures Misfiled(f) ==> Normalized(f).package == f.value && f.value != f.package && Normalized(f).partNumber == f.partNumber
  {
    if Misfiled(f) {
      MisfiledSwaps(f);
      ShapesDiffer(f.value);
    } else {
      RepairIsIdle(f);
    }
  }

  /** What the search for a record looks for. */
  predicate SearchKey(c: Fields) { Cleaned(c) == c && NormalForm(c) }

  /** Normalizing a proper record once more gives a search key of the same identity. */
  lemma {:induction false} KeyOf(f: Fields)
    requires Proper(f)
    ensures SearchKey(Normalized(f)) && IdentityOf(Normalized(f)) == IdentityOf(f)
  {
    NormalizedStaysClean(f);
    ProperIsClean(f);
    ProperIsNormal(f);
    NormalizedIsNormal(f);
    if Misfiled(f) { ShapesDiffer(f.value); }
  }

  /** Validating a proper record again either refuses it or leaves the key of its identity. */
  lemma {:induction false} Revalidated(f: Fields)
    requires Proper(f) && Validated(f).Success?
    ensures Validated(f).value == Normalized(f) && Settled(Normalized(f)) && IdentityOf(Normalized(f)) == IdentityOf(f)
  {
    ValidatedIsProper(f);
    KeyOf(f);
    ProperIsClean(f);
    NormalizedIsNormal(f);
  }

  // ----- faithful lookup -----

  function ColumnIdentity(f: Fields): Option<Identity> {
    if f.partNumber.Some? then Some(Numbered(f.partNumber.value))
    else if !Passive(f.category) then None
    else Some(PassiveStock(f.category, f.value, f.package))
  }

  /** The identity of a proper record can be read off its own columns exactly when it is not hidden. */
  lemma {:induction false} SettledIdentity(f: Fields)
    requires Proper(f)
    ensures IdentityOf(f) == ColumnIdentity(f) <==> !Hidden(f)
  {
    ProperIsNormal(f);
    if Misfiled(f) { assert Normalized(f).category == f.category by { RepairKeepsColumns(f); } }
  }

  lemma {:induction false} ValuesMatchThemselves(value: string, category: string, unit: Option<string>)
    ensures ValuesMatch(value, value, category, unit)
  {
  }

  /** The narrowed search loses no row of the same identity. */
  lemma {:induction false} NarrowingIsFaithful(row: Fields, c: Fields)
    requires Settled(row) && SearchKey(c)
    requires IdentityOf(c).Some? && IdentityOf(row) == IdentityOf(c)
    ensures Narrowed(row, c)
  {
    SettledIdentity(row);
    KeyText(c);
    if c.partNumber == None && c.value.Some? {
      ValuesMatchThemselves(c.value.value, row.category, row.unit);
    }
  }

  lemma {:induction false} KeyText(c: Fields)
    requires SearchKey(c)
    ensures CleanText(c.partNumber) == c.partNumber && CleanText(c.value) == c.value && CleanText(c.package) == c.package
    ensures CleanText(Some(c.category)) == None || CleanText(Some(c.category)) == Some(c.category)
  {
  }

  /** Whether the search for an identity returns the row: it reads nothing else of the record searched for. */
  predicate NarrowedTo(row: Fields, identity: Identity) {
    && row.quantity >= 0
    && match identity
       case Numbered(number) => row.partNumber == Some(number)
       case PassiveStock(category, value, package) =>
         && row.category == category && (package.Some? ==> row.package == package)
         && (value.Some? ==> row.value.Some? && ValuesMatch(row.value.value, value.value, row.category, row.unit))
  }

  lemma {:induction false} NarrowedByIdentity(row: Fields, c: Fields)
    requires SearchKey(c) && IdentityOf(c).Some?
    ensures Narrowed(row, c) <==> NarrowedTo(row, IdentityOf(c).value)
  {
    KeyText(c);
  }

  /** A row that `duplicate_for_add` matches for this identity. */
  predicate Answer(parts: map<PartId, Fields>, identity: Identity, id: PartId) {
    id in parts && NarrowedTo(parts[id], identity) && IdentityOf(parts[id]) == Some(identity)
  }

  ghost predicate OnlyAnswer(parts: map<PartId, Fields>, identity: Identity, id: PartId) {
    forall other :: Answer(parts, identity, other) <==> other == id
  }

  /** The lookup finds a row exactly when it is the only answer, and none exactly when there is no answer. */
  lemma {:induction false} LookupAnswers(parts: map<PartId, Fields>, f: Fields, id: PartId)
    requires Proper(f) && IdentityOf(f).Some?
    ensures Duplicate(parts, f) == Success(Some(id)) <==> OnlyAnswer(parts, IdentityOf(f).value, id)
    ensures Duplicate(parts, f) == Success(None) <==> forall other :: !Answer(parts, IdentityOf(f).value, other)
  {
    var c, identity := Normalized(f), IdentityOf(f).value;
    KeyOf(f);
    forall other ensures Matches(parts, c, other) <==> Answer(parts, identity, other) {
      if other in parts { NarrowedByIdentity(parts[other], c); }
    }
    var found := set other | other in parts && Matches(parts, c, other);
    assert forall other :: other in found <==> Answer(parts, identity, other);
    if OnlyAnswer(parts, identity, id) { assert found == {id}; }
  }

  /** `duplicate_for_add` answers as a scan of the whole inventory by identity would. */
  lemma {:induction false} LookupIsFaithful(parts: map<PartId, Fields>, c: Fields)
    requires AllSettled(parts) && SearchKey(c) && IdentityOf(c).Some?
    ensures forall id :: id in parts ==> (Matches(parts, c, id) <==> IdentityOf(parts[id]) == IdentityOf(c))
  {
    forall id | id in parts ensures Matches(parts, c, id) <==> IdentityOf(parts[id]) == IdentityOf(c) {
      assert SettledRow(parts, id);
      if IdentityOf(parts[id]) == IdentityOf(c) { NarrowingIsFaithful(parts[id], c); }
    }
  }

  /** With unique identities the lookup never fails: it finds the one holder, or none. */
  lemma {:induction false} LookupFinds(parts: map<PartId, Fields>, f: Fields, id: PartId)
    requires AllSettled(parts) && Unique(parts) && Proper(f)
    requires id in parts && IdentityOf(f).Some? && IdentityOf(parts[id]) == IdentityOf(f)
    ensures Duplicate(parts, f) == Success(Some(id))
  {
    var c := Normalized(f);
    KeyOf(f);
    LookupIsFaithful(parts, c);
    var found := set other | other in parts && Matches(parts, c, other);
    assert id in found;
    forall other | other in found ensures other == id { assert Apart(parts, other, id); }
    assert found == {id};
  }

  lemma {:induction false} LookupMisses(parts: map<PartId, Fields>, f: Fields)
    requires AllSettled(parts) && Proper(f)
    ensures Duplicate(parts, f) == Success(None) ==>
              IdentityOf(f) == None || forall id :: id in parts ==> IdentityOf(parts[id]) != IdentityOf(f)
  {
    KeyOf(f);
    if Duplicate(parts, f) == Success(None) && IdentityOf(f).Some? {
      var c := Normalized(f);
      LookupIsFaithful(parts, c);
      var found := set other | other in parts && Matches(parts, c, other);
      assert forall id :: id in parts && Matches(parts, c, id) ==> id in found;
    }
  }

  // ----- unique identity -----

  /** A new row of an identity nobody has. */
  lemma {:induction false} InsertedStaysUnique(parts: map<PartId, Fields>, id: PartId, f: Fields)
    requires Unique(parts) && id !in parts
    requires IdentityOf(f) == None || forall other :: other in parts ==> IdentityOf(parts[other]) != IdentityOf(f)
    ensures Unique(parts[id := f])
  {
    var after := parts[id := f];
    forall i, j ensures Apart(after, i, j) { assert Apart(parts, i, j); }
  }

  lemma {:induction false} SettledReplaced(parts: map<PartId, Fields>, id: PartId, g: Fields)
    requires AllSettled(parts) && Settled(g)
    ensures AllSettled(parts[id := g])
  {
    var after := parts[id := g];
    forall other ensures SettledRow(after, other) { assert SettledRow(parts, other); }
  }

  lemma {:induction false} InsertedStaysTidy(b: Bin, f: Fields)
    requires Tidy(b) && Proper(f) && Duplicate(b.parts, f) == Success(None) && Inserted(b, f).Success?
    ensures Unique(Inserted(b, f).value.0.parts)
    ensures Settled(f) ==> Tidy(Inserted(b, f).value.0)
  {
    var after := Inserted(b, f).value.0;
    assert Assigned(b, b.next);
    LookupMisses(b.parts, f);
    InsertedStaysUnique(b.parts, b.next, f);
    if Settled(f) {
      SettledReplaced(b.parts, b.next, f);
      forall id ensures Assigned(after, id) { assert Assigned(b, id); }
    }
  }

  /** `add_part` keeps identities unique, whatever is added, while no stored row is hidden. */
  lemma {:induction false} AddedStaysTidy(b: Bin, fields: Fields)
    requires Tidy(b) && Added(b, fields).Success?
    ensures Unique(Added(b, fields).value.0.parts)
    ensures !Hidden(Validated(fields).value) ==> Tidy(Added(b, fields).value.0)
  {
    ValidatedIsProper(fields);
    InsertedStaysTidy(b, Validated(fields).value);
  }

  lemma {:induction false} QuantityIsNoIdentity(f: Fields, quantity: int)
    ensures IdentityOf(f.(quantity := quantity)) == IdentityOf(f)
  {
    NormalizedQuantity(f, quantity);
  }

  lemma {:induction false} SettledQuantity(f: Fields, quantity: int)
    requires Settled(f) && quantity >= 0
    ensures Settled(f.(quantity := quantity))
  {
    NominalQuantity(f, quantity);
  }

  /** Replacing a row by one of the same identity changes nothing for the others. */
  lemma {:induction false} SameIdentityStaysUnique(parts: map<PartId, Fields>, id: PartId, g: Fields)
    requires Unique(parts) && id in parts && IdentityOf(g) == IdentityOf(parts[id])
    ensures Unique(parts[id := g])
  {
    var after := parts[id := g];
    forall i, j ensures Apart(after, i, j) { assert Apart(parts, i, j); }
  }

  lemma {:induction false} ReplacedBySame(b: Bin, id: PartId, g: Fields)
    requires Tidy(b) && id in b.parts && IdentityOf(g) == IdentityOf(b.parts[id]) && Settled(g)
    ensures Tidy(b.(parts := b.parts[id := g]))
  {
    var after := b.(parts := b.parts[id := g]);
    SettledReplaced(b.parts, id, g);
    SameIdentityStaysUnique(b.parts, id, g);
    forall other ensures Assigned(after, other) { assert Assigned(b, other); }
  }

  lemma {:induction false} IncrementedStaysTidy(b: Bin, id: PartId, quantity: int)
    requires Tidy(b) && id in b.parts && b.parts[id].quantity + quantity >= 0
    ensures Tidy(Incremented(b, id, quantity))
  {
    var g := b.parts[id].(quantity := b.parts[id].quantity + quantity);
    assert IdentityOf(g) == IdentityOf(b.parts[id]) by { QuantityIsNoIdentity(b.parts[id], g.quantity); }
    assert Settled(g) by {
      assert SettledRow(b.parts, id);
      SettledQuantity(b.parts[id], g.quantity);
    }
    assert Incremented(b, id, quantity) == b.(parts := b.parts[id := g]);
    ReplacedBySame(b, id, g);
  }

  /** What `add_or_increment` does once the duplicate is known. */
  lemma {:induction false} IncrementOf(b: Bin, f: Fields, id: PartId)
    requires Tidy(b) && id in b.parts && f.quantity > 0
    ensures Tidy(Incremented(b, id, f.quantity))
  {
    assert SettledRow(b.parts, id);
    IncrementedStaysTidy(b, id, f.quantity);
  }

  /** Adding a record that was validated before stores its key, which is never hidden. */
  lemma {:induction false} AddedAgain(b: Bin, f: Fields)
    requires Tidy(b) && Proper(f) && Added(b, f).Success?
    ensures Tidy(Added(b, f).value.0)
    ensures IdentityOf(Added(b, f).value.0.parts[Added(b, f).value.1]) == IdentityOf(f)
  {
    Revalidated(f);
    AddedStaysTidy(b, f);
  }

  lemma {:induction false} AddedOrIncrementedStaysTidy(b: Bin, fields: Fields)
    requires Tidy(b) && AddedOrIncremented(b, fields).Success?
    ensures Tidy(AddedOrIncremented(b, fields).value.0)
  {
    var f := Validated(fields).value;
    var duplicate := Duplicate(b.parts, f).value;
    if duplicate == None {
      assert Proper(f) by { ValidatedIsProper(fields); }
      AddedAgain(b, f);
    } else {
      IncrementOf(b, f, duplicate.value);
    }
  }

  /** A replacement is checked against every other row, so it keeps identities unique whatever its form. */
  lemma {:induction false} ReplacedStaysUnique(b: Bin, id: PartId, f: Fields)
    requires Unique(b.parts) && id in b.parts && Replaced(b, id, f, f).Success?
    ensures Unique(Replaced(b, id, f, f).value.parts)
  {
    var after := b.parts[id := f];
    forall i, j ensures Apart(after, i, j) { assert Apart(b.parts, i, j); }
  }

  lemma {:induction false} RewrittenStaysTidy(b: Bin, id: PartId, f: Fields)
    requires Tidy(b) && id in b.parts && Settled(f) && Unique(b.parts[id := f])
    ensures Tidy(b.(parts := b.parts[id := f]))
  {
    SettledReplaced(b.parts, id, f);
    var after := b.(parts := b.parts[id := f]);
    forall other ensures Assigned(after, other) { assert Assigned(b, other); }
  }

  lemma {:induction false} UpdatedStaysTidy(b: Bin, id: PartId, edit: Edit)
    requires Tidy(b) && Updated(b, id, edit).Success?
    ensures Unique(Updated(b, id, edit).value.parts)
    ensures !Hidden(Validated(Merged(b.parts[id], edit)).value) ==> Tidy(Updated(b, id, edit).value)
  {
    var f := Validated(Merged(b.parts[id], edit)).value;
    ReplacedStaysUnique(b, id, f);
    if !Hidden(f) {
      ValidatedIsProper(Merged(b.parts[id], edit));
      RewrittenStaysTidy(b, id, f);
    }
  }

  /** Replacing one of unique rows keeps them unique exactly when nobody else has the new identity. */
  lemma {:induction false} DistinctIsUnique(parts: map<PartId, Fields>, id: PartId, row: Fields)
    requires Unique(parts) && id in parts
    ensures Unique(parts[id := row]) <==> Distinct(parts, id, row)
  {
    var after := parts[id := row];
    if Distinct(parts, id, row) {
      forall i, j ensures Apart(after, i, j) { assert Apart(parts, i, j); }
    }
    if Unique(after) {
      forall other | other in parts && other != id && IdentityOf(row).Some? ensures IdentityOf(parts[other]) != IdentityOf(row) {
        assert Apart(after, other, id);
      }
    }
  }

  /** Stored values are already in the form `normalize_nominal_values` gives them. */
  lemma {:induction false} ProperIsCanonical(f: Fields)
    requires Proper(f)
    ensures Canonicalised(f) == f
  {
  }

  lemma {:induction false} NominalsStayTidy(b: Bin)
    requires Tidy(b) && NominalsNormalized(b).Success?
    ensures Tidy(NominalsNormalized(b).value)
  {
    forall id | id in b.parts ensures Canonicalised(b.parts[id]) == b.parts[id] {
      assert SettledRow(b.parts, id);
      ProperIsCanonical(b.parts[id]);
    }
    var after := NominalsNormalized(b).value;
    assert after.parts == b.parts;
    forall id ensures Assigned(after, id) { assert Assigned(b, id); }
  }
}
