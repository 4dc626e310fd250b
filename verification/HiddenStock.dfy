/** Which additions leave a hidden row behind, as a test on the submitted record, and what a hidden row
    costs: identities stay unique under every further addition exactly when no stored row is hidden. */
module HiddenStock {
  import opened Wrappers
  import opened Decimals
  import opened Normalization
  import opened Inventory
  import opened InventoryIdentity
  import Nominal
  import NominalRoundTrip
  import NominalLabels

  // ----- the test on a submitted record -----

  /** Four or five digits, as the text of a quantity. */
  predicate ReadsAsPackage(q: Option<Nominal.Quantity>) {
    q.Some? && AllDigits(q.value.decimal) && 4 <= |q.value.decimal| <= 5
  }

  /** The value that repair settles on when the package slot is left alone. */
  function ChosenValue(c: Fields): Option<string> {
    if LooksLikeValue(c.partNumber) && !LooksLikeValue(c.value) then c.partNumber else c.value
  }

  /** The submitted record is passive, has no part number but a value-shaped package, and its value is not
      package-shaped itself but reads as a quantity of four or five digits. */
  predicate HidesIdentity(fields: Fields) {
    var c := Cleaned(fields);
    var value := ChosenValue(c);
    && Passive(c.category)
    && (c.partNumber == None || LooksLikeValue(c.partNumber))
    && LooksLikeValue(c.package)
    && value.Some? && !LooksLikePackage(value)
    && ReadsAsPackage(NominalFor(value.value, c.category, c.unit))
  }

  // ----- decimal text as a package token -----

  predicate PlainChar(c: char) { IsDigit(c) || c == '.' || c == '-' }

  lemma {:induction false} WrittenChars(whole: string, fraction: string)
    requires whole != [] && AllDigits(whole) && AllDigits(fraction)
    ensures var plain := whole + NominalRoundTrip.PointAnd(fraction);
            plain != [] && IsDigit(plain[0]) && forall i :: 0 <= i < |plain| ==> PlainChar(plain[i])
  {
    assert (whole + NominalRoundTrip.PointAnd(fraction))[0] == whole[0];
  }

  lemma {:induction false} SignedChars(negative: bool, plain: string)
    requires plain != [] && IsDigit(plain[0]) && forall i :: 0 <= i < |plain| ==> PlainChar(plain[i])
    ensures var text := Signed(negative, plain);
            text != [] && (IsDigit(text[0]) || text[0] == '-') && forall i :: 0 <= i < |text| ==> PlainChar(text[i])
  {
  }

  lemma {:induction false} CanonicalChars(text: string)
    requires Nominal.Canonical(text)
    ensures text != [] && (IsDigit(text[0]) || text[0] == '-') && forall i :: 0 <= i < |text| ==> PlainChar(text[i])
  {
    var r: Decimal :| Lowest(r) && text == DecimalText(r);
    NominalRoundTrip.Written(r);
    WrittenChars(WholeOf(r), FractionOf(r));
    SignedChars(r.negative, PlainDigits(r));
  }

  lemma {:induction false} PlainIsLower(text: string)
    requires forall i :: 0 <= i < |text| ==> PlainChar(text[i])
    ensures LowerText(text) == text
  {
  }

  lemma {:induction false} PlainIsNoLength(s: string)
    requires forall i :: 0 <= i < |s| ==> PlainChar(s[i])
    ensures !Millimetres(s)
  {
    assert |s| >= 2 ==> PlainChar(s[|s| - 2]) && s[|s| - 2..][0] == s[|s| - 2];
    if Millimetres(s) { NumberRest(s); }
  }

  /** The decimal text of a quantity reads as a package exactly when it is four or five digits. */
  lemma {:induction false} QuantityAsPackage(text: string)
    requires Nominal.Canonical(text)
    ensures LooksLikePackage(Some(text)) <==> AllDigits(text) && 4 <= |text| <= 5
  {
    CanonicalChars(text);
    NominalLabels.StoredIsStripped(text);
    PlainIsLower(text);
    NoLetterNoFamily(text);
    PlainIsNoLength(text);
  }

  // ----- the test is exact -----

  lemma {:induction false} RepairedSlots(c: Fields)
    requires Passive(c.category)
    ensures var r := Repaired(c);
            && (LooksLikeValue(r.package) <==> LooksLikeValue(c.package) && !LooksLikePackage(ChosenValue(c)))
            && (LooksLikeValue(r.package) ==>
                  && r.value == ChosenValue(c)
                  && r.partNumber == if LooksLikeValue(c.partNumber) then None else c.partNumber)
  {
    ShapesDiffer(c.value);
    ShapesDiffer(c.package);
    ShapesDiffer(c.partNumber);
  }

  lemma {:induction false} StrippedShape(raw: string)
    ensures LooksLikePackage(Some(Nominal.Strip(raw))) == LooksLikePackage(Some(raw))
  {
    StripTwice(raw);
  }

  /** The value slot of a settled passive record, starting from a value that is no package itself. */
  lemma {:induction false} ValueAsPackage(r: Fields)
    requires r.profile == "passive" && r.value.Some? && !LooksLikePackage(r.value)
    ensures LooksLikePackage(WithNominal(r).value) <==> ReadsAsPackage(NominalFor(r.value.value, r.category, r.unit))
  {
    var q := NominalFor(r.value.value, r.category, r.unit);
    if q.Some? { QuantityAsPackage(q.value.decimal); } else { StrippedShape(r.value.value); }
  }

  /** Validation leaves a hidden row exactly on the records the test names. */
  lemma {:induction false} HidesExactly(fields: Fields)
    ensures Validated(fields).Success? ==> (Hidden(Validated(fields).value) <==> HidesIdentity(fields))
  {
    var c := Cleaned(fields);
    if Passive(c.category) { NormalizedHides(c); } else { RepairKeepsColumns(c); }
  }

  lemma {:induction false} NormalizedHides(c: Fields)
    requires Passive(c.category)
    ensures var value := ChosenValue(c);
            Hidden(Normalized(c)) <==>
              && (c.partNumber == None || LooksLikeValue(c.partNumber))
              && LooksLikeValue(c.package)
              && value.Some? && !LooksLikePackage(value)
              && ReadsAsPackage(NominalFor(value.value, c.category, c.unit))
  {
    var r := Repaired(c);
    RepairKeepsColumns(c);
    RepairedSlots(c);
    if LooksLikeValue(r.package) && r.value.Some? { ValueAsPackage(r); }
  }

  // ----- what a hidden row costs -----

  /** The record a hidden row's identity speaks of: its slots the right way round. */
  function Collider(row: Fields): Fields { Normalized(row).(unit := None) }

  lemma {:induction false} PassiveHasUnit(category: string)
    requires Passive(category)
    ensures CategoryUnit(LowerText(category)).Some?
  {
  }

  lemma {:induction false} SameReading(value: string, category: string, unit: Option<string>)
    requires Passive(category) && Nominal.Strip(category) == category
    requires unit == None || unit == CategoryUnit(LowerText(category))
    ensures NominalFor(value, category, unit) == NominalFor(value, category, None)
  {
    PassiveHasUnit(category);
  }

  /** Without its unit, a settled passive record validates to the same stock. */
  lemma {:induction false} WithoutUnit(n: Fields)
    requires Proper(n) && !Misfiled(n) && Passive(n.category)
    ensures var x := n.(unit := None);
            && Validated(x).Success?
            && Validated(x).value == n.(unit := Validated(x).value.unit)
  {
    var x := n.(unit := None);
    assert Cleaned(x) == x;
    RepairIsIdle(x);
    PassiveHasUnit(n.category);
    if n.value.Some? { SameReading(n.value.value, n.category, n.unit); }
  }

  lemma {:induction false} KeyIsProper(row: Fields)
    requires Proper(row) && Hidden(row)
    ensures Proper(Normalized(row)) && !Misfiled(Normalized(row)) && Passive(Normalized(row).category)
    ensures Normalized(row).partNumber == None && Normalized(row).package == row.value && row.value != row.package
  {
    var n := Normalized(row);
    KeyOf(row);
    ProperIsClean(row);
    ProperIsNormal(row);
    NormalizedIsNormal(row);
    RepairKeepsColumns(row);
    QuantityPasses(row);
    RepairKeepsNumbers(row);
    UnitStaysFit(Repaired(row));
    NominalIsStable(Repaired(row)) by { RepairedIsClean(row); }
  }

  /** What is stored for the collider, and the identity it shares with the hidden row. */
  lemma {:induction false} ColliderMeets(row: Fields)
    requires Proper(row) && Hidden(row)
    ensures var x := Collider(row);
            && Validated(x).Success?
            && var f := Validated(x).value;
               && Settled(f) && Normalized(f) == f && IdentityOf(f) == ColumnIdentity(f) == IdentityOf(row)
               && f.partNumber == None && f.package == row.value && row.value != row.package && Passive(f.category)
  {
    var n := Normalized(row);
    KeyIsProper(row);
    WithoutUnit(n);
    var f := Validated(Collider(row)).value;
    ValidatedIsProper(Collider(row));
    ProperIsNormal(f);
    SettledIdentity(f);
    SettledIdentity(n);
    KeyOf(row);
  }

  ghost predicate AllProper(parts: map<PartId, Fields>) {
    forall id :: ProperRow(parts, id)
  }

  predicate ProperRow(parts: map<PartId, Fields>, id: PartId) { id in parts ==> Proper(parts[id]) }

  predicate HiddenRow(parts: map<PartId, Fields>, id: PartId) { id in parts && Hidden(parts[id]) }

  ghost predicate KeepsUnique(b: Bin, fields: Fields) {
    Added(b, fields).Success? ==> Unique(Added(b, fields).value.0.parts)
  }

  /** The narrowed search for the collider passes the hidden row by. */
  lemma {:induction false} ColliderUnseen(parts: map<PartId, Fields>, id: PartId, f: Fields)
    requires Unique(parts) && id in parts && Settled(f) && Normalized(f) == f
    requires IdentityOf(f) == IdentityOf(parts[id]) && IdentityOf(f).Some?
    requires f.partNumber == None && f.package.Some? && parts[id].package != f.package
    ensures Duplicate(parts, f) == Success(None)
  {
    assert CleanText(f.package) == f.package by { KeyOf(f); KeyText(f); }
    forall other ensures !Matches(parts, f, other) { assert Apart(parts, other, id); }
    var found := set other | other in parts && Matches(parts, f, other);
    assert found == {};
  }

  /** No unique column stops it: an equal row would have its identity already. */
  lemma {:induction false} ColliderStorable(parts: map<PartId, Fields>, next: PartId, id: PartId, f: Fields)
    requires AllProper(parts) && Unique(parts) && id in parts && Settled(f) && !Misfiled(f)
    requires IdentityOf(f) == ColumnIdentity(f) == IdentityOf(parts[id])
    requires f.partNumber == None && Passive(f.category) && parts[id].package != f.package
    ensures Storable(parts, next, f)
  {
    forall other | other in parts && other != next ensures !Clash(parts[other], f) {
      assert ProperRow(parts, other) && Apart(parts, other, id);
      SettledIdentity(parts[other]);
    }
  }

  /** A hidden row can be joined by a second row of the same stock. */
  lemma {:induction false} HiddenCollides(b: Bin, id: PartId)
    requires AllProper(b.parts) && Unique(b.parts) && Assigned(b, b.next) && HiddenRow(b.parts, id)
    ensures Added(b, Collider(b.parts[id])).Success? && !KeepsUnique(b, Collider(b.parts[id]))
  {
    var row := b.parts[id];
    assert ProperRow(b.parts, id);
    ColliderMeets(row);
    var f := Validated(Collider(row)).value;
    assert f.package.Some? && !Misfiled(f) by { ShapesDiffer(row.value); }
    ColliderUnseen(b.parts, id, f);
    ColliderStorable(b.parts, b.next, id, f);
    var after := b.parts[b.next := f];
    assert !Apart(after, id, b.next);
  }

  /** On unique rows as validation leaves them, every accepted addition keeps identities unique if and only
      if no stored row is hidden. */
  lemma {:induction false} AdditionsKeepUnique(b: Bin)
    requires AllProper(b.parts) && Unique(b.parts) && forall id :: Assigned(b, id)
    ensures (forall fields :: KeepsUnique(b, fields)) <==> (forall id :: !HiddenRow(b.parts, id))
  {
    if id :| HiddenRow(b.parts, id) {
      assert Assigned(b, b.next);
      HiddenCollides(b, id);
    } else {
      forall id ensures SettledRow(b.parts, id) { assert ProperRow(b.parts, id) && !HiddenRow(b.parts, id); }
      assert Tidy(b);
      forall fields ensures KeepsUnique(b, fields) {
        if Added(b, fields).Success? { AddedStaysTidy(b, fields); }
      }
    }
  }
}
