/** The inventory tables and what each domain operation does to them (`domain/service.py` over
    `db/postgres/inventory.py`): parts, accepted facts and pending specification reviews. Each function
    here is one committed unit; a Failure leaves the tables as they were. */
module Inventory {
  import opened Wrappers
  import opened Normalization
  import Nominal

  type PartId = nat
  datatype Fact = Fact(name: string, value: string)

  /** The columns evidence is bound to. A snapshot taken before units were recorded has no unit entry. */
  datatype Metadata = Metadata(
    category: string,
    profile: string,
    value: Option<string>,
    package: Option<string>,
    partNumber: Option<string>,
    manufacturer: Option<string>,
    unit: Option<Option<string>>)

  datatype Snapshot = Snapshot(metadata: Metadata, facts: seq<Fact>)
  datatype Review = Review(facts: seq<Fact>, snapshot: Snapshot)

  datatype Bin = Bin(
    parts: map<PartId, Fields>,
    next: PartId,                       // pb_revision.next_part_id
    facts: map<PartId, seq<Fact>>,      // part_specifications
    reviews: map<PartId, Review>)       // part_specification_reviews

  const EMPTY: Bin := Bin(map[], 1, map[], map[])

  function FactsOf(b: Bin, id: PartId): seq<Fact> {
    if id in b.facts then b.facts[id] else []
  }

  predicate Evidenced(b: Bin, id: PartId) { FactsOf(b, id) != [] || id in b.reviews }

  // ----- storage indexes -----

  /** `passive_identity`: null unless every column is known. */
  function PassiveKey(f: Fields): Option<(string, string, string)> {
    if f.partNumber == None && Passive(f.category) && f.value.Some? && f.package.Some?
    then Some((f.category, f.value.value, f.package.value)) else None
  }

  predicate Clash(row: Fields, f: Fields) {
    || (f.partNumber.Some? && row.partNumber == f.partNumber)
    || (PassiveKey(f).Some? && PassiveKey(row) == PassiveKey(f))
  }

  /** The two UNIQUE columns accept this row under this id. */
  predicate Storable(parts: map<PartId, Fields>, id: PartId, f: Fields) {
    forall other :: other in parts && other != id ==> !Clash(parts[other], f)
  }

  // ----- duplicate_for_add -----

  /** A text filter of `_search_filters`; a blank filter selects everything. */
  predicate Selected(stored: Option<string>, wanted: Option<string>) {
    CleanText(wanted) == None || stored == CleanText(wanted)
  }

  /** `values_match`. */
  predicate ValuesMatch(stored: string, requested: string, category: string, unit: Option<string>) {
    var left, right := NominalFor(stored, category, unit), NominalFor(requested, category, unit);
    if left.Some? || right.Some? then left == right
    else LowerText(Nominal.Strip(stored)) == LowerText(Nominal.Strip(requested))
  }

  /** The rows the narrowed search returns. */
  predicate Narrowed(row: Fields, c: Fields) {
    && row.quantity >= 0
    && if c.partNumber.Some? then Selected(row.partNumber, c.partNumber)
       else
         && Selected(Some(row.category), Some(c.category)) && Selected(row.package, c.package)
         && (CleanText(c.value).Some? ==>
               row.value.Some? && ValuesMatch(row.value.value, CleanText(c.value).value, row.category, row.unit))
  }

  predicate Matches(parts: map<PartId, Fields>, c: Fields, id: PartId) {
    id in parts && Narrowed(parts[id], c) && IdentityOf(parts[id]) == IdentityOf(c)
  }

  ghost function Duplicate(parts: map<PartId, Fields>, fields: Fields): Result<Option<PartId>, Error> {
    var c := Normalized(fields);
    var found := set id | id in parts && Matches(parts, c, id);
    if IdentityOf(c) == None || found == {} then Success(None)
    else
      var id :| id in found;
      if found == {id} then Success(Some(id)) else Failure(Conflict)
  }

  // ----- adding -----

  ghost function Inserted(b: Bin, f: Fields): Result<(Bin, PartId), Error> {
    if Storable(b.parts, b.next, f) then Success((b.(parts := b.parts[b.next := f], next := b.next + 1), b.next))
    else Failure(DuplicatePart)
  }

  /** `add_part`. */
  ghost function Added(b: Bin, fields: Fields): Result<(Bin, PartId), Error> {
    match Validated(fields)
    case Failure(e) => Failure(e)
    case Success(f) =>
      match Duplicate(b.parts, f)
      case Failure(e) => Failure(e)
      case Success(Some(_)) => Failure(DuplicatePart)
      case Success(None) => Inserted(b, f)
  }

  function Incremented(b: Bin, id: PartId, quantity: int): Bin
    requires id in b.parts
  {
    b.(parts := b.parts[id := b.parts[id].(quantity := b.parts[id].quantity + quantity)])
  }

  /** `add_or_increment`. */
  ghost function AddedOrIncremented(b: Bin, fields: Fields): Result<(Bin, PartId), Error> {
    match Validated(fields)
    case Failure(e) => Failure(e)
    case Success(f) =>
      match Duplicate(b.parts, f)
      case Failure(e) => Failure(e)
      case Success(None) => Added(b, f)
      case Success(Some(id)) =>
        if id !in b.parts then Failure(PartNotFound)
        else if Evidenced(b, id) then Failure(Conflict)
        else if f.quantity <= 0 then Failure(InvalidInput)
        else Success((Incremented(b, id, f.quantity), id))
  }

  /** `add_stock`, and `adjust_stock` for a step of one. */
  function StockAdded(b: Bin, id: PartId, quantity: int): Result<Bin, Error> {
    if quantity <= 0 then Failure(InvalidInput)
    else if id !in b.parts then Failure(PartNotFound)
    else Success(Incremented(b, id, quantity))
  }

  function StockAdjusted(b: Bin, id: PartId, delta: int): Result<Bin, Error> {
    if delta != -1 && delta != 1 then Failure(InvalidInput)
    else if id !in b.parts then Failure(PartNotFound)
    else if b.parts[id].quantity + delta < 0 then Failure(InvalidInput)
    else Success(Incremented(b, id, delta))
  }

  // ----- updating -----

  /** The named columns of an update; a named column may be set to null. */
  datatype Edit = Edit(
    category: Option<string>,
    profile: Option<string>,
    value: Option<Option<string>>,
    unit: Option<Option<string>>,
    package: Option<Option<string>>,
    partNumber: Option<Option<string>>,
    manufacturer: Option<Option<string>>,
    description: Option<Option<string>>,
    datasheetUrl: Option<Option<string>>,
    quantity: Option<int>)

  function Merged(f: Fields, e: Edit): Fields {
    Fields(e.category.GetOr(f.category), e.profile.GetOr(f.profile), e.value.GetOr(f.value), e.unit.GetOr(f.unit),
           e.package.GetOr(f.package), e.partNumber.GetOr(f.partNumber), e.manufacturer.GetOr(f.manufacturer),
           e.description.GetOr(f.description), e.datasheetUrl.GetOr(f.datasheetUrl), e.quantity.GetOr(f.quantity))
  }

  function MetadataOf(f: Fields): Metadata {
    Metadata(f.category, f.profile, f.value, f.package, f.partNumber, f.manufacturer, Some(f.unit))
  }

  /** No other row shares a known identity with the replacement. */
  predicate Distinct(parts: map<PartId, Fields>, id: PartId, f: Fields) {
    IdentityOf(f) == None || forall other :: other in parts && other != id ==> IdentityOf(parts[other]) != IdentityOf(f)
  }

  /** `_check_replacement_identities` for one row. */
  predicate Replaceable(b: Bin, id: PartId, f: Fields)
    requires id in b.parts
  {
    && (MetadataOf(f) != MetadataOf(b.parts[id]) ==> !Evidenced(b, id))
    && Distinct(b.parts, id, f)
  }

  function Replaced(b: Bin, id: PartId, checked: Fields, stored: Fields): Result<Bin, Error>
    requires id in b.parts
  {
    if !Replaceable(b, id, checked) then Failure(Conflict)
    else if !Storable(b.parts, id, stored) then Failure(Conflict)
    else Success(b.(parts := b.parts[id := stored]))
  }

  /** `_update_part`. */
  function Updated(b: Bin, id: PartId, edit: Edit): Result<Bin, Error> {
    if id !in b.parts then Failure(PartNotFound)
    else
      match Validated(Merged(b.parts[id], edit))
      case Failure(e) => Failure(e)
      case Success(f) => Replaced(b, id, f, f)
  }

  /** `update_parts`: one at a time, all or nothing. */
  function UpdatedAll(b: Bin, updates: seq<(PartId, Edit)>): Result<Bin, Error>
    decreases |updates|
  {
    if updates == [] then Success(b)
    else
      match UpdatedAll(b, updates[..|updates| - 1])
      case Failure(e) => Failure(e)
      case Success(b') => Updated(b', updates[|updates| - 1].0, updates[|updates| - 1].1)
  }

  /** The named columns of `update_with_provenance`: null never clears one. */
  datatype Enrichment = Enrichment(
    category: Option<string>,
    profile: Option<string>,
    value: Option<string>,
    unit: Option<string>,
    package: Option<string>,
    partNumber: Option<string>,
    manufacturer: Option<string>,
    description: Option<string>,
    datasheetUrl: Option<string>)

  function Named(named: Option<string>): Option<Option<string>> {
    if named.Some? then Some(named) else None
  }

  function EditOf(e: Enrichment): Edit {
    Edit(e.category, e.profile, Named(e.value), Named(e.unit), Named(e.package), Named(e.partNumber),
         Named(e.manufacturer), Named(e.description), Named(e.datasheetUrl), None)
  }

  /** The validated columns that were named, over the current row. */
  function Proposed(current: Fields, cleaned: Fields, e: Enrichment): Fields {
    var nominal := e.value.Some? || e.category.Some? || e.unit.Some?;
    current.(category := if e.category.Some? then cleaned.category else current.category,
             profile := if e.profile.Some? then cleaned.profile else current.profile,
             value := if nominal then cleaned.value else current.value,
             unit := if nominal then cleaned.unit else current.unit,
             package := if e.package.Some? then cleaned.package else current.package,
             partNumber := if e.partNumber.Some? then cleaned.partNumber else current.partNumber,
             manufacturer := if e.manufacturer.Some? then cleaned.manufacturer else current.manufacturer,
             description := if e.description.Some? then cleaned.description else current.description,
             datasheetUrl := if e.datasheetUrl.Some? then cleaned.datasheetUrl else current.datasheetUrl)
  }

  function Kept(proposed: Option<string>, current: Option<string>): Option<string> {
    if proposed.Some? then proposed else current
  }

  /** What is written: columns that became null are left alone. */
  function Enriched(current: Fields, proposed: Fields): Fields {
    proposed.(value := Kept(proposed.value, current.value), unit := Kept(proposed.unit, current.unit),
              package := Kept(proposed.package, current.package), partNumber := Kept(proposed.partNumber, current.partNumber),
              manufacturer := Kept(proposed.manufacturer, current.manufacturer),
              description := Kept(proposed.description, current.description),
              datasheetUrl := Kept(proposed.datasheetUrl, current.datasheetUrl))
  }

  /** `update_with_provenance`. */
  function UpdatedWithProvenance(b: Bin, id: PartId, e: Enrichment): Result<Bin, Error> {
    if id !in b.parts then Failure(PartNotFound)
    else
      var current := b.parts[id];
      match Validated(Merged(current, EditOf(e)))
      case Failure(error) => Failure(error)
      case Success(cleaned) =>
        var proposed := Proposed(current, cleaned, e);
        Replaced(b, id, proposed, Enriched(current, proposed))
  }

  // ----- nominal migration -----

  function Canonicalised(f: Fields): Fields {
    if f.value.Some? && NominalFor(f.value.value, f.category, f.unit).Some? then
      var q := NominalFor(f.value.value, f.category, f.unit).value;
      f.(value := Some(q.decimal), unit := Some(q.unit))
    else f
  }

  function AllCanonicalised(parts: map<PartId, Fields>): map<PartId, Fields> {
    map id | id in parts :: Canonicalised(parts[id])
  }

  predicate SameStock(f: Fields, g: Fields) { IdentityOf(f).Some? && IdentityOf(f) == IdentityOf(g) }

  predicate Apart(parts: map<PartId, Fields>, i: PartId, j: PartId) {
    i in parts && j in parts && SameStock(parts[i], parts[j]) ==> i == j
  }

  /** No two rows share a known identity. */
  ghost predicate Unique(parts: map<PartId, Fields>) {
    forall i, j :: Apart(parts, i, j)
  }

  /** A review of a rewritten row follows it when it was current. */
  function ReviewFollowing(b: Bin, id: PartId): Review
    requires id in b.reviews && id in b.parts
  {
    var review := b.reviews[id];
    var snapshot := CompleteSnapshot(review.snapshot);
    if Canonicalised(b.parts[id]) != b.parts[id] && snapshot == SnapshotOf(b, id) then
      var f := Canonicalised(b.parts[id]);
      review.(snapshot := snapshot.(metadata := snapshot.metadata.(value := f.value, unit := Some(f.unit))))
    else review
  }

  /** `normalize_nominal_values`. */
  ghost function NominalsNormalized(b: Bin): Result<Bin, Error> {
    var parts := AllCanonicalised(b.parts);
    if !Unique(parts) then Failure(Conflict)
    else if exists id :: id in parts && !Storable(parts, id, parts[id]) then Failure(Conflict)
    else Success(b.(parts := parts,
                    reviews := map id | id in b.reviews :: if id in b.parts then ReviewFollowing(b, id) else b.reviews[id]))
  }

  // ----- specification reviews -----

  /** Older snapshots have no unit entry. */
  function CompleteSnapshot(s: Snapshot): Snapshot {
    s.(metadata := s.metadata.(unit := Some(s.metadata.unit.GetOr(None))))
  }

  function SnapshotOf(b: Bin, id: PartId): Snapshot
    requires id in b.parts
  {
    Snapshot(MetadataOf(b.parts[id]), FactsOf(b, id))
  }

  /** `stage_specifications` of facts read for `original`, once the facts themselves are valid. */
  function Staged(b: Bin, id: PartId, original: Fields, facts: seq<Fact>, valid: bool): Result<Bin, Error> {
    if !valid then Failure(InvalidInput)
    else if id !in b.parts || Snapshot(MetadataOf(original), FactsOf(b, id)) != SnapshotOf(b, id) || id in b.reviews then Failure(Conflict)
    else Success(b.(reviews := b.reviews[id := Review(facts, Snapshot(MetadataOf(original), FactsOf(b, id)))]))
  }

  function WithFact(facts: seq<Fact>, fact: Fact): seq<Fact> {
    if facts == [] then [fact]
    else if facts[0].name == fact.name then [fact] + facts[1..]
    else [facts[0]] + WithFact(facts[1..], fact)
  }

  /** Accepted facts by name, replaced or extended by the reviewed ones in order. */
  function Accepted(current: seq<Fact>, reviewed: seq<Fact>): seq<Fact>
    decreases |reviewed|
  {
    if reviewed == [] then current
    else WithFact(Accepted(current, reviewed[..|reviewed| - 1]), reviewed[|reviewed| - 1])
  }

  /** `apply_specification_review`, once the reviewed facts are valid. */
  function ReviewApplied(b: Bin, id: PartId, valid: bool): Result<Bin, Error> {
    if id !in b.parts then Failure(PartNotFound)
    else if id !in b.reviews then Failure(ReviewNotFound)
    else if !valid then Failure(InvalidInput)
    else if CompleteSnapshot(b.reviews[id].snapshot) != SnapshotOf(b, id) then Failure(Conflict)
    else Success(b.(facts := b.facts[id := Accepted(FactsOf(b, id), b.reviews[id].facts)], reviews := b.reviews - {id}))
  }

  function ReviewRejected(b: Bin, id: PartId): Result<Bin, Error> {
    if id !in b.parts then Failure(PartNotFound) else Success(b.(reviews := b.reviews - {id}))
  }

  function Deleted(b: Bin, id: PartId): Result<Bin, Error> {
    if id !in b.parts then Failure(PartNotFound)
    else Success(b.(parts := b.parts - {id}, facts := b.facts - {id}, reviews := b.reviews - {id}))
  }
}
