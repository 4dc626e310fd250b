/** Runs of the inventory service: every pending specification review stays bound to its part's current
    metadata and accepted facts, and identities stay unique. */
module Evidence {
  import opened Wrappers
  import opened Normalization
  import opened Inventory
  import opened InventoryIdentity
  import opened CreateParts
  import opened HiddenStock
  import opened EnrichedStock

  // ----- the operations -----

  datatype Command =
    | Add(fields: Fields)
    | AddOrIncrement(fields: Fields)
    | Create(items: seq<Fields>)
    | AddStock(id: PartId, quantity: int)
    | AdjustStock(id: PartId, delta: int)
    | Update(id: PartId, edit: Edit)
    | UpdateMany(updates: seq<(PartId, Edit)>)
    | Enrich(id: PartId, enrichment: Enrichment)
    | NormalizeValues
    | Stage(id: PartId, original: Fields, facts: seq<Fact>, valid: bool)
    | ApplyReview(id: PartId, valid: bool)
    | RejectReview(id: PartId)
    | Delete(id: PartId)

  const BATCH: nat := 100

  function ValidatedAll(items: seq<Fields>): Result<seq<Fields>, Error>
    decreases |items|
  {
    if items == [] then Success([])
    else
      match ValidatedAll(items[..|items| - 1])
      case Failure(e) => Failure(e)
      case Success(done) =>
        match Validated(items[|items| - 1])
        case Failure(e) => Failure(e)
        case Success(f) => Success(done + [f])
  }

  /** `create_parts`. */
  ghost function Batch(b: Bin, items: seq<Fields>): Result<Progress, Error> {
    if !(1 <= |items| <= BATCH) then Failure(InvalidInput)
    else
      match ValidatedAll(items)
      case Failure(e) => Failure(e)
      case Success(fields) => Created(b, fields)
  }

  predicate DistinctTargets(updates: seq<(PartId, Edit)>) {
    forall i, j :: 0 <= i < j < |updates| ==> updates[i].0 != updates[j].0
  }

  /** `update_parts`. */
  function UpdateBatch(b: Bin, updates: seq<(PartId, Edit)>): Result<Bin, Error> {
    if !(1 <= |updates| <= BATCH) || !DistinctTargets(updates) then Failure(InvalidInput) else UpdatedAll(b, updates)
  }

  function OrSame(b: Bin, r: Result<Bin, Error>): Bin { if r.Success? then r.value else b }

  /** A refused operation rolls back. */
  ghost function Applied(b: Bin, c: Command): Bin {
    match c
    case Add(fields) => if Added(b, fields).Success? then Added(b, fields).value.0 else b
    case AddOrIncrement(fields) => if AddedOrIncremented(b, fields).Success? then AddedOrIncremented(b, fields).value.0 else b
    case Create(items) => if Batch(b, items).Success? then Batch(b, items).value.bin else b
    case AddStock(id, quantity) => OrSame(b, StockAdded(b, id, quantity))
    case AdjustStock(id, delta) => OrSame(b, StockAdjusted(b, id, delta))
    case Update(id, edit) => OrSame(b, Updated(b, id, edit))
    case UpdateMany(updates) => OrSame(b, UpdateBatch(b, updates))
    case Enrich(id, e) => OrSame(b, UpdatedWithProvenance(b, id, e))
    case NormalizeValues => OrSame(b, NominalsNormalized(b))
    case Stage(id, original, facts, valid) => OrSame(b, Staged(b, id, original, facts, valid))
    case ApplyReview(id, valid) => OrSame(b, ReviewApplied(b, id, valid))
    case RejectReview(id) => OrSame(b, ReviewRejected(b, id))
    case Delete(id) => OrSame(b, Deleted(b, id))
  }

  ghost function Run(b: Bin, commands: seq<Command>): Bin
    decreases |commands|
  {
    if commands == [] then b else Applied(Run(b, commands[..|commands| - 1]), commands[|commands| - 1])
  }

  // ----- evidence -----

  /** The review of this part, if any, was staged from what the part still is. */
  predicate CurrentReview(b: Bin, id: PartId) {
    id in b.reviews ==> id in b.parts && CompleteSnapshot(b.reviews[id].snapshot) == SnapshotOf(b, id)
  }

  predicate Known(b: Bin, id: PartId) {
    && (id in b.parts ==> id < b.next)
    && (id in b.facts || id in b.reviews ==> id in b.parts)
  }

  ghost predicate EvidenceBound(b: Bin) {
    forall id :: CurrentReview(b, id) && Known(b, id)
  }

  lemma {:induction false} InsertedStaysBound(b: Bin, f: Fields)
    requires EvidenceBound(b)
    ensures Inserted(b, f).Success? ==> EvidenceBound(Inserted(b, f).value.0)
  {
    if Inserted(b, f).Success? {
      var b' := Inserted(b, f).value.0;
      assert Known(b, b.next);
      forall id ensures CurrentReview(b', id) && Known(b', id) { assert CurrentReview(b, id) && Known(b, id); }
    }
  }

  lemma {:induction false} AddedStaysBound(b: Bin, fields: Fields)
    requires EvidenceBound(b)
    ensures Added(b, fields).Success? ==> EvidenceBound(Added(b, fields).value.0)
  {
    if Added(b, fields).Success? { InsertedStaysBound(b, Validated(fields).value); }
  }

  /** Rewriting a row within its metadata leaves every review current. */
  lemma {:induction false} RewrittenStaysBound(b: Bin, id: PartId, f: Fields)
    requires EvidenceBound(b) && id in b.parts
    requires MetadataOf(f) == MetadataOf(b.parts[id]) || !Evidenced(b, id)
    ensures EvidenceBound(b.(parts := b.parts[id := f]))
  {
    var b' := b.(parts := b.parts[id := f]);
    forall other ensures CurrentReview(b', other) && Known(b', other) {
      assert CurrentReview(b, other) && Known(b, other);
    }
  }

  lemma {:induction false} IncrementedStaysBound(b: Bin, id: PartId, quantity: int)
    requires EvidenceBound(b) && id in b.parts
    ensures EvidenceBound(Incremented(b, id, quantity))
  {
    RewrittenStaysBound(b, id, b.parts[id].(quantity := b.parts[id].quantity + quantity));
  }

  lemma {:induction false} AddedOrIncrementedStaysBound(b: Bin, fields: Fields)
    requires EvidenceBound(b)
    ensures AddedOrIncremented(b, fields).Success? ==> EvidenceBound(AddedOrIncremented(b, fields).value.0)
  {
    if AddedOrIncremented(b, fields).Success? {
      var f := Validated(fields).value;
      AddedStaysBound(b, f);
      var d := Duplicate(b.parts, f).value;
      if d.Some? { IncrementedStaysBound(b, d.value, f.quantity); }
    }
  }

  lemma {:induction false} EnsuredStaysBound(b: Bin, f: Fields)
    requires EvidenceBound(b)
    ensures Ensured(b, f).Success? ==> EvidenceBound(Ensured(b, f).value.0)
  {
    AddedStaysBound(b, f);
  }

  lemma {:induction false} CreatedStaysBound(b: Bin, items: seq<Fields>)
    requires EvidenceBound(b)
    ensures Created(b, items).Success? ==> EvidenceBound(Created(b, items).value.bin)
    decreases |items|
  {
    if items == [] {
    } else {
      var before, f := items[..|items| - 1], items[|items| - 1];
      CreatedStaysBound(b, before);
      assert items == before + [f];
      CreatedSnoc(b, before, f);
      if Created(b, before).Success? { EnsuredStaysBound(Created(b, before).value.bin, f); }
    }
  }

  /** Evidence survives a replacement: metadata that differs is refused while evidence exists. What is
      stored may omit nulls, but never differs from the row where the check saw no difference. */
  lemma {:induction false} ReplacedStaysBound(b: Bin, id: PartId, checked: Fields, stored: Fields)
    requires EvidenceBound(b) && id in b.parts
    requires MetadataOf(checked) == MetadataOf(b.parts[id]) ==> MetadataOf(stored) == MetadataOf(b.parts[id])
    ensures Replaced(b, id, checked, stored).Success? ==> EvidenceBound(Replaced(b, id, checked, stored).value)
  {
    if Replaced(b, id, checked, stored).Success? { RewrittenStaysBound(b, id, stored); }
  }

  lemma {:induction false} UpdatedStaysBound(b: Bin, id: PartId, edit: Edit)
    requires EvidenceBound(b)
    ensures Updated(b, id, edit).Success? ==> EvidenceBound(Updated(b, id, edit).value)
  {
    if Updated(b, id, edit).Success? {
      var f := Validated(Merged(b.parts[id], edit)).value;
      ReplacedStaysBound(b, id, f, f);
    }
  }

  lemma {:induction false} UpdatedAllStaysBound(b: Bin, updates: seq<(PartId, Edit)>)
    requires EvidenceBound(b)
    ensures UpdatedAll(b, updates).Success? ==> EvidenceBound(UpdatedAll(b, updates).value)
    decreases |updates|
  {
    if updates == [] {
    } else {
      var before, last := updates[..|updates| - 1], updates[|updates| - 1];
      UpdatedAllStaysBound(b, before);
      if UpdatedAll(b, before).Success? { UpdatedStaysBound(UpdatedAll(b, before).value, last.0, last.1); }
    }
  }

  lemma {:induction false} EnrichedStaysBound(b: Bin, id: PartId, e: Enrichment)
    requires EvidenceBound(b)
    ensures UpdatedWithProvenance(b, id, e).Success? ==> EvidenceBound(UpdatedWithProvenance(b, id, e).value)
  {
    if UpdatedWithProvenance(b, id, e).Success? {
      var current := b.parts[id];
      var proposed := Proposed(current, Validated(Merged(current, EditOf(e))).value, e);
      ReplacedStaysBound(b, id, proposed, Enriched(current, proposed));
    }
  }

  /** Rewriting nominal values rewrites the snapshots of current reviews with them. */
  lemma {:induction false} NominalsStayBound(b: Bin)
    requires EvidenceBound(b)
    ensures NominalsNormalized(b).Success? ==> EvidenceBound(NominalsNormalized(b).value)
  {
    if NominalsNormalized(b).Success? {
      var b' := NominalsNormalized(b).value;
      forall id ensures CurrentReview(b', id) && Known(b', id) {
        assert CurrentReview(b, id) && Known(b, id);
        if id in b.reviews { ReviewFollows(b, b', id); }
      }
    }
  }

  lemma {:induction false} ReviewFollows(b: Bin, b': Bin, id: PartId)
    requires id in b.reviews && id in b.parts && CurrentReview(b, id)
    requires id in b'.parts && b'.parts[id] == Canonicalised(b.parts[id]) && b'.facts == b.facts
    ensures CompleteSnapshot(ReviewFollowing(b, id).snapshot) == SnapshotOf(b', id)
  {
  }

  lemma {:induction false} StagedStaysBound(b: Bin, id: PartId, original: Fields, facts: seq<Fact>, valid: bool)
    requires EvidenceBound(b)
    ensures Staged(b, id, original, facts, valid).Success? ==> EvidenceBound(Staged(b, id, original, facts, valid).value)
  {
    if Staged(b, id, original, facts, valid).Success? {
      var b' := Staged(b, id, original, facts, valid).value;
      forall other ensures CurrentReview(b', other) && Known(b', other) { assert CurrentReview(b, other) && Known(b, other); }
    }
  }

  lemma {:induction false} AppliedStaysBound(b: Bin, id: PartId, valid: bool)
    requires EvidenceBound(b)
    ensures ReviewApplied(b, id, valid).Success? ==> EvidenceBound(ReviewApplied(b, id, valid).value)
  {
    if ReviewApplied(b, id, valid).Success? {
      var b' := ReviewApplied(b, id, valid).value;
      forall other ensures CurrentReview(b', other) && Known(b', other) { assert CurrentReview(b, other) && Known(b, other); }
    }
  }

  lemma {:induction false} RejectedStaysBound(b: Bin, id: PartId)
    requires EvidenceBound(b)
    ensures ReviewRejected(b, id).Success? ==> EvidenceBound(ReviewRejected(b, id).value)
  {
    if ReviewRejected(b, id).Success? {
      var b' := ReviewRejected(b, id).value;
      forall other ensures CurrentReview(b', other) && Known(b', other) { assert CurrentReview(b, other) && Known(b, other); }
    }
  }

  lemma {:induction false} DeletedStaysBound(b: Bin, id: PartId)
    requires EvidenceBound(b)
    ensures Deleted(b, id).Success? ==> EvidenceBound(Deleted(b, id).value)
  {
    if Deleted(b, id).Success? {
      var b' := Deleted(b, id).value;
      forall other ensures CurrentReview(b', other) && Known(b', other) { assert CurrentReview(b, other) && Known(b, other); }
    }
  }

  /** Every operation keeps evidence bound. */
  lemma {:induction false} AppliedCommandStaysBound(b: Bin, c: Command)
    requires EvidenceBound(b)
    ensures EvidenceBound(Applied(b, c))
  {
    match c
    case Add(fields) => AddedStaysBound(b, fields);
    case AddOrIncrement(fields) => AddedOrIncrementedStaysBound(b, fields);
    case Create(items) => if Batch(b, items).Success? { CreatedStaysBound(b, ValidatedAll(items).value); }
    case AddStock(id, quantity) => if id in b.parts { IncrementedStaysBound(b, id, quantity); }
    case AdjustStock(id, delta) => if id in b.parts { IncrementedStaysBound(b, id, delta); }
    case Update(id, edit) => UpdatedStaysBound(b, id, edit);
    case UpdateMany(updates) => UpdatedAllStaysBound(b, updates);
    case Enrich(id, e) => EnrichedStaysBound(b, id, e);
    case NormalizeValues => NominalsStayBound(b);
    case Stage(id, original, facts, valid) => StagedStaysBound(b, id, original, facts, valid);
    case ApplyReview(id, valid) => AppliedStaysBound(b, id, valid);
    case RejectReview(id) => RejectedStaysBound(b, id);
    case Delete(id) => DeletedStaysBound(b, id);
  }

  /** In every state reached through the service, every pending review's snapshot is its part's current
      metadata and accepted facts. */
  lemma {:induction false} EvidenceStaysBound(commands: seq<Command>)
    ensures EvidenceBound(Run(EMPTY, commands))
    decreases |commands|
  {
    if commands == [] {
      forall id ensures CurrentReview(EMPTY, id) && Known(EMPTY, id) { }
    } else {
      EvidenceStaysBound(commands[..|commands| - 1]);
      AppliedCommandStaysBound(Run(EMPTY, commands[..|commands| - 1]), commands[|commands| - 1]);
    }
  }

  /** So applying a pending review of valid facts never conflicts, however long it has waited. */
  lemma {:induction false} ApplyNeverConflicts(commands: seq<Command>, id: PartId)
    requires id in Run(EMPTY, commands).reviews
    ensures ReviewApplied(Run(EMPTY, commands), id, true).Success?
  {
    EvidenceStaysBound(commands);
    assert CurrentReview(Run(EMPTY, commands), id);
  }

  lemma {:induction false} ValidatedAllProper(items: seq<Fields>)
    requires ValidatedAll(items).Success?
    ensures AllItemsProper(ValidatedAll(items).value)
    decreases |items|
  {
    if items == [] {
    } else {
      var before, f := items[..|items| - 1], items[|items| - 1];
      ValidatedAllProper(before);
      ValidatedIsProper(f);
      ProperParts(ValidatedAll(before).value, Validated(f).value);
    }
  }

  /** In every state reached through the service, hidden and doubled rows included, a batch ends as its items
      would one at a time, labels them rightly, and adds nothing a second time exactly when every item has an
      identity. */
  lemma {:induction false} EveryBatchRefines(commands: seq<Command>, items: seq<Fields>)
    requires ValidatedAll(items).Success?
    ensures var b, fields := Run(EMPTY, commands), ValidatedAll(items).value;
            && Forgotten(Created(b, fields)) == EnsuredAll(b, fields)
            && (Created(b, fields).Success? ==>
                  var p := Created(b, fields).value;
                  && AllLabelled(fields, p.outcomes)
                  && (IdleRun(p.bin, Created(p.bin, fields)) <==> AllIdentified(fields)))
  {
    var b, fields := Run(EMPTY, commands), ValidatedAll(items).value;
    EvidenceStaysBound(commands);
    forall id ensures Assigned(b, id) { assert Known(b, id); }
    ValidatedAllProper(items);
    CreateRefinesOneAtATime(b, fields);
    if Created(b, fields).Success? {
      LabelsAreRight(b, fields);
      CreateTwice(b, fields);
    }
  }

  // ----- identity over runs -----

  ghost predicate FiledUpdates(b: Bin, updates: seq<(PartId, Edit)>)
    decreases |updates|
  {
    updates == [] ||
    (var before, last := updates[..|updates| - 1], updates[|updates| - 1];
     && FiledUpdates(b, before)
     && (UpdatedAll(b, before).Success? && last.0 in UpdatedAll(b, before).value.parts ==>
           !HidesIdentity(Merged(UpdatedAll(b, before).value.parts[last.0], last.1))))
  }

  /** Three operations can store a row that a later search misses or that doubles an identity: a single
      addition and an update, which must not hide the identity they submit, and an enrichment, which writes
      another row than it checks and must be harmless to the row it meets. The others validate twice, or write
      no record. */
  ghost predicate FiledCommand(b: Bin, c: Command) {
    match c
    case Add(fields) => !HidesIdentity(fields)
    case Update(id, edit) => id in b.parts ==> !HidesIdentity(Merged(b.parts[id], edit))
    case UpdateMany(updates) => FiledUpdates(b, updates)
    case Enrich(id, e) => id in b.parts && Submitted(b.parts[id], e).Success? ==> Harmless(b.parts[id], e)
    case _ => true
  }

  ghost predicate FiledRun(commands: seq<Command>)
    decreases |commands|
  {
    commands == [] ||
    (FiledRun(commands[..|commands| - 1]) && FiledCommand(Run(EMPTY, commands[..|commands| - 1]), commands[|commands| - 1]))
  }

  lemma {:induction false} UpdatedAllStaysTidy(b: Bin, updates: seq<(PartId, Edit)>)
    requires Tidy(b) && FiledUpdates(b, updates) && UpdatedAll(b, updates).Success?
    ensures Tidy(UpdatedAll(b, updates).value)
    decreases |updates|
  {
    if updates == [] {
    } else {
      var before, last := updates[..|updates| - 1], updates[|updates| - 1];
      UpdatedAllStaysTidy(b, before);
      HidesExactly(Merged(UpdatedAll(b, before).value.parts[last.0], last.1));
      UpdatedStaysTidy(UpdatedAll(b, before).value, last.0, last.1);
    }
  }

  lemma {:induction false} SubsetStaysTidy(b: Bin, b': Bin)
    requires Tidy(b) && b'.next == b.next
    requires forall id :: id in b'.parts ==> id in b.parts && b'.parts[id] == b.parts[id]
    ensures Tidy(b')
  {
    forall id ensures SettledRow(b'.parts, id) && Assigned(b', id) { assert SettledRow(b.parts, id) && Assigned(b, id); }
    forall i, j ensures Apart(b'.parts, i, j) { assert Apart(b.parts, i, j); }
  }

  lemma {:induction false} AppliedStaysTidy(b: Bin, c: Command)
    requires Tidy(b) && FiledCommand(b, c)
    ensures Tidy(Applied(b, c))
  {
    match c
    case Add(fields) => if Added(b, fields).Success? { HidesExactly(fields); AddedStaysTidy(b, fields); }
    case AddOrIncrement(fields) => if AddedOrIncremented(b, fields).Success? { AddedOrIncrementedStaysTidy(b, fields); }
    case Create(items) =>
      if Batch(b, items).Success? {
        ValidatedAllProper(items);
        CreatedStaysTidy(b, ValidatedAll(items).value);
      }
    case AddStock(id, quantity) => if StockAdded(b, id, quantity).Success? { StockStaysTidy(b, id, quantity); }
    case AdjustStock(id, delta) => if StockAdjusted(b, id, delta).Success? { IncrementedStaysTidy(b, id, delta); }
    case Update(id, edit) => if Updated(b, id, edit).Success? { HidesExactly(Merged(b.parts[id], edit)); UpdatedStaysTidy(b, id, edit); }
    case UpdateMany(updates) => if UpdateBatch(b, updates).Success? { UpdatedAllStaysTidy(b, updates); }
    case Enrich(id, e) => if UpdatedWithProvenance(b, id, e).Success? { EnrichedStaysTidy(b, id, e); }
    case NormalizeValues => if NominalsNormalized(b).Success? { NominalsStayTidy(b); }
    case _ => SubsetStaysTidy(b, Applied(b, c));
  }

  lemma {:induction false} StockStaysTidy(b: Bin, id: PartId, quantity: int)
    requires Tidy(b) && id in b.parts && quantity > 0
    ensures Tidy(Incremented(b, id, quantity))
  {
    assert SettledRow(b.parts, id);
    IncrementedStaysTidy(b, id, quantity);
  }

  /** Over every run of commands that pass these tests, no two stored parts share a known identity, and every
      lookup finds the one holder or none. */
  lemma {:induction false} IdentityStaysUnique(commands: seq<Command>)
    requires FiledRun(commands)
    ensures Tidy(Run(EMPTY, commands)) && Unique(Run(EMPTY, commands).parts)
    decreases |commands|
  {
    if commands == [] {
    } else {
      IdentityStaysUnique(commands[..|commands| - 1]);
      AppliedStaysTidy(Run(EMPTY, commands[..|commands| - 1]), commands[|commands| - 1]);
    }
  }

  lemma {:induction false} RunOn(b: Bin, commands: seq<Command>, c: Command)
    ensures Run(b, commands + [c]) == Applied(Run(b, commands), c)
  {
    assert (commands + [c])[..|commands|] == commands;
  }

  lemma {:induction false} ThreeCommands(b: Bin, b1: Bin, b2: Bin, one: Command, two: Command, three: Command)
    requires b1 == Applied(b, one) && b2 == Applied(b1, two)
    ensures Run(b, [one] + [two] + [three]) == Applied(b2, three)
  {
    RunOn(b, [], one);
    assert [] + [one] == [one];
    RunOn(b, [one], two);
    RunOn(b, [one] + [two], three);
  }

  lemma {:induction false} AddApplies(b: Bin, fields: Fields)
    requires Added(b, fields).Success?
    ensures Applied(b, Add(fields)) == Added(b, fields).value.0
  {
  }

  lemma {:induction false} EnrichApplies(b: Bin, c: Command)
    requires c.Enrich? && UpdatedWithProvenance(b, c.id, c.enrichment).Success?
    ensures Applied(b, c) == UpdatedWithProvenance(b, c.id, c.enrichment).value
  {
  }

  /** Without the test on enrichments they can, although every stored row is settled. */
  lemma {:induction false} ClearingRunDoubles(b: Bin, lower: Fields, upper: Fields, clearing: Enrichment)
    requires b == EMPTY && lower == LOWER && upper == UPPER && clearing == CLEARING
    ensures var parts := Run(b, [Add(lower)] + [Add(upper)] + [Enrich(1, clearing)]).parts;
            AllSettled(parts) && !Unique(parts)
  {
    ClearingDoubles();
    AddApplies(b, lower);
    var b1 := Added(b, lower).value.0;
    AddApplies(b1, upper);
    var b2 := Added(b1, upper).value.0;
    EnrichApplies(b2, Enrich(1, clearing));
    ThreeCommands(b, b1, b2, Add(lower), Add(upper), Enrich(1, clearing));
  }
}
