/** The inventory service over its tables, statement by statement: every operation leaves exactly the
    tables its specification names, or, when refused, the tables it found. */
module PartsBin {
  import opened Wrappers
  import opened Normalization
  import opened Inventory
  import opened CreateParts
  import opened Evidence

  /** A row of the migration: rewritten unless still pending. */
  predicate Outdated(parts: map<PartId, Fields>, id: PartId) {
    id in parts && Canonicalised(parts[id]) != parts[id]
  }

  predicate RowAt(start: Bin, pending: set<PartId>, parts: map<PartId, Fields>, id: PartId) {
    id in parts && id in start.parts ==> parts[id] == if id in pending then start.parts[id] else Canonicalised(start.parts[id])
  }

  predicate ReviewAt(start: Bin, pending: set<PartId>, reviews: map<PartId, Review>, id: PartId) {
    id in reviews && id in start.reviews ==>
      reviews[id] == if id in pending || id !in start.parts then start.reviews[id] else ReviewFollowing(start, id)
  }

  lemma {:induction false} RowRewritten(start: Bin, b: Bin, b': Bin, pending: set<PartId>, id: PartId)
    requires id in pending && id in b.parts && id in start.parts && b.facts == start.facts
    requires b.reviews.Keys == start.reviews.Keys
    requires forall other :: RowAt(start, pending, b.parts, other) && ReviewAt(start, pending, b.reviews, other)
    requires b'.parts == b.parts[id := Canonicalised(b.parts[id])]
    requires b'.reviews == if id in b.reviews then b.reviews[id := ReviewFollowing(b, id)] else b.reviews
    ensures forall other :: RowAt(start, pending - {id}, b'.parts, other)
    ensures forall other :: ReviewAt(start, pending - {id}, b'.reviews, other)
  {
    assert RowAt(start, pending, b.parts, id) && ReviewAt(start, pending, b.reviews, id);
    forall other ensures RowAt(start, pending - {id}, b'.parts, other) { assert RowAt(start, pending, b.parts, other); }
    forall other ensures ReviewAt(start, pending - {id}, b'.reviews, other) { assert ReviewAt(start, pending, b.reviews, other); }
  }

  lemma {:induction false} NothingRewritten(start: Bin, changes: set<PartId>)
    requires forall id :: id in changes <==> Outdated(start.parts, id)
    ensures changes <= start.parts.Keys
    ensures forall id :: RowAt(start, changes, start.parts, id) && ReviewAt(start, changes, start.reviews, id)
  {
    forall id ensures id in changes ==> id in start.parts { assert id in changes <==> Outdated(start.parts, id); }
    forall id ensures RowAt(start, changes, start.parts, id) && ReviewAt(start, changes, start.reviews, id) {
      assert id in changes <==> Outdated(start.parts, id);
    }
  }

  lemma {:induction false} RewrittenAll(start: Bin, b: Bin)
    requires b.next == start.next && b.facts == start.facts
    requires b.parts.Keys == start.parts.Keys && b.reviews.Keys == start.reviews.Keys
    requires forall id :: RowAt(start, {}, b.parts, id) && ReviewAt(start, {}, b.reviews, id)
    ensures b.parts == AllCanonicalised(start.parts)
    ensures b.reviews == map id | id in start.reviews :: if id in start.parts then ReviewFollowing(start, id) else start.reviews[id]
  {
    forall id | id in b.parts ensures b.parts[id] == Canonicalised(start.parts[id]) { assert RowAt(start, {}, b.parts, id); }
    forall id | id in b.reviews
      ensures b.reviews[id] == if id in start.parts then ReviewFollowing(start, id) else start.reviews[id]
    {
      assert ReviewAt(start, {}, b.reviews, id);
    }
  }

  lemma {:induction false} FoundDecides(parts: map<PartId, Fields>, fields: Fields, id: PartId)
    requires id in parts && Matches(parts, Normalized(fields), id) && IdentityOf(Normalized(fields)).Some?
    ensures var found := set other | other in parts && Matches(parts, Normalized(fields), other);
            Duplicate(parts, fields) == if found == {id} then Success(Some(id)) else Failure(Conflict)
  {
    var found := set other | other in parts && Matches(parts, Normalized(fields), other);
    assert id in found;
  }

  class PartsBinService {
    var parts: map<PartId, Fields>
    var next: PartId
    var facts: map<PartId, seq<Fact>>
    var reviews: map<PartId, Review>

    constructor ()
      ensures Contents() == EMPTY
    {
      parts, next, facts, reviews := map[], 1, map[], map[];
    }

    function Contents(): Bin
      reads this
    {
      Bin(parts, next, facts, reviews)
    }

    /** Puts back what the unit started from. */
    method Rollback(saved: Bin)
      modifies this
      ensures Contents() == saved
    {
      parts, next, facts, reviews := saved.parts, saved.next, saved.facts, saved.reviews;
    }

    /** `duplicate_for_add`: search narrowly, then keep the rows of the same identity. */
    method DuplicateForAdd(fields: Fields) returns (r: Result<Option<PartId>, Error>)
      ensures r == Duplicate(parts, fields)
    {
      var c := Normalized(fields);
      if IdentityOf(c) == None { return Success(None); }
      var remaining, found := parts.Keys, {};
      while remaining != {}
        invariant remaining <= parts.Keys
        invariant found == set id | id in parts && id !in remaining && Matches(parts, c, id)
        decreases |remaining|
      {
        var id :| id in remaining;
        if Matches(parts, c, id) { found := found + {id}; }
        remaining := remaining - {id};
      }
      if found == {} { return Success(None); }
      var id :| id in found;
      FoundDecides(parts, fields, id);
      return if found == {id} then Success(Some(id)) else Failure(Conflict);
    }

    method Insert(f: Fields) returns (r: Result<PartId, Error>)
      modifies this
      ensures match Inserted(old(Contents()), f)
              case Success(pair) => r == Success(pair.1) && Contents() == pair.0
              case Failure(e) => r == Failure(e) && Contents() == old(Contents())
    {
      if !Storable(parts, next, f) { return Failure(DuplicatePart); }
      parts := parts[next := f];
      next := next + 1;
      return Success(next - 1);
    }

    method AddPart(fields: Fields) returns (r: Result<PartId, Error>)
      modifies this
      ensures match Added(old(Contents()), fields)
              case Success(pair) => r == Success(pair.1) && Contents() == pair.0
              case Failure(e) => r == Failure(e) && Contents() == old(Contents())
    {
      var f :- Validated(fields);
      var duplicate :- DuplicateForAdd(f);
      if duplicate.Some? { return Failure(DuplicatePart); }
      r := Insert(f);
    }

    method AddOrIncrement(fields: Fields) returns (r: Result<PartId, Error>)
      modifies this
      ensures match AddedOrIncremented(old(Contents()), fields)
              case Success(pair) => r == Success(pair.1) && Contents() == pair.0
              case Failure(e) => r == Failure(e) && Contents() == old(Contents())
    {
      var f :- Validated(fields);
      var duplicate :- DuplicateForAdd(f);
      if duplicate == None {
        r := AddPart(f);
        return;
      }
      var id := duplicate.value;
      if id !in parts { return Failure(PartNotFound); }
      if Evidenced(Contents(), id) { return Failure(Conflict); }
      if f.quantity <= 0 { return Failure(InvalidInput); }
      parts := parts[id := parts[id].(quantity := parts[id].quantity + f.quantity)];
      return Success(id);
    }

    /** One input the batch has not seen: the part the inventory already has, or a new one. */
    method EnsurePart(item: Fields) returns (r: Result<(PartId, bool), Error>)
      modifies this
      ensures match Ensured(old(Contents()), item)
              case Success((b, id, added)) => r == Success((id, added)) && Contents() == b
              case Failure(e) => r == Failure(e) && Contents() == old(Contents())
    {
      var existing :- DuplicateForAdd(item);
      if existing.Some? { return Success((existing.value, false)); }
      var part :- AddPart(item);
      return Success((part, true));
    }

    /** One input: seen in this batch before, or not. */
    method CreateOne(item: Fields, outcomes: seq<Outcome>, seen: map<Identity, (nat, PartId)>)
      returns (r: Result<(seq<Outcome>, map<Identity, (nat, PartId)>), Error>)
      modifies this
      ensures match Step(Progress(old(Contents()), outcomes, seen), item)
              case Success(p) => r == Success((p.outcomes, p.seen)) && Contents() == p.bin
              case Failure(e) => r == Failure(e) && Contents() == old(Contents())
    {
      var index, identity := |outcomes|, IdentityOf(item);
      if identity.Some? && identity.value in seen {
        var (first, part) := seen[identity.value];
        return Success((outcomes + [Outcome(index, part, false, DuplicateInput(first))], seen));
      }
      var one :- EnsurePart(item);
      var (part, added) := one;
      var outcome := Outcome(index, part, added, if added then Unexplained else Existing);
      return Success((outcomes + [outcome], if identity.Some? then seen[identity.value := (index, part)] else seen));
    }

    /** The loop of `create_parts` over validated inputs. */
    method CreateAll(fields: seq<Fields>) returns (r: Result<seq<Outcome>, Error>)
      modifies this
      ensures match Created(old(Contents()), fields)
              case Success(p) => r == Success(p.outcomes) && Contents() == p.bin
              case Failure(e) => r == Failure(e) && Contents() == old(Contents())
    {
      var saved := Contents();
      var outcomes: seq<Outcome>, seen: map<Identity, (nat, PartId)> := [], map[];
      for index := 0 to |fields|
        invariant Created(saved, fields[..index]) == Success(Progress(Contents(), outcomes, seen))
      {
        CreatedNext(saved, fields, index);
        var one := CreateOne(fields[index], outcomes, seen);
        if one.Failure? {
          FailureStays(saved, fields, index + 1);
          Rollback(saved);
          return Failure(one.error);
        }
        outcomes, seen := one.value.0, one.value.1;
      }
      assert fields[..|fields|] == fields;
      return Success(outcomes);
    }

    /** `create_parts`: validate everything, then add what neither the batch nor the inventory has. */
    method CreateParts(items: seq<Fields>) returns (r: Result<seq<Outcome>, Error>)
      modifies this
      ensures match Batch(old(Contents()), items)
              case Success(p) => r == Success(p.outcomes) && Contents() == p.bin
              case Failure(e) => r == Failure(e) && Contents() == old(Contents())
    {
      if !(1 <= |items| <= BATCH) { return Failure(InvalidInput); }
      var fields :- ValidateAll(items);
      r := CreateAll(fields);
    }

    method UpdatePart(id: PartId, edit: Edit) returns (r: Result<(), Error>)
      modifies this
      ensures match Updated(old(Contents()), id, edit)
              case Success(b) => r == Success(()) && Contents() == b
              case Failure(e) => r == Failure(e) && Contents() == old(Contents())
    {
      if id !in parts { return Failure(PartNotFound); }
      var f :- Validated(Merged(parts[id], edit));
      if !Replaceable(Contents(), id, f) || !Storable(parts, id, f) { return Failure(Conflict); }
      parts := parts[id := f];
      return Success(());
    }

    /** `update_parts`: in order, and nothing stays if one is refused. */
    method UpdateParts(updates: seq<(PartId, Edit)>) returns (r: Result<(), Error>)
      modifies this
      ensures match UpdateBatch(old(Contents()), updates)
              case Success(b) => r == Success(()) && Contents() == b
              case Failure(e) => r == Failure(e) && Contents() == old(Contents())
    {
      if !(1 <= |updates| <= BATCH) || !DistinctTargets(updates) { return Failure(InvalidInput); }
      var saved := Contents();
      for i := 0 to |updates|
        invariant UpdatedAll(saved, updates[..i]) == Success(Contents())
      {
        assert updates[..i + 1][..i] == updates[..i];
        var one := UpdatePart(updates[i].0, updates[i].1);
        if one.Failure? {
          UpdateFailureStays(saved, updates, i + 1);
          Rollback(saved);
          return Failure(one.error);
        }
      }
      assert updates[..|updates|] == updates;
      return Success(());
    }

    /** `stage_specifications`, compare and insert. */
    method StageSpecifications(id: PartId, original: Fields, proposed: seq<Fact>, valid: bool) returns (r: Result<(), Error>)
      modifies this
      ensures match Staged(old(Contents()), id, original, proposed, valid)
              case Success(b) => r == Success(()) && Contents() == b
              case Failure(e) => r == Failure(e) && Contents() == old(Contents())
    {
      if !valid { return Failure(InvalidInput); }
      var snapshot := Snapshot(MetadataOf(original), FactsOf(Contents(), id));
      if id !in parts || snapshot != SnapshotOf(Contents(), id) || id in reviews { return Failure(Conflict); }
      reviews := reviews[id := Review(proposed, snapshot)];
      return Success(());
    }

    /** `apply_specification_review`: compare with the snapshot, merge the facts, drop the review. */
    method ApplySpecificationReview(id: PartId, valid: bool) returns (r: Result<(), Error>)
      modifies this
      ensures match ReviewApplied(old(Contents()), id, valid)
              case Success(b) => r == Success(()) && Contents() == b
              case Failure(e) => r == Failure(e) && Contents() == old(Contents())
    {
      if id !in parts { return Failure(PartNotFound); }
      if id !in reviews { return Failure(ReviewNotFound); }
      if !valid { return Failure(InvalidInput); }
      var review := reviews[id];
      if CompleteSnapshot(review.snapshot) != SnapshotOf(Contents(), id) { return Failure(Conflict); }
      var current := FactsOf(Contents(), id);
      for i := 0 to |review.facts|
        invariant current == Accepted(FactsOf(Contents(), id), review.facts[..i])
      {
        assert review.facts[..i + 1][..i] == review.facts[..i];
        current := WithFact(current, review.facts[i]);
      }
      assert review.facts[..|review.facts|] == review.facts;
      facts := facts[id := current];
      reviews := reviews - {id};
      return Success(());
    }

    /** One row of the migration; its review follows it when it was current. */
    method RewriteRow(id: PartId)
      requires Outdated(parts, id)
      modifies this
      ensures next == old(next) && facts == old(facts)
      ensures parts == old(parts)[id := Canonicalised(old(parts)[id])]
      ensures reviews == if id in old(reviews) then old(reviews)[id := ReviewFollowing(old(Contents()), id)] else old(reviews)
    {
      var before := SnapshotOf(Contents(), id);
      var f := Canonicalised(parts[id]);
      parts := parts[id := f];
      if id in reviews {
        var review := reviews[id];
        var snapshot := CompleteSnapshot(review.snapshot);
        if snapshot == before {
          snapshot := snapshot.(metadata := snapshot.metadata.(value := f.value, unit := Some(f.unit)));
          reviews := reviews[id := review.(snapshot := snapshot)];
        }
      }
    }

    /** `rewrite_nominal_values`, row by row. */
    method RewriteNominalValues(changes: set<PartId>)
      requires forall id :: id in changes <==> Outdated(parts, id)
      modifies this
      ensures next == old(next) && facts == old(facts)
      ensures parts.Keys == old(parts).Keys && reviews.Keys == old(reviews).Keys
      ensures forall id :: RowAt(old(Contents()), {}, parts, id) && ReviewAt(old(Contents()), {}, reviews, id)
    {
      ghost var start := Contents();
      NothingRewritten(start, changes);
      var pending := changes;
      while pending != {}
        invariant pending <= parts.Keys == start.parts.Keys && next == start.next && facts == start.facts
        invariant reviews.Keys == start.reviews.Keys && pending <= changes
        invariant forall id :: RowAt(start, pending, parts, id)
        invariant forall id :: ReviewAt(start, pending, reviews, id)
        decreases |pending|
      {
        var id :| id in pending;
        assert RowAt(start, pending, parts, id) && Outdated(start.parts, id);
        ghost var b := Contents();
        RewriteRow(id);
        RowRewritten(start, b, Contents(), pending, id);
        pending := pending - {id};
      }
    }

    /** `normalize_nominal_values`: refuse a plan whose identities collide, then rewrite. */
    method NormalizeNominalValues() returns (r: Result<(), Error>)
      modifies this
      ensures match NominalsNormalized(old(Contents()))
              case Success(b) => r == Success(()) && Contents() == b
              case Failure(e) => r == Failure(e) && Contents() == old(Contents())
    {
      var planned := AllCanonicalised(parts);
      if exists i, j :: i in planned && j in planned && !Apart(planned, i, j) { return Failure(Conflict); }
      forall i, j ensures Apart(planned, i, j) { }
      if exists id :: id in planned && !Storable(planned, id, planned[id]) { return Failure(Conflict); }
      ghost var start := Contents();
      RewriteNominalValues(set id | id in parts && Outdated(parts, id));
      RewrittenAll(start, Contents());
      return Success(());
    }

    method DeletePart(id: PartId) returns (r: Result<(), Error>)
      modifies this
      ensures match Deleted(old(Contents()), id)
              case Success(b) => r == Success(()) && Contents() == b
              case Failure(e) => r == Failure(e) && Contents() == old(Contents())
    {
      if id !in parts { return Failure(PartNotFound); }
      parts, facts, reviews := parts - {id}, facts - {id}, reviews - {id};
      return Success(());
    }
  }

  method ValidateAll(items: seq<Fields>) returns (r: Result<seq<Fields>, Error>)
    ensures r == ValidatedAll(items)
  {
    var done: seq<Fields> := [];
    for i := 0 to |items|
      invariant ValidatedAll(items[..i]) == Success(done)
    {
      assert items[..i + 1][..i] == items[..i];
      var f := Validated(items[i]);
      if f.Failure? {
        ValidationFailureStays(items, i + 1);
        return Failure(f.error);
      }
      done := done + [f.value];
    }
    assert items[..|items|] == items;
    return Success(done);
  }

  lemma {:induction false} ValidationFailureStays(items: seq<Fields>, k: nat)
    requires k <= |items| && ValidatedAll(items[..k]).Failure?
    ensures ValidatedAll(items) == ValidatedAll(items[..k])
    decreases |items|
  {
    if k < |items| {
      assert items[..|items| - 1][..k] == items[..k];
      ValidationFailureStays(items[..|items| - 1], k);
    } else {
      assert items[..k] == items;
    }
  }

  lemma {:induction false} CreatedNext(b: Bin, items: seq<Fields>, k: nat)
    requires k < |items|
    ensures Created(b, items[..k + 1]) ==
            match Created(b, items[..k])
            case Failure(e) => Failure(e)
            case Success(p) => Step(p, items[k])
  {
    assert items[..k] + [items[k]] == items[..k + 1];
    CreatedSnoc(b, items[..k], items[k]);
  }

  /** A refused item refuses the batch. */
  lemma {:induction false} FailureStays(b: Bin, items: seq<Fields>, k: nat)
    requires k <= |items| && Created(b, items[..k]).Failure?
    ensures Created(b, items) == Created(b, items[..k])
    decreases |items|
  {
    if k < |items| {
      var before, last := items[..|items| - 1], items[|items| - 1];
      assert before[..k] == items[..k] && before + [last] == items;
      FailureStays(b, before, k);
      CreatedSnoc(b, before, last);
    } else {
      assert items[..k] == items;
    }
  }

  lemma {:induction false} UpdateFailureStays(b: Bin, updates: seq<(PartId, Edit)>, k: nat)
    requires k <= |updates| && UpdatedAll(b, updates[..k]).Failure?
    ensures UpdatedAll(b, updates) == UpdatedAll(b, updates[..k])
    decreases |updates|
  {
    if k < |updates| {
      assert updates[..|updates| - 1][..k] == updates[..k];
      UpdateFailureStays(b, updates[..|updates| - 1], k);
    } else {
      assert updates[..k] == updates;
    }
  }
}
