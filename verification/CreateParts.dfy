/** `create_parts` (`domain/service.py`): a batch with its own memory of identities refines adding the
    items one at a time, and running it again adds nothing. */
module CreateParts {
  import opened Wrappers
  import opened Normalization
  import opened Inventory
  import opened InventoryIdentity

  datatype Reason = Unexplained | Existing | DuplicateInput(first: nat)
  datatype Outcome = Outcome(index: nat, part: PartId, added: bool, reason: Reason)

  /** One item on its own: found, or added. */
  ghost function Ensured(b: Bin, f: Fields): Result<(Bin, PartId, bool), Error> {
    match Duplicate(b.parts, f)
    case Failure(e) => Failure(e)
    case Success(Some(id)) => Success((b, id, false))
    case Success(None) =>
      match Added(b, f)
      case Failure(e) => Failure(e)
      case Success(pair) => Success((pair.0, pair.1, true))
  }

  /** The items one at a time, with no memory but the inventory. */
  ghost function EnsuredAll(b: Bin, items: seq<Fields>): Result<(Bin, seq<(PartId, bool)>), Error>
    decreases |items|
  {
    if items == [] then Success((b, []))
    else
      match EnsuredAll(b, items[..|items| - 1])
      case Failure(e) => Failure(e)
      case Success(done) =>
        match Ensured(done.0, items[|items| - 1])
        case Failure(e) => Failure(e)
        case Success(last) => Success((last.0, done.1 + [(last.1, last.2)]))
  }

  /** The batch so far: `seen` maps an identity to the first input that had it and the part it got. */
  datatype Progress = Progress(bin: Bin, outcomes: seq<Outcome>, seen: map<Identity, (nat, PartId)>)

  function Skipped(p: Progress, identity: Identity): Progress
    requires identity in p.seen
  {
    p.(outcomes := p.outcomes + [Outcome(|p.outcomes|, p.seen[identity].1, false, DuplicateInput(p.seen[identity].0))])
  }

  function Recorded(p: Progress, identity: Option<Identity>, bin: Bin, id: PartId, added: bool): Progress {
    Progress(bin,
             p.outcomes + [Outcome(|p.outcomes|, id, added, if added then Unexplained else Existing)],
             if identity.Some? then p.seen[identity.value := (|p.outcomes|, id)] else p.seen)
  }

  ghost function Step(p: Progress, f: Fields): Result<Progress, Error> {
    var identity := IdentityOf(f);
    if identity.Some? && identity.value in p.seen then Success(Skipped(p, identity.value))
    else
      match Ensured(p.bin, f)
      case Failure(e) => Failure(e)
      case Success((bin, id, added)) => Success(Recorded(p, identity, bin, id, added))
  }

  /** The loop of `create_parts` over validated items. */
  ghost function Created(b: Bin, items: seq<Fields>): Result<Progress, Error>
    decreases |items|
  {
    if items == [] then Success(Progress(b, [], map[]))
    else
      match Created(b, items[..|items| - 1])
      case Failure(e) => Failure(e)
      case Success(p) => Step(p, items[|items| - 1])
  }

  predicate ProperAt(items: seq<Fields>, k: nat) { k < |items| ==> Proper(items[k]) }

  ghost predicate AllItemsProper(items: seq<Fields>) {
    forall k: nat :: ProperAt(items, k)
  }

  // ----- one item -----

  lemma {:induction false} EnsuredStaysTidy(b: Bin, f: Fields)
    requires Tidy(b) && Proper(f)
    ensures Ensured(b, f).Success? ==> Tidy(Ensured(b, f).value.0)
  {
    if Ensured(b, f).Success? && Ensured(b, f).value.2 { AddedAgain(b, f); }
  }

  /** The next id, and every later one, is free. */
  ghost predicate IdsAssigned(b: Bin) {
    forall id :: Assigned(b, id)
  }

  predicate RowKept(before: Bin, after: Bin, id: PartId) {
    id in before.parts ==> id in after.parts && after.parts[id] == before.parts[id]
  }

  /** Existing rows keep everything, quantity included. */
  ghost predicate Extends(before: Bin, after: Bin) {
    && (forall id :: RowKept(before, after, id))
    && after.facts == before.facts && after.reviews == before.reviews && before.next <= after.next
  }

  lemma {:induction false} ExtendsMore(one: Bin, two: Bin, three: Bin)
    requires Extends(one, two) && Extends(two, three)
    ensures Extends(one, three)
  {
    forall id ensures RowKept(one, three, id) { assert RowKept(one, two, id) && RowKept(two, three, id); }
  }

  lemma {:induction false} EnsuredExtends(b: Bin, f: Fields)
    requires Assigned(b, b.next) && Ensured(b, f).Success?
    ensures Extends(b, Ensured(b, f).value.0)
    ensures !Ensured(b, f).value.2 ==> Ensured(b, f).value.0 == b
  {
    forall id ensures RowKept(b, Ensured(b, f).value.0, id) { }
  }

  lemma {:induction false} EnsuredStaysAssigned(b: Bin, f: Fields)
    requires IdsAssigned(b) && Ensured(b, f).Success?
    ensures IdsAssigned(Ensured(b, f).value.0)
  {
    var after := Ensured(b, f).value.0;
    forall id ensures Assigned(after, id) { assert Assigned(b, id); }
  }

  /** A row that adding a validated item stores: it answers the search for its identity. */
  lemma {:induction false} AddedRow(b: Bin, f: Fields)
    requires Assigned(b, b.next) && Proper(f) && Added(b, f).Success?
    ensures var (after, id) := Added(b, f).value;
            && id == b.next && id !in b.parts && after.parts == b.parts[id := Normalized(f)]
            && IdentityOf(Normalized(f)) == IdentityOf(f)
            && (IdentityOf(f).Some? ==> NarrowedTo(Normalized(f), IdentityOf(f).value))
  {
    Revalidated(f);
    KeyOf(f);
    if IdentityOf(f).Some? {
      NarrowingIsFaithful(Normalized(f), Normalized(f));
      NarrowedByIdentity(Normalized(f), Normalized(f));
    }
  }

  /** The part an item ends up with is the only one a search for the item's identity finds. */
  lemma {:induction false} EnsuredAnswers(b: Bin, f: Fields)
    requires Assigned(b, b.next) && Proper(f) && IdentityOf(f).Some? && Ensured(b, f).Success?
    ensures OnlyAnswer(Ensured(b, f).value.0.parts, IdentityOf(f).value, Ensured(b, f).value.1)
  {
    var (after, id, added) := Ensured(b, f).value;
    LookupAnswers(b.parts, f, id);
    if added {
      AddedRow(b, f);
      forall other ensures Answer(after.parts, IdentityOf(f).value, other) <==> other == id {
        assert !Answer(b.parts, IdentityOf(f).value, other);
      }
    }
  }

  /** And it disturbs no search for another identity. */
  lemma {:induction false} OthersStillAnswer(b: Bin, f: Fields, identity: Identity, id: PartId)
    requires Assigned(b, b.next) && Proper(f) && Ensured(b, f).Success?
    requires OnlyAnswer(b.parts, identity, id) && IdentityOf(f) != Some(identity)
    ensures OnlyAnswer(Ensured(b, f).value.0.parts, identity, id)
  {
    var after := Ensured(b, f).value.0;
    if Ensured(b, f).value.2 {
      AddedRow(b, f);
      forall other ensures Answer(after.parts, identity, other) <==> other == id {
        assert Answer(b.parts, identity, other) <==> other == id;
      }
    }
  }

  // ----- the memory agrees with the inventory -----

  predicate NotAt(items: seq<Fields>, identity: Identity, k: nat) {
    k < |items| ==> IdentityOf(items[k]) != Some(identity)
  }

  ghost predicate FirstOf(items: seq<Fields>, identity: Identity, j: nat) {
    && j < |items| && IdentityOf(items[j]) == Some(identity)
    && forall k: nat :: k < j ==> NotAt(items, identity, k)
  }

  ghost predicate SeenEntry(p: Progress, items: seq<Fields>, identity: Identity) {
    identity in p.seen ==>
      FirstOf(items, identity, p.seen[identity].0) && OnlyAnswer(p.bin.parts, identity, p.seen[identity].1)
  }

  predicate RememberedAt(p: Progress, items: seq<Fields>, k: nat) {
    k < |items| && IdentityOf(items[k]).Some? ==> IdentityOf(items[k]).value in p.seen
  }

  ghost predicate Remembers(p: Progress, items: seq<Fields>) {
    && (forall identity :: SeenEntry(p, items, identity))
    && (forall k: nat :: RememberedAt(p, items, k))
  }

  ghost predicate Invariant(b: Bin, items: seq<Fields>, p: Progress) {
    IdsAssigned(p.bin) && Extends(b, p.bin) && |p.outcomes| == |items| && Remembers(p, items)
  }

  lemma {:induction false} FirstStays(items: seq<Fields>, f: Fields, identity: Identity, j: nat)
    requires FirstOf(items, identity, j)
    ensures FirstOf(items + [f], identity, j)
  {
    var more := items + [f];
    assert more[j] == items[j];
    forall k: nat | k < j ensures NotAt(more, identity, k) {
      assert NotAt(items, identity, k) && more[k] == items[k];
    }
  }

  /** An identity the batch has not seen is first at the next input. */
  lemma {:induction false} FirstNew(p: Progress, items: seq<Fields>, f: Fields)
    requires Remembers(p, items) && IdentityOf(f).Some? && IdentityOf(f).value !in p.seen
    ensures FirstOf(items + [f], IdentityOf(f).value, |items|)
  {
    var more := items + [f];
    assert more[|items|] == f;
    forall k: nat | k < |items| ensures NotAt(more, IdentityOf(f).value, k) {
      assert RememberedAt(p, items, k) && more[k] == items[k];
    }
  }

  lemma {:induction false} RememberedMore(p: Progress, p': Progress, items: seq<Fields>, f: Fields, k: nat)
    requires RememberedAt(p, items, k) && p.seen.Keys <= p'.seen.Keys
    requires IdentityOf(f).Some? ==> IdentityOf(f).value in p'.seen
    ensures RememberedAt(p', items + [f], k)
  {
    var more := items + [f];
    if k < |items| { assert more[k] == items[k]; } else if k == |items| { assert more[k] == f; }
  }

  lemma {:induction false} SkippedRemembers(p: Progress, items: seq<Fields>, f: Fields)
    requires Remembers(p, items) && IdentityOf(f).Some? && IdentityOf(f).value in p.seen
    ensures Remembers(Skipped(p, IdentityOf(f).value), items + [f])
  {
    var p' := Skipped(p, IdentityOf(f).value);
    forall identity ensures SeenEntry(p', items + [f], identity) {
      assert SeenEntry(p, items, identity);
      if identity in p.seen { FirstStays(items, f, identity, p.seen[identity].0); }
    }
    forall k: nat ensures RememberedAt(p', items + [f], k) {
      assert RememberedAt(p, items, k);
      RememberedMore(p, p', items, f, k);
    }
  }

  lemma {:induction false} RecordedRemembers(p: Progress, items: seq<Fields>, f: Fields)
    requires Remembers(p, items) && |p.outcomes| == |items| && Assigned(p.bin, p.bin.next)
    requires Proper(f) && Ensured(p.bin, f).Success? && (IdentityOf(f).Some? ==> IdentityOf(f).value !in p.seen)
    ensures var (bin, id, added) := Ensured(p.bin, f).value;
            Remembers(Recorded(p, IdentityOf(f), bin, id, added), items + [f])
  {
    var (bin, id, added) := Ensured(p.bin, f).value;
    var p' := Recorded(p, IdentityOf(f), bin, id, added);
    forall identity ensures SeenEntry(p', items + [f], identity) {
      assert SeenEntry(p, items, identity);
      if Some(identity) == IdentityOf(f) {
        FirstNew(p, items, f);
        EnsuredAnswers(p.bin, f);
      } else if identity in p.seen {
        FirstStays(items, f, identity, p.seen[identity].0);
        OthersStillAnswer(p.bin, f, identity, p.seen[identity].1);
      }
    }
    forall k: nat ensures RememberedAt(p', items + [f], k) {
      assert RememberedAt(p, items, k);
      RememberedMore(p, p', items, f, k);
    }
  }

  lemma {:induction false} StepKeeps(b: Bin, items: seq<Fields>, p: Progress, f: Fields)
    requires Invariant(b, items, p) && Proper(f) && Step(p, f).Success?
    ensures Invariant(b, items + [f], Step(p, f).value)
  {
    var identity := IdentityOf(f);
    if identity.Some? && identity.value in p.seen {
      SkippedRemembers(p, items, f);
    } else {
      assert Assigned(p.bin, p.bin.next);
      EnsuredStaysAssigned(p.bin, f);
      EnsuredExtends(p.bin, f);
      ExtendsMore(b, p.bin, Ensured(p.bin, f).value.0);
      RecordedRemembers(p, items, f);
    }
  }

  /** One more turn of the loop. */
  lemma {:induction false} CreatedSnoc(b: Bin, before: seq<Fields>, f: Fields)
    ensures Created(b, before + [f]) ==
            match Created(b, before)
            case Failure(e) => Failure(e)
            case Success(p) => Step(p, f)
  {
    assert (before + [f])[..|before|] == before;
  }

  lemma {:induction false} ProperParts(before: seq<Fields>, f: Fields)
    ensures AllItemsProper(before + [f]) <==> AllItemsProper(before) && Proper(f)
  {
    var items := before + [f];
    assert items[|before|] == f;
    if AllItemsProper(items) {
      assert ProperAt(items, |before|);
      forall k: nat ensures ProperAt(before, k) {
        assert ProperAt(items, k);
        if k < |before| { assert items[k] == before[k]; }
      }
    }
    if AllItemsProper(before) && Proper(f) {
      forall k: nat ensures ProperAt(items, k) {
        assert ProperAt(before, k);
        if k < |before| { assert items[k] == before[k]; }
      }
    }
  }

  lemma {:induction false} CreatedKeeps(b: Bin, items: seq<Fields>)
    requires IdsAssigned(b) && AllItemsProper(items) && Created(b, items).Success?
    ensures Invariant(b, items, Created(b, items).value)
    decreases |items|
  {
    if items == [] {
      NothingYet(b, Created(b, items).value);
    } else {
      var before, f := items[..|items| - 1], items[|items| - 1];
      assert items == before + [f];
      CreatedSnoc(b, before, f);
      ProperParts(before, f);
      CreatedKeeps(b, before);
      StepKeeps(b, before, Created(b, before).value, f);
    }
  }

  lemma {:induction false} NothingYet(b: Bin, p: Progress)
    requires IdsAssigned(b) && p == Progress(b, [], map[])
    ensures Invariant(b, [], p)
  {
    forall id ensures RowKept(b, b, id) { }
    forall identity ensures SeenEntry(p, [], identity) { }
    forall k: nat ensures RememberedAt(p, [], k) { }
  }

  lemma {:induction false} CreatedStaysTidy(b: Bin, items: seq<Fields>)
    requires Tidy(b) && AllItemsProper(items) && Created(b, items).Success?
    ensures Tidy(Created(b, items).value.bin)
    decreases |items|
  {
    if items == [] {
    } else {
      var before, f := items[..|items| - 1], items[|items| - 1];
      assert items == before + [f];
      CreatedSnoc(b, before, f);
      ProperParts(before, f);
      CreatedStaysTidy(b, before);
      EnsuredStaysTidy(Created(b, before).value.bin, f);
    }
  }

  // ----- refinement -----

  function Flags(outcomes: seq<Outcome>): seq<(PartId, bool)> {
    seq(|outcomes|, k requires 0 <= k < |outcomes| => (outcomes[k].part, outcomes[k].added))
  }

  /** Forget the labels: what is left is one-at-a-time insertion. */
  ghost function Forgotten(r: Result<Progress, Error>): Result<(Bin, seq<(PartId, bool)>), Error> {
    match r
    case Failure(e) => Failure(e)
    case Success(p) => Success((p.bin, Flags(p.outcomes)))
  }

  /** A remembered identity is one the inventory would have found. */
  lemma {:induction false} MemoryAgrees(p: Progress, items: seq<Fields>, f: Fields)
    requires Remembers(p, items) && Proper(f) && IdentityOf(f).Some? && IdentityOf(f).value in p.seen
    ensures Ensured(p.bin, f) == Success((p.bin, p.seen[IdentityOf(f).value].1, false))
  {
    assert SeenEntry(p, items, IdentityOf(f).value);
    LookupAnswers(p.bin.parts, f, p.seen[IdentityOf(f).value].1);
  }

  lemma {:induction false} FlagsOf(outcomes: seq<Outcome>, last: Outcome)
    ensures Flags(outcomes + [last]) == Flags(outcomes) + [(last.part, last.added)]
  {
  }

  lemma {:induction false} EnsuredSnoc(b: Bin, before: seq<Fields>, f: Fields)
    ensures EnsuredAll(b, before + [f]) ==
            match EnsuredAll(b, before)
            case Failure(e) => Failure(e)
            case Success(done) =>
              match Ensured(done.0, f)
              case Failure(e) => Failure(e)
              case Success(last) => Success((last.0, done.1 + [(last.1, last.2)]))
  {
    assert (before + [f])[..|before|] == before;
  }

  /** The memory changes only the labels: the same parts are added, found or refused, with the same
      error, as when every item is looked up in the inventory on its own. */
  lemma {:induction false} CreateRefinesOneAtATime(b: Bin, items: seq<Fields>)
    requires IdsAssigned(b) && AllItemsProper(items)
    ensures Forgotten(Created(b, items)) == EnsuredAll(b, items)
    decreases |items|
  {
    if items == [] {
      assert Flags([]) == [];
    } else {
      var before, f := items[..|items| - 1], items[|items| - 1];
      assert items == before + [f];
      CreatedSnoc(b, before, f);
      EnsuredSnoc(b, before, f);
      ProperParts(before, f);
      CreateRefinesOneAtATime(b, before);
      if Created(b, before).Success? {
        CreatedKeeps(b, before);
        StepRefines(Created(b, before).value, before, f);
      }
    }
  }

  lemma {:induction false} StepRefines(p: Progress, items: seq<Fields>, f: Fields)
    requires Remembers(p, items) && Proper(f)
    ensures Forgotten(Step(p, f)) ==
            match Ensured(p.bin, f)
            case Failure(e) => Failure(e)
            case Success(last) => Success((last.0, Flags(p.outcomes) + [(last.1, last.2)]))
  {
    var identity := IdentityOf(f);
    if identity.Some? && identity.value in p.seen {
      MemoryAgrees(p, items, f);
      FlagsOf(p.outcomes, Outcome(|p.outcomes|, p.seen[identity.value].1, false, DuplicateInput(p.seen[identity.value].0)));
    } else if Ensured(p.bin, f).Success? {
      var (bin, id, added) := Ensured(p.bin, f).value;
      FlagsOf(p.outcomes, Outcome(|p.outcomes|, id, added, if added then Unexplained else Existing));
    }
  }

  // ----- labels -----

  ghost predicate Labelled(items: seq<Fields>, o: Outcome, k: nat) {
    && o.index == k && (o.added <==> o.reason == Unexplained)
    && (o.reason.DuplicateInput? ==> o.reason.first < k < |items| && IdentityOf(items[k]).Some? && FirstOf(items, IdentityOf(items[k]).value, o.reason.first))
    && (o.reason == Existing && k < |items| && IdentityOf(items[k]).Some? ==> FirstOf(items, IdentityOf(items[k]).value, k))
  }

  ghost predicate LabelledAt(items: seq<Fields>, outcomes: seq<Outcome>, k: nat) {
    k < |outcomes| ==> Labelled(items, outcomes[k], k)
  }

  ghost predicate AllLabelled(items: seq<Fields>, outcomes: seq<Outcome>) {
    |outcomes| == |items| && forall k: nat :: LabelledAt(items, outcomes, k)
  }

  /** Every outcome carries its input's index, and a duplicate names the first input of that identity. */
  lemma {:induction false} LabelsAreRight(b: Bin, items: seq<Fields>)
    requires IdsAssigned(b) && AllItemsProper(items) && Created(b, items).Success?
    ensures AllLabelled(items, Created(b, items).value.outcomes)
    decreases |items|
  {
    if items == [] {
      forall k: nat ensures LabelledAt(items, Created(b, items).value.outcomes, k) { }
    } else {
      var before, f := items[..|items| - 1], items[|items| - 1];
      assert items == before + [f];
      CreatedSnoc(b, before, f);
      ProperParts(before, f);
      LabelsAreRight(b, before);
      CreatedKeeps(b, before);
      LabelsGrow(Created(b, before).value, before, f);
    }
  }

  lemma {:induction false} LabelsGrow(p: Progress, items: seq<Fields>, f: Fields)
    requires Remembers(p, items) && AllLabelled(items, p.outcomes) && Step(p, f).Success?
    ensures AllLabelled(items + [f], Step(p, f).value.outcomes)
  {
    LastLabel(p, items, f);
    var after := Step(p, f).value.outcomes;
    forall k: nat ensures LabelledAt(items + [f], after, k) {
      assert LabelledAt(items, p.outcomes, k);
      if k < |items| {
        assert after[k] == p.outcomes[k];
        LabelStays(items, f, p.outcomes[k], k);
      }
    }
  }

  lemma {:induction false} LabelStays(items: seq<Fields>, f: Fields, o: Outcome, k: nat)
    requires k < |items| && Labelled(items, o, k)
    ensures Labelled(items + [f], o, k)
  {
    assert (items + [f])[k] == items[k];
    if IdentityOf(items[k]).Some? {
      var identity := IdentityOf(items[k]).value;
      if o.reason.DuplicateInput? { FirstStays(items, f, identity, o.reason.first); }
      if o.reason == Existing { FirstStays(items, f, identity, k); }
    }
  }

  lemma {:induction false} LastLabel(p: Progress, items: seq<Fields>, f: Fields)
    requires Remembers(p, items) && |p.outcomes| == |items| && Step(p, f).Success?
    ensures |Step(p, f).value.outcomes| == |items| + 1
    ensures Labelled(items + [f], Step(p, f).value.outcomes[|items|], |items|)
  {
    var identity := IdentityOf(f);
    assert (items + [f])[|items|] == f;
    if identity.Some? {
      if identity.value in p.seen {
        assert SeenEntry(p, items, identity.value);
        FirstStays(items, f, identity.value, p.seen[identity.value].0);
      } else {
        FirstNew(p, items, f);
      }
    }
  }

  // ----- running it again -----

  predicate Idle(outcomes: seq<Outcome>) {
    forall k :: 0 <= k < |outcomes| ==> !outcomes[k].added
  }

  /** A search for the item's identity finds one part. */
  ghost predicate Held(b: Bin, f: Fields) {
    IdentityOf(f).Some? && exists id :: OnlyAnswer(b.parts, IdentityOf(f).value, id)
  }

  lemma {:induction false} HeldIsFound(p: Progress, f: Fields)
    requires Proper(f) && Held(p.bin, f) && Idle(p.outcomes)
    ensures Step(p, f).Success? && Step(p, f).value.bin == p.bin && Idle(Step(p, f).value.outcomes)
  {
    var id :| OnlyAnswer(p.bin.parts, IdentityOf(f).value, id);
    LookupAnswers(p.bin.parts, f, id);
  }

  ghost predicate HeldAt(b: Bin, items: seq<Fields>, k: nat) { k < |items| ==> Held(b, items[k]) }

  ghost predicate AllHeld(b: Bin, items: seq<Fields>) {
    forall k: nat :: HeldAt(b, items, k)
  }

  lemma {:induction false} HeldParts(b: Bin, before: seq<Fields>, f: Fields)
    requires AllHeld(b, before + [f])
    ensures AllHeld(b, before) && Held(b, f)
  {
    var items := before + [f];
    assert HeldAt(b, items, |before|) && items[|before|] == f;
    forall k: nat ensures HeldAt(b, before, k) {
      assert HeldAt(b, items, k);
      if k < |before| { assert items[k] == before[k]; }
    }
  }

  ghost predicate IdleRun(b: Bin, run: Result<Progress, Error>) {
    run.Success? && run.value.bin == b && Idle(run.value.outcomes)
  }

  lemma {:induction false} IdleStep(b: Bin, before: seq<Fields>, f: Fields)
    requires Proper(f) && Held(b, f) && IdleRun(b, Created(b, before))
    ensures IdleRun(b, Created(b, before + [f]))
  {
    CreatedSnoc(b, before, f);
    HeldIsFound(Created(b, before).value, f);
  }

  lemma {:induction false} SecondRunIdles(b: Bin, items: seq<Fields>)
    requires AllItemsProper(items) && AllHeld(b, items)
    ensures IdleRun(b, Created(b, items))
    decreases |items|
  {
    if items == [] {
    } else {
      var before, f := items[..|items| - 1], items[|items| - 1];
      assert items == before + [f];
      ProperParts(before, f);
      HeldParts(b, before, f);
      SecondRunIdles(b, before);
      IdleStep(b, before, f);
    }
  }

  /** An item that cannot be told from others is added every time. */
  lemma {:induction false} IdleStepIsIdentified(p: Progress, f: Fields)
    requires Step(p, f).Success? && Idle(Step(p, f).value.outcomes)
    ensures IdentityOf(f).Some? && Idle(p.outcomes)
  {
    var after := Step(p, f).value.outcomes;
    assert after[|p.outcomes|] in after && !after[|p.outcomes|].added;
    forall k | 0 <= k < |p.outcomes| ensures !p.outcomes[k].added { assert after[k] == p.outcomes[k]; }
  }

  predicate IdentifiedAt(items: seq<Fields>, k: nat) { k < |items| ==> IdentityOf(items[k]).Some? }

  ghost predicate AllIdentified(items: seq<Fields>) {
    forall k: nat :: IdentifiedAt(items, k)
  }

  lemma {:induction false} IdentifiedMore(before: seq<Fields>, f: Fields)
    requires AllIdentified(before) && IdentityOf(f).Some?
    ensures AllIdentified(before + [f])
  {
    var items := before + [f];
    forall k: nat ensures IdentifiedAt(items, k) {
      assert IdentifiedAt(before, k);
      if k < |before| { assert items[k] == before[k]; }
    }
  }

  ghost predicate IdleSoFar(b: Bin, items: seq<Fields>) {
    Created(b, items).Success? && Idle(Created(b, items).value.outcomes)
  }

  lemma {:induction false} IdleBefore(b: Bin, before: seq<Fields>, f: Fields)
    requires IdleSoFar(b, before + [f])
    ensures IdleSoFar(b, before) && IdentityOf(f).Some?
  {
    CreatedSnoc(b, before, f);
    IdleStepIsIdentified(Created(b, before).value, f);
  }

  lemma {:induction false} IdleIsIdentified(b: Bin, items: seq<Fields>)
    requires IdleSoFar(b, items)
    ensures AllIdentified(items)
    decreases |items|
  {
    if items != [] {
      var before, f := items[..|items| - 1], items[|items| - 1];
      assert items == before + [f];
      IdleBefore(b, before, f);
      IdleIsIdentified(b, before);
      IdentifiedMore(before, f);
    }
  }

  lemma {:induction false} HeldAfter(p: Progress, items: seq<Fields>, k: nat)
    requires Remembers(p, items) && IdentifiedAt(items, k)
    ensures HeldAt(p.bin, items, k)
  {
    if k < |items| {
      var identity := IdentityOf(items[k]).value;
      assert RememberedAt(p, items, k) && SeenEntry(p, items, identity);
      assert OnlyAnswer(p.bin.parts, identity, p.seen[identity].1);
    }
  }

  /** A second run adds nothing and changes nothing exactly when every item has an identity. */
  lemma {:induction false} CreateTwice(b: Bin, items: seq<Fields>)
    requires IdsAssigned(b) && AllItemsProper(items) && Created(b, items).Success?
    ensures var after := Created(b, items).value.bin; IdleRun(after, Created(after, items)) <==> AllIdentified(items)
  {
    var p := Created(b, items).value;
    if AllIdentified(items) {
      CreatedKeeps(b, items);
      forall k: nat ensures HeldAt(p.bin, items, k) {
        assert IdentifiedAt(items, k);
        HeldAfter(p, items, k);
      }
      SecondRunIdles(p.bin, items);
    } else if IdleRun(p.bin, Created(p.bin, items)) {
      IdleIsIdentified(p.bin, items);
    }
  }
}
