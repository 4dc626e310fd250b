/** `_execute_batch`: an approved batch commits one child per part, each with its own receipt. With no
    other writer, crashing between any two units and running again gives the same inventory and the
    same per-part outcomes as one uninterrupted run. */
module BatchApproval {
  import opened Wrappers
  import opened Approvals

  /** What `update_part` does to one part of the current inventory, timestamps aside. */
  type Edit = (Inventory, PartId) -> Execution

  datatype Progress = Progress(inventory: Inventory, results: map<PartId, Outcome>)
  datatype Summary = Summary(parts: seq<Json>, errors: seq<(PartId, nat)>)

  /** One child alone: compare its snapshot, edit, keep the receipt. */
  function Child(p: Progress, snapshot: Snapshot, edit: Edit, id: PartId): Progress
    requires id in snapshot
  {
    if id in p.results then p
    else if SnapshotOf(p.inventory, {id}) != map[id := snapshot[id]] then p.(results := p.results[id := Rejected(CONFLICT)])
    else
      match edit(p.inventory, id)
      case Refused(code) => p.(results := p.results[id := Rejected(code)])
      case Performed(inventory, result) => Progress(inventory, p.results[id := Accepted(result)])
  }

  /** The uninterrupted run over the first parts. */
  function Uninterrupted(inventory: Inventory, snapshot: Snapshot, edit: Edit, ids: seq<PartId>): (p: Progress)
    requires forall i :: 0 <= i < |ids| ==> ids[i] in snapshot
    ensures p.results.Keys == set i | 0 <= i < |ids| :: ids[i]
    decreases |ids|
  {
    if ids == [] then Progress(inventory, map[])
    else
      var before := Uninterrupted(inventory, snapshot, edit, ids[..|ids| - 1]);
      assert forall i :: 0 <= i < |ids| ==> i < |ids| - 1 || ids[i] == ids[|ids| - 1];
      assert forall i :: 0 <= i < |ids| - 1 ==> ids[i] in before.results by {
        assert forall i :: 0 <= i < |ids| - 1 ==> ids[..|ids| - 1][i] == ids[i];
      }
      Child(before, snapshot, edit, ids[|ids| - 1])
  }

  function Summarise(results: map<PartId, Outcome>, ids: seq<PartId>): Summary
    requires forall i :: 0 <= i < |ids| ==> ids[i] in results
    decreases |ids|
  {
    if ids == [] then Summary([], [])
    else
      var rest := Summarise(results, ids[..|ids| - 1]);
      match results[ids[|ids| - 1]]
      case Accepted(result) => rest.(parts := rest.parts + [result])
      case Rejected(code) => rest.(errors := rest.errors + [(ids[|ids| - 1], code)])
  }

  lemma Extend(inventory: Inventory, snapshot: Snapshot, edit: Edit, ids: seq<PartId>, k: nat)
    requires k < |ids|
    requires forall i :: 0 <= i < |ids| ==> ids[i] in snapshot
    ensures forall i :: 0 <= i < |ids[..k]| ==> ids[..k][i] in snapshot
    ensures Uninterrupted(inventory, snapshot, edit, ids[..k + 1]) ==
            Child(Uninterrupted(inventory, snapshot, edit, ids[..k]), snapshot, edit, ids[k])
  {
    assert ids[..k + 1][..k] == ids[..k];
  }

  class Batch {
    const ids: seq<PartId>
    const snapshot: Snapshot
    const edit: Edit
    ghost const start: Inventory
    var inventory: Inventory
    var children: set<PartId>                 // inserted child approvals
    var receipts: map<PartId, Outcome>        // their stored results
    var summary: Option<Summary>              // the batch's own stored result
    ghost var done: nat                       // children finished, in order

    ghost predicate Valid()
      reads this
    {
      && done <= |ids|
      && (forall i :: 0 <= i < |ids| ==> ids[i] in snapshot)
      && Progress(inventory, receipts) == Uninterrupted(start, snapshot, edit, ids[..done])
      && (done > 0 ==> forall i :: 0 <= i < |ids| ==> ids[i] in children)
      && (summary.Some? ==> done == |ids| && (forall i :: 0 <= i < |ids| ==> ids[i] in receipts)
                            && summary.value == Summarise(receipts, ids))
    }

    /** An approved batch, its snapshot taken over exactly its parts. */
    constructor (ids: seq<PartId>, snapshot: Snapshot, edit: Edit, inventory: Inventory)
      requires forall i :: 0 <= i < |ids| ==> ids[i] in snapshot
      ensures Valid() && done == 0 && this.ids == ids && this.snapshot == snapshot && this.edit == edit
      ensures start == inventory && this.inventory == inventory && summary == None
    {
      this.ids, this.snapshot, this.edit, this.inventory := ids, snapshot, edit, inventory;
      this.start := inventory;
      children, receipts, summary, done := {}, map[], None, 0;
      new;
      assert this.ids[..0] == [];
    }

    method InsertChildren()
      requires Valid()
      modifies this`children
      ensures Valid() && forall i :: 0 <= i < |ids| ==> ids[i] in children
    {
      for i := 0 to |ids|
        invariant old(children) <= children
        invariant forall j :: 0 <= j < i ==> ids[j] in children
      {
        if ids[i] !in children { children := children + {ids[i]}; }
      }
    }

    /** One child's own unit: an effect and its receipt commit together; a rejection rolls back. */
    method TryChild(id: PartId) returns (result: Option<Outcome>)
      requires id in snapshot && id !in receipts
      modifies this`inventory, this`receipts
      ensures var p := Child(Progress(old(inventory), old(receipts)), snapshot, edit, id);
              match result
              case None => Progress(inventory, receipts) == p
              case Some(r) => inventory == old(inventory) && receipts == old(receipts) && p == Progress(inventory, receipts[id := r])
    {
      if SnapshotOf(inventory, {id}) != map[id := snapshot[id]] { return Some(Rejected(CONFLICT)); }
      match edit(inventory, id)
      case Refused(code) => return Some(Rejected(code));
      case Performed(changed, json) =>
        inventory := changed;
        receipts := receipts[id := Accepted(json)];
        return None;
    }

    /** The next child, not yet stored: its own unit was paid for, a rejection needs one more. */
    method StoreChild(k: nat, budget: nat) returns (left: nat, crashed: bool)
      requires Valid() && k == done < |ids| && ids[k] !in receipts
      requires forall i :: 0 <= i < |ids| ==> ids[i] in children
      modifies this
      ensures Valid() && children == old(children) && summary == old(summary)
      ensures left <= budget <= left + 1
      ensures crashed ==> left == 0 && done == old(done)
      ensures !crashed ==> done == old(done) + 1 && ids[k] in receipts
      ensures budget >= 1 ==> !crashed
    {
      Extend(start, snapshot, edit, ids, done);
      left := budget;
      var result := TryChild(ids[k]);
      if result.Some? {
        if left == 0 { return 0, true; }   // died after the rollback: nothing survived
        left := left - 1;
        receipts := receipts[ids[k] := result.value];
      }
      done := done + 1;
      return left, false;
    }

    /** One child within `budget` units: an effect commits with its receipt in one unit, a rejection
        rolls back and is stored by a second one. Running out of units is a crash. */
    method ExecuteChild(k: nat, budget: nat) returns (left: nat, crashed: bool)
      requires Valid() && k < |ids| && k <= done && ids[k] in children
      requires forall i :: 0 <= i < |ids| ==> ids[i] in children
      modifies this
      ensures Valid() && children == old(children) && summary == old(summary)
      ensures left <= budget <= left + 2
      ensures crashed ==> left == 0 && done == old(done)
      ensures !crashed ==> done >= old(done) && k < done && ids[k] in receipts
      ensures budget >= 2 ==> !crashed
    {
      if budget == 0 { return 0, true; }
      if k < done { ReceiptStored(k); } else { Extend(start, snapshot, edit, ids, done); }
      if ids[k] in receipts {
        if k == done { done := done + 1; }
        return budget - 1, false;
      }
      left, crashed := StoreChild(k, budget - 1);
    }

    lemma ReceiptStored(k: nat)
      requires Valid() && k < done
      ensures ids[k] in receipts
    {
      assert ids[..done][k] == ids[k];
    }

    /** One run of `_execute_batch`, killed when its units run out. */
    method Execute(budget: nat) returns (finished: bool)
      requires Valid()
      modifies this
      ensures Valid() && (finished <==> summary.Some?)
      ensures old(done) <= done
      ensures old(summary).Some? ==> summary == old(summary)
      ensures budget >= 2 * |ids| + 2 ==> finished
    {
      if budget == 0 { return summary.Some?; }
      if summary.Some? { return true; }
      var left: nat := budget - 1;
      InsertChildren();
      for k := 0 to |ids|
        invariant Valid() && summary == None && old(done) <= done
        invariant k <= done
        invariant forall i :: 0 <= i < |ids| ==> ids[i] in children
        invariant budget >= 2 * |ids| + 2 ==> left >= 2 * (|ids| - k) + 1
      {
        var crashed;
        left, crashed := ExecuteChild(k, left);
        if crashed { return false; }
      }
      if left == 0 { return false; }
      forall i | 0 <= i < |ids| ensures ids[i] in receipts { ReceiptStored(i); }
      assert ids[..done] == ids;
      summary := Some(Summarise(receipts, ids));
      return true;
    }
  }

  /** Any number of crashed runs, at any points, followed by one that completes. */
  method CrashAndRetry(ids: seq<PartId>, snapshot: Snapshot, edit: Edit, inventory: Inventory, crashes: seq<nat>)
    returns (final: Inventory, outcomes: Summary)
    requires forall i :: 0 <= i < |ids| ==> ids[i] in snapshot
    ensures final == Uninterrupted(inventory, snapshot, edit, ids).inventory
    ensures forall i :: 0 <= i < |ids| ==> ids[i] in Uninterrupted(inventory, snapshot, edit, ids).results
    ensures outcomes == Summarise(Uninterrupted(inventory, snapshot, edit, ids).results, ids)
  {
    var batch := new Batch(ids, snapshot, edit, inventory);
    for i := 0 to |crashes|
      invariant batch.Valid() && batch.ids == ids && batch.snapshot == snapshot && batch.edit == edit && batch.start == inventory
    {
      var _ := batch.Execute(crashes[i]);
    }
    var finished := batch.Execute(2 * |ids| + 2);
    assert ids[..batch.done] == ids;
    return batch.inventory, batch.summary.value;
  }
}
