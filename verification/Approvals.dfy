/** `agent_runtime/approval.py`, `tools/registry.py` and `db/postgres/records.py`: decisions bound to
    inventory snapshots, and receipts that commit in the same unit as their effect. The mutation a tool
    performs is any outcome its execution may produce. */
module Approvals {
  import opened Wrappers

  type PartId = nat
  type RequestId = nat
  type OperationId = nat
  type Arguments = nat           // the JSON arguments, compared for equality only
  type Json = nat

  /** One part with everything an approval snapshot shows of it. */
  datatype PartView = PartView(fields: nat, review: nat, specifications: nat, specificationReview: nat)
  type Inventory = map<PartId, PartView>
  type Snapshot = map<PartId, Option<PartView>>

  datatype Outcome = Accepted(result: Json) | Rejected(code: nat)
  const CONFLICT: nat := 0

  datatype Approval = Approval(
    tool: nat, arguments: Arguments, targets: set<PartId>, batch: bool,
    snapshot: Snapshot, decision: Option<bool>, result: Option<Outcome>)

  datatype Operation = Operation(tool: nat, arguments: Arguments, result: Json)

  /** A committed inventory effect, with the inventory it started from. */
  datatype Effect = ByApproval(request: RequestId, before: Inventory) | ByOperation(operation: OperationId, before: Inventory)

  datatype State = State(
    inventory: Inventory,
    approvals: map<RequestId, Approval>,
    operations: map<OperationId, Operation>,
    rejecting: set<(RequestId, nat)>,     // rolled-back workers about to save their rejection
    effects: seq<Effect>)

  /** `approval_snapshot`. */
  function SnapshotOf(inventory: Inventory, targets: set<PartId>): Snapshot {
    map id | id in targets :: if id in inventory then Some(inventory[id]) else None
  }

  /** What executing the tool inside the unit produced. */
  datatype Execution = Performed(inventory: Inventory, result: Json) | Refused(code: nat)

  datatype Action =
    | Request(id: RequestId, tool: nat, arguments: Arguments, targets: set<PartId>, batch: bool)
    | Decide(id: RequestId, approved: bool)
    | ExecuteOne(id: RequestId, execution: Execution)
    | SaveRejection(id: RequestId, code: nat)
    | InsertChild(id: RequestId, child: RequestId, part: PartId, tool: nat, arguments: Arguments)
    | SaveBatch(id: RequestId, result: Json)
    | Add(id: OperationId, tool: nat, arguments: Arguments, execution: Execution)
    | Enrich(id: OperationId, result: Json)
    | OtherWrite(inventory: Inventory)
    | CrashRejection(id: RequestId, code: nat)

  /** `decide`: a second, different decision is refused. */
  function Decided(s: State, id: RequestId, approved: bool): Result<State, nat> {
    if id !in s.approvals then Failure(0)
    else if s.approvals[id].decision.Some? && s.approvals[id].decision != Some(approved) then Failure(1)
    else Success(s.(approvals := s.approvals[id := s.approvals[id].(decision := Some(approved))]))
  }

  predicate Approved(s: State, id: RequestId) {
    id in s.approvals && s.approvals[id].decision == Some(true)
  }

  /** First unit of `_execute_one`: effect and receipt together, or a rollback and a pending rejection. */
  function ExecutedOne(s: State, id: RequestId, execution: Execution): State {
    if !Approved(s, id) || s.approvals[id].batch || s.approvals[id].result.Some? then s
    else if SnapshotOf(s.inventory, s.approvals[id].targets) != s.approvals[id].snapshot then
      s.(rejecting := s.rejecting + {(id, CONFLICT)})
    else
      match execution
      case Refused(code) => s.(rejecting := s.rejecting + {(id, code)})
      case Performed(inventory, result) =>
        s.(inventory := inventory,
           approvals := s.approvals[id := s.approvals[id].(result := Some(Accepted(result)))],
           effects := s.effects + [ByApproval(id, s.inventory)])
  }

  /** Second unit: save the rejection unless a result is already stored. */
  function RejectionSaved(s: State, id: RequestId, code: nat): State {
    if (id, code) !in s.rejecting || !Approved(s, id) then s
    else
      var left := s.(rejecting := s.rejecting - {(id, code)});
      if s.approvals[id].result.Some? then left
      else left.(approvals := s.approvals[id := s.approvals[id].(result := Some(Rejected(code)))])
  }

  /** `_execute_addition`: a known operation id returns its receipt; a new one commits effect and receipt. */
  function Added(s: State, id: OperationId, tool: nat, arguments: Arguments, execution: Execution): Result<(State, Json), nat> {
    if id in s.operations then
      if s.operations[id].tool != tool || s.operations[id].arguments != arguments then Failure(CONFLICT)
      else Success((s, s.operations[id].result))
    else
      match execution
      case Refused(code) => Failure(code)
      case Performed(inventory, result) =>
        Success((s.(inventory := inventory, operations := s.operations[id := Operation(tool, arguments, result)],
                    effects := s.effects + [ByOperation(id, s.inventory)]), result))
  }

  function Next(s: State, a: Action): State {
    match a
    case Request(id, tool, arguments, targets, batch) =>
      if id in s.approvals then s
      else s.(approvals := s.approvals[id := Approval(tool, arguments, targets, batch, SnapshotOf(s.inventory, targets), None, None)])
    case Decide(id, approved) => if Decided(s, id, approved).Success? then Decided(s, id, approved).value else s
    case ExecuteOne(id, execution) => ExecutedOne(s, id, execution)
    case SaveRejection(id, code) => RejectionSaved(s, id, code)
    case InsertChild(id, child, part, tool, arguments) =>
      if Approved(s, id) && s.approvals[id].batch && s.approvals[id].result == None && part in s.approvals[id].snapshot
         && child !in s.approvals then
        s.(approvals := s.approvals[child := Approval(tool, arguments, {part}, false,
             map[part := s.approvals[id].snapshot[part]], Some(true), None)])
      else s
    case SaveBatch(id, result) =>
      if Approved(s, id) && s.approvals[id].batch && s.approvals[id].result == None then
        s.(approvals := s.approvals[id := s.approvals[id].(result := Some(Accepted(result)))])
      else s
    case Add(id, tool, arguments, execution) =>
      if Added(s, id, tool, arguments, execution).Success? then Added(s, id, tool, arguments, execution).value.0 else s
    case Enrich(id, result) =>
      if id in s.operations then s.(operations := s.operations[id := s.operations[id].(result := result)]) else s
    case OtherWrite(inventory) => s.(inventory := inventory)
    case CrashRejection(id, code) => s.(rejecting := s.rejecting - {(id, code)})
  }

  function Initial(inventory: Inventory): State {
    State(inventory, map[], map[], {}, [])
  }

  function Run(s: State, actions: seq<Action>): State
    decreases |actions|
  {
    if actions == [] then s else Next(Run(s, actions[..|actions| - 1]), actions[|actions| - 1])
  }

  // ----- invariant -----

  /** An effect is justified by what is stored. */
  predicate EffectInv(s: State, effect: Effect) {
    match effect
    case ByApproval(id, before) =>
      && Approved(s, id) && !s.approvals[id].batch
      && s.approvals[id].result.Some? && s.approvals[id].result.value.Accepted?
      && SnapshotOf(before, s.approvals[id].targets) == s.approvals[id].snapshot
    case ByOperation(id, before) => id in s.operations
  }

  predicate Same(one: Effect, two: Effect) {
    match one
    case ByApproval(id, _) => two.ByApproval? && two.request == id
    case ByOperation(id, _) => two.ByOperation? && two.operation == id
  }

  /** A stored success has its effect. */
  ghost predicate ReceiptInv(s: State, id: RequestId) {
    id in s.approvals && !s.approvals[id].batch && s.approvals[id].result.Some? && s.approvals[id].result.value.Accepted? ==>
      exists i :: 0 <= i < |s.effects| && s.effects[i].ByApproval? && s.effects[i].request == id
  }

  ghost predicate OperationInv(s: State, id: OperationId) {
    id in s.operations ==> exists i :: 0 <= i < |s.effects| && s.effects[i].ByOperation? && s.effects[i].operation == id
  }

  ghost predicate Inv(s: State) {
    && (forall i :: 0 <= i < |s.effects| ==> EffectInv(s, s.effects[i]))
    && (forall i, j :: 0 <= i < j < |s.effects| ==> !Same(s.effects[i], s.effects[j]))
    && (forall id :: ReceiptInv(s, id))
    && (forall id :: OperationInv(s, id))
    && (forall id :: id in s.approvals && s.approvals[id].result.Some? ==> s.approvals[id].decision == Some(true))
  }

  lemma CommittedKept(s: State, s': State, effect: Effect)
    requires Inv(s)
    requires s'.effects == s.effects + [effect]
    requires forall i :: 0 <= i < |s.effects| ==> EffectInv(s', s.effects[i]) && !Same(s.effects[i], effect)
    requires EffectInv(s', effect)
    requires forall id :: id in s'.approvals && s'.approvals[id].result.Some? ==> s'.approvals[id].decision == Some(true)
    requires forall id :: ReceiptInv(s, id) ==> ReceiptInv(s', id) || (effect.ByApproval? && effect.request == id)
    requires forall id :: OperationInv(s, id) ==> OperationInv(s', id) || (effect.ByOperation? && effect.operation == id)
    ensures Inv(s')
  {
    assert s'.effects[|s.effects|] == effect;
    forall id ensures ReceiptInv(s', id) { assert ReceiptInv(s, id); }
    forall id ensures OperationInv(s', id) { assert OperationInv(s, id); }
  }

  lemma ExecuteKept(s: State, id: RequestId, execution: Execution)
    requires Inv(s)
    ensures Inv(ExecutedOne(s, id, execution))
  {
    var s' := ExecutedOne(s, id, execution);
    if s'.effects != s.effects {
      var effect := ByApproval(id, s.inventory);
      forall i | 0 <= i < |s.effects| ensures EffectInv(s', s.effects[i]) && !Same(s.effects[i], effect) {
        assert EffectInv(s, s.effects[i]);
      }
      forall other ensures ReceiptInv(s, other) ==> ReceiptInv(s', other) || other == id { Carried(s, s', effect, other); }
      forall other ensures OperationInv(s, other) ==> OperationInv(s', other) { CarriedOperation(s, s', effect, other); }
      CommittedKept(s, s', effect);
    } else {
      UnchangedKept(s, s');
    }
  }

  lemma Carried(s: State, s': State, effect: Effect, id: RequestId)
    requires s'.effects == s.effects + [effect]
    requires id in s'.approvals ==> id in s.approvals && (s'.approvals[id] == s.approvals[id] || (effect.ByApproval? && effect.request == id))
    ensures ReceiptInv(s, id) ==> ReceiptInv(s', id) || (effect.ByApproval? && effect.request == id)
  {
    if ReceiptInv(s, id) && id in s'.approvals && s'.approvals[id] == s.approvals[id]
       && !s.approvals[id].batch && s.approvals[id].result.Some? && s.approvals[id].result.value.Accepted? {
      var i :| 0 <= i < |s.effects| && s.effects[i].ByApproval? && s.effects[i].request == id;
      assert s'.effects[i] == s.effects[i];
    }
  }

  lemma CarriedOperation(s: State, s': State, effect: Effect, id: OperationId)
    requires s'.effects == s.effects + [effect]
    requires id in s'.operations ==> id in s.operations || (effect.ByOperation? && effect.operation == id)
    ensures OperationInv(s, id) ==> OperationInv(s', id) || (effect.ByOperation? && effect.operation == id)
  {
    if OperationInv(s, id) && id in s.operations {
      var i :| 0 <= i < |s.effects| && s.effects[i].ByOperation? && s.effects[i].operation == id;
      assert s'.effects[i] == s.effects[i];
    }
  }

  /** Rows may be added, decided, or given a result that is not an unbacked success. */
  predicate Calm(s: State, s': State, id: RequestId) {
    && (id in s.approvals ==>
          && id in s'.approvals
          && s'.approvals[id].(decision := None, result := None) == s.approvals[id].(decision := None, result := None)
          && (s.approvals[id].decision.Some? ==> s'.approvals[id].decision == s.approvals[id].decision)
          && (s.approvals[id].result.Some? ==> s'.approvals[id].result == s.approvals[id].result)
          && (s'.approvals[id].result != s.approvals[id].result ==>
                s'.approvals[id].decision == Some(true)
                && (s'.approvals[id].batch || (s'.approvals[id].result.Some? && s'.approvals[id].result.value.Rejected?))))
    && (id !in s.approvals && id in s'.approvals ==> s'.approvals[id].result == None)
  }

  lemma UnchangedKept(s: State, s': State)
    requires Inv(s) && s'.effects == s.effects && s'.operations.Keys == s.operations.Keys
    requires forall id :: Calm(s, s', id)
    ensures Inv(s')
  {
    forall i | 0 <= i < |s'.effects| ensures EffectInv(s', s'.effects[i]) {
      assert EffectInv(s, s.effects[i]);
      if s.effects[i].ByApproval? { assert Calm(s, s', s.effects[i].request); }
    }
    forall id ensures ReceiptInv(s', id) { assert ReceiptInv(s, id) && Calm(s, s', id); }
    forall id ensures OperationInv(s', id) { assert OperationInv(s, id); }
    forall id | id in s'.approvals && s'.approvals[id].result.Some? ensures s'.approvals[id].decision == Some(true) {
      assert Calm(s, s', id);
    }
  }

  lemma AddKept(s: State, id: OperationId, tool: nat, arguments: Arguments, execution: Execution)
    requires Inv(s) && Added(s, id, tool, arguments, execution).Success?
    ensures Inv(Added(s, id, tool, arguments, execution).value.0)
  {
    var s' := Added(s, id, tool, arguments, execution).value.0;
    if s'.effects != s.effects {
      var effect := ByOperation(id, s.inventory);
      forall i | 0 <= i < |s.effects| ensures EffectInv(s', s.effects[i]) && !Same(s.effects[i], effect) {
        assert EffectInv(s, s.effects[i]);
      }
      forall other ensures ReceiptInv(s, other) ==> ReceiptInv(s', other) { Carried(s, s', effect, other); }
      forall other ensures OperationInv(s, other) ==> OperationInv(s', other) || other == id { CarriedOperation(s, s', effect, other); }
      CommittedKept(s, s', effect);
    }
  }

  lemma NextKept(s: State, a: Action)
    requires Inv(s)
    ensures Inv(Next(s, a))
  {
    match a
    case ExecuteOne(id, execution) => ExecuteKept(s, id, execution);
    case Add(id, tool, arguments, execution) =>
      if Added(s, id, tool, arguments, execution).Success? { AddKept(s, id, tool, arguments, execution); }
    case _ => UnchangedKept(s, Next(s, a));
  }

  lemma {:induction false} RunKept(inventory: Inventory, actions: seq<Action>)
    ensures Inv(Run(Initial(inventory), actions))
    decreases |actions|
  {
    if actions != [] {
      RunKept(inventory, actions[..|actions| - 1]);
      NextKept(Run(Initial(inventory), actions[..|actions| - 1]), actions[|actions| - 1]);
    }
  }

  // ----- the promises -----

  /** How many committed effects an approval has. */
  function EffectsOf(effects: seq<Effect>, id: RequestId): nat {
    if effects == [] then 0
    else EffectsOf(effects[..|effects| - 1], id) + (if effects[|effects| - 1].ByApproval? && effects[|effects| - 1].request == id then 1 else 0)
  }

  function AdditionsOf(effects: seq<Effect>, id: OperationId): nat {
    if effects == [] then 0
    else AdditionsOf(effects[..|effects| - 1], id) + (if effects[|effects| - 1].ByOperation? && effects[|effects| - 1].operation == id then 1 else 0)
  }

  lemma {:induction false} CountIsOne(effects: seq<Effect>, id: RequestId)
    requires forall i, j :: 0 <= i < j < |effects| ==> !Same(effects[i], effects[j])
    ensures EffectsOf(effects, id) == if exists i :: 0 <= i < |effects| && effects[i].ByApproval? && effects[i].request == id then 1 else 0
  {
    if effects != [] {
      var before := effects[..|effects| - 1];
      CountIsOne(before, id);
      if exists i :: 0 <= i < |before| && before[i].ByApproval? && before[i].request == id {
        var i :| 0 <= i < |before| && before[i].ByApproval? && before[i].request == id;
        assert effects[i] == before[i] && !Same(effects[i], effects[|effects| - 1]);
      }
    }
  }

  lemma {:induction false} AdditionCountIsOne(effects: seq<Effect>, id: OperationId)
    requires forall i, j :: 0 <= i < j < |effects| ==> !Same(effects[i], effects[j])
    ensures AdditionsOf(effects, id) == if exists i :: 0 <= i < |effects| && effects[i].ByOperation? && effects[i].operation == id then 1 else 0
  {
    if effects != [] {
      var before := effects[..|effects| - 1];
      AdditionCountIsOne(before, id);
      if exists i :: 0 <= i < |before| && before[i].ByOperation? && before[i].operation == id {
        var i :| 0 <= i < |before| && before[i].ByOperation? && before[i].operation == id;
        assert effects[i] == before[i] && !Same(effects[i], effects[|effects| - 1]);
      }
    }
  }

  /** Over any run, a single-target approval takes effect exactly once if its stored result is a success
      and never otherwise; and then on an inventory equal, on its targets, to the approved snapshot. */
  lemma ApprovedEffectExactlyOnce(inventory: Inventory, actions: seq<Action>, id: RequestId)
    requires var s := Run(Initial(inventory), actions); id in s.approvals && !s.approvals[id].batch
    ensures var s := Run(Initial(inventory), actions);
            && EffectsOf(s.effects, id) == (if s.approvals[id].result.Some? && s.approvals[id].result.value.Accepted? then 1 else 0)
            && (s.approvals[id].result.Some? ==> s.approvals[id].decision == Some(true))
            && (forall i :: 0 <= i < |s.effects| && s.effects[i].ByApproval? && s.effects[i].request == id ==>
                  SnapshotOf(s.effects[i].before, s.approvals[id].targets) == s.approvals[id].snapshot)
  {
    var s := Run(Initial(inventory), actions);
    RunKept(inventory, actions);
    CountIsOne(s.effects, id);
    assert ReceiptInv(s, id);
    forall i | 0 <= i < |s.effects| && s.effects[i].ByApproval? && s.effects[i].request == id
      ensures EffectInv(s, s.effects[i]) { }
  }

  /** Over any run, an addition takes effect exactly when its receipt is stored, once; replaying it
      returns the receipt and changes nothing. */
  lemma AdditionExactlyOnce(inventory: Inventory, actions: seq<Action>, id: OperationId, execution: Execution)
    ensures var s := Run(Initial(inventory), actions);
            && AdditionsOf(s.effects, id) == (if id in s.operations then 1 else 0)
            && (id in s.operations ==>
                  Added(s, id, s.operations[id].tool, s.operations[id].arguments, execution) == Success((s, s.operations[id].result)))
  {
    var s := Run(Initial(inventory), actions);
    RunKept(inventory, actions);
    AdditionCountIsOne(s.effects, id);
    assert OperationInv(s, id);
    if exists i :: 0 <= i < |s.effects| && s.effects[i].ByOperation? && s.effects[i].operation == id {
      var i :| 0 <= i < |s.effects| && s.effects[i].ByOperation? && s.effects[i].operation == id;
      assert EffectInv(s, s.effects[i]);
    }
  }

  /** Once stored, a decision and a result never change, whatever runs afterwards. */
  lemma {:induction false} StoredNeverChanges(s: State, actions: seq<Action>, id: RequestId)
    requires id in s.approvals
    ensures var r := Run(s, actions);
            && id in r.approvals
            && (s.approvals[id].decision.Some? ==> r.approvals[id].decision == s.approvals[id].decision)
            && (s.approvals[id].result.Some? ==> r.approvals[id].result == s.approvals[id].result)
            && r.approvals[id].snapshot == s.approvals[id].snapshot
    decreases |actions|
  {
    if actions != [] {
      StoredNeverChanges(s, actions[..|actions| - 1], id);
      NextKeepsStored(Run(s, actions[..|actions| - 1]), actions[|actions| - 1], id);
    }
  }

  lemma NextKeepsStored(s: State, a: Action, id: RequestId)
    requires id in s.approvals
    ensures var r := Next(s, a);
            && id in r.approvals
            && (s.approvals[id].decision.Some? ==> r.approvals[id].decision == s.approvals[id].decision)
            && (s.approvals[id].result.Some? ==> r.approvals[id].result == s.approvals[id].result)
            && r.approvals[id].snapshot == s.approvals[id].snapshot
  {
  }

  /** The engine and its receipts as they run: each method is one unit of work, rolled back by
      returning before any field is assigned. */
  class ApprovalEngine {
    var inventory: Inventory
    var approvals: map<RequestId, Approval>
    var operations: map<OperationId, Operation>
    ghost var rejecting: set<(RequestId, nat)>
    ghost var effects: seq<Effect>

    ghost function Snapshot(): State
      reads this
    {
      State(inventory, approvals, operations, rejecting, effects)
    }

    constructor (initial: Inventory)
      ensures Snapshot() == Initial(initial)
    {
      inventory, approvals, operations, rejecting, effects := initial, map[], map[], {}, [];
    }

    method Decide(id: RequestId, approved: bool) returns (accepted: bool)
      modifies this
      ensures Snapshot() == Next(old(Snapshot()), Action.Decide(id, approved))
      ensures accepted <==> Decided(old(Snapshot()), id, approved).Success?
    {
      if id !in approvals { return false; }
      var record := approvals[id];
      if record.decision.Some? && record.decision != Some(approved) { return false; }
      approvals := approvals[id := record.(decision := Some(approved))];
      return true;
    }

    /** First unit of `_execute_one`. `None` is a request without a matching approval. */
    method ExecuteUnit(id: RequestId, execution: Execution) returns (outcome: Option<Outcome>)
      modifies this
      ensures Snapshot() == ExecutedOne(old(Snapshot()), id, execution)
      ensures outcome.Some? && outcome.value.Accepted? ==> id in approvals && approvals[id].result == outcome
      ensures outcome.Some? && outcome.value.Rejected? ==>
                id in approvals && (approvals[id].result == outcome || (id, outcome.value.code) in rejecting)
    {
      if id !in approvals || approvals[id].decision != Some(true) || approvals[id].batch { return None; }
      var record := approvals[id];
      if record.result.Some? { return record.result; }
      if SnapshotOf(inventory, record.targets) != record.snapshot {
        rejecting := rejecting + {(id, CONFLICT)};
        return Some(Rejected(CONFLICT));
      }
      match execution
      case Refused(code) =>
        rejecting := rejecting + {(id, code)};
        return Some(Rejected(code));
      case Performed(changed, result) =>
        effects := effects + [ByApproval(id, inventory)];
        approvals := approvals[id := record.(result := Some(Accepted(result)))];
        inventory := changed;
        return Some(Accepted(result));
    }

    /** Second unit of `_execute_one`: what it returns is always what is stored. */
    method RejectUnit(id: RequestId, code: nat) returns (outcome: Outcome)
      requires (id, code) in rejecting && Approved(Snapshot(), id)
      modifies this
      ensures Snapshot() == RejectionSaved(old(Snapshot()), id, code)
      ensures id in approvals && approvals[id].result == Some(outcome)
    {
      rejecting := rejecting - {(id, code)};
      var record := approvals[id];
      if record.result.Some? { return record.result.value; }
      approvals := approvals[id := record.(result := Some(Rejected(code)))];
      return Rejected(code);
    }

    method ExecuteAddition(id: OperationId, tool: nat, arguments: Arguments, execution: Execution) returns (receipt: Result<Json, nat>)
      modifies this
      ensures match Added(old(Snapshot()), id, tool, arguments, execution)
              case Success(pair) => Snapshot() == pair.0 && receipt == Success(pair.1)
              case Failure(code) => Snapshot() == old(Snapshot()) && receipt == Failure(code)
    {
      if id in operations {
        var previous := operations[id];
        if previous.tool != tool || previous.arguments != arguments { return Failure(CONFLICT); }
        return Success(previous.result);
      }
      match execution
      case Refused(code) => return Failure(code);
      case Performed(changed, result) =>
        effects := effects + [ByOperation(id, inventory)];
        operations := operations[id := Operation(tool, arguments, result)];
        inventory := changed;
        return Success(result);
    }
  }
}
