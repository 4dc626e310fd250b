/** What holds in every reachable state of durable execution, one execution and one worker at a time.
    `strict` adds the facts that need no claim to displace a returning delivery. */
module Protocol {
  import opened Wrappers
  import opened Store
  import opened Runtime
  import L = EventLog

  // ----- External calls -----

  /** The checkpoint already fences this external call: no later worker will make it. */
  predicate Fenced(turn: Turn, slot: Slot) {
    match slot
    case Model(round) => turn.round > round || (turn.round == round && turn.submitted)
    case Retrieval(round, index) =>
      || turn.round > round
      || (turn.round == round && turn.callIndex > index)
      || (turn.round == round && turn.callIndex == index && CurrentCall(turn).Some? && CurrentCall(turn).value.retrievalStarted)
  }

  /** A checkpoint never un-fences a call. */
  ghost predicate Later(before: Turn, after: Turn) {
    forall slot :: Fenced(before, slot) ==> Fenced(after, slot)
  }

  /** The external call a worker is about to make. */
  function SlotOf(w: Worker): Option<Slot> {
    if w.pc == Submit then Some(Model(w.turn.round))
    else if w.pc == LookupCall then Some(Retrieval(w.turn.round, w.turn.callIndex))
    else None
  }

  ghost predicate Distinct(slots: seq<Slot>) {
    forall i, j :: 0 <= i < j < |slots| ==> slots[i] != slots[j]
  }

  ghost predicate SpentInv(spent: seq<Slot>, turn: Turn, maxTurns: nat) {
    && Distinct(spent)
    && (forall slot :: slot in spent ==> Fenced(turn, slot))
    && (forall slot :: slot in spent && slot.Model? ==> slot.round < maxTurns)
  }

  // ----- Program points -----

  /** The worker has ended with a terminal status, saved by it or found stored. */
  function LastStatus(pc: Pc): Option<Status> {
    match pc
    case NoticePublish(status) => Some(status)
    case TerminalPublish(status) => Some(status)
    case Exit(Finishing(status)) => if Terminal(status) then Some(status) else None
    case Ack(Finishing(status)) => if Terminal(status) then Some(status) else None
    case _ => None
  }

  /** Between claiming the execution and releasing it, before any terminal save. */
  predicate Working(pc: Pc) {
    && !pc.Start? && !pc.Ack? && LastStatus(pc) == None
    && !(pc.Exit? && pc.ending.Raising?)
  }

  /** Where a worker whose execution is cancelled may be. */
  predicate CancelSafe(pc: Pc) {
    || pc.Start? || pc.Enter? || pc.CancelPublish? || pc.CancelCall? || pc.CancelSave?
    || LastStatus(pc).Some?
    || (pc.Exit? && pc.ending.Raising?) || (pc.Ack? && pc.ending.Raising?)
  }

  /** The worker has read an undecided approval and is pausing for it. */
  predicate Pausing(pc: Pc) {
    || pc.AskPublish? || pc.PausePublish?
    || pc == Exit(Finishing(AwaitingApproval)) || pc == Ack(Finishing(AwaitingApproval))
  }

  /** A stored approval has been found decided, or none is pending. */
  predicate PastApproval(pc: Pc) {
    || pc.Execute? || pc.LookupFence? || pc.LookupCall? || pc.AskInsert? || pc.AskSave?
    || pc.ResultSave? || pc.ResultPublish? || pc.AdvanceSave?
  }

  predicate InCall(pc: Pc) {
    || pc.Announce? || pc.ReadApproval? || pc.AskPublish? || pc.PausePublish? || pc.Redecide? || pc.DecisionPublish?
    || pc.Execute? || pc.LookupFence? || pc.LookupCall? || pc.AskInsert? || pc.AskSave?
    || pc.ResultSave? || pc.ResultPublish? || pc.AdvanceSave?
  }

  /** What the worker's own turn looks like at each point. */
  predicate TurnAt(pc: Pc, turn: Turn, maxTurns: nat) {
    && (pc.Fence? ==> turn.pending == None && !turn.submitted && turn.round < maxTurns)
    && (pc.Submit? || pc.StartedSave? ==> turn.pending == None && turn.submitted && turn.round < maxTurns)
    && (pc.Retrieve? || pc.PollSave? || pc.TurnSave? ==> turn.pending == None && turn.submitted && turn.round < maxTurns)
    && (pc.LookupFence? || pc.LookupCall? ==> turn.approval == None)
    && (pc.LookupFence? || pc.LookupCall? || pc.AskInsert? || pc.AskSave? || pc.ResultSave? ==> CurrentCall(turn).Some?)
    && (pc.LookupFence? ==> !CurrentCall(turn).value.retrievalStarted)
    && (pc == Execute(None) ==> turn.approval == None)
    && (pc.RoundSave? ==> CurrentCall(turn) == None)
  }

  /** What the row says while the worker holds the execution. */
  predicate StatusAt(pc: Pc, advanced: bool, status: Status) {
    && (LastStatus(pc) == None && !(pc.Exit? && pc.ending.Raising?) ==> !Terminal(status))
    && (Working(pc) && advanced && !pc.Exit? ==> status == Ready)
    && (pc.Exit? && pc.ending.Finishing? ==> status == pc.ending.status)
    && (Pausing(pc) ==> status == AwaitingApproval)
    && (InCall(pc) ==> !advanced)
  }

  // ----- Rows -----

  predicate Undecided(st: Tables, request: Uuid) {
    request in st.decisions && st.decisions[request] == None
  }

  predicate Linked(st: Tables, request: Uuid, e: ExecutionId) {
    request in st.decisions && request in st.approvalOf && st.approvalOf[request] == e
  }

  predicate DeliveryInv(now: real, d: Dispatch, status: Status) {
    && 0.0 <= now && d.leaseUntil <= now + LEASE_SECONDS
    && (d.blocked ==> d.failures >= MAX_FAILURES && d.token == None && d.leaseUntil == 0.0)
    && (d.settled ==> Settles(status))
    && (d.due == None ==> d.token == None && d.leaseUntil == 0.0 && (d.blocked || d.settled))
  }

  predicate ContextInv(st: Tables, e: ExecutionId, turn: Turn, status: Status, maxTurns: nat) {
    && turn.round <= maxTurns
    && (turn.submitted ==> turn.round < maxTurns && turn.pending == None)
    && (status == AwaitingApproval ==> turn.approval.Some?)
    && (turn.approval.Some? ==>
          && Linked(st, turn.approval.value, e)
          && CurrentCall(turn).Some?
          && (Undecided(st, turn.approval.value) ==> status == AwaitingApproval || Terminal(status)))
  }

  /** An acknowledged pause is still waiting for a decision and has not been cancelled. */
  predicate PauseInv(st: Tables, e: ExecutionId)
    requires e in st.executions && e in st.dispatch
  {
    var x := st.executions[e];
    st.dispatch[e].settled && x.status == AwaitingApproval ==>
      e !in st.cancelled && x.context.approval.Some? && Undecided(st, x.context.approval.value)
  }

  /** An acknowledged end has been published. */
  predicate PublishedInv(st: Tables, e: ExecutionId)
    requires e in st.executions && e in st.dispatch
  {
    st.dispatch[e].settled && Terminal(st.executions[e].status) ==> IsPublished(st, Key(e, TerminalPart))
  }

  ghost predicate RowInv(st: Tables, maxTurns: nat, spent: seq<Slot>, e: ExecutionId, strict: bool) {
    && e in st.executions && e in st.dispatch
    && DeliveryInv(st.now, st.dispatch[e], st.executions[e].status)
    && ContextInv(st, e, st.executions[e].context, st.executions[e].status, maxTurns)
    && SpentInv(spent, st.executions[e].context, maxTurns)
    && PauseInv(st, e)
    && (strict ==> PublishedInv(st, e))
  }

  // ----- Workers -----

  /** The row as seen by the worker that is named on it. */
  predicate HoldingInv(x: Execution, id: Uuid, w: Worker) {
    x.worker == Some(id) ==>
      && !w.pc.Start?
      && (!w.pc.Ack? ==> w.turn == x.context && StatusAt(w.pc, w.advanced, x.status))
  }

  /** The two leases are independent, but a current delivery's lease never outlives its worker's. */
  predicate NestedInv(st: Tables, id: Uuid, w: Worker)
    requires w.execution in st.executions && w.execution in st.dispatch
  {
    Working(w.pc) && Current(st, w.execution, id) ==>
      && st.executions[w.execution].worker == Some(id)
      && st.dispatch[w.execution].leaseUntil <= st.executions[w.execution].leaseUntil
  }

  predicate LastInv(st: Tables, w: Worker)
    requires w.execution in st.executions
  {
    LastStatus(w.pc).Some? ==>
      && Terminal(LastStatus(w.pc).value)
      && st.executions[w.execution].status == LastStatus(w.pc).value
      && (w.pc.Exit? || w.pc.Ack? ==> IsPublished(st, Key(w.execution, TerminalPart)))
  }

  /** No wake has come since the delivery was claimed. */
  predicate Unwoken(st: Tables, w: Worker)
    requires w.execution in st.dispatch
  {
    w.version == st.dispatch[w.execution].wakeVersion
  }

  predicate WakeInv(st: Tables, id: Uuid, w: Worker)
    requires w.execution in st.executions && w.execution in st.dispatch
  {
    var x := st.executions[w.execution];
    && w.version <= st.dispatch[w.execution].wakeVersion
    && (Unwoken(st, w) && w.execution in st.cancelled ==> CancelSafe(w.pc))
    && (Unwoken(st, w) && Pausing(w.pc) ==> w.turn.approval.Some? && Undecided(st, w.turn.approval.value))
    && (Unwoken(st, w) && w.pc.Ack? && w.pc.ending.Finishing? && Current(st, w.execution, id) && x.status == AwaitingApproval ==>
          x.context.approval.Some? && Undecided(st, x.context.approval.value))
  }

  predicate ApprovalInv(st: Tables, id: Uuid, w: Worker) {
    && (w.turn.approval.Some? ==> Linked(st, w.turn.approval.value, w.execution))
    && (PastApproval(w.pc) && w.turn.approval.Some? ==> !Undecided(st, w.turn.approval.value))
    && (w.pc.Redecide? || w.pc.DecisionPublish? ==> w.turn.approval.Some? && !Undecided(st, w.turn.approval.value))
    && (w.pc.AskSave? ==> Undecided(st, id) && id !in st.approvalOf)
  }

  /** The current delivery, not woken since, has released the execution and is about to acknowledge a
      status that is not final. */
  predicate Returning(st: Tables, id: Uuid, w: Worker) {
    && w.pc.Ack? && w.pc.ending.Finishing? && LastStatus(w.pc) == None
    && Current(st, w.execution, id) && Unwoken(st, w)
  }

  /** Nobody else runs between a worker's release and its acknowledgement. */
  predicate QuietInv(st: Tables, id: Uuid, w: Worker)
    requires w.execution in st.executions
  {
    Returning(st, id, w) ==> st.executions[w.execution].worker == None && !Terminal(st.executions[w.execution].status)
  }

  ghost predicate SlotInv(x: Execution, spent: seq<Slot>, w: Worker) {
    SlotOf(w).Some? ==> Fenced(x.context, SlotOf(w).value) && SlotOf(w).value !in spent
  }

  ghost predicate WorkerInv(st: Tables, maxTurns: nat, spent: seq<Slot>, id: Uuid, w: Worker, strict: bool) {
    && w.execution in st.executions && w.execution in st.dispatch
    && st.executions[w.execution].thread == w.thread
    && (w.pc.Start? ==> !w.advanced)
    && TurnAt(w.pc, w.turn, maxTurns)
    && HoldingInv(st.executions[w.execution], id, w)
    && NestedInv(st, id, w)
    && LastInv(st, w)
    && WakeInv(st, id, w)
    && ApprovalInv(st, id, w)
    && SlotInv(st.executions[w.execution], spent, w)
    && (strict ==> QuietInv(st, id, w))
  }

  // ----- The system -----

  function SpentOn(s: World, e: ExecutionId): seq<Slot> {
    if e in s.spent then s.spent[e] else []
  }

  /** Uuids on a row were drawn before: a worker's by a delivery that ran, a token by intake or a claim. */
  predicate RowUuids(s: World, e: ExecutionId) {
    && (e in s.st.executions && s.st.executions[e].worker.Some? ==> s.st.executions[e].worker.value in s.started)
    && (e in s.st.dispatch && s.st.dispatch[e].token.Some? ==> s.st.dispatch[e].token.value < s.next)
  }

  predicate Drawn(s: World, u: Uuid) {
    u in s.started ==> u < s.next
  }

  ghost predicate UuidInv(s: World) {
    && s.workers.Keys <= s.started
    && (forall u :: Drawn(s, u))
    && (forall e :: RowUuids(s, e))
  }

  predicate LinkKnown(st: Tables, request: Uuid) {
    request in st.approvalOf ==> st.approvalOf[request] in st.executions
  }

  ghost predicate KeysInv(st: Tables) {
    && 0.0 <= st.now
    && st.dispatch.Keys == st.executions.Keys
    && st.approvalOf.Keys <= st.decisions.Keys
    && st.cancelled <= st.executions.Keys
    && (forall request :: LinkKnown(st, request))
  }

  predicate Apart(workers: map<Uuid, Worker>, id: Uuid, other: Uuid) {
    (id in workers && other in workers && id != other && workers[id].execution == workers[other].execution
     && SlotOf(workers[id]).Some?) ==> SlotOf(workers[id]) != SlotOf(workers[other])
  }

  /** No two workers are about to make the same external call. */
  ghost predicate SlotsInv(workers: map<Uuid, Worker>) {
    forall id, other :: Apart(workers, id, other)
  }

  ghost predicate RowOk(s: World, e: ExecutionId, strict: bool) {
    e in s.st.executions ==> RowInv(s.st, s.maxTurns, SpentOn(s, e), e, strict)
  }

  ghost predicate WorkerOk(s: World, id: Uuid, strict: bool) {
    id in s.workers ==> WorkerInv(s.st, s.maxTurns, SpentOn(s, s.workers[id].execution), id, s.workers[id], strict)
  }

  ghost predicate Inv(s: World, strict: bool) {
    && KeysInv(s.st)
    && UuidInv(s)
    && s.spent.Keys <= s.st.executions.Keys
    && (forall e :: RowOk(s, e, strict))
    && (forall id :: WorkerOk(s, id, strict))
    && SlotsInv(s.workers)
  }

  /** This worker's claim takes the execution over: it is free, or its lease ran out, and it has not ended. */
  predicate TakesOver(st: Tables, id: Uuid, w: Worker) {
    && w.pc.Start? && ExecutionClaimed(st, w.thread, w.execution, id).Success?
    && !Terminal(st.executions[w.execution].status)
  }

  predicate ReturningFor(s: World, e: ExecutionId, other: Uuid) {
    other in s.workers && s.workers[other].execution == e && Returning(s.st, other, s.workers[other])
  }

  /** A claim takes over an execution whose current delivery is already returning. */
  ghost predicate Displaces(s: World, a: Action) {
    && a.Advance? && a.id in s.workers && TakesOver(s.st, a.id, s.workers[a.id])
    && exists other :: other != a.id && ReturningFor(s, s.workers[a.id].execution, other)
  }
}
