/** `OpenAIResponsesRuntime._run` in its single-step form, as driven by `DurableDispatch.run_delivery`.
    A program counter names the next write unit, external call or publication; local computation is
    folded into the step before it. Everything between two steps may be interleaved with other
    workers, lease expiry, webhooks, decisions and cancellations. */
module Runtime {
  import opened Wrappers
  import opened Store
  import L = EventLog

  /** How a stage ended, as `run_delivery` sees it. */
  datatype Ending = Finishing(status: Status) | Raising(kind: FailureKind, retryAfter: nat)

  datatype Pc =
    | Start                                    // executions.claim
    | Enter                                    // first begin_stage
    | Greet                                    // emit user
    | Top                                      // begin_stage of the outer loop
    | Fence                                    // save the submission fence
    | Submit                                   // transport.start or transport.complete
    | StartedSave(id: ResponseId)
    | Retrieve                                 // transport.retrieve
    | PollSave
    | TurnSave(output: bool, turn: Pending)
    | Stage                                    // begin_stage before using a model turn
    | Speak
    | DoneSave
    | CallTop                                  // begin_stage of the call loop
    | Announce                                 // emit call
    | ReadApproval
    | AskPublish
    | PausePublish
    | Redecide(approved: bool)
    | DecisionPublish(approved: bool)
    | Execute(approval: Option<bool>)
    | LookupFence                              // save retrieval_started
    | LookupCall
    | AskInsert                                // approvals.request
    | AskSave
    | ResultSave(result: Outcome)
    | ResultPublish
    | AdvanceSave
    | RoundSave
    | CancelPublish
    | CancelCall                               // transport.cancel
    | CancelSave(how: CancelOutcome)
    | BudgetCheck(why: TurnError)              // except ModelBudgetError
    | FailSave(why: TurnError)
    | NoticePublish(last: Status)
    | TerminalPublish(last: Status)
    | Exit(ending: Ending)                     // finally: release
    | Ack(ending: Ending)                      // dispatch.finish

  datatype Worker = Worker(
    thread: ThreadId,
    execution: ExecutionId,
    version: nat,              // wake_version of the delivery
    photo: bool,
    background: bool,
    pc: Pc,
    turn: Turn,                // _TurnState, as last read or saved
    advanced: bool)

  /** What the outside world answers at a step. */
  datatype Input =
    | Proceed
    | ModelTurn(output: bool, text: bool, tools: seq<(Tool, Option<nat>)>)
    | ResponseStarted(id: ResponseId)
    | NotReady
    | BudgetRefused
    | CallFailed
    | ToolOutcome(outcome: Outcome)
    | Receipt(index: nat)

  /** One paid or retried-never external call of an execution. */
  datatype Slot = Model(round: nat) | Retrieval(round: nat, index: nat)

  datatype Move = Move(st: Tables, worker: Option<Worker>, spent: Option<Slot>)

  // ----- helpers named after the closures of _run -----

  function To(st: Tables, w: Worker, pc: Pc): Move {
    Move(st, Some(w.(pc := pc)), None)
  }

  function Raise(st: Tables, w: Worker): Move {
    To(st, w, Exit(Raising(Crashed, 0)))
  }

  function Stay(st: Tables, w: Worker): Move {
    Move(st, Some(w), None)
  }

  /** `save(status)` of a new checkpoint, then continue. */
  function Save(st: Tables, id: Uuid, w: Worker, turn: Turn, status: Status, next: Pc): Move {
    match Saved(st, w.execution, id, turn, status)
    case Failure(_) => Raise(st, w)
    case Success(st') => Move(st', Some(w.(turn := turn, pc := next)), None)
  }

  ghost function Emit(st: Tables, w: Worker, part: Part, next: Pc): Move {
    match Published(st, w.thread, Key(w.execution, part))
    case Failure(_) => Raise(st, w)
    case Success(st') => To(st', w, next)
  }

  /** `begin_stage`, then `next` when authorised or the cancellation path. */
  function Authorise(st: Tables, id: Uuid, w: Worker, next: Pc): Move {
    match StageBegun(st, w.execution, id)
    case Failure(_) => Raise(st, w)
    case Success(go) => To(st, w, if go then next else CancelPublish)
  }

  /** `terminal(status)`: the notice it publishes first, if any. */
  function TerminalPc(status: Status, turn: Turn): Pc {
    if status != Cancelled && (turn.error.Some? || (turn.pending.Some? && turn.pending.value.text))
    then NoticePublish(status) else TerminalPublish(status)
  }

  function CurrentCall(turn: Turn): Option<Call> {
    if turn.pending.Some? && turn.callIndex < |turn.pending.value.calls|
    then Some(turn.pending.value.calls[turn.callIndex]) else None
  }

  function WithCall(turn: Turn, call: Call): Turn
    requires CurrentCall(turn).Some?
  {
    turn.(pending := Some(turn.pending.value.(calls := turn.pending.value.calls[turn.callIndex := call])))
  }

  predicate IsLookup(tool: Tool) {
    tool == LookupPartSpecs || tool == IngestDatasheet
  }

  /** `_lookup_interrupted`: an uncertain paid stage is not retried within this request. */
  predicate LookupInterrupted(exchanges: seq<Exchange>, tool: Tool, part: Option<nat>) {
    exists i :: 0 <= i < |exchanges| && exchanges[i].ToolResult? &&
      (|| (exchanges[i].tool == tool && exchanges[i].part == part && exchanges[i].outcome == Refused(RetrievalInterrupted))
       || (tool == LookupPartSpecs && exchanges[i].tool == AddPart && exchanges[i].outcome.Okay?
           && exchanges[i].outcome.created == part && exchanges[i].outcome.enrichmentInterrupted))
  }

  function AfterTurn(turn: Turn, output: bool, pending: Pending): Turn {
    turn.(exchanges := if output then turn.exchanges + [ModelOutput] else turn.exchanges,
          round := turn.round + 1, pending := Some(pending), callIndex := 0, response := None, submitted := false)
  }

  function PendingOf(input: Input): Pending
    requires input.ModelTurn?
  {
    Pending(input.text, seq(|input.tools|, i requires 0 <= i < |input.tools| => Call(input.tools[i].0, input.tools[i].1, false, None)))
  }

  /** Line by line choice at the top of the outer loop, once the stage is authorised. */
  function TopChoice(w: Worker, maxTurns: nat): Pc {
    if w.turn.pending.Some? then Stage
    else if w.advanced then Exit(Finishing(Ready))
    else if w.turn.round >= maxTurns then FailSave(ToolLoopLimit)
    else if w.turn.submitted then
      if w.turn.response == None then BudgetCheck(SubmissionUncertain) else Retrieve
    else Fence
  }

  /** Entering or leaving the inner loop over the calls of a turn. */
  function CallLoop(turn: Turn): Pc {
    if CurrentCall(turn).Some? then CallTop else RoundSave
  }

  function AfterApproval(turn: Turn, approval: Option<bool>): Pc {
    if CurrentCall(turn).Some? && CurrentCall(turn).value.result.Some? then ResultPublish else Execute(approval)
  }

  function OutcomePc(outcome: Outcome): Pc {
    if outcome == Refused(ApprovalRequired) then AskInsert else ResultSave(outcome)
  }

  /** Which external call or receipt decides how the current tool call is answered. */
  function Executed(st: Tables, w: Worker, approval: Option<bool>, input: Input): Move {
    var call := CurrentCall(w.turn);
    if call == None then Raise(st, w)
    else if approval == Some(false) then To(st, w, ResultSave(Refused(ApprovalDenied)))
    else if approval == None && (call.value.retrievalStarted ||
        (IsLookup(call.value.tool) && LookupInterrupted(w.turn.exchanges, call.value.tool, call.value.part))) then
      To(st, w, ResultSave(Refused(RetrievalInterrupted)))
    else if approval == None && IsLookup(call.value.tool) then To(st, w, LookupFence)
    else if input.ToolOutcome? then To(st, w, OutcomePc(input.outcome))
    else if input.CallFailed? then Raise(st, w)
    else Stay(st, w)
  }

  /** The model half of the outer loop. */
  ghost function ModelStep(st: Tables, maxTurns: nat, id: Uuid, w: Worker, input: Input): Move {
    match w.pc
    case Top => Authorise(st, id, w, TopChoice(w, maxTurns))
    case Fence => Save(st, id, w, w.turn.(submitted := true), Ready, Submit)
    case Submit =>
      var spent := Some(Model(w.turn.round));
      if w.background && input.ResponseStarted? then Move(st, Some(w.(pc := StartedSave(input.id))), spent)
      else if !w.background && input.ModelTurn? then Move(st, Some(w.(pc := TurnSave(input.output, PendingOf(input)))), spent)
      else if input.BudgetRefused? then Move(st, Some(w.(pc := BudgetCheck(Budget))), spent)
      else if input.CallFailed? then Move(st, Some(w.(pc := Exit(Raising(Crashed, 0)))), spent)
      else Stay(st, w)
    case StartedSave(response) =>
      Save(st, id, w, w.turn.(response := Some(response)), WaitingModel, Exit(Finishing(WaitingModel)))
    case Retrieve =>
      if input.NotReady? then To(st, w, PollSave)
      else if input.ModelTurn? then To(st, w, TurnSave(input.output, PendingOf(input)))
      else if input.BudgetRefused? then To(st, w, BudgetCheck(Budget))
      else if input.CallFailed? then Raise(st, w)
      else Stay(st, w)
    case PollSave => Save(st, id, w, w.turn, WaitingModel, Exit(Finishing(WaitingModel)))
    case TurnSave(output, pending) =>
      Save(st, id, w.(advanced := true), AfterTurn(w.turn, output, pending), Ready, Stage)
    case _ => Stay(st, w)
  }

  /** Using a model turn: the inner loop over its calls. */
  ghost function CallStep(st: Tables, id: Uuid, w: Worker, input: Input): Move {
    match w.pc
    case Stage => Authorise(st, id, w, Speak)
    case Speak =>
      if w.turn.pending == None then Raise(st, w)
      else
        var next := if w.turn.pending.value.calls == [] then DoneSave else CallLoop(w.turn);
        if w.turn.pending.value.text then Emit(st, w, Text(w.turn.round), next) else To(st, w, next)
    case DoneSave => Save(st, id, w, w.turn, Completed, TerminalPc(Completed, w.turn))
    case CallTop => Authorise(st, id, w, if w.advanced then Exit(Finishing(Ready)) else Announce)
    case Announce =>
      Emit(st, w, Called(w.turn.round, w.turn.callIndex),
           if w.turn.approval.Some? then ReadApproval else AfterApproval(w.turn, None))
    case ReadApproval =>
      if w.turn.approval == None || w.turn.approval.value !in st.decisions then Raise(st, w)
      else
        var decision := st.decisions[w.turn.approval.value];
        To(st, w, if decision == None then AskPublish else Redecide(decision.value))
    case AskPublish => Emit(st, w, Asked(w.turn.round, w.turn.callIndex), PausePublish)
    case PausePublish => Emit(st, w, Paused(w.turn.round, w.turn.callIndex), Exit(Finishing(AwaitingApproval)))
    case Redecide(approved) =>
      // ApprovalEngine.decide repeats the stored decision; a cancelled execution refuses it.
      if w.turn.approval == None || w.turn.approval.value !in st.decisions
         || st.decisions[w.turn.approval.value] != Some(approved)
         || (w.turn.approval.value in st.approvalOf && st.approvalOf[w.turn.approval.value] in st.cancelled)
      then Raise(st, w) else To(st, w, DecisionPublish(approved))
    case DecisionPublish(approved) =>
      Emit(st, w, Decided(w.turn.round, w.turn.callIndex), AfterApproval(w.turn, Some(approved)))
    case Execute(approval) => Executed(st, w, approval, input)
    case LookupFence =>
      if CurrentCall(w.turn) == None then Raise(st, w)
      else Save(st, id, w, WithCall(w.turn, CurrentCall(w.turn).value.(retrievalStarted := true)), Ready, LookupCall)
    case LookupCall =>
      var spent := Some(Retrieval(w.turn.round, w.turn.callIndex));
      if input.ToolOutcome? then Move(st, Some(w.(pc := OutcomePc(input.outcome))), spent)
      else if input.CallFailed? then Move(st, Some(w.(pc := Exit(Raising(Crashed, 0)))), spent)
      else Stay(st, w)
    case AskInsert =>
      if id in st.decisions then Raise(st, w)   // primary key violation
      else To(st.(decisions := st.decisions[id := None]), w, AskSave)
    case AskSave => Save(st, id, w, w.turn.(approval := Some(id)), AwaitingApproval, CallTop)
    case ResultSave(result) =>
      if CurrentCall(w.turn) == None then Raise(st, w)
      else
        var call := CurrentCall(w.turn).value;
        Save(st, id, w, WithCall(w.turn, call.(result := Some(result)))
               .(exchanges := w.turn.exchanges + [ToolResult(call.tool, call.part, result)]), Ready, ResultPublish)
    case ResultPublish => Emit(st, w, Returned(w.turn.round, w.turn.callIndex), AdvanceSave)
    case AdvanceSave =>
      var turn := w.turn.(callIndex := w.turn.callIndex + 1, approval := None);
      Save(st, id, w.(advanced := true), turn, Ready, CallLoop(turn))
    case RoundSave => Save(st, id, w, w.turn.(pending := None), Ready, Top)
    case _ => Stay(st, w)
  }

  /** Cancellation, failure, publication of the end, and acknowledgement. */
  ghost function EndStep(st: Tables, id: Uuid, w: Worker, input: Input): Move {
    match w.pc
    case CancelPublish =>
      // Committed receipts are republished one by one, without executing any tool.
      if input.Receipt? then Emit(st, w, Returned(w.turn.round, input.index), CancelPublish)
      else if w.turn.response.Some? then To(st, w, CancelCall)
      else To(st, w, CancelSave(if w.turn.submitted then SubmissionUncertainAtCancel else NoInflightResponse))
    case CancelCall =>
      if input.CallFailed? then Raise(st, w) else To(st, w, CancelSave(ProviderCancelled))
    case CancelSave(how) =>
      Save(st, id, w, w.turn.(cancellation := Some(how)), Cancelled, TerminalPublish(Cancelled))
    case BudgetCheck(why) => To(st, w, if w.execution in st.cancelled then CancelPublish else FailSave(why))
    case FailSave(why) =>
      var turn := w.turn.(error := Some(why));
      Save(st, id, w, turn, Failed, TerminalPc(Failed, turn))
    case NoticePublish(status) =>
      Emit(st, w, if w.turn.error.Some? then ErrorPart else Text(w.turn.round), TerminalPublish(status))
    case TerminalPublish(status) => Emit(st, w, TerminalPart, Exit(Finishing(status)))
    case Exit(ending) => To(Released(st, w.execution, id), w, Ack(ending))
    case Ack(ending) =>
      var failure := if ending.Raising? then Some(ending.kind) else None;
      var retryAfter := if ending.Raising? then ending.retryAfter else 0;
      Move(Finished(st, w.execution, id, w.version, failure, retryAfter), None, None)
    case _ => Stay(st, w)
  }

  /** Claiming the execution and entering the first stage. */
  ghost function StartStep(st: Tables, id: Uuid, w: Worker, input: Input): Move {
    match w.pc
    case Start =>
      (match ExecutionClaimed(st, w.thread, w.execution, id)
       case Failure(Busy(seconds)) => To(st, w, Ack(Raising(ExecutionBusy, seconds)))
       case Failure(_) => To(st, w, Ack(Raising(Crashed, 0)))
       case Success(st') =>
         var x := st.executions[w.execution];
         Move(st', Some(w.(turn := x.context, pc := if Terminal(x.status) then TerminalPc(x.status, x.context) else Enter)), None))
    case Enter => Authorise(st, id, w, Greet)
    case Greet =>
      var next :=
        if w.photo && w.turn.round == 0 && !w.turn.submitted && input.BudgetRefused? then BudgetCheck(Budget)
        else if w.turn.hadImage && w.turn.round == 0 && !w.photo && !w.turn.submitted then FailSave(ImageResubmission)
        else Top;
      Emit(st, w, User, next)
    case _ => Stay(st, w)
  }

  predicate InStart(pc: Pc) { pc.Start? || pc.Enter? || pc.Greet? }
  predicate InModel(pc: Pc) {
    pc.Top? || pc.Fence? || pc.Submit? || pc.StartedSave? || pc.Retrieve? || pc.PollSave? || pc.TurnSave?
  }
  predicate InEnd(pc: Pc) {
    || pc.CancelPublish? || pc.CancelCall? || pc.CancelSave? || pc.BudgetCheck? || pc.FailSave?
    || pc.NoticePublish? || pc.TerminalPublish? || pc.Exit? || pc.Ack?
  }

  ghost function Step(st: Tables, maxTurns: nat, id: Uuid, w: Worker, input: Input): Move {
    if InStart(w.pc) then StartStep(st, id, w, input)
    else if InModel(w.pc) then ModelStep(st, maxTurns, id, w, input)
    else if InEnd(w.pc) then EndStep(st, id, w, input)
    else CallStep(st, id, w, input)
  }

  // ----- The whole system -----

  datatype World = World(
    maxTurns: nat,
    st: Tables,
    workers: map<Uuid, Worker>,
    next: Uuid,                               // every uuid drawn so far is below this
    started: set<Uuid>,                       // uuids that have run a delivery; uuid4 never repeats
    spent: map<ExecutionId, seq<Slot>>)       // external calls made, oldest first

  datatype Action =
    | Tick(seconds: real)
    | Accept(thread: ThreadId, e: ExecutionId, digest: nat, photo: bool)
    | AnnounceUser(e: ExecutionId)
    | Deliver(e: ExecutionId, background: bool)
    | DeliverReserved(e: ExecutionId, token: Uuid, background: bool)
    | Resume(thread: ThreadId, e: ExecutionId)
    | Cancel(thread: ThreadId, e: ExecutionId)
    | Decide(thread: ThreadId, request: Uuid, approved: bool)
    | Notify(event: WebhookId, response: ResponseId, row: Option<ExecutionId>)
    | Reconcile(matches: seq<(ResponseId, Option<ExecutionId>)>)
    | PublishBlocked(e: ExecutionId, completed: bool)
    | Advance(id: Uuid, input: Input)
    | Throw(id: Uuid, interrupted: bool)
    | Crash(id: Uuid)

  function InitialWorld(maxTurns: nat): World {
    World(maxTurns, EmptyTables(), map[], 0, {}, map[])
  }

  function NewWorker(st: Tables, e: ExecutionId, photo: bool, background: bool): Worker
    requires e in st.executions && e in st.dispatch
  {
    Worker(st.executions[e].thread, e, st.dispatch[e].wakeVersion, photo, background, Start, st.executions[e].context, false)
  }

  function Spend(spent: map<ExecutionId, seq<Slot>>, e: ExecutionId, slot: Option<Slot>): map<ExecutionId, seq<Slot>> {
    if slot == None then spent
    else spent[e := (if e in spent then spent[e] else []) + [slot.value]]
  }

  function Moved(s: World, id: Uuid, move: Move): World
    requires id in s.workers
  {
    s.(st := move.st,
       workers := if move.worker.Some? then s.workers[id := move.worker.value] else s.workers - {id},
       spent := Spend(s.spent, s.workers[id].execution, move.spent))
  }

  function OrSame(s: World, result: Result<Tables, Error>): World {
    if result.Success? then s.(st := result.value) else s
  }

  /** An exception between steps: `finally` still runs, then `run_delivery` reports the failure.
      A graceful shutdown raises CancelledError, which asks for a retry after one second. */
  function Thrown(w: Worker, interrupted: bool): Option<Worker> {
    var raising := if interrupted then Raising(WorkerInterrupted, 1) else Raising(Crashed, 0);
    match w.pc
    case Start => Some(w.(pc := Ack(raising)))
    case Exit(_) => Some(w.(pc := Ack(raising)))
    case Ack(_) => None
    case _ => Some(w.(pc := Exit(raising)))
  }

  ghost function Next(s: World, a: Action): World {
    match a
    case Tick(seconds) => if seconds < 0.0 then s else s.(st := s.st.(now := s.st.now + seconds))
    case Accept(thread, e, digest, photo) =>
      // A photo request reserves its first delivery with a fresh token.
      var reservation := if photo then Some(s.next) else None;
      OrSame(s, Accepted(s.st, thread, e, InitialTurn(digest, photo), reservation)).(next := s.next + 1)
    case AnnounceUser(e) =>
      if e in s.st.executions then OrSame(s, Published(s.st, s.st.executions[e].thread, Key(e, User))) else s
    case Deliver(e, background) =>
      if Deliverable(s.st, e) then
        s.(st := DeliveryClaimed(s.st, e, s.next), next := s.next + 1, started := s.started + {s.next},
           workers := s.workers[s.next := NewWorker(s.st, e, false, background)])
      else s
    case DeliverReserved(e, token, background) =>
      // `submit` claims its own reservation once; an expired or replaced one yields nothing.
      if Current(s.st, e, token) && e in s.st.executions && token !in s.started then
        s.(st := DeliveryClaimed(s.st, e, token), started := s.started + {token},
           workers := s.workers[token := NewWorker(s.st, e, true, background)])
      else s
    case Resume(thread, e) => OrSame(s, Woken(s.st, thread, e, false))
    case Cancel(thread, e) => OrSame(s, CancellationRequested(s.st, thread, e))
    case Decide(thread, request, approved) => OrSame(s, DecisionRecorded(s.st, thread, request, approved))
    case Notify(event, response, row) => s.(st := Notified(s.st, event, response, row))
    case Reconcile(matches) => s.(st := Reconciled(s.st, matches))
    case PublishBlocked(e, completed) =>
      if e in s.st.dispatch && e in s.st.executions && s.st.dispatch[e].blocked then
        var version := s.st.dispatch[e].wakeVersion;
        OrSame(s, Published(s.st, s.st.executions[e].thread,
          Key(e, if completed then BlockedCompleted(version) else BlockedError(version))))
      else s
    case Advance(id, input) =>
      if id in s.workers then Moved(s, id, Step(s.st, s.maxTurns, id, s.workers[id], input)) else s
    case Throw(id, interrupted) =>
      if id in s.workers then Moved(s, id, Move(s.st, Thrown(s.workers[id], interrupted), None)) else s
    case Crash(id) => s.(workers := s.workers - {id})
  }

  ghost function Run(s: World, actions: seq<Action>): World
    decreases |actions|
  {
    if actions == [] then s else Next(Run(s, actions[..|actions| - 1]), actions[|actions| - 1])
  }
}
