/** `OpenAIResponsesRuntime._run` in its single-step form and `DurableDispatch.run_delivery`, as the
    nested loops they are, over the tables updated in place. Between any two steps the tables may
    change under the worker; every complete run is proved to be a walk of the step machine in module
    Runtime, about which the protocol is proved. */
module StageLoop {
  import opened Wrappers
  import opened Store
  import opened Runtime
  import opened Repository
  import L = EventLog

  /** One step of a worker: the tables it found, what the outside answered, the tables it left. */
  datatype Crossing = Crossing(before: Tables, input: Input, after: Tables)

  function Paid(move: Move): seq<Slot> {
    if move.spent.Some? then [move.spent.value] else []
  }

  ghost predicate Crosses(maxTurns: nat, id: Uuid, w: Worker, crossing: Crossing, paid: seq<Slot>, next: Option<Worker>) {
    var move := Step(crossing.before, maxTurns, id, w, crossing.input);
    move.st == crossing.after && move.worker == next && Paid(move) == paid
  }

  /** The steps lead the machine from `first` to `last`, or to its end, making the external calls `made`. */
  ghost predicate Walk(maxTurns: nat, id: Uuid, first: Worker, steps: seq<Crossing>, made: seq<Slot>, last: Option<Worker>)
    decreases |steps|
  {
    if steps == [] then last == Some(first) && made == []
    else exists w, before, paid :: WalkedTo(maxTurns, id, first, steps, made, last, w, before, paid)
  }

  /** The last step went on from `w`, after the calls in `before`, and made those in `paid`. */
  ghost predicate WalkedTo(maxTurns: nat, id: Uuid, first: Worker, steps: seq<Crossing>, made: seq<Slot>, last: Option<Worker>,
                           w: Worker, before: seq<Slot>, paid: seq<Slot>)
    decreases |steps|, 0
  {
    && steps != []
    && Walk(maxTurns, id, first, steps[..|steps| - 1], before, Some(w))
    && Crosses(maxTurns, id, w, steps[|steps| - 1], paid, last)
    && made == before + paid
  }

  lemma {:induction false} WalkOn(maxTurns: nat, id: Uuid, first: Worker, steps: seq<Crossing>, before: seq<Slot>, w: Worker,
                                  crossing: Crossing, paid: seq<Slot>, next: Option<Worker>)
    requires Walk(maxTurns, id, first, steps, before, Some(w)) && Crosses(maxTurns, id, w, crossing, paid, next)
    ensures Walk(maxTurns, id, first, steps + [crossing], before + paid, next)
  {
    assert (steps + [crossing])[..|steps|] == steps;
    assert WalkedTo(maxTurns, id, first, steps + [crossing], before + paid, next, w, before, paid);
  }

  /** A step of the walk is what the action `Advance` does to a system in which it is taken. */
  lemma CrossingAdvances(s: World, id: Uuid, crossing: Crossing, paid: seq<Slot>, next: Option<Worker>)
    requires id in s.workers && s.st == crossing.before
    requires Crosses(s.maxTurns, id, s.workers[id], crossing, paid, next)
    ensures var s' := Next(s, Advance(id, crossing.input));
            && s'.st == crossing.after
            && s'.workers == (if next.Some? then s.workers[id := next.value] else s.workers - {id})
            && s'.spent == (if paid == [] then s.spent else Spend(s.spent, s.workers[id].execution, Some(paid[0])))
  {
  }

  /** How the body of `_run` is left: with an ending, through `cancel`, or by ModelBudgetError. */
  datatype Departure = Ended(ending: Ending) | Cancelling | OverBudget(why: TurnError)

  const RAISED := Ended(Raising(Crashed, 0))

  // What a step of the machine amounts to, on whatever tables: a save, a publication, an authorisation,
  // or an act that touches no table.

  ghost predicate SavesAs(maxTurns: nat, id: Uuid, w: Worker, turn: Turn, status: Status, advanced: bool, next: Pc) {
    forall st :: SavesOn(maxTurns, id, w, turn, status, advanced, next, st)
  }

  ghost predicate SavesOn(maxTurns: nat, id: Uuid, w: Worker, turn: Turn, status: Status, advanced: bool, next: Pc, st: Tables) {
    Step(st, maxTurns, id, w, Proceed) == Runtime.Save(st, id, w.(advanced := advanced), turn, status, next)
  }

  ghost predicate EmitsAs(maxTurns: nat, id: Uuid, w: Worker, input: Input, part: Part, next: Pc) {
    forall st :: EmitsOn(maxTurns, id, w, input, part, next, st)
  }

  ghost predicate EmitsOn(maxTurns: nat, id: Uuid, w: Worker, input: Input, part: Part, next: Pc, st: Tables) {
    Step(st, maxTurns, id, w, input) == Runtime.Emit(st, w, part, next)
  }

  ghost predicate StagesAs(maxTurns: nat, id: Uuid, w: Worker, next: Pc) {
    forall st :: StagesOn(maxTurns, id, w, next, st)
  }

  ghost predicate StagesOn(maxTurns: nat, id: Uuid, w: Worker, next: Pc, st: Tables) {
    Step(st, maxTurns, id, w, Proceed) == Runtime.Authorise(st, id, w, next)
  }

  ghost predicate ActsAs(maxTurns: nat, id: Uuid, w: Worker, input: Input, paid: seq<Slot>, next: Pc) {
    forall st :: ActsOn(maxTurns, id, w, input, paid, next, st)
  }

  ghost predicate ActsOn(maxTurns: nat, id: Uuid, w: Worker, input: Input, paid: seq<Slot>, next: Pc, st: Tables) {
    var move := Step(st, maxTurns, id, w, input);
    move.st == st && move.worker == Some(w.(pc := next)) && Paid(move) == paid
  }

  // ----- what the machine does at each program point -----

  // Authorisations.

  lemma {:induction false} EnterStages(maxTurns: nat, id: Uuid, w: Worker)
    requires w.pc == Enter
    ensures StagesAs(maxTurns, id, w, Greet)
  {
  }

  lemma {:induction false} TopStages(maxTurns: nat, id: Uuid, w: Worker)
    requires w.pc == Top
    ensures StagesAs(maxTurns, id, w, TopChoice(w, maxTurns))
  {
  }

  lemma {:induction false} UseStages(maxTurns: nat, id: Uuid, w: Worker)
    requires w.pc == Pc.Stage
    ensures StagesAs(maxTurns, id, w, Speak)
  {
  }

  lemma {:induction false} CallStages(maxTurns: nat, id: Uuid, w: Worker)
    requires w.pc == CallTop
    ensures StagesAs(maxTurns, id, w, if w.advanced then Exit(Finishing(Ready)) else Announce)
  {
  }

  // Checkpoints.

  lemma {:induction false} FenceSaves(maxTurns: nat, id: Uuid, w: Worker)
    requires w.pc == Fence
    ensures SavesAs(maxTurns, id, w, w.turn.(submitted := true), Ready, w.advanced, Submit)
  {
  }

  lemma {:induction false} StartedSaves(maxTurns: nat, id: Uuid, w: Worker)
    requires w.pc.StartedSave?
    ensures SavesAs(maxTurns, id, w, w.turn.(response := Some(w.pc.id)), WaitingModel, w.advanced, Exit(Finishing(WaitingModel)))
  {
  }

  lemma {:induction false} PollSaves(maxTurns: nat, id: Uuid, w: Worker)
    requires w.pc == PollSave
    ensures SavesAs(maxTurns, id, w, w.turn, WaitingModel, w.advanced, Exit(Finishing(WaitingModel)))
  {
  }

  lemma {:induction false} TurnSaves(maxTurns: nat, id: Uuid, w: Worker)
    requires w.pc.TurnSave?
    ensures SavesAs(maxTurns, id, w, AfterTurn(w.turn, w.pc.output, w.pc.turn), Ready, true, Pc.Stage)
  {
  }

  lemma {:induction false} DoneSaves(maxTurns: nat, id: Uuid, w: Worker)
    requires w.pc == DoneSave
    ensures SavesAs(maxTurns, id, w, w.turn, Completed, w.advanced, TerminalPc(Completed, w.turn))
  {
  }

  lemma {:induction false} LookupSaves(maxTurns: nat, id: Uuid, w: Worker)
    requires w.pc == LookupFence
    requires CurrentCall(w.turn).Some?
    ensures SavesAs(maxTurns, id, w, WithCall(w.turn, CurrentCall(w.turn).value.(retrievalStarted := true)), Ready, w.advanced, LookupCall)
  {
  }

  lemma {:induction false} AskSaves(maxTurns: nat, id: Uuid, w: Worker)
    requires w.pc == AskSave
    ensures SavesAs(maxTurns, id, w, w.turn.(approval := Some(id)), AwaitingApproval, w.advanced, CallTop)
  {
  }

  lemma {:induction false} ResultSaves(maxTurns: nat, id: Uuid, w: Worker)
    requires w.pc.ResultSave?
    requires CurrentCall(w.turn).Some?
    ensures SavesAs(maxTurns, id, w, Answered(w.turn, w.pc.result), Ready, w.advanced, ResultPublish)
  {
  }

  lemma {:induction false} AdvanceSaves(maxTurns: nat, id: Uuid, w: Worker)
    requires w.pc == AdvanceSave
    ensures SavesAs(maxTurns, id, w, w.turn.(callIndex := w.turn.callIndex + 1, approval := None), Ready, true, CallLoop(w.turn.(callIndex := w.turn.callIndex + 1, approval := None)))
  {
  }

  lemma {:induction false} RoundSaves(maxTurns: nat, id: Uuid, w: Worker)
    requires w.pc == RoundSave
    ensures SavesAs(maxTurns, id, w, w.turn.(pending := None), Ready, w.advanced, Top)
  {
  }

  lemma {:induction false} CancelSaves(maxTurns: nat, id: Uuid, w: Worker)
    requires w.pc.CancelSave?
    ensures SavesAs(maxTurns, id, w, w.turn.(cancellation := Some(w.pc.how)), Cancelled, w.advanced, TerminalPublish(Cancelled))
  {
  }

  lemma {:induction false} FailSaves(maxTurns: nat, id: Uuid, w: Worker)
    requires w.pc.FailSave?
    ensures SavesAs(maxTurns, id, w, w.turn.(error := Some(w.pc.why)), Failed, w.advanced, TerminalPc(Failed, w.turn.(error := Some(w.pc.why))))
  {
  }

  // Publications.

  lemma {:induction false} SpeakEmits(maxTurns: nat, id: Uuid, w: Worker)
    requires w.pc == Speak
    requires w.turn.pending.Some? && w.turn.pending.value.text
    ensures EmitsAs(maxTurns, id, w, Proceed, Text(w.turn.round), if w.turn.pending.value.calls == [] then DoneSave else CallLoop(w.turn))
  {
  }

  lemma {:induction false} AnnounceEmits(maxTurns: nat, id: Uuid, w: Worker)
    requires w.pc == Announce
    ensures EmitsAs(maxTurns, id, w, Proceed, Called(w.turn.round, w.turn.callIndex), if w.turn.approval.Some? then ReadApproval else AfterApproval(w.turn, None))
  {
  }

  lemma {:induction false} AskEmits(maxTurns: nat, id: Uuid, w: Worker)
    requires w.pc == AskPublish
    ensures EmitsAs(maxTurns, id, w, Proceed, Asked(w.turn.round, w.turn.callIndex), PausePublish)
  {
  }

  lemma {:induction false} PauseEmits(maxTurns: nat, id: Uuid, w: Worker)
    requires w.pc == PausePublish
    ensures EmitsAs(maxTurns, id, w, Proceed, Paused(w.turn.round, w.turn.callIndex), Exit(Finishing(AwaitingApproval)))
  {
  }

  lemma {:induction false} DecisionEmits(maxTurns: nat, id: Uuid, w: Worker)
    requires w.pc.DecisionPublish?
    ensures EmitsAs(maxTurns, id, w, Proceed, Decided(w.turn.round, w.turn.callIndex), AfterApproval(w.turn, Some(w.pc.approved)))
  {
  }

  lemma {:induction false} ResultEmits(maxTurns: nat, id: Uuid, w: Worker)
    requires w.pc == ResultPublish
    ensures EmitsAs(maxTurns, id, w, Proceed, Returned(w.turn.round, w.turn.callIndex), AdvanceSave)
  {
  }

  lemma {:induction false} NoticeEmits(maxTurns: nat, id: Uuid, w: Worker)
    requires w.pc.NoticePublish?
    ensures EmitsAs(maxTurns, id, w, Proceed, if w.turn.error.Some? then ErrorPart else Text(w.turn.round), TerminalPublish(w.pc.last))
  {
  }

  lemma {:induction false} TerminalEmits(maxTurns: nat, id: Uuid, w: Worker)
    requires w.pc.TerminalPublish?
    ensures EmitsAs(maxTurns, id, w, Proceed, TerminalPart, Exit(Finishing(w.pc.last)))
  {
  }

  lemma {:induction false} ReceiptEmits(maxTurns: nat, id: Uuid, w: Worker, index: nat)
    requires w.pc == CancelPublish
    ensures EmitsAs(maxTurns, id, w, Receipt(index), Returned(w.turn.round, index), CancelPublish)
  {
  }

  /** After the greeting: the photo must be the accepted one, and still be here. */
  function GreetNext(w: Worker, mismatch: bool): Pc {
    if w.photo && w.turn.round == 0 && !w.turn.submitted && mismatch then BudgetCheck(Budget)
    else if w.turn.hadImage && w.turn.round == 0 && !w.photo && !w.turn.submitted then FailSave(ImageResubmission)
    else Top
  }

  lemma {:induction false} GreetEmits(maxTurns: nat, id: Uuid, w: Worker, mismatch: bool)
    requires w.pc == Greet
    ensures EmitsAs(maxTurns, id, w, if mismatch then BudgetRefused else Proceed, User, GreetNext(w, mismatch))
  {
  }

  /** The answered call: its result is stored in the call and joins the exchanges. */
  function Answered(turn: Turn, result: Outcome): Turn
    requires CurrentCall(turn).Some?
  {
    var call := CurrentCall(turn).value;
    WithCall(turn, call.(result := Some(result))).(exchanges := turn.exchanges + [ToolResult(call.tool, call.part, result)])
  }

  // External calls and choices.

  lemma {:induction false} SubmitActs(maxTurns: nat, id: Uuid, w: Worker, input: Input)
    requires w.pc == Submit
    ensures var paid := [Model(w.turn.round)];
            && (w.background && input.ResponseStarted? ==> ActsAs(maxTurns, id, w, input, paid, StartedSave(input.id)))
            && (!w.background && input.ModelTurn? ==> ActsAs(maxTurns, id, w, input, paid, TurnSave(input.output, PendingOf(input))))
            && ActsAs(maxTurns, id, w, BudgetRefused, paid, BudgetCheck(Budget))
            && ActsAs(maxTurns, id, w, CallFailed, paid, Exit(Raising(Crashed, 0)))
  {
  }

  lemma {:induction false} RetrieveActs(maxTurns: nat, id: Uuid, w: Worker, input: Input)
    requires w.pc == Retrieve
    ensures input.ModelTurn? ==> ActsAs(maxTurns, id, w, input, [], TurnSave(input.output, PendingOf(input)))
    ensures ActsAs(maxTurns, id, w, NotReady, [], PollSave)
    ensures ActsAs(maxTurns, id, w, BudgetRefused, [], BudgetCheck(Budget))
    ensures ActsAs(maxTurns, id, w, CallFailed, [], Exit(Raising(Crashed, 0)))
  {
  }

  lemma {:induction false} SpeakActs(maxTurns: nat, id: Uuid, w: Worker)
    requires w.pc == Speak && w.turn.pending.Some? && !w.turn.pending.value.text
    ensures ActsAs(maxTurns, id, w, Proceed, [], if w.turn.pending.value.calls == [] then DoneSave else CallLoop(w.turn))
  {
  }

  /** The call may not be made: it was under way before, or an earlier one was interrupted. */
  predicate Interrupted(turn: Turn, call: Call) {
    call.retrievalStarted || (IsLookup(call.tool) && LookupInterrupted(turn.exchanges, call.tool, call.part))
  }

  lemma {:induction false} ExecuteActs(maxTurns: nat, id: Uuid, w: Worker, outcome: Outcome)
    requires w.pc.Execute? && CurrentCall(w.turn).Some?
    ensures var call, approval := CurrentCall(w.turn).value, w.pc.approval;
            && (approval == Some(false) ==> ActsAs(maxTurns, id, w, Proceed, [], ResultSave(Refused(ApprovalDenied))))
            && (approval == None && Interrupted(w.turn, call) ==>
                  ActsAs(maxTurns, id, w, Proceed, [], ResultSave(Refused(RetrievalInterrupted))))
            && (approval == None && !Interrupted(w.turn, call) && IsLookup(call.tool) ==>
                  ActsAs(maxTurns, id, w, Proceed, [], LookupFence))
            && (approval == Some(true) || (approval == None && !Interrupted(w.turn, call) && !IsLookup(call.tool)) ==>
                  && ActsAs(maxTurns, id, w, ToolOutcome(outcome), [], OutcomePc(outcome))
                  && ActsAs(maxTurns, id, w, CallFailed, [], Exit(Raising(Crashed, 0))))
  {
  }

  lemma {:induction false} LookupActs(maxTurns: nat, id: Uuid, w: Worker, outcome: Outcome)
    requires w.pc == LookupCall
    ensures var paid := [Retrieval(w.turn.round, w.turn.callIndex)];
            && ActsAs(maxTurns, id, w, ToolOutcome(outcome), paid, OutcomePc(outcome))
            && ActsAs(maxTurns, id, w, CallFailed, paid, Exit(Raising(Crashed, 0)))
  {
  }

  lemma {:induction false} CancelActs(maxTurns: nat, id: Uuid, w: Worker)
    requires w.pc == CancelPublish
    ensures ActsAs(maxTurns, id, w, Proceed, [],
              if w.turn.response.Some? then CancelCall
              else CancelSave(if w.turn.submitted then SubmissionUncertainAtCancel else NoInflightResponse))
  {
  }

  lemma {:induction false} ProviderActs(maxTurns: nat, id: Uuid, w: Worker)
    requires w.pc == CancelCall
    ensures ActsAs(maxTurns, id, w, Proceed, [], CancelSave(ProviderCancelled))
    ensures ActsAs(maxTurns, id, w, CallFailed, [], Exit(Raising(Crashed, 0)))
  {
  }

  // Steps that read or write a table themselves.

  lemma {:induction false} SaveStep(maxTurns: nat, id: Uuid, w: Worker, turn: Turn, status: Status, advanced: bool, next: Pc, st: Tables)
    requires SavesAs(maxTurns, id, w, turn, status, advanced, next)
    ensures var move := Step(st, maxTurns, id, w, Proceed);
            && Paid(move) == []
            && match Saved(st, w.execution, id, turn, status)
               case Failure(_) => move.st == st && move.worker == Some(w.(advanced := advanced, pc := Exit(Raising(Crashed, 0))))
               case Success(st') => move.st == st' && move.worker == Some(w.(turn := turn, advanced := advanced, pc := next))
  {
    assert SavesOn(maxTurns, id, w, turn, status, advanced, next, st);
  }

  lemma {:induction false} ClaimStep(maxTurns: nat, id: Uuid, w: Worker, st: Tables)
    requires w.pc == Start
    ensures var move := Step(st, maxTurns, id, w, Proceed);
            && Paid(move) == []
            && match ExecutionClaimed(st, w.thread, w.execution, id)
               case Failure(why) =>
                 && move.st == st
                 && move.worker == Some(w.(pc := Ack(if why.Busy? then Raising(ExecutionBusy, why.retryAfter) else Raising(Crashed, 0))))
               case Success(st') =>
                 var x := st.executions[w.execution];
                 && move.st == st'
                 && move.worker == Some(w.(turn := x.context, pc := if Terminal(x.status) then TerminalPc(x.status, x.context) else Enter))
  {
  }

  lemma {:induction false} ReadStep(maxTurns: nat, id: Uuid, w: Worker, st: Tables)
    requires w.pc == ReadApproval && w.turn.approval.Some?
    ensures var move := Step(st, maxTurns, id, w, Proceed);
            && Paid(move) == [] && move.st == st
            && move.worker == Some(w.(pc :=
                 if w.turn.approval.value !in st.decisions then Exit(Raising(Crashed, 0))
                 else if st.decisions[w.turn.approval.value] == None then AskPublish
                 else Redecide(st.decisions[w.turn.approval.value].value)))
  {
  }

  /** The stored decision is the one being repeated, and its execution is not cancelled. */
  predicate Repeatable(decisions: map<Uuid, Option<bool>>, approvalOf: map<Uuid, ExecutionId>, cancelled: set<ExecutionId>,
                       request: Uuid, approved: bool) {
    && request in decisions && decisions[request] == Some(approved)
    && !(request in approvalOf && approvalOf[request] in cancelled)
  }

  lemma {:induction false} RedecideStep(maxTurns: nat, id: Uuid, w: Worker, st: Tables)
    requires w.pc.Redecide? && w.turn.approval.Some?
    ensures var move := Step(st, maxTurns, id, w, Proceed);
            && Paid(move) == [] && move.st == st
            && move.worker == Some(w.(pc :=
                 if Repeatable(st.decisions, st.approvalOf, st.cancelled, w.turn.approval.value, w.pc.approved)
                 then DecisionPublish(w.pc.approved) else Exit(Raising(Crashed, 0))))
  {
  }

  lemma {:induction false} AskStep(maxTurns: nat, id: Uuid, w: Worker, st: Tables)
    requires w.pc == AskInsert
    ensures var move := Step(st, maxTurns, id, w, Proceed);
            && Paid(move) == []
            && (id in st.decisions ==> move.st == st && move.worker == Some(w.(pc := Exit(Raising(Crashed, 0)))))
            && (id !in st.decisions ==> move.st == st.(decisions := st.decisions[id := None]) && move.worker == Some(w.(pc := AskSave)))
  {
  }

  lemma {:induction false} BudgetStep(maxTurns: nat, id: Uuid, w: Worker, st: Tables)
    requires w.pc.BudgetCheck?
    ensures var move := Step(st, maxTurns, id, w, Proceed);
            && Paid(move) == [] && move.st == st
            && move.worker == Some(w.(pc := if w.execution in st.cancelled then CancelPublish else FailSave(w.pc.why)))
  {
  }

  lemma {:induction false} ExitStep(maxTurns: nat, id: Uuid, w: Worker, st: Tables)
    requires w.pc.Exit?
    ensures var move := Step(st, maxTurns, id, w, Proceed);
            && Paid(move) == [] && move.st == Released(st, w.execution, id)
            && move.worker == Some(w.(pc := Ack(w.pc.ending)))
  {
  }

  lemma {:induction false} AckStep(maxTurns: nat, id: Uuid, w: Worker, st: Tables)
    requires w.pc.Ack?
    ensures var move, ending := Step(st, maxTurns, id, w, Proceed), w.pc.ending;
            && Paid(move) == [] && move.worker == None
            && move.st == Finished(st, w.execution, id, w.version, if ending.Raising? then Some(ending.kind) else None,
                                   if ending.Raising? then ending.retryAfter else 0)
  {
  }

  /** One delivery: `run_delivery` around `_run`, with the `_TurnState` it mutates. */
  class StageRun {
    const repository: PostgresRepository
    const delivery: DeliveryRow
    const photo: bool
    const background: bool
    const maxTurns: nat
    var turn: Turn
    var advanced: bool
    var made: seq<Slot>              // external calls, oldest first
    ghost const first: Worker
    ghost var machine: Option<Worker>
    ghost var steps: seq<Crossing>

    ghost predicate Valid()
      reads this
    {
      Walk(maxTurns, delivery.token, first, steps, made, machine)
    }

    /** The machine stands at `pc` with this object's turn. */
    ghost predicate At(pc: Pc)
      reads this
    {
      && Valid()
      && machine == Some(Worker(delivery.thread, delivery.execution, delivery.version, photo, background, pc, turn, advanced))
    }

    /** The same, but the turn may have been changed since. */
    ghost predicate Before(pc: Pc)
      reads this
    {
      && Valid() && machine.Some? && machine.value.pc == pc
      && machine.value.thread == delivery.thread
      && machine.value.execution == delivery.execution
      && machine.value.version == delivery.version
    }

    ghost predicate Departed(departure: Departure)
      reads this
    {
      match departure
      case Ended(ending) => Before(Exit(ending))
      case Cancelling => At(CancelPublish)
      case OverBudget(why) => At(BudgetCheck(why))
    }

    constructor (repository: PostgresRepository, delivery: DeliveryRow, photo: bool, background: bool, maxTurns: nat)
      requires delivery.execution in repository.executions
      ensures this.repository == repository && this.delivery == delivery && this.maxTurns == maxTurns
      ensures first == Worker(delivery.thread, delivery.execution, delivery.version, photo, background, Start,
                              repository.executions[delivery.execution].context, false)
      ensures steps == [] && made == [] && At(Start) && !advanced
    {
      var context := repository.executions[delivery.execution].context;
      this.repository, this.delivery, this.photo, this.background := repository, delivery, photo, background;
      this.maxTurns := maxTurns;
      turn, advanced, made := context, false, [];
      first := Worker(delivery.thread, delivery.execution, delivery.version, photo, background, Start, context, false);
      machine := Some(Worker(delivery.thread, delivery.execution, delivery.version, photo, background, Start, context, false));
      steps := [];
    }

    // ----- the world around the worker -----

    /** Time passes and anybody may write; approval requests are never deleted. */
    method Others()
      modifies repository, repository.conversations
      ensures old(repository.decisions).Keys <= repository.decisions.Keys
    {
      var decisions: map<Uuid, Option<bool>> := *;
      repository.decisions := repository.decisions + decisions;
      repository.now, repository.executions, repository.dispatch, repository.cancelled := *, *, *, *;
      repository.approvalOf, repository.inbox := *, *;
      repository.conversations.threads, repository.conversations.rows, repository.conversations.keys := *, *, *;
    }

    /** The machine takes the step that has just been carried out. */
    ghost method Cross(before: Tables, input: Input, was: seq<Slot>)
      requires machine.Some? && Walk(maxTurns, delivery.token, first, steps, was, machine)
      requires var move := Step(before, maxTurns, delivery.token, machine.value, input);
               move.st == repository.Snapshot() && made == was + Paid(move)
      modifies `machine, `steps
      ensures Valid()
      ensures machine == Step(before, maxTurns, delivery.token, old(machine).value, input).worker
    {
      var move := Step(before, maxTurns, delivery.token, machine.value, input);
      var crossing := Crossing(before, input, repository.Snapshot());
      WalkOn(maxTurns, delivery.token, first, steps, was, machine.value, crossing, Paid(move), move.worker);
      machine, steps := move.worker, steps + [crossing];
    }

    // ----- closures of _run -----

    /** `save(status)`, after the turn was changed. */
    method Save(status: Status, ghost advances: bool, ghost next: Pc) returns (ok: bool)
      requires machine.Some? && Before(machine.value.pc)
      requires SavesAs(maxTurns, delivery.token, machine.value, turn, status, advances, next)
      modifies repository, repository.conversations, `machine, `steps
      ensures Valid() && old(repository.decisions).Keys <= repository.decisions.Keys
      ensures ok ==> machine == Some(old(machine).value.(turn := turn, advanced := advances, pc := next))
      ensures !ok ==> Departed(RAISED)
    {
      Others();
      ghost var st := repository.Snapshot();
      var error := repository.Save(delivery.execution, delivery.token, turn, status);
      SaveStep(maxTurns, delivery.token, machine.value, turn, status, advances, next, st);
      Cross(st, Proceed, made);
      return error == None;
    }

    method Emit(part: Part, ghost input: Input, ghost next: Pc) returns (ok: bool)
      requires machine.Some? && Before(machine.value.pc)
      requires EmitsAs(maxTurns, delivery.token, machine.value, input, part, next)
      modifies repository, repository.conversations, `machine, `steps
      ensures Valid() && old(repository.decisions).Keys <= repository.decisions.Keys
      ensures ok ==> machine == Some(old(machine).value.(pc := next))
      ensures !ok ==> Departed(RAISED)
    {
      Others();
      ghost var st := repository.Snapshot();
      var error := repository.Publish(delivery.thread, Key(delivery.execution, part));
      assert EmitsOn(maxTurns, delivery.token, machine.value, input, part, next, st);
      Cross(st, input, made);
      return error == None;
    }

    /** `begin_stage`: go on, or leave through an exception or through `cancel`. */
    method BeginStage(ghost next: Pc) returns (left: Option<Departure>)
      requires machine.Some? && Before(machine.value.pc)
      requires StagesAs(maxTurns, delivery.token, machine.value, next)
      modifies repository, repository.conversations, `machine, `steps
      ensures Valid() && old(repository.decisions).Keys <= repository.decisions.Keys
      ensures match left
              case None => machine == Some(old(machine).value.(pc := next))
              case Some(departure) =>
                || (departure == RAISED && Departed(RAISED))
                || (departure == Cancelling && machine == Some(old(machine).value.(pc := CancelPublish)))
    {
      Others();
      ghost var st := repository.Snapshot();
      var go := repository.BeginStage(delivery.execution, delivery.token);
      assert StagesOn(maxTurns, delivery.token, machine.value, next, st);
      Cross(st, Proceed, made);
      return if go.Failure? then Some(RAISED) else if go.value then None else Some(Cancelling);
    }

    /** An external call, or a choice that touches no table; `paid` says which calls it makes. */
    method Act(paid: seq<Slot>, ghost input: Input, ghost next: Pc)
      requires Valid() && machine.Some?
      requires ActsAs(maxTurns, delivery.token, machine.value, input, paid, next)
      modifies repository, repository.conversations, `made, `machine, `steps
      ensures Valid() && old(repository.decisions).Keys <= repository.decisions.Keys
      ensures machine == Some(old(machine).value.(pc := next)) && made == old(made) + paid
    {
      Others();
      ghost var was := made;
      made := made + paid;
      assert ActsOn(maxTurns, delivery.token, machine.value, input, paid, next, repository.Snapshot());
      Cross(repository.Snapshot(), input, was);
    }

    /** `terminal(status)`. */
    method TerminalEnd(status: Status) returns (departure: Departure)
      requires At(TerminalPc(status, turn))
      modifies repository, repository.conversations, `machine, `steps
      ensures Departed(departure)
      ensures departure == RAISED || departure == Ended(Finishing(status))
    {
      if status != Cancelled {
        if turn.error.Some? || (turn.pending.Some? && turn.pending.value.text) {
          NoticeEmits(maxTurns, delivery.token, machine.value);
          var ok := Emit(if turn.error.Some? then ErrorPart else Text(turn.round), Proceed, TerminalPublish(status));
          if !ok { return RAISED; }
        }
      }
      TerminalEmits(maxTurns, delivery.token, machine.value);
      var ok := Emit(TerminalPart, Proceed, Exit(Finishing(status)));
      return if ok then Ended(Finishing(status)) else RAISED;
    }

    /** `save("failed")` and `terminal("failed")`. */
    method Fail(why: TurnError) returns (departure: Departure)
      requires At(FailSave(why))
      modifies repository, repository.conversations, this
      ensures Departed(departure) && departure.Ended?
    {
      FailSaves(maxTurns, delivery.token, machine.value);
      turn := turn.(error := Some(why));
      var ok := Save(Failed, advanced, TerminalPc(Failed, turn));
      if !ok { return RAISED; }
      departure := TerminalEnd(Failed);
    }

    /** `cancel()`: republish committed results, cancel at the provider, end. */
    method Cancel() returns (departure: Departure)
      requires At(CancelPublish)
      modifies repository, repository.conversations, this
      ensures Departed(departure) && departure.Ended?
    {
      var ok := Republish();
      if !ok { return RAISED; }
      var how;
      ok, how := CancelResponse();
      if !ok { return RAISED; }
      CancelSaves(maxTurns, delivery.token, machine.value);
      turn := turn.(cancellation := Some(how));
      ok := Save(Cancelled, advanced, TerminalPublish(Cancelled));
      if !ok { return RAISED; }
      departure := TerminalEnd(Cancelled);
    }

    /** `transport.cancel`, if a response is in flight. */
    method CancelResponse() returns (ok: bool, how: CancelOutcome)
      requires At(CancelPublish)
      modifies repository, repository.conversations, `made, `machine, `steps
      ensures if ok then At(CancelSave(how)) else Departed(RAISED)
    {
      CancelActs(maxTurns, delivery.token, machine.value);
      how := if turn.submitted then SubmissionUncertainAtCancel else NoInflightResponse;
      if turn.response == None {
        Act([], Proceed, CancelSave(how));
        return true, how;
      }
      Act([], Proceed, CancelCall);
      var failed: bool := *;
      ProviderActs(maxTurns, delivery.token, machine.value);
      if failed {
        Act([], CallFailed, Exit(Raising(Crashed, 0)));
        return false, how;
      }
      Act([], Proceed, CancelSave(ProviderCancelled));
      return true, ProviderCancelled;
    }

    method Republish() returns (ok: bool)
      requires At(CancelPublish)
      modifies repository, repository.conversations, `machine, `steps
      ensures if ok then At(CancelPublish) else Departed(RAISED)
    {
      if turn.pending == None { return true; }
      var calls := turn.pending.value.calls;
      for index := 0 to |calls|
        invariant At(CancelPublish)
      {
        var receipt: bool := *;
        if calls[index].result.Some? || receipt {
          ReceiptEmits(maxTurns, delivery.token, machine.value, index);
          ok := Emit(Returned(turn.round, index), Receipt(index), CancelPublish);
          if !ok { return; }
        }
      }
      return true;
    }

    // ----- the model half of the outer loop -----

    /** From an authorised stage without a turn to a saved model turn. */
    method ObtainTurn() returns (left: Option<Departure>)
      requires turn.pending == None && !advanced && machine.Some? && At(TopChoice(machine.value, maxTurns))
      modifies repository, repository.conversations, this
      ensures left.Some? ==> Departed(left.value)
      ensures left == None ==> At(Pc.Stage) && advanced && turn.pending.Some? && turn.callIndex == 0
    {
      if turn.round >= maxTurns {
        var failed := Fail(ToolLoopLimit);
        return Some(failed);
      }
      var output, pending;
      if turn.submitted {
        if turn.response == None { return Some(OverBudget(SubmissionUncertain)); }
        left, output, pending := Poll();
      } else {
        FenceSaves(maxTurns, delivery.token, machine.value);
        turn := turn.(submitted := true);
        var ok := Save(Ready, advanced, Submit);
        if !ok { return Some(RAISED); }
        if background {
          var departure := StartResponse();
          return Some(departure);
        }
        left, output, pending := Complete();
      }
      if left == None { left := KeepTurn(output, pending); }
    }

    /** `transport.retrieve`. */
    method Poll() returns (left: Option<Departure>, output: bool, pending: Pending)
      requires At(Pc.Retrieve)
      modifies repository, repository.conversations, this
      ensures turn == old(turn) && advanced == old(advanced)
      ensures left.Some? ==> Departed(left.value)
      ensures left == None ==> At(TurnSave(output, pending))
    {
      pending := Pending(false, []);
      var input: Input := *;
      RetrieveActs(maxTurns, delivery.token, machine.value, input);
      if input.ModelTurn? {
        output, pending := input.output, PendingOf(input);
        Act([], input, TurnSave(output, pending));
        return None, output, pending;
      }
      if input.NotReady? {
        Act([], NotReady, PollSave);
        PollSaves(maxTurns, delivery.token, machine.value);
        var ok := Save(WaitingModel, advanced, Exit(Finishing(WaitingModel)));
        return Some(if ok then Ended(Finishing(WaitingModel)) else RAISED), false, pending;
      }
      if input.BudgetRefused? {
        Act([], BudgetRefused, BudgetCheck(Budget));
        return Some(OverBudget(Budget)), false, pending;
      }
      Act([], CallFailed, Exit(Raising(Crashed, 0)));
      return Some(RAISED), false, pending;
    }

    /** `transport.start`, behind its fence. */
    method StartResponse() returns (departure: Departure)
      requires At(Submit) && background
      modifies repository, repository.conversations, this
      ensures Departed(departure)
      ensures made == old(made) + [Model(old(turn).round)]
    {
      var input: Input := *;
      SubmitActs(maxTurns, delivery.token, machine.value, input);
      if input.ResponseStarted? {
        Act([Model(turn.round)], input, StartedSave(input.id));
        StartedSaves(maxTurns, delivery.token, machine.value);
        turn := turn.(response := Some(input.id));
        var ok := Save(WaitingModel, advanced, Exit(Finishing(WaitingModel)));
        return if ok then Ended(Finishing(WaitingModel)) else RAISED;
      }
      if input.BudgetRefused? {
        Act([Model(turn.round)], BudgetRefused, BudgetCheck(Budget));
        return OverBudget(Budget);
      }
      Act([Model(turn.round)], CallFailed, Exit(Raising(Crashed, 0)));
      return RAISED;
    }

    /** `transport.complete`, behind its fence. */
    method Complete() returns (left: Option<Departure>, output: bool, pending: Pending)
      requires At(Submit) && !background
      modifies repository, repository.conversations, this
      ensures turn == old(turn) && advanced == old(advanced)
      ensures made == old(made) + [Model(turn.round)]
      ensures left.Some? ==> Departed(left.value)
      ensures left == None ==> At(TurnSave(output, pending))
    {
      pending := Pending(false, []);
      var input: Input := *;
      SubmitActs(maxTurns, delivery.token, machine.value, input);
      if input.ModelTurn? {
        output, pending := input.output, PendingOf(input);
        Act([Model(turn.round)], input, TurnSave(output, pending));
        return None, output, pending;
      }
      if input.BudgetRefused? {
        Act([Model(turn.round)], BudgetRefused, BudgetCheck(Budget));
        return Some(OverBudget(Budget)), false, pending;
      }
      Act([Model(turn.round)], CallFailed, Exit(Raising(Crashed, 0)));
      return Some(RAISED), false, pending;
    }

    /** Persist the model output before any effect. */
    method KeepTurn(output: bool, pending: Pending) returns (left: Option<Departure>)
      requires At(TurnSave(output, pending))
      modifies repository, repository.conversations, this
      ensures left.Some? ==> Departed(left.value)
      ensures left == None ==> At(Pc.Stage) && advanced && turn.pending.Some? && turn.callIndex == 0
    {
      TurnSaves(maxTurns, delivery.token, machine.value);
      if output { turn := turn.(exchanges := turn.exchanges + [ModelOutput]); }
      turn := turn.(round := turn.round + 1);
      turn := turn.(pending := Some(pending), callIndex := 0);
      turn := turn.(response := None, submitted := false);
      var ok := Save(Ready, true, Pc.Stage);
      if !ok { return Some(RAISED); }
      advanced := true;
      return None;
    }

    // ----- the inner loop over the calls of a turn -----

    /** The decision on the pending approval, once it may be acted on. */
    method ReadDecision() returns (left: Option<Departure>, approved: bool)
      requires At(ReadApproval) && turn.approval.Some?
      modifies repository, repository.conversations, `machine, `steps
      ensures old(repository.decisions).Keys <= repository.decisions.Keys
      ensures left.Some? ==> Departed(left.value)
      ensures left == None ==> At(AfterApproval(turn, Some(approved)))
    {
      Others();
      var request := turn.approval.value;
      ReadStep(maxTurns, delivery.token, machine.value, repository.Snapshot());
      Cross(repository.Snapshot(), Proceed, made);
      if request !in repository.decisions { return Some(RAISED), false; }
      var decision := repository.decisions[request];
      if decision == None {
        var departure := Pause();
        return Some(departure), false;
      }
      left := Redecide(decision.value);
      return left, decision.value;
    }

    /** `ApprovalEngine.decide` repeats the stored decision; a cancelled execution refuses it. */
    method Redecide(approved: bool) returns (left: Option<Departure>)
      requires At(Pc.Redecide(approved)) && turn.approval.Some?
      modifies repository, repository.conversations, `machine, `steps
      ensures old(repository.decisions).Keys <= repository.decisions.Keys
      ensures left.Some? ==> Departed(left.value)
      ensures left == None ==> At(AfterApproval(turn, Some(approved)))
    {
      Others();
      RedecideStep(maxTurns, delivery.token, machine.value, repository.Snapshot());
      Cross(repository.Snapshot(), Proceed, made);
      if !Repeatable(repository.decisions, repository.approvalOf, repository.cancelled, turn.approval.value, approved) {
        return Some(RAISED);
      }
      DecisionEmits(maxTurns, delivery.token, machine.value);
      var ok := Emit(Decided(turn.round, turn.callIndex), Proceed, AfterApproval(turn, Some(approved)));
      return if ok then None else Some(RAISED);
    }

    method Pause() returns (departure: Departure)
      requires At(AskPublish)
      modifies repository, repository.conversations, `machine, `steps
      ensures old(repository.decisions).Keys <= repository.decisions.Keys
      ensures Departed(departure)
    {
      AskEmits(maxTurns, delivery.token, machine.value);
      var ok := Emit(Asked(turn.round, turn.callIndex), Proceed, PausePublish);
      if !ok { return RAISED; }
      PauseEmits(maxTurns, delivery.token, machine.value);
      ok := Emit(Paused(turn.round, turn.callIndex), Proceed, Exit(Finishing(AwaitingApproval)));
      return if ok then Ended(Finishing(AwaitingApproval)) else RAISED;
    }

    /** `_lookup_interrupted`. */
    method WasInterrupted(exchanges: seq<Exchange>, tool: Tool, part: Option<nat>) returns (found: bool)
      ensures found == LookupInterrupted(exchanges, tool, part)
    {
      for i := 0 to |exchanges|
        invariant !LookupInterrupted(exchanges[..i], tool, part)
      {
        assert forall j :: 0 <= j < i ==> exchanges[..i][j] == exchanges[j];
        if exchanges[i].ToolResult? {
          if exchanges[i].tool == tool && exchanges[i].part == part && exchanges[i].outcome == Refused(RetrievalInterrupted) {
            return true;
          }
          if tool == LookupPartSpecs && exchanges[i].tool == AddPart && exchanges[i].outcome.Okay?
             && exchanges[i].outcome.created == part && exchanges[i].outcome.enrichmentInterrupted {
            return true;
          }
        }
      }
      assert exchanges[..|exchanges|] == exchanges;
      return false;
    }

    /** Answer the current call: decline, refuse a repeated lookup, or execute. */
    method Execute(approval: Option<bool>) returns (left: Option<Departure>, outcome: Outcome)
      requires At(Pc.Execute(approval)) && CurrentCall(turn).Some?
      modifies repository, repository.conversations, this
      ensures advanced == old(advanced) && old(repository.decisions).Keys <= repository.decisions.Keys
      ensures left.Some? ==> Departed(left.value)
      ensures left == None ==> At(OutcomePc(outcome)) && CurrentCall(turn).Some?
    {
      var call := CurrentCall(turn).value;
      var answer: Outcome := *;
      ExecuteActs(maxTurns, delivery.token, machine.value, answer);
      if approval == Some(false) {
        outcome := Refused(ApprovalDenied);
        Act([], Proceed, Pc.ResultSave(outcome));
        return None, outcome;
      }
      if approval == None {
        var interrupted := call.retrievalStarted;
        if !interrupted && IsLookup(call.tool) { interrupted := WasInterrupted(turn.exchanges, call.tool, call.part); }
        if interrupted {
          outcome := Refused(RetrievalInterrupted);
          Act([], Proceed, Pc.ResultSave(outcome));
          return None, outcome;
        }
        if IsLookup(call.tool) {
          Act([], Proceed, LookupFence);
          left, outcome := Retrieve();
          return;
        }
      }
      var failed: bool := *;
      if failed {
        Act([], CallFailed, Exit(Raising(Crashed, 0)));
        return Some(RAISED), answer;
      }
      Act([], ToolOutcome(answer), OutcomePc(answer));
      return None, answer;
    }

    /** A lookup or ingest call, behind its fence. */
    method Retrieve() returns (left: Option<Departure>, outcome: Outcome)
      requires At(LookupFence) && CurrentCall(turn).Some?
      modifies repository, repository.conversations, this
      ensures advanced == old(advanced) && old(repository.decisions).Keys <= repository.decisions.Keys
      ensures left.Some? ==> Departed(left.value)
      ensures left == None ==> At(OutcomePc(outcome)) && CurrentCall(turn).Some?
    {
      var fenced := FenceLookup();
      if fenced { left, outcome := Lookup(); } else { left, outcome := Some(RAISED), *; }
    }

    method FenceLookup() returns (ok: bool)
      requires At(LookupFence) && CurrentCall(turn).Some?
      modifies repository, repository.conversations, this
      ensures advanced == old(advanced) && old(repository.decisions).Keys <= repository.decisions.Keys
      ensures if ok then At(LookupCall) && CurrentCall(turn).Some? else Departed(RAISED)
    {
      LookupSaves(maxTurns, delivery.token, machine.value);
      turn := WithCall(turn, CurrentCall(turn).value.(retrievalStarted := true));
      ok := Save(Ready, advanced, LookupCall);
    }

    method Lookup() returns (left: Option<Departure>, outcome: Outcome)
      requires At(LookupCall)
      modifies repository, repository.conversations, `made, `machine, `steps
      ensures old(repository.decisions).Keys <= repository.decisions.Keys
      ensures made == old(made) + [Retrieval(turn.round, turn.callIndex)]
      ensures left.Some? ==> Departed(left.value)
      ensures left == None ==> At(OutcomePc(outcome))
    {
      outcome := *;
      LookupActs(maxTurns, delivery.token, machine.value, outcome);
      var failed: bool := *;
      if failed {
        Act([Retrieval(turn.round, turn.callIndex)], CallFailed, Exit(Raising(Crashed, 0)));
        return Some(RAISED), outcome;
      }
      Act([Retrieval(turn.round, turn.callIndex)], ToolOutcome(outcome), OutcomePc(outcome));
      return None, outcome;
    }

    /** Store an approval request and come back to the call with it. */
    method RequestApproval() returns (left: Option<Departure>)
      requires At(AskInsert)
      modifies repository, repository.conversations, this
      ensures advanced == old(advanced) && old(repository.decisions).Keys <= repository.decisions.Keys
      ensures left.Some? ==> Departed(left.value)
      ensures left == None ==> turn == old(turn).(approval := Some(delivery.token)) && At(CallTop)
      ensures left == None ==> delivery.token !in old(repository.decisions) && delivery.token in repository.decisions
    {
      var stored := StoreRequest();
      if !stored { return Some(RAISED); }
      AskSaves(maxTurns, delivery.token, machine.value);
      turn := turn.(approval := Some(delivery.token));
      var ok := Save(AwaitingApproval, advanced, CallTop);
      return if ok then None else Some(RAISED);
    }

    /** `approvals.request`: an insert, refused when the key is taken. */
    method StoreRequest() returns (ok: bool)
      requires At(AskInsert)
      modifies repository, repository.conversations, `machine, `steps
      ensures old(repository.decisions).Keys <= repository.decisions.Keys
      ensures if ok then At(AskSave) && delivery.token !in old(repository.decisions) && delivery.token in repository.decisions
              else Departed(RAISED)
    {
      Others();
      ghost var st := repository.Snapshot();
      AskStep(maxTurns, delivery.token, machine.value, st);
      ok := delivery.token !in repository.decisions;
      if ok { repository.decisions := repository.decisions[delivery.token := None]; }
      Cross(st, Proceed, made);
    }

    /** Make the result durable before publishing it; the cursor moves afterwards. */
    method Answer(outcome: Outcome) returns (left: Option<Departure>)
      requires At(Pc.ResultSave(outcome)) && CurrentCall(turn).Some?
      modifies repository, repository.conversations, this
      ensures advanced == old(advanced)
      ensures left.Some? ==> Departed(left.value)
      ensures left == None ==> At(ResultPublish) && turn.pending.Some?
    {
      ResultSaves(maxTurns, delivery.token, machine.value);
      var call := CurrentCall(turn).value;
      turn := WithCall(turn, call.(result := Some(outcome)));
      turn := turn.(exchanges := turn.exchanges + [ToolResult(call.tool, call.part, outcome)]);
      var ok := Save(Ready, advanced, ResultPublish);
      return if ok then None else Some(RAISED);
    }

    method PublishResult() returns (left: Option<Departure>)
      requires At(ResultPublish)
      modifies repository, repository.conversations, `machine, `steps
      ensures left.Some? ==> Departed(left.value)
      ensures left == None ==> At(AdvanceSave)
    {
      ResultEmits(maxTurns, delivery.token, machine.value);
      var ok := Emit(Returned(turn.round, turn.callIndex), Proceed, AdvanceSave);
      return if ok then None else Some(RAISED);
    }

    method AdvanceCall() returns (left: Option<Departure>)
      requires At(AdvanceSave) && turn.pending.Some?
      modifies repository, repository.conversations, this
      ensures left.Some? ==> Departed(left.value)
      ensures left == None ==> At(CallLoop(turn)) && turn.pending.Some? && advanced
    {
      AdvanceSaves(maxTurns, delivery.token, machine.value);
      turn := turn.(callIndex := turn.callIndex + 1, approval := None);
      var ok := Save(Ready, true, CallLoop(turn));
      if !ok { return Some(RAISED); }
      advanced := true;
      return None;
    }

    /** One iteration of the inner loop, once authorised. */
    method AnswerCall() returns (left: Option<Departure>)
      requires At(Announce) && CurrentCall(turn).Some?
      modifies repository, repository.conversations, this
      ensures left.Some? ==> Departed(left.value)
      ensures left == None ==> At(CallLoop(turn)) && turn.pending.Some?
      ensures left == None ==> advanced || (delivery.token !in old(repository.decisions) && delivery.token in repository.decisions)
    {
      AnnounceEmits(maxTurns, delivery.token, machine.value);
      var approval: Option<bool> := None;
      var ok := Emit(Called(turn.round, turn.callIndex), Proceed,
                     if turn.approval.Some? then ReadApproval else AfterApproval(turn, None));
      if !ok { return Some(RAISED); }
      if turn.approval.Some? {
        var approved;
        left, approved := ReadDecision();
        if left.Some? { return; }
        approval := Some(approved);
      }
      if CurrentCall(turn).value.result == None {
        var outcome;
        left, outcome := Execute(approval);
        if left.Some? { return; }
        if outcome == Refused(ApprovalRequired) {
          left := RequestApproval();
          return;
        }
        left := Answer(outcome);
        if left.Some? { return; }
      }
      left := PublishResult();
      if left == None { left := AdvanceCall(); }
    }

    method SpeakUp() returns (left: Option<Departure>)
      requires At(Pc.Speak) && turn.pending.Some?
      modifies repository, repository.conversations, `made, `machine, `steps
      ensures left.Some? ==> Departed(left.value)
      ensures left == None ==> At(if turn.pending.value.calls == [] then DoneSave else CallLoop(turn))
    {
      ghost var next := if turn.pending.value.calls == [] then DoneSave else CallLoop(turn);
      if turn.pending.value.text {
        SpeakEmits(maxTurns, delivery.token, machine.value);
        var ok := Emit(Text(turn.round), Proceed, next);
        return if ok then None else Some(RAISED);
      }
      SpeakActs(maxTurns, delivery.token, machine.value);
      Act([], Proceed, next);
      return None;
    }

    /** A turn without calls ends the execution. */
    method Finish() returns (departure: Departure)
      requires At(DoneSave)
      modifies repository, repository.conversations, `machine, `steps
      ensures Departed(departure)
    {
      DoneSaves(maxTurns, delivery.token, machine.value);
      var ok := Save(Completed, advanced, TerminalPc(Completed, turn));
      if !ok { return RAISED; }
      departure := TerminalEnd(Completed);
    }

    method CloseRound() returns (left: Option<Departure>)
      requires At(RoundSave)
      modifies repository, repository.conversations, this
      ensures left.Some? ==> Departed(left.value)
      ensures left == None ==> At(Top) && turn.pending == None && advanced == old(advanced)
    {
      RoundSaves(maxTurns, delivery.token, machine.value);
      turn := turn.(pending := None);
      var ok := Save(Ready, advanced, Top);
      return if ok then None else Some(RAISED);
    }

    /** Speak, then answer the calls of the turn, at most one in this delivery. */
    method UseTurn() returns (left: Option<Departure>)
      requires At(Pc.Speak) && turn.pending.Some?
      modifies repository, repository.conversations, this
      ensures left.Some? ==> Departed(left.value)
      ensures left == None ==> At(Top) && turn.pending == None && (old(advanced) ==> advanced)
    {
      left := SpeakUp();
      if left.Some? { return; }
      if turn.pending.value.calls == [] {
        var departure := Finish();
        return Some(departure);
      }
      while CurrentCall(turn).Some?
        invariant At(CallLoop(turn)) && turn.pending.Some? && (old(advanced) ==> advanced)
        decreases if advanced then 0 else 1, if delivery.token in repository.decisions then 0 else 1
      {
        CallStages(maxTurns, delivery.token, machine.value);
        left := BeginStage(if advanced then Exit(Finishing(Ready)) else Announce);
        if left.Some? { return; }
        if advanced { return Some(Ended(Finishing(Ready))); }
        left := AnswerCall();
        if left.Some? { return; }
      }
      left := CloseRound();
    }

    // ----- _run and run_delivery -----

    method Greeting() returns (left: Option<Departure>)
      requires At(Greet)
      modifies repository, repository.conversations, this
      ensures left.Some? ==> Departed(left.value)
      ensures left == None ==> At(Top)
    {
      var mismatch: bool := *;
      GreetEmits(maxTurns, delivery.token, machine.value, mismatch);
      var ok := Emit(User, if mismatch then BudgetRefused else Proceed, GreetNext(machine.value, mismatch));
      if !ok { return Some(RAISED); }
      if turn.round == 0 && !turn.submitted && photo && mismatch { return Some(OverBudget(Budget)); }
      if turn.hadImage && turn.round == 0 && !photo && !turn.submitted {
        var failed := Fail(ImageResubmission);
        return Some(failed);
      }
      return None;
    }

    /** The `try` block, for a claimed execution that has not ended. */
    method Body() returns (departure: Departure)
      requires At(Enter)
      modifies repository, repository.conversations, this
      ensures Departed(departure)
    {
      EnterStages(maxTurns, delivery.token, machine.value);
      var left := BeginStage(Greet);
      if left.Some? { return left.value; }
      left := Greeting();
      if left.Some? { return left.value; }
      departure := Loop();
    }

    /** The outer loop: obtain a model turn if none is pending, then use it. */
    method Loop() returns (departure: Departure)
      requires At(Top)
      modifies repository, repository.conversations, this
      ensures Departed(departure)
    {
      var left;
      while true
        invariant At(Top)
        decreases if advanced then 0 else 1, if turn.pending.Some? then 1 else 0
      {
        TopStages(maxTurns, delivery.token, machine.value);
        left := BeginStage(TopChoice(machine.value, maxTurns));
        if left.Some? { return left.value; }
        if turn.pending == None {
          if advanced { return Ended(Finishing(Ready)); }
          left := ObtainTurn();
          if left.Some? { return left.value; }
        }
        UseStages(maxTurns, delivery.token, machine.value);
        left := BeginStage(Pc.Speak);
        if left.Some? { return left.value; }
        left := UseTurn();
        if left.Some? { return left.value; }
      }
    }

    /** The handlers around the body: a refused budget fails the turn, unless it was cancelled. */
    method Settle(departure: Departure) returns (ending: Ending)
      requires Departed(departure)
      modifies repository, repository.conversations, this
      ensures Before(Exit(ending))
    {
      match departure
      case Ended(how) => return how;
      case Cancelling =>
        var cancelled := Cancel();
        return cancelled.ending;
      case OverBudget(why) =>
        Others();
        BudgetStep(maxTurns, delivery.token, machine.value, repository.Snapshot());
        var cancelling := delivery.execution in repository.cancelled;
        Cross(repository.Snapshot(), Proceed, made);
        var last;
        if cancelling { last := Cancel(); } else { last := Fail(why); }
        return last.ending;
    }

    /** `_run`: claim, work, and release whatever happens. */
    method Run() returns (ending: Ending)
      requires At(Start) && !advanced
      modifies repository, repository.conversations, this
      ensures Before(Ack(ending))
    {
      Others();
      ghost var st := repository.Snapshot();
      ClaimStep(maxTurns, delivery.token, machine.value, st);
      var record := repository.ClaimExecution(delivery.thread, delivery.execution, delivery.token);
      Cross(st, Proceed, made);
      if record.Failure? {
        return if record.error.Busy? then Raising(ExecutionBusy, record.error.retryAfter) else Raising(Crashed, 0);
      }
      turn := record.value.context;
      var departure;
      if Terminal(record.value.status) {
        departure := TerminalEnd(record.value.status);
      } else {
        departure := Body();
      }
      ending := Settle(departure);
      Others();
      st := repository.Snapshot();
      ExitStep(maxTurns, delivery.token, machine.value, st);
      repository.Release(delivery.execution, delivery.token);
      Cross(st, Proceed, made);
    }

    /** `run_delivery`: whatever the tables become between its steps and whatever the outside answers, the
        nested loops walk the step machine from the claim of the execution to its acknowledgement, and
        make exactly the external calls the machine accounts for. */
    method RunDelivery() returns (blocked: bool)
      requires steps == [] && made == [] && At(Start) && !advanced
      modifies repository, repository.conversations, this
      ensures Walk(maxTurns, delivery.token, first, steps, made, None)
    {
      var ending := Run();
      Others();
      ghost var st := repository.Snapshot();
      AckStep(maxTurns, delivery.token, machine.value, st);
      var failure := if ending.Raising? then Some(ending.kind) else None;
      blocked := repository.Finish(delivery, failure, if ending.Raising? then ending.retryAfter else 0);
      Cross(st, Proceed, made);
    }
  }
}
