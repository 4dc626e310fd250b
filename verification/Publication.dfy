/** When exactly an acknowledged end stays unpublished, over every run: it takes an acknowledgement of a
    status that was not final, after another worker has ended the execution and before it has told. */
module Publication {
  import opened Wrappers
  import opened Store
  import opened Runtime
  import opened Protocol
  import opened ProtocolTheorems
  import opened DurableExecution
  import L = EventLog

  /** Acknowledged as ended, and the end is not in the log. */
  predicate Untold(st: Tables, e: ExecutionId) {
    && e in st.executions && e in st.dispatch
    && st.dispatch[e].settled && Terminal(st.executions[e].status) && !IsPublished(st, Key(e, TerminalPart))
  }

  /** The current delivery acknowledges a status that is not final, finding the execution ended by somebody
      who has not published it. */
  predicate Hushes(s: World, a: Action, e: ExecutionId) {
    && a.Advance? && a.id in s.workers && s.workers[a.id].execution == e
    && Returning(s.st, a.id, s.workers[a.id])
    && e in s.st.executions && Terminal(s.st.executions[e].status) && !IsPublished(s.st, Key(e, TerminalPart))
  }

  /** The end is published, or the row is woken: by an explicit resume or by a repeated decision. */
  ghost predicate Recovers(s: World, a: Action, e: ExecutionId) {
    match a
    case Resume(thread, f) => f == e && Woken(s.st, thread, e, false).Success?
    case Decide(thread, request, approved) =>
      request in s.st.approvalOf && s.st.approvalOf[request] == e && DecisionRecorded(s.st, thread, request, approved).Success?
    case Advance(id, _) =>
      && id in s.workers && s.workers[id].execution == e && s.workers[id].pc.TerminalPublish?
      && Published(s.st, s.workers[id].thread, Key(e, TerminalPart)).Success?
    case _ => false
  }

  // ----- one step of a worker -----

  /** `Untold` after the step, from `Untold` before it. */
  ghost predicate StepTold(st: Tables, st': Tables, e: ExecutionId) {
    Untold(st', e) <==> Untold(st, e)
  }

  /** Publishing anything else leaves every end as it was. */
  lemma PublishTold(st: Tables, thread: ThreadId, key: Key, e: ExecutionId)
    requires key.part != TerminalPart
    ensures Published(st, thread, key).Success? ==> StepTold(st, Published(st, thread, key).value, e)
  {
    if Published(st, thread, key).Success? {
      var st' := Published(st, thread, key).value;
      assert st'.executions == st.executions && st'.dispatch == st.dispatch;
      assert Key(e, TerminalPart) != key;
    }
  }

  lemma EmitTold(st: Tables, w: Worker, part: Part, next: Pc, e: ExecutionId)
    requires part != TerminalPart
    ensures StepTold(st, Emit(st, w, part, next).st, e)
  {
    PublishTold(st, w.thread, Key(w.execution, part), e);
  }

  /** A worker that still holds the execution finds it unfinished; its checkpoint re-arms the delivery. */
  lemma SaveTold(st: Tables, id: Uuid, w: Worker, turn: Turn, status: Status, next: Pc, e: ExecutionId)
    requires Owned(st, w.execution, id) ==> !Terminal(st.executions[w.execution].status)
    ensures StepTold(st, Save(st, id, w, turn, status, next).st, e)
  {
  }

  /** What a holder knows: its execution has not ended, and no end has been published by it yet. */
  predicate HoldsUnfinished(st: Tables, id: Uuid, w: Worker) {
    Working(w.pc) && Owned(st, w.execution, id) ==> !Terminal(st.executions[w.execution].status)
  }

  lemma StartTold(st: Tables, id: Uuid, w: Worker, input: Input, e: ExecutionId)
    ensures StepTold(st, StartStep(st, id, w, input).st, e)
  {
    if w.pc.Greet? { EmitTold(st, w, User, Top, e); }
  }

  lemma ModelTold(st: Tables, maxTurns: nat, id: Uuid, w: Worker, input: Input, e: ExecutionId)
    requires HoldsUnfinished(st, id, w)
    ensures StepTold(st, ModelStep(st, maxTurns, id, w, input).st, e)
  {
    var turn := w.turn;
    match w.pc
    case Fence => SaveTold(st, id, w, turn.(submitted := true), Ready, Submit, e);
    case StartedSave(response) =>
      SaveTold(st, id, w, turn.(response := Some(response)), WaitingModel, Exit(Finishing(WaitingModel)), e);
    case PollSave => SaveTold(st, id, w, turn, WaitingModel, Exit(Finishing(WaitingModel)), e);
    case TurnSave(output, pending) => SaveTold(st, id, w.(advanced := true), AfterTurn(turn, output, pending), Ready, Pc.Stage, e);
    case _ =>
  }

  lemma CallTold(st: Tables, id: Uuid, w: Worker, input: Input, e: ExecutionId)
    requires HoldsUnfinished(st, id, w)
    ensures StepTold(st, CallStep(st, id, w, input).st, e)
  {
    if CallSaves(w.pc) { CallSaveTold(st, id, w, input, e); }
    else if CallPublishes(w.pc) { CallEmitTold(st, id, w, input, e); }
    else { CallIdleTold(st, id, w, input, e); }
  }

  lemma CallEmitTold(st: Tables, id: Uuid, w: Worker, input: Input, e: ExecutionId)
    requires CallPublishes(w.pc)
    ensures StepTold(st, CallStep(st, id, w, input).st, e)
  {
    var r, i := w.turn.round, w.turn.callIndex;
    match w.pc
    case Speak => EmitTold(st, w, Text(r), Top, e);
    case Announce => EmitTold(st, w, Called(r, i), Top, e);
    case DecisionPublish(_) => EmitTold(st, w, Decided(r, i), Top, e);
    case ResultPublish => EmitTold(st, w, Returned(r, i), Top, e);
    case _ => PauseEmitTold(st, id, w, input, e);
  }

  lemma PauseEmitTold(st: Tables, id: Uuid, w: Worker, input: Input, e: ExecutionId)
    requires w.pc.AskPublish? || w.pc.PausePublish?
    ensures StepTold(st, CallStep(st, id, w, input).st, e)
  {
    var r, i := w.turn.round, w.turn.callIndex;
    match w.pc
    case AskPublish => EmitTold(st, w, Asked(r, i), Top, e);
    case PausePublish => EmitTold(st, w, Paused(r, i), Top, e);
  }

  lemma AnswerTold(st: Tables, id: Uuid, w: Worker, input: Input, e: ExecutionId)
    requires (w.pc.LookupFence? || w.pc.ResultSave?) && HoldsUnfinished(st, id, w)
    ensures StepTold(st, CallStep(st, id, w, input).st, e)
  {
    if CurrentCall(w.turn).Some? {
      var turn, call := w.turn, CurrentCall(w.turn).value;
      match w.pc
      case LookupFence => SaveTold(st, id, w, WithCall(turn, call.(retrievalStarted := true)), Ready, LookupCall, e);
      case ResultSave(result) =>
        SaveTold(st, id, w, WithCall(turn, call.(result := Some(result)))
                   .(exchanges := turn.exchanges + [ToolResult(call.tool, call.part, result)]), Ready, ResultPublish, e);
    }
  }

  lemma CallSaveTold(st: Tables, id: Uuid, w: Worker, input: Input, e: ExecutionId)
    requires CallSaves(w.pc) && HoldsUnfinished(st, id, w)
    ensures StepTold(st, CallStep(st, id, w, input).st, e)
  {
    var turn := w.turn;
    match w.pc
    case DoneSave => SaveTold(st, id, w, turn, Completed, TerminalPc(Completed, turn), e);
    case LookupFence => AnswerTold(st, id, w, input, e);
    case ResultSave(_) => AnswerTold(st, id, w, input, e);
    case AskSave => SaveTold(st, id, w, turn.(approval := Some(id)), AwaitingApproval, CallTop, e);
    case AdvanceSave => ForwardTold(st, id, w, input, e);
    case RoundSave => ForwardTold(st, id, w, input, e);
  }

  lemma ForwardTold(st: Tables, id: Uuid, w: Worker, input: Input, e: ExecutionId)
    requires (w.pc.AdvanceSave? || w.pc.RoundSave?) && HoldsUnfinished(st, id, w)
    ensures StepTold(st, CallStep(st, id, w, input).st, e)
  {
    var turn := w.turn;
    match w.pc
    case AdvanceSave =>
      var turn' := turn.(callIndex := turn.callIndex + 1, approval := None);
      SaveTold(st, id, w.(advanced := true), turn', Ready, CallLoop(turn'), e);
    case RoundSave => SaveTold(st, id, w, turn.(pending := None), Ready, Top, e);
  }

  /** The other points of the call loop leave rows, and the log, alone. */
  lemma CallIdleTold(st: Tables, id: Uuid, w: Worker, input: Input, e: ExecutionId)
    requires !CallSaves(w.pc) && !CallPublishes(w.pc)
    ensures StepTold(st, CallStep(st, id, w, input).st, e)
  {
    CallWritesNoEvent(st, id, w, input);
  }

  /** Up to the terminal publication, the end of a stage tells nothing and acknowledges nothing. */
  lemma EndTold(st: Tables, id: Uuid, w: Worker, input: Input, e: ExecutionId)
    requires !w.pc.TerminalPublish? && !w.pc.Ack? && HoldsUnfinished(st, id, w)
    ensures StepTold(st, EndStep(st, id, w, input).st, e)
  {
    match w.pc
    case CancelPublish => EndEmitTold(st, id, w, input, e);
    case NoticePublish(_) => EndEmitTold(st, id, w, input, e);
    case CancelSave(_) => EndSaveTold(st, id, w, input, e);
    case FailSave(_) => EndSaveTold(st, id, w, input, e);
    case _ =>
  }

  lemma EndEmitTold(st: Tables, id: Uuid, w: Worker, input: Input, e: ExecutionId)
    requires w.pc.CancelPublish? || w.pc.NoticePublish?
    ensures StepTold(st, EndStep(st, id, w, input).st, e)
  {
    match w.pc
    case CancelPublish => if input.Receipt? { EmitTold(st, w, Returned(w.turn.round, input.index), Top, e); }
    case NoticePublish(_) => EmitTold(st, w, if w.turn.error.Some? then ErrorPart else Text(w.turn.round), Top, e);
  }

  lemma EndSaveTold(st: Tables, id: Uuid, w: Worker, input: Input, e: ExecutionId)
    requires (w.pc.CancelSave? || w.pc.FailSave?) && HoldsUnfinished(st, id, w)
    ensures StepTold(st, EndStep(st, id, w, input).st, e)
  {
    match w.pc
    case CancelSave(how) => SaveTold(st, id, w, w.turn.(cancellation := Some(how)), Cancelled, TerminalPublish(Cancelled), e);
    case FailSave(why) =>
      var turn := w.turn.(error := Some(why));
      SaveTold(st, id, w, turn, Failed, TerminalPc(Failed, turn), e);
  }

  lemma TerminalTold(st: Tables, id: Uuid, w: Worker, input: Input, e: ExecutionId)
    requires w.pc.TerminalPublish?
    ensures Untold(EndStep(st, id, w, input).st, e) <==>
              Untold(st, e) && !(w.execution == e && Published(st, w.thread, Key(e, TerminalPart)).Success?)
  {
  }

  /** The only step that settles a row. */
  lemma AckTold(st: Tables, id: Uuid, w: Worker, input: Input, e: ExecutionId)
    requires w.pc.Ack? && w.execution in st.executions && w.execution in st.dispatch && LastInv(st, w)
    ensures Untold(EndStep(st, id, w, input).st, e) <==>
              || (w.execution == e && Returning(st, id, w) && Terminal(st.executions[e].status) && !IsPublished(st, Key(e, TerminalPart)))
              || Untold(st, e)
  {
    if w.execution != e { AckElsewhere(st, id, w, input, e); }
  }

  lemma AckElsewhere(st: Tables, id: Uuid, w: Worker, input: Input, e: ExecutionId)
    requires w.pc.Ack? && w.execution != e
    ensures StepTold(st, EndStep(st, id, w, input).st, e)
  {
  }

  /** What one worker's step does to the publication of ends. */
  ghost predicate WorkerTold(st: Tables, id: Uuid, w: Worker, after: Tables, e: ExecutionId) {
    Untold(after, e) <==>
      || (w.execution == e && Returning(st, id, w) && e in st.executions && Terminal(st.executions[e].status)
          && !IsPublished(st, Key(e, TerminalPart)))
      || (Untold(st, e) && !(w.execution == e && w.pc.TerminalPublish? && Published(st, w.thread, Key(e, TerminalPart)).Success?))
  }

  lemma StepsTold(st: Tables, maxTurns: nat, id: Uuid, w: Worker, input: Input, e: ExecutionId)
    requires HoldsUnfinished(st, id, w) && w.execution in st.executions && w.execution in st.dispatch && LastInv(st, w)
    ensures WorkerTold(st, id, w, Step(st, maxTurns, id, w, input).st, e)
  {
    if InStart(w.pc) { StartTold(st, id, w, input, e); }
    else if InModel(w.pc) { ModelTold(st, maxTurns, id, w, input, e); }
    else if w.pc.TerminalPublish? { TerminalTold(st, id, w, input, e); }
    else if w.pc.Ack? { AckTold(st, id, w, input, e); }
    else if InEnd(w.pc) { EndTold(st, id, w, input, e); }
    else { CallTold(st, id, w, input, e); }
  }

  lemma AdvanceTold(s: World, id: Uuid, input: Input, e: ExecutionId)
    requires Inv(s, false) && id in s.workers
    ensures WorkerTold(s.st, id, s.workers[id], Step(s.st, s.maxTurns, id, s.workers[id], input).st, e)
  {
    assert WorkerOk(s, id, false);
    StepsTold(s.st, s.maxTurns, id, s.workers[id], input, e);
  }

  // ----- one acknowledgement -----

  /** A current, unwoken acknowledgement of an ended execution settles it untold exactly when the status it
      returns is not final and the end is not in the log yet. */
  lemma AcknowledgesUntold(maxTurns: nat, actions: seq<Action>, id: Uuid, input: Input)
    requires var s := After(maxTurns, actions);
             && id in s.workers && s.workers[id].pc.Ack? && s.workers[id].pc.ending.Finishing?
             && var w := s.workers[id];
                Current(s.st, w.execution, id) && Unwoken(s.st, w)
                && w.execution in s.st.executions && Terminal(s.st.executions[w.execution].status)
    ensures var s := After(maxTurns, actions);
            var e, after := s.workers[id].execution, Next(s, Advance(id, input)).st;
            && e in after.dispatch && after.dispatch[e].settled
            && (Untold(after, e) <==>
                  !Terminal(s.workers[id].pc.ending.status) && !IsPublished(s.st, Key(e, TerminalPart)))
  {
    var s := After(maxTurns, actions);
    assert LastInv(s.st, s.workers[id]) by {
      RunKept(maxTurns, actions, false);
      assert WorkerOk(s, id, false);
    }
    AckSettles(s.st, id, s.workers[id], input);
  }

  lemma AckSettles(st: Tables, id: Uuid, w: Worker, input: Input)
    requires w.pc.Ack? && w.pc.ending.Finishing? && Current(st, w.execution, id) && Unwoken(st, w)
    requires w.execution in st.executions && Terminal(st.executions[w.execution].status) && LastInv(st, w)
    ensures var e, after := w.execution, EndStep(st, id, w, input).st;
            && e in after.dispatch && after.dispatch[e].settled
            && (Untold(after, e) <==> !Terminal(w.pc.ending.status) && !IsPublished(st, Key(e, TerminalPart)))
  {
  }

  // ----- one action -----

  lemma {:induction false} MatchesTold(st: Tables, matches: seq<(ResponseId, Option<ExecutionId>)>, e: ExecutionId)
    ensures StepTold(st, MatchedAll(st, matches), e)
    decreases |matches|
  {
    if matches != [] { MatchesTold(Matched(st, matches[0].0, matches[0].1), matches[1..], e); }
  }

  lemma ReconcileTold(s: World, matches: seq<(ResponseId, Option<ExecutionId>)>, e: ExecutionId)
    requires Inv(s, false)
    ensures StepTold(s.st, Reconciled(s.st, matches), e)
  {
    MatchesTold(s.st, matches, e);
    MatchAllKept(s, matches, false);
    RepairIsIdle(s.(st := MatchedAll(s.st, matches)), false);
  }

  /** A wake unsettles its own row. */
  lemma WakeTold(st: Tables, thread: ThreadId, f: ExecutionId, cancellation: bool, e: ExecutionId)
    ensures var woken := Woken(st, thread, f, cancellation);
            woken.Success? ==> (Untold(woken.value, e) <==> f != e && Untold(st, e))
  {
  }

  /** A cancellation finds the execution unfinished, or changes nothing. */
  lemma CancelTold(s: World, thread: ThreadId, f: ExecutionId, e: ExecutionId)
    ensures StepTold(s.st, Next(s, Cancel(thread, f)).st, e)
  {
    var marked := s.st.(cancelled := s.st.cancelled + {f});
    PublishTold(marked, thread, Key(f, CancelRequest), e);
    var published := Published(marked, thread, Key(f, CancelRequest));
    if published.Success? { WakeTold(published.value, thread, f, true, e); }
  }

  lemma DecideTold(s: World, thread: ThreadId, request: Uuid, approved: bool, e: ExecutionId)
    ensures Untold(Next(s, Decide(thread, request, approved)).st, e) <==>
              Untold(s.st, e) && !Recovers(s, Decide(thread, request, approved), e)
  {
    if DecisionRecorded(s.st, thread, request, approved).Success? {
      WakeTold(s.st.(decisions := s.st.decisions[request := Some(approved)]), thread, s.st.approvalOf[request], false, e);
    }
  }

  lemma AcceptTold(s: World, thread: ThreadId, f: ExecutionId, digest: nat, photo: bool, e: ExecutionId)
    requires Inv(s, false)
    ensures StepTold(s.st, Next(s, Accept(thread, f, digest, photo)).st, e)
  {
    assert RowOk(s, f, false);
  }

  lemma DeliverTold(st: Tables, f: ExecutionId, token: Uuid, e: ExecutionId)
    requires f in st.dispatch
    ensures StepTold(st, DeliveryClaimed(st, f, token), e)
  {
  }

  /** The actions that neither hush an end nor recover one. */
  lemma OtherTold(s: World, a: Action, e: ExecutionId)
    requires Inv(s, false) && !a.Advance? && !a.Resume? && !a.Decide?
    ensures StepTold(s.st, Next(s, a).st, e)
  {
    match a
    case Accept(thread, f, digest, photo) => AcceptTold(s, thread, f, digest, photo, e);
    case AnnounceUser(f) => if f in s.st.executions { PublishTold(s.st, s.st.executions[f].thread, Key(f, User), e); }
    case Deliver(f, _) => if Deliverable(s.st, f) { DeliverTold(s.st, f, s.next, e); }
    case DeliverReserved(f, token, _) => if Current(s.st, f, token) { DeliverTold(s.st, f, token, e); }
    case Cancel(thread, f) => CancelTold(s, thread, f, e);
    case Reconcile(matches) => ReconcileTold(s, matches, e);
    case PublishBlocked(f, completed) =>
      if f in s.st.dispatch && f in s.st.executions && s.st.dispatch[f].blocked {
        var version := s.st.dispatch[f].wakeVersion;
        PublishTold(s.st, s.st.executions[f].thread, Key(f, if completed then BlockedCompleted(version) else BlockedError(version)), e);
      }
    case _ =>
  }

  lemma NextTold(s: World, a: Action, e: ExecutionId)
    requires Inv(s, false)
    ensures Untold(Next(s, a).st, e) <==> Hushes(s, a, e) || (Untold(s.st, e) && !Recovers(s, a, e))
  {
    match a
    case Resume(thread, f) => WakeTold(s.st, thread, f, false, e);
    case Decide(thread, request, approved) => DecideTold(s, thread, request, approved, e);
    case Advance(id, input) => if id in s.workers { AdvanceTold(s, id, input, e); }
    case _ => OtherTold(s, a, e);
  }

  // ----- every run -----

  /** The last hushing acknowledgement is `i`, and nothing has repaired it since. */
  ghost predicate HushedAt(maxTurns: nat, actions: seq<Action>, e: ExecutionId, i: nat) {
    && i < |actions| && Hushes(After(maxTurns, actions[..i]), actions[i], e)
    && forall j :: i < j < |actions| ==> !RecoversAt(maxTurns, actions, e, j)
  }

  ghost predicate RecoversAt(maxTurns: nat, actions: seq<Action>, e: ExecutionId, j: nat)
    requires j < |actions|
  {
    Recovers(After(maxTurns, actions[..j]), actions[j], e)
  }

  lemma {:induction false} HushedEarlier(maxTurns: nat, actions: seq<Action>, e: ExecutionId, i: nat)
    requires actions != [] && i < |actions| - 1
    ensures HushedAt(maxTurns, actions, e, i) <==>
              HushedAt(maxTurns, actions[..|actions| - 1], e, i) && !RecoversAt(maxTurns, actions, e, |actions| - 1)
  {
    var last := |actions| - 1;
    var before := actions[..last];
    assert before[..i] == actions[..i];
    forall j | i < j < last ensures RecoversAt(maxTurns, before, e, j) == RecoversAt(maxTurns, actions, e, j) {
      assert before[..j] == actions[..j];
    }
  }

  ghost predicate Hushed(maxTurns: nat, actions: seq<Action>, e: ExecutionId) {
    exists i :: HushedAt(maxTurns, actions, e, i)
  }

  lemma {:induction false} HushedNow(maxTurns: nat, actions: seq<Action>, e: ExecutionId, last: nat)
    requires last + 1 == |actions|
    ensures HushedAt(maxTurns, actions, e, last) <==> Hushes(After(maxTurns, actions[..last]), actions[last], e)
  {
  }

  /** How the last action of a run decides whether it was hushed. */
  lemma {:induction false} HushedStep(maxTurns: nat, actions: seq<Action>, e: ExecutionId, last: nat, hushes: bool)
    requires last + 1 == |actions| && hushes == Hushes(After(maxTurns, actions[..last]), actions[last], e)
    ensures Hushed(maxTurns, actions, e) <==> hushes || (Hushed(maxTurns, actions[..last], e) && !RecoversAt(maxTurns, actions, e, last))
  {
    HushedNow(maxTurns, actions, e, last);
    forall i: nat | i < last
      ensures HushedAt(maxTurns, actions, e, i) <==> HushedAt(maxTurns, actions[..last], e, i) && !RecoversAt(maxTurns, actions, e, last)
    {
      HushedEarlier(maxTurns, actions, e, i);
    }
    forall i | HushedAt(maxTurns, actions, e, i) ensures i == last || HushedAt(maxTurns, actions[..last], e, i) { }
    if i: nat :| HushedAt(maxTurns, actions[..last], e, i) { assert i < last; }
  }

  /** In every run, an acknowledged end is missing from the log if and only if some delivery acknowledged a
      status that was not final while another worker had ended the execution without publishing it, and
      since then the end has not been published and the execution has not been woken. */
  lemma {:induction false} UntoldExactly(maxTurns: nat, actions: seq<Action>, e: ExecutionId)
    ensures Untold(After(maxTurns, actions).st, e) <==> Hushed(maxTurns, actions, e)
    decreases |actions|
  {
    if actions == [] {
    } else {
      var last := |actions| - 1;
      UntoldExactly(maxTurns, actions[..last], e);
      LastTold(maxTurns, actions, e, last);
      HushedStep(maxTurns, actions, e, last, Hushes(After(maxTurns, actions[..last]), actions[last], e));
    }
  }

  lemma {:induction false} LastTold(maxTurns: nat, actions: seq<Action>, e: ExecutionId, last: nat)
    requires last + 1 == |actions|
    ensures Untold(After(maxTurns, actions).st, e) <==>
              || Hushes(After(maxTurns, actions[..last]), actions[last], e)
              || (Untold(After(maxTurns, actions[..last]).st, e) && !RecoversAt(maxTurns, actions, e, last))
  {
    RunKept(maxTurns, actions[..last], false);
    NextTold(After(maxTurns, actions[..last]), actions[last], e);
  }
}
