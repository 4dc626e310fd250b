/** Every action of every run keeps the protocol invariant. */
module ProtocolRun {
  import opened Wrappers
  import opened Store
  import opened Runtime
  import opened Protocol
  import opened ProtocolFrame
  import opened ProtocolUnits
  import opened ProtocolSteps
  import opened ProtocolSaves
  import opened ProtocolPoints
  import opened ProtocolMoves

  // ----- workers -----

  /** A publication, from what the row already allows. */
  lemma PublishStep(s: World, id: Uuid, part: Part, next: Pc, strict: bool)
    requires Inv(s, strict) && id in s.workers && !s.workers[id].pc.Start? && !s.workers[id].pc.Ack?
    requires SlotOf(s.workers[id].(pc := next)) == None
    requires WorkerInv(s.st, s.maxTurns, SpentOn(s, s.workers[id].execution), id, s.workers[id].(pc := next), strict)
    ensures Inv(Moved(s, id, Emit(s.st, s.workers[id], part, next)), strict)
  {
    var w := s.workers[id];
    var key := Key(w.execution, part);
    if Published(s.st, w.thread, key).Success? {
      PublishedGrows(s.st, w.thread, key);
      LogWorker(s.st, Published(s.st, w.thread, key).value, s.maxTurns, SpentOn(s, w.execution), id, w.(pc := next), strict);
    }
    EmitStep(s, id, part, next, strict);
  }

  // ----- entering -----

  lemma EnterKept(s: World, id: Uuid, input: Input, strict: bool)
    requires Inv(s, strict) && id in s.workers && s.workers[id].pc.Enter?
    ensures Inv(Moved(s, id, StartStep(s.st, id, s.workers[id], input)), strict)
  {
    var w := s.workers[id];
    AuthoriseStep(s, id, Greet, strict) by {
      assert WorkerOk(s, id, strict);
      if Authorised(s.st, id, w) { EnterSelf(s.st, s.maxTurns, SpentOn(s, w.execution), id, w, strict); }
    }
  }

  lemma GreetKept(s: World, id: Uuid, input: Input, strict: bool)
    requires Inv(s, strict) && id in s.workers && s.workers[id].pc.Greet?
    ensures Inv(Moved(s, id, StartStep(s.st, id, s.workers[id], input)), strict)
  {
    var w := s.workers[id];
    var next :=
      if w.photo && w.turn.round == 0 && !w.turn.submitted && input.BudgetRefused? then BudgetCheck(Budget)
      else if w.turn.hadImage && w.turn.round == 0 && !w.photo && !w.turn.submitted then FailSave(ImageResubmission)
      else Top;
    PublishStep(s, id, User, next, strict) by {
      assert WorkerOk(s, id, strict);
      GreetSelf(s.st, s.maxTurns, SpentOn(s, w.execution), id, w, next, strict);
    }
  }

  // ----- the model half -----

  lemma TopKept(s: World, id: Uuid, input: Input, strict: bool)
    requires Inv(s, strict) && id in s.workers && s.workers[id].pc.Top?
    ensures Inv(Moved(s, id, ModelStep(s.st, s.maxTurns, id, s.workers[id], input)), strict)
  {
    var w := s.workers[id];
    AuthoriseStep(s, id, TopChoice(w, s.maxTurns), strict) by {
      assert WorkerOk(s, id, strict) && RowOk(s, w.execution, strict);
      if Authorised(s.st, id, w) { TopSelf(s.st, s.maxTurns, SpentOn(s, w.execution), id, w, strict); }
    }
  }

  lemma FenceKept(s: World, id: Uuid, input: Input, strict: bool)
    requires Inv(s, strict) && id in s.workers && s.workers[id].pc.Fence?
    ensures Inv(Moved(s, id, ModelStep(s.st, s.maxTurns, id, s.workers[id], input)), strict)
  {
    var w := s.workers[id];
    SaveStep(s, id, w.turn.(submitted := true), Ready, Submit, w.advanced, strict) by {
      assert WorkerOk(s, id, strict) && RowOk(s, w.execution, strict);
      if Owned(s.st, w.execution, id) { FencePoint(s.st, s.maxTurns, SpentOn(s, w.execution), id, w, strict); }
    }
  }

  lemma StartedSaveKept(s: World, id: Uuid, input: Input, strict: bool)
    requires Inv(s, strict) && id in s.workers && s.workers[id].pc.StartedSave?
    ensures Inv(Moved(s, id, ModelStep(s.st, s.maxTurns, id, s.workers[id], input)), strict)
  {
    var w := s.workers[id];
    SaveStep(s, id, w.turn.(response := Some(w.pc.id)), WaitingModel, Exit(Finishing(WaitingModel)), w.advanced, strict) by {
      assert WorkerOk(s, id, strict) && RowOk(s, w.execution, strict);
      if Owned(s.st, w.execution, id) { StartedPoint(s.st, s.maxTurns, SpentOn(s, w.execution), id, w, strict); }
    }
  }

  lemma PollSaveKept(s: World, id: Uuid, input: Input, strict: bool)
    requires Inv(s, strict) && id in s.workers && s.workers[id].pc.PollSave?
    ensures Inv(Moved(s, id, ModelStep(s.st, s.maxTurns, id, s.workers[id], input)), strict)
  {
    var w := s.workers[id];
    SaveStep(s, id, w.turn, WaitingModel, Exit(Finishing(WaitingModel)), w.advanced, strict) by {
      assert WorkerOk(s, id, strict) && RowOk(s, w.execution, strict);
      if Owned(s.st, w.execution, id) { PollPoint(s.st, s.maxTurns, SpentOn(s, w.execution), id, w, strict); }
    }
  }

  lemma TurnSaveKept(s: World, id: Uuid, input: Input, strict: bool)
    requires Inv(s, strict) && id in s.workers && s.workers[id].pc.TurnSave?
    ensures Inv(Moved(s, id, ModelStep(s.st, s.maxTurns, id, s.workers[id], input)), strict)
  {
    var w := s.workers[id];
    SaveStep(s, id, AfterTurn(w.turn, w.pc.output, w.pc.turn), Ready, Stage, true, strict) by {
      assert WorkerOk(s, id, strict) && RowOk(s, w.execution, strict);
      if Owned(s.st, w.execution, id) { TurnPoint(s.st, s.maxTurns, SpentOn(s, w.execution), id, w, strict); }
    }
  }

  lemma SubmitKept(s: World, id: Uuid, input: Input, strict: bool)
    requires Inv(s, strict) && id in s.workers && s.workers[id].pc.Submit?
    ensures Inv(Moved(s, id, ModelStep(s.st, s.maxTurns, id, s.workers[id], input)), strict)
  {
    var w := s.workers[id];
    assert WorkerOk(s, id, strict);
    if (w.background && input.ResponseStarted?) || (!w.background && input.ModelTurn?) || input.BudgetRefused? || input.CallFailed? {
      var next := if w.background && input.ResponseStarted? then StartedSave(input.id)
                  else if !w.background && input.ModelTurn? then TurnSave(input.output, PendingOf(input))
                  else if input.BudgetRefused? then BudgetCheck(Budget) else Exit(Raising(Crashed, 0));
      CalledSelf(s.st, s.maxTurns, SpentOn(s, w.execution), id, w, next, strict);
      CallOutStep(s, id, next, strict);
    } else {
      StayStep(s, id, strict);
    }
  }

  lemma RetrieveKept(s: World, id: Uuid, input: Input, strict: bool)
    requires Inv(s, strict) && id in s.workers && s.workers[id].pc.Retrieve?
    ensures Inv(Moved(s, id, ModelStep(s.st, s.maxTurns, id, s.workers[id], input)), strict)
  {
    var w := s.workers[id];
    assert WorkerOk(s, id, strict);
    if input.NotReady? || input.ModelTurn? || input.BudgetRefused? {
      var next := if input.NotReady? then PollSave
                  else if input.ModelTurn? then TurnSave(input.output, PendingOf(input)) else BudgetCheck(Budget);
      ModelSelf(s.st, s.maxTurns, SpentOn(s, w.execution), id, w, next, strict);
      MoveStep(s, id, next, strict);
    } else if input.CallFailed? {
      RaiseStep(s, id, Raising(Crashed, 0), strict);
    } else {
      StayStep(s, id, strict);
    }
  }

  // ----- the call half -----

  lemma SpeakKept(s: World, id: Uuid, input: Input, strict: bool)
    requires Inv(s, strict) && id in s.workers && s.workers[id].pc.Speak?
    ensures Inv(Moved(s, id, CallStep(s.st, id, s.workers[id], input)), strict)
  {
    var w := s.workers[id];
    assert WorkerOk(s, id, strict);
    if w.turn.pending == None {
      RaiseStep(s, id, Raising(Crashed, 0), strict);
    } else {
      var next := if w.turn.pending.value.calls == [] then DoneSave else CallLoop(w.turn);
      SpeakSelf(s.st, s.maxTurns, SpentOn(s, w.execution), id, w, next, strict);
      if w.turn.pending.value.text {
        PublishStep(s, id, Text(w.turn.round), next, strict);
      } else {
        MoveStep(s, id, next, strict);
      }
    }
  }

  lemma AnnounceKept(s: World, id: Uuid, input: Input, strict: bool)
    requires Inv(s, strict) && id in s.workers && s.workers[id].pc.Announce?
    ensures Inv(Moved(s, id, CallStep(s.st, id, s.workers[id], input)), strict)
  {
    var w := s.workers[id];
    var next := if w.turn.approval.Some? then ReadApproval else AfterApproval(w.turn, None);
    PublishStep(s, id, Called(w.turn.round, w.turn.callIndex), next, strict) by {
      assert WorkerOk(s, id, strict);
      AnnounceSelf(s.st, s.maxTurns, SpentOn(s, w.execution), id, w, strict);
    }
  }

  lemma ReadApprovalKept(s: World, id: Uuid, input: Input, strict: bool)
    requires Inv(s, strict) && id in s.workers && s.workers[id].pc.ReadApproval?
    ensures Inv(Moved(s, id, CallStep(s.st, id, s.workers[id], input)), strict)
  {
    var w := s.workers[id];
    assert WorkerOk(s, id, strict) && RowOk(s, w.execution, strict);
    var spent := SpentOn(s, w.execution);
    if w.turn.approval == None || w.turn.approval.value !in s.st.decisions {
      RaiseStep(s, id, Raising(Crashed, 0), strict);
    } else {
      var decision := s.st.decisions[w.turn.approval.value];
      ReadSelf(s.st, s.maxTurns, spent, id, w, strict);
      MoveStep(s, id, if decision == None then AskPublish else Redecide(decision.value), strict);
    }
  }

  lemma AskPublishKept(s: World, id: Uuid, input: Input, strict: bool)
    requires Inv(s, strict) && id in s.workers && s.workers[id].pc.AskPublish?
    ensures Inv(Moved(s, id, CallStep(s.st, id, s.workers[id], input)), strict)
  {
    var w := s.workers[id];
    assert CallStep(s.st, id, w, input) == Emit(s.st, w, Asked(w.turn.round, w.turn.callIndex), PausePublish);
    PublishStep(s, id, Asked(w.turn.round, w.turn.callIndex), PausePublish, strict) by {
      assert WorkerOk(s, id, strict);
      PauseSelf(s.st, s.maxTurns, SpentOn(s, w.execution), id, w, strict);
    }
  }

  lemma PausePublishKept(s: World, id: Uuid, input: Input, strict: bool)
    requires Inv(s, strict) && id in s.workers && s.workers[id].pc.PausePublish?
    ensures Inv(Moved(s, id, CallStep(s.st, id, s.workers[id], input)), strict)
  {
    var w := s.workers[id];
    assert CallStep(s.st, id, w, input)
        == Emit(s.st, w, Paused(w.turn.round, w.turn.callIndex), Exit(Finishing(AwaitingApproval)));
    PublishStep(s, id, Paused(w.turn.round, w.turn.callIndex), Exit(Finishing(AwaitingApproval)), strict) by {
      assert WorkerOk(s, id, strict);
      PauseSelf(s.st, s.maxTurns, SpentOn(s, w.execution), id, w, strict);
    }
  }

  lemma DecisionPublishKept(s: World, id: Uuid, input: Input, strict: bool)
    requires Inv(s, strict) && id in s.workers && s.workers[id].pc.DecisionPublish?
    ensures Inv(Moved(s, id, CallStep(s.st, id, s.workers[id], input)), strict)
  {
    var w := s.workers[id];
    PublishStep(s, id, Decided(w.turn.round, w.turn.callIndex), AfterApproval(w.turn, Some(w.pc.approved)), strict) by {
      assert WorkerOk(s, id, strict);
      DecisionSelf(s.st, s.maxTurns, SpentOn(s, w.execution), id, w, strict);
    }
  }

  lemma LookupFenceKept(s: World, id: Uuid, input: Input, strict: bool)
    requires Inv(s, strict) && id in s.workers && s.workers[id].pc.LookupFence?
    ensures Inv(Moved(s, id, CallStep(s.st, id, s.workers[id], input)), strict)
  {
    var w := s.workers[id];
    SaveStep(s, id, WithCall(w.turn, CurrentCall(w.turn).value.(retrievalStarted := true)), Ready, LookupCall, w.advanced, strict) by {
      assert WorkerOk(s, id, strict) && RowOk(s, w.execution, strict);
      if Owned(s.st, w.execution, id) { LookupPoint(s.st, s.maxTurns, SpentOn(s, w.execution), id, w, strict); }
    }
  }

  lemma AskInsertKept(s: World, id: Uuid, input: Input, strict: bool)
    requires Inv(s, strict) && id in s.workers && s.workers[id].pc.AskInsert?
    ensures Inv(Moved(s, id, CallStep(s.st, id, s.workers[id], input)), strict)
  {
    var w := s.workers[id];
    assert WorkerOk(s, id, strict);
    if id in s.st.decisions {
      RaiseStep(s, id, Raising(Crashed, 0), strict);
    } else {
      AskMove(s, id, strict);
    }
  }

  lemma AskSaveKept(s: World, id: Uuid, input: Input, strict: bool)
    requires Inv(s, strict) && id in s.workers && s.workers[id].pc.AskSave?
    ensures Inv(Moved(s, id, CallStep(s.st, id, s.workers[id], input)), strict)
  {
    var w := s.workers[id];
    SaveStep(s, id, w.turn.(approval := Some(id)), AwaitingApproval, CallTop, w.advanced, strict) by {
      assert WorkerOk(s, id, strict) && RowOk(s, w.execution, strict);
      if Owned(s.st, w.execution, id) { AskPoint(s.st, s.maxTurns, SpentOn(s, w.execution), id, w, strict); }
    }
  }

  lemma StageKept(s: World, id: Uuid, input: Input, strict: bool)
    requires Inv(s, strict) && id in s.workers && s.workers[id].pc.Stage?
    ensures Inv(Moved(s, id, CallStep(s.st, id, s.workers[id], input)), strict)
  {
    var w := s.workers[id];
    AuthoriseStep(s, id, Speak, strict) by {
      assert WorkerOk(s, id, strict);
      if Authorised(s.st, id, w) { StageSelf(s.st, s.maxTurns, SpentOn(s, w.execution), id, w, strict); }
    }
  }

  lemma CallTopKept(s: World, id: Uuid, input: Input, strict: bool)
    requires Inv(s, strict) && id in s.workers && s.workers[id].pc.CallTop?
    ensures Inv(Moved(s, id, CallStep(s.st, id, s.workers[id], input)), strict)
  {
    var w := s.workers[id];
    AuthoriseStep(s, id, if w.advanced then Exit(Finishing(Ready)) else Announce, strict) by {
      assert WorkerOk(s, id, strict);
      if Authorised(s.st, id, w) { CallTopSelf(s.st, s.maxTurns, SpentOn(s, w.execution), id, w, strict); }
    }
  }

  lemma DoneSaveKept(s: World, id: Uuid, input: Input, strict: bool)
    requires Inv(s, strict) && id in s.workers && s.workers[id].pc.DoneSave?
    ensures Inv(Moved(s, id, CallStep(s.st, id, s.workers[id], input)), strict)
  {
    var w := s.workers[id];
    SaveStep(s, id, w.turn, Completed, TerminalPc(Completed, w.turn), w.advanced, strict) by {
      assert WorkerOk(s, id, strict) && RowOk(s, w.execution, strict);
      if Owned(s.st, w.execution, id) { DonePoint(s.st, s.maxTurns, SpentOn(s, w.execution), id, w, strict); }
    }
  }

  lemma ResultSaveKept(s: World, id: Uuid, input: Input, strict: bool)
    requires Inv(s, strict) && id in s.workers && s.workers[id].pc.ResultSave?
    ensures Inv(Moved(s, id, CallStep(s.st, id, s.workers[id], input)), strict)
  {
    var w := s.workers[id];
    assert CurrentCall(w.turn).Some? by { assert WorkerOk(s, id, strict); }
    var call := CurrentCall(w.turn).value;
    SaveStep(s, id, WithCall(w.turn, call.(result := Some(w.pc.result)))
      .(exchanges := w.turn.exchanges + [ToolResult(call.tool, call.part, w.pc.result)]), Ready, ResultPublish, w.advanced, strict) by {
      assert WorkerOk(s, id, strict) && RowOk(s, w.execution, strict);
      if Owned(s.st, w.execution, id) { ResultPoint(s.st, s.maxTurns, SpentOn(s, w.execution), id, w, strict); }
    }
  }

  lemma ResultPublishKept(s: World, id: Uuid, input: Input, strict: bool)
    requires Inv(s, strict) && id in s.workers && s.workers[id].pc.ResultPublish?
    ensures Inv(Moved(s, id, CallStep(s.st, id, s.workers[id], input)), strict)
  {
    var w := s.workers[id];
    assert CallStep(s.st, id, w, input) == Emit(s.st, w, Returned(w.turn.round, w.turn.callIndex), AdvanceSave);
    PublishStep(s, id, Returned(w.turn.round, w.turn.callIndex), AdvanceSave, strict) by {
      assert WorkerOk(s, id, strict);
      ResultSelf(s.st, s.maxTurns, SpentOn(s, w.execution), id, w, strict);
    }
  }

  lemma AdvanceSaveKept(s: World, id: Uuid, input: Input, strict: bool)
    requires Inv(s, strict) && id in s.workers && s.workers[id].pc.AdvanceSave?
    ensures Inv(Moved(s, id, CallStep(s.st, id, s.workers[id], input)), strict)
  {
    var w := s.workers[id];
    var turn := w.turn.(callIndex := w.turn.callIndex + 1, approval := None);
    SaveStep(s, id, turn, Ready, CallLoop(turn), true, strict) by {
      assert WorkerOk(s, id, strict) && RowOk(s, w.execution, strict);
      if Owned(s.st, w.execution, id) { AdvancePoint(s.st, s.maxTurns, SpentOn(s, w.execution), id, w, strict); }
    }
  }

  lemma RoundSaveKept(s: World, id: Uuid, input: Input, strict: bool)
    requires Inv(s, strict) && id in s.workers && s.workers[id].pc.RoundSave?
    ensures Inv(Moved(s, id, CallStep(s.st, id, s.workers[id], input)), strict)
  {
    var w := s.workers[id];
    SaveStep(s, id, w.turn.(pending := None), Ready, Top, w.advanced, strict) by {
      assert WorkerOk(s, id, strict) && RowOk(s, w.execution, strict);
      if Owned(s.st, w.execution, id) { RoundPoint(s.st, s.maxTurns, SpentOn(s, w.execution), id, w, strict); }
    }
  }

  lemma RedecideKept(s: World, id: Uuid, input: Input, strict: bool)
    requires Inv(s, strict) && id in s.workers && s.workers[id].pc.Redecide?
    ensures Inv(Moved(s, id, CallStep(s.st, id, s.workers[id], input)), strict)
  {
    var w := s.workers[id];
    assert WorkerOk(s, id, strict);
    if w.turn.approval == None || w.turn.approval.value !in s.st.decisions
       || s.st.decisions[w.turn.approval.value] != Some(w.pc.approved)
       || (w.turn.approval.value in s.st.approvalOf && s.st.approvalOf[w.turn.approval.value] in s.st.cancelled) {
      RaiseStep(s, id, Raising(Crashed, 0), strict);
    } else {
      RedecideSelf(s.st, s.maxTurns, SpentOn(s, w.execution), id, w, strict);
      MoveStep(s, id, DecisionPublish(w.pc.approved), strict);
    }
  }

  lemma ExecuteKept(s: World, id: Uuid, input: Input, strict: bool)
    requires Inv(s, strict) && id in s.workers && s.workers[id].pc.Execute?
    ensures Inv(Moved(s, id, CallStep(s.st, id, s.workers[id], input)), strict)
  {
    var w := s.workers[id];
    assert WorkerOk(s, id, strict);
    var move := Executed(s.st, w, w.pc.approval, input);
    if move == Raise(s.st, w) {
      RaiseStep(s, id, Raising(Crashed, 0), strict);
    } else if move == Stay(s.st, w) {
      StayStep(s, id, strict);
    } else {
      var next := move.worker.value.pc;
      assert move == To(s.st, w, next);
      ExecuteSelf(s.st, s.maxTurns, SpentOn(s, w.execution), id, w, next, strict);
      MoveStep(s, id, next, strict);
    }
  }

  lemma LookupCallKept(s: World, id: Uuid, input: Input, strict: bool)
    requires Inv(s, strict) && id in s.workers && s.workers[id].pc.LookupCall?
    ensures Inv(Moved(s, id, CallStep(s.st, id, s.workers[id], input)), strict)
  {
    var w := s.workers[id];
    assert WorkerOk(s, id, strict);
    if input.ToolOutcome? || input.CallFailed? {
      var next := if input.ToolOutcome? then OutcomePc(input.outcome) else Exit(Raising(Crashed, 0));
      CalledSelf(s.st, s.maxTurns, SpentOn(s, w.execution), id, w, next, strict);
      CallOutStep(s, id, next, strict);
    } else {
      StayStep(s, id, strict);
    }
  }

  // ----- ending -----

  lemma CancelPublishKept(s: World, id: Uuid, input: Input, strict: bool)
    requires Inv(s, strict) && id in s.workers && s.workers[id].pc.CancelPublish?
    ensures Inv(Moved(s, id, EndStep(s.st, id, s.workers[id], input)), strict)
  {
    var w := s.workers[id];
    assert WorkerOk(s, id, strict);
    var spent := SpentOn(s, w.execution);
    if input.Receipt? {
      assert w.(pc := CancelPublish) == w;
      PublishStep(s, id, Returned(w.turn.round, input.index), CancelPublish, strict);
    } else {
      var next := if w.turn.response.Some? then CancelCall
                  else CancelSave(if w.turn.submitted then SubmissionUncertainAtCancel else NoInflightResponse);
      CancellingSelf(s.st, s.maxTurns, spent, id, w, next, strict);
      MoveStep(s, id, next, strict);
    }
  }

  lemma CancelCallKept(s: World, id: Uuid, input: Input, strict: bool)
    requires Inv(s, strict) && id in s.workers && s.workers[id].pc.CancelCall?
    ensures Inv(Moved(s, id, EndStep(s.st, id, s.workers[id], input)), strict)
  {
    var w := s.workers[id];
    assert WorkerOk(s, id, strict);
    var spent := SpentOn(s, w.execution);
    if input.CallFailed? {
      RaiseStep(s, id, Raising(Crashed, 0), strict);
    } else {
      CancellingSelf(s.st, s.maxTurns, spent, id, w, CancelSave(ProviderCancelled), strict);
      MoveStep(s, id, CancelSave(ProviderCancelled), strict);
    }
  }

  lemma CancelSaveKept(s: World, id: Uuid, input: Input, strict: bool)
    requires Inv(s, strict) && id in s.workers && s.workers[id].pc.CancelSave?
    ensures Inv(Moved(s, id, EndStep(s.st, id, s.workers[id], input)), strict)
  {
    var w := s.workers[id];
    SaveStep(s, id, w.turn.(cancellation := Some(w.pc.how)), Cancelled, TerminalPublish(Cancelled), w.advanced, strict) by {
      assert WorkerOk(s, id, strict) && RowOk(s, w.execution, strict);
      if Owned(s.st, w.execution, id) { CancelPoint(s.st, s.maxTurns, SpentOn(s, w.execution), id, w, strict); }
    }
  }

  lemma BudgetCheckKept(s: World, id: Uuid, input: Input, strict: bool)
    requires Inv(s, strict) && id in s.workers && s.workers[id].pc.BudgetCheck?
    ensures Inv(Moved(s, id, EndStep(s.st, id, s.workers[id], input)), strict)
  {
    var w := s.workers[id];
    assert WorkerOk(s, id, strict);
    var spent := SpentOn(s, w.execution);
    BudgetSelf(s.st, s.maxTurns, spent, id, w, strict);
    MoveStep(s, id, if w.execution in s.st.cancelled then CancelPublish else FailSave(w.pc.why), strict);
  }

  lemma FailSaveKept(s: World, id: Uuid, input: Input, strict: bool)
    requires Inv(s, strict) && id in s.workers && s.workers[id].pc.FailSave?
    ensures Inv(Moved(s, id, EndStep(s.st, id, s.workers[id], input)), strict)
  {
    var w := s.workers[id];
    SaveStep(s, id, w.turn.(error := Some(w.pc.why)), Failed, TerminalPc(Failed, w.turn.(error := Some(w.pc.why))), w.advanced, strict) by {
      assert WorkerOk(s, id, strict) && RowOk(s, w.execution, strict);
      if Owned(s.st, w.execution, id) { FailPoint(s.st, s.maxTurns, SpentOn(s, w.execution), id, w, strict); }
    }
  }

  lemma NoticePublishKept(s: World, id: Uuid, input: Input, strict: bool)
    requires Inv(s, strict) && id in s.workers && s.workers[id].pc.NoticePublish?
    ensures Inv(Moved(s, id, EndStep(s.st, id, s.workers[id], input)), strict)
  {
    var w := s.workers[id];
    var part := if w.turn.error.Some? then ErrorPart else Text(w.turn.round);
    assert EndStep(s.st, id, w, input) == Emit(s.st, w, part, TerminalPublish(w.pc.last));
    PublishStep(s, id, part, TerminalPublish(w.pc.last), strict) by {
      assert WorkerOk(s, id, strict);
      NoticeSelf(s.st, s.maxTurns, SpentOn(s, w.execution), id, w, strict);
    }
  }

  lemma TerminalPublishKept(s: World, id: Uuid, input: Input, strict: bool)
    requires Inv(s, strict) && id in s.workers && s.workers[id].pc.TerminalPublish?
    ensures Inv(Moved(s, id, EndStep(s.st, id, s.workers[id], input)), strict)
  {
    var w := s.workers[id];
    var key := Key(w.execution, TerminalPart);
    assert EndStep(s.st, id, w, input) == Emit(s.st, w, TerminalPart, Exit(Finishing(w.pc.last)));
    EmitStep(s, id, TerminalPart, Exit(Finishing(w.pc.last)), strict) by {
      assert WorkerOk(s, id, strict);
      if Published(s.st, w.thread, key).Success? {
        var st' := Published(s.st, w.thread, key).value;
        PublishedGrows(s.st, w.thread, key);
        LogWorker(s.st, st', s.maxTurns, SpentOn(s, w.execution), id, w, strict);
        TerminalSelf(st', s.maxTurns, SpentOn(s, w.execution), id, w, strict);
      }
    }
  }

  // ----- every step -----

  lemma StartKept(s: World, id: Uuid, input: Input, strict: bool)
    requires Inv(s, strict) && id in s.workers && InStart(s.workers[id].pc)
    requires strict ==> !Displaces(s, Advance(id, Proceed))
    ensures Inv(Moved(s, id, StartStep(s.st, id, s.workers[id], input)), strict)
  {
    match s.workers[id].pc
    case Start => StartMove(s, id, input, strict);
    case Enter => EnterKept(s, id, input, strict);
    case Greet => GreetKept(s, id, input, strict);
  }

  lemma ModelKept(s: World, id: Uuid, input: Input, strict: bool)
    requires Inv(s, strict) && id in s.workers && InModel(s.workers[id].pc)
    ensures Inv(Moved(s, id, ModelStep(s.st, s.maxTurns, id, s.workers[id], input)), strict)
  {
    match s.workers[id].pc
    case Top => TopKept(s, id, input, strict);
    case Fence => FenceKept(s, id, input, strict);
    case Submit => SubmitKept(s, id, input, strict);
    case StartedSave(_) => StartedSaveKept(s, id, input, strict);
    case Retrieve => RetrieveKept(s, id, input, strict);
    case PollSave => PollSaveKept(s, id, input, strict);
    case TurnSave(_, _) => TurnSaveKept(s, id, input, strict);
  }

  lemma CallKept(s: World, id: Uuid, input: Input, strict: bool)
    requires Inv(s, strict) && id in s.workers
    requires var pc := s.workers[id].pc; !InStart(pc) && !InModel(pc) && !InEnd(pc)
    ensures Inv(Moved(s, id, CallStep(s.st, id, s.workers[id], input)), strict)
  {
    match s.workers[id].pc
    case Stage => StageKept(s, id, input, strict);
    case Speak => SpeakKept(s, id, input, strict);
    case DoneSave => DoneSaveKept(s, id, input, strict);
    case CallTop => CallTopKept(s, id, input, strict);
    case Announce => AnnounceKept(s, id, input, strict);
    case ReadApproval => ReadApprovalKept(s, id, input, strict);
    case AskPublish => AskPublishKept(s, id, input, strict);
    case PausePublish => PausePublishKept(s, id, input, strict);
    case Redecide(_) => RedecideKept(s, id, input, strict);
    case DecisionPublish(_) => DecisionPublishKept(s, id, input, strict);
    case Execute(_) => ExecuteKept(s, id, input, strict);
    case LookupFence => LookupFenceKept(s, id, input, strict);
    case LookupCall => LookupCallKept(s, id, input, strict);
    case AskInsert => AskInsertKept(s, id, input, strict);
    case AskSave => AskSaveKept(s, id, input, strict);
    case ResultSave(_) => ResultSaveKept(s, id, input, strict);
    case ResultPublish => ResultPublishKept(s, id, input, strict);
    case AdvanceSave => AdvanceSaveKept(s, id, input, strict);
    case RoundSave => RoundSaveKept(s, id, input, strict);
  }

  lemma EndKept(s: World, id: Uuid, input: Input, strict: bool)
    requires Inv(s, strict) && id in s.workers && InEnd(s.workers[id].pc)
    ensures Inv(Moved(s, id, EndStep(s.st, id, s.workers[id], input)), strict)
  {
    match s.workers[id].pc
    case CancelPublish => CancelPublishKept(s, id, input, strict);
    case CancelCall => CancelCallKept(s, id, input, strict);
    case CancelSave(_) => CancelSaveKept(s, id, input, strict);
    case BudgetCheck(_) => BudgetCheckKept(s, id, input, strict);
    case FailSave(_) => FailSaveKept(s, id, input, strict);
    case NoticePublish(_) => NoticePublishKept(s, id, input, strict);
    case TerminalPublish(_) => TerminalPublishKept(s, id, input, strict);
    case Exit(_) => ExitMove(s, id, strict);
    case Ack(_) => AckMove(s, id, strict);
  }

  lemma AdvanceKept(s: World, id: Uuid, input: Input, strict: bool)
    requires Inv(s, strict) && id in s.workers
    requires strict ==> !Displaces(s, Advance(id, Proceed))
    ensures Inv(Moved(s, id, Step(s.st, s.maxTurns, id, s.workers[id], input)), strict)
  {
    var pc := s.workers[id].pc;
    if InStart(pc) { StartKept(s, id, input, strict); }
    else if InModel(pc) { ModelKept(s, id, input, strict); }
    else if InEnd(pc) { EndKept(s, id, input, strict); }
    else { CallKept(s, id, input, strict); }
  }
}
