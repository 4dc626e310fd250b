/** One lemma per program point: where the worker may be after its next step. */
module ProtocolPoints {
  import opened Wrappers
  import opened Store
  import opened Runtime
  import opened Protocol
  import opened ProtocolUnits
  import opened ProtocolSteps

  // ----- begin_stage -----

  lemma CancelSelf(st: Tables, maxTurns: nat, spent: seq<Slot>, id: Uuid, w: Worker, strict: bool)
    requires WorkerInv(st, maxTurns, spent, id, w, strict) && Working(w.pc) && !w.pc.Exit?
    requires Owned(st, w.execution, id)
    ensures WorkerInv(st, maxTurns, spent, id, w.(pc := CancelPublish), strict)
  {
  }

  /** The stage may run: it is owned and no cancellation is stored yet. */
  predicate Authorised(st: Tables, id: Uuid, w: Worker) {
    Owned(st, w.execution, id) && w.execution !in st.cancelled
  }

  lemma EnterSelf(st: Tables, maxTurns: nat, spent: seq<Slot>, id: Uuid, w: Worker, strict: bool)
    requires WorkerInv(st, maxTurns, spent, id, w, strict) && w.pc.Enter? && Authorised(st, id, w)
    ensures WorkerInv(st, maxTurns, spent, id, w.(pc := Greet), strict)
  {
  }

  lemma TopSelf(st: Tables, maxTurns: nat, spent: seq<Slot>, id: Uuid, w: Worker, strict: bool)
    requires RowInv(st, maxTurns, spent, w.execution, strict)
    requires WorkerInv(st, maxTurns, spent, id, w, strict) && w.pc.Top? && Authorised(st, id, w)
    ensures WorkerInv(st, maxTurns, spent, id, w.(pc := TopChoice(w, maxTurns)), strict)
  {
  }

  lemma StageSelf(st: Tables, maxTurns: nat, spent: seq<Slot>, id: Uuid, w: Worker, strict: bool)
    requires WorkerInv(st, maxTurns, spent, id, w, strict) && w.pc.Stage? && Authorised(st, id, w)
    ensures WorkerInv(st, maxTurns, spent, id, w.(pc := Speak), strict)
  {
  }

  lemma CallTopSelf(st: Tables, maxTurns: nat, spent: seq<Slot>, id: Uuid, w: Worker, strict: bool)
    requires WorkerInv(st, maxTurns, spent, id, w, strict) && w.pc.CallTop? && Authorised(st, id, w)
    ensures WorkerInv(st, maxTurns, spent, id, w.(pc := if w.advanced then Exit(Finishing(Ready)) else Announce), strict)
  {
  }

  lemma AuthoriseStep(s: World, id: Uuid, next: Pc, strict: bool)
    requires Inv(s, strict) && id in s.workers
    requires Working(s.workers[id].pc) && !s.workers[id].pc.Exit?
    requires SlotOf(s.workers[id].(pc := next)) == None
    requires Authorised(s.st, id, s.workers[id]) ==>
               WorkerInv(s.st, s.maxTurns, SpentOn(s, s.workers[id].execution), id, s.workers[id].(pc := next), strict)
    ensures Inv(Moved(s, id, Authorise(s.st, id, s.workers[id], next)), strict)
  {
    var w := s.workers[id];
    if !Owned(s.st, w.execution, id) {
      RaiseStep(s, id, Raising(Crashed, 0), strict);
    } else if w.execution in s.st.cancelled {
      assert WorkerOk(s, id, strict);
      CancelSelf(s.st, s.maxTurns, SpentOn(s, w.execution), id, w, strict);
      LogMove(s, id, s.st, w.(pc := CancelPublish), strict);
    } else {
      LogMove(s, id, s.st, w.(pc := next), strict);
    }
  }

  // ----- publications -----

  lemma EmitStep(s: World, id: Uuid, part: Part, next: Pc, strict: bool)
    requires Inv(s, strict) && id in s.workers && !s.workers[id].pc.Start? && !s.workers[id].pc.Ack?
    requires SlotOf(s.workers[id].(pc := next)) == None
    requires var w := s.workers[id];
             Published(s.st, w.thread, Key(w.execution, part)).Success? ==>
               WorkerInv(Published(s.st, w.thread, Key(w.execution, part)).value, s.maxTurns, SpentOn(s, w.execution), id, w.(pc := next), strict)
    ensures Inv(Moved(s, id, Emit(s.st, s.workers[id], part, next)), strict)
  {
    var w := s.workers[id];
    var key := Key(w.execution, part);
    if Published(s.st, w.thread, key).Success? {
      PublishedGrows(s.st, w.thread, key);
      LogMove(s, id, Published(s.st, w.thread, key).value, w.(pc := next), strict);
    } else {
      RaiseStep(s, id, Raising(Crashed, 0), strict);
    }
  }

  // Publishing changes no row, so a publication may continue wherever the row already allows.

  lemma GreetSelf(st: Tables, maxTurns: nat, spent: seq<Slot>, id: Uuid, w: Worker, next: Pc, strict: bool)
    requires WorkerInv(st, maxTurns, spent, id, w, strict) && w.pc.Greet?
    requires next == BudgetCheck(Budget) || next == FailSave(ImageResubmission) || next == Top
    ensures WorkerInv(st, maxTurns, spent, id, w.(pc := next), strict)
  {
  }

  lemma SpeakSelf(st: Tables, maxTurns: nat, spent: seq<Slot>, id: Uuid, w: Worker, next: Pc, strict: bool)
    requires WorkerInv(st, maxTurns, spent, id, w, strict) && w.pc.Speak? && w.turn.pending.Some?
    requires next == if w.turn.pending.value.calls == [] then DoneSave else CallLoop(w.turn)
    ensures WorkerInv(st, maxTurns, spent, id, w.(pc := next), strict)
  {
  }

  lemma AnnounceSelf(st: Tables, maxTurns: nat, spent: seq<Slot>, id: Uuid, w: Worker, strict: bool)
    requires WorkerInv(st, maxTurns, spent, id, w, strict) && w.pc.Announce?
    ensures WorkerInv(st, maxTurns, spent, id, w.(pc := if w.turn.approval.Some? then ReadApproval else AfterApproval(w.turn, None)), strict)
  {
  }

  lemma PauseSelf(st: Tables, maxTurns: nat, spent: seq<Slot>, id: Uuid, w: Worker, strict: bool)
    requires WorkerInv(st, maxTurns, spent, id, w, strict)
    ensures w.pc.AskPublish? ==> WorkerInv(st, maxTurns, spent, id, w.(pc := PausePublish), strict)
    ensures w.pc.PausePublish? ==> WorkerInv(st, maxTurns, spent, id, w.(pc := Exit(Finishing(AwaitingApproval))), strict)
  {
  }

  lemma DecisionSelf(st: Tables, maxTurns: nat, spent: seq<Slot>, id: Uuid, w: Worker, strict: bool)
    requires WorkerInv(st, maxTurns, spent, id, w, strict) && w.pc.DecisionPublish?
    ensures WorkerInv(st, maxTurns, spent, id, w.(pc := AfterApproval(w.turn, Some(w.pc.approved))), strict)
  {
  }

  lemma ResultSelf(st: Tables, maxTurns: nat, spent: seq<Slot>, id: Uuid, w: Worker, strict: bool)
    requires WorkerInv(st, maxTurns, spent, id, w, strict) && w.pc.ResultPublish?
    ensures WorkerInv(st, maxTurns, spent, id, w.(pc := AdvanceSave), strict)
  {
  }

  lemma NoticeSelf(st: Tables, maxTurns: nat, spent: seq<Slot>, id: Uuid, w: Worker, strict: bool)
    requires WorkerInv(st, maxTurns, spent, id, w, strict) && w.pc.NoticePublish?
    ensures WorkerInv(st, maxTurns, spent, id, w.(pc := TerminalPublish(w.pc.last)), strict)
  {
  }

  /** The ending is handed on only once its terminal event is stored. */
  lemma TerminalSelf(st: Tables, maxTurns: nat, spent: seq<Slot>, id: Uuid, w: Worker, strict: bool)
    requires WorkerInv(st, maxTurns, spent, id, w, strict) && w.pc.TerminalPublish?
    requires IsPublished(st, Key(w.execution, TerminalPart))
    ensures WorkerInv(st, maxTurns, spent, id, w.(pc := Exit(Finishing(w.pc.last))), strict)
  {
  }

  // ----- pure moves -----

  lemma ReadSelf(st: Tables, maxTurns: nat, spent: seq<Slot>, id: Uuid, w: Worker, strict: bool)
    requires RowInv(st, maxTurns, spent, w.execution, strict)
    requires WorkerInv(st, maxTurns, spent, id, w, strict) && w.pc.ReadApproval?
    requires w.turn.approval.Some? && w.turn.approval.value in st.decisions
    ensures var decision := st.decisions[w.turn.approval.value];
            WorkerInv(st, maxTurns, spent, id, w.(pc := if decision == None then AskPublish else Redecide(decision.value)), strict)
  {
  }

  lemma RedecideSelf(st: Tables, maxTurns: nat, spent: seq<Slot>, id: Uuid, w: Worker, strict: bool)
    requires WorkerInv(st, maxTurns, spent, id, w, strict) && w.pc.Redecide?
    requires w.turn.approval.Some? && w.turn.approval.value in st.approvalOf
    ensures WorkerInv(st, maxTurns, spent, id, w.(pc := DecisionPublish(w.pc.approved)), strict)
  {
  }

  lemma ExecuteSelf(st: Tables, maxTurns: nat, spent: seq<Slot>, id: Uuid, w: Worker, next: Pc, strict: bool)
    requires WorkerInv(st, maxTurns, spent, id, w, strict) && w.pc.Execute? && CurrentCall(w.turn).Some?
    requires next.ResultSave? || next == AskInsert || (next == LookupFence && w.pc.approval == None && !CurrentCall(w.turn).value.retrievalStarted)
    ensures WorkerInv(st, maxTurns, spent, id, w.(pc := next), strict)
  {
  }

  lemma ModelSelf(st: Tables, maxTurns: nat, spent: seq<Slot>, id: Uuid, w: Worker, next: Pc, strict: bool)
    requires WorkerInv(st, maxTurns, spent, id, w, strict) && w.pc.Retrieve?
    requires next == PollSave || next.TurnSave? || next.BudgetCheck?
    ensures WorkerInv(st, maxTurns, spent, id, w.(pc := next), strict)
  {
  }

  lemma CancellingSelf(st: Tables, maxTurns: nat, spent: seq<Slot>, id: Uuid, w: Worker, next: Pc, strict: bool)
    requires WorkerInv(st, maxTurns, spent, id, w, strict) && (w.pc.CancelPublish? || w.pc.CancelCall?)
    requires next == CancelCall || next.CancelSave?
    ensures WorkerInv(st, maxTurns, spent, id, w.(pc := next), strict)
  {
  }

  lemma BudgetSelf(st: Tables, maxTurns: nat, spent: seq<Slot>, id: Uuid, w: Worker, strict: bool)
    requires WorkerInv(st, maxTurns, spent, id, w, strict) && w.pc.BudgetCheck?
    ensures WorkerInv(st, maxTurns, spent, id,
                      w.(pc := if w.execution in st.cancelled then CancelPublish else FailSave(w.pc.why)), strict)
  {
  }

  lemma MoveStep(s: World, id: Uuid, next: Pc, strict: bool)
    requires Inv(s, strict) && id in s.workers
    requires SlotOf(s.workers[id].(pc := next)) == None
    requires WorkerInv(s.st, s.maxTurns, SpentOn(s, s.workers[id].execution), id, s.workers[id].(pc := next), strict)
    ensures Inv(Moved(s, id, To(s.st, s.workers[id], next)), strict)
  {
    LogMove(s, id, s.st, s.workers[id].(pc := next), strict);
  }
}
