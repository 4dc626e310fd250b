/** The checkpoints: each one a stage may write, where it leads, and the external calls it fences. */
module ProtocolSaves {
  import opened Wrappers
  import opened Store
  import opened Runtime
  import opened Protocol
  import opened ProtocolFrame
  import opened ProtocolUnits
  import opened ProtocolSteps

  lemma FencePoint(st: Tables, maxTurns: nat, spent: seq<Slot>, id: Uuid, w: Worker, strict: bool)
    requires RowInv(st, maxTurns, spent, w.execution, strict)
    requires WorkerInv(st, maxTurns, spent, id, w, strict) && Owned(st, w.execution, id) && w.pc.Fence?
    ensures SaveSound(st, id, w, w.turn.(submitted := true), Ready, Submit, w.advanced, maxTurns)
  {
  }

  lemma StartedPoint(st: Tables, maxTurns: nat, spent: seq<Slot>, id: Uuid, w: Worker, strict: bool)
    requires RowInv(st, maxTurns, spent, w.execution, strict)
    requires WorkerInv(st, maxTurns, spent, id, w, strict) && Owned(st, w.execution, id) && w.pc.StartedSave?
    ensures SaveSound(st, id, w, w.turn.(response := Some(w.pc.id)), WaitingModel, Exit(Finishing(WaitingModel)), w.advanced, maxTurns)
  {
  }

  lemma PollPoint(st: Tables, maxTurns: nat, spent: seq<Slot>, id: Uuid, w: Worker, strict: bool)
    requires RowInv(st, maxTurns, spent, w.execution, strict)
    requires WorkerInv(st, maxTurns, spent, id, w, strict) && Owned(st, w.execution, id) && w.pc.PollSave?
    ensures SaveSound(st, id, w, w.turn, WaitingModel, Exit(Finishing(WaitingModel)), w.advanced, maxTurns)
  {
  }

  lemma TurnPoint(st: Tables, maxTurns: nat, spent: seq<Slot>, id: Uuid, w: Worker, strict: bool)
    requires RowInv(st, maxTurns, spent, w.execution, strict)
    requires WorkerInv(st, maxTurns, spent, id, w, strict) && Owned(st, w.execution, id) && w.pc.TurnSave?
    ensures SaveSound(st, id, w, AfterTurn(w.turn, w.pc.output, w.pc.turn), Ready, Stage, true, maxTurns)
  {
  }

  lemma DonePoint(st: Tables, maxTurns: nat, spent: seq<Slot>, id: Uuid, w: Worker, strict: bool)
    requires RowInv(st, maxTurns, spent, w.execution, strict)
    requires WorkerInv(st, maxTurns, spent, id, w, strict) && Owned(st, w.execution, id) && w.pc.DoneSave?
    ensures SaveSound(st, id, w, w.turn, Completed, TerminalPc(Completed, w.turn), w.advanced, maxTurns)
  {
  }

  lemma LookupPoint(st: Tables, maxTurns: nat, spent: seq<Slot>, id: Uuid, w: Worker, strict: bool)
    requires RowInv(st, maxTurns, spent, w.execution, strict)
    requires WorkerInv(st, maxTurns, spent, id, w, strict) && Owned(st, w.execution, id) && w.pc.LookupFence?
    ensures SaveSound(st, id, w, WithCall(w.turn, CurrentCall(w.turn).value.(retrievalStarted := true)), Ready, LookupCall, w.advanced, maxTurns)
  {
  }

  lemma AskPoint(st: Tables, maxTurns: nat, spent: seq<Slot>, id: Uuid, w: Worker, strict: bool)
    requires RowInv(st, maxTurns, spent, w.execution, strict)
    requires WorkerInv(st, maxTurns, spent, id, w, strict) && Owned(st, w.execution, id) && w.pc.AskSave?
    ensures SaveSound(st, id, w, w.turn.(approval := Some(id)), AwaitingApproval, CallTop, w.advanced, maxTurns)
  {
  }

  lemma ResultPoint(st: Tables, maxTurns: nat, spent: seq<Slot>, id: Uuid, w: Worker, strict: bool)
    requires RowInv(st, maxTurns, spent, w.execution, strict)
    requires WorkerInv(st, maxTurns, spent, id, w, strict) && Owned(st, w.execution, id) && w.pc.ResultSave?
    ensures var call := CurrentCall(w.turn).value;
            SaveSound(st, id, w, WithCall(w.turn, call.(result := Some(w.pc.result)))
              .(exchanges := w.turn.exchanges + [ToolResult(call.tool, call.part, w.pc.result)]), Ready, ResultPublish, w.advanced, maxTurns)
  {
  }

  lemma AdvancePoint(st: Tables, maxTurns: nat, spent: seq<Slot>, id: Uuid, w: Worker, strict: bool)
    requires RowInv(st, maxTurns, spent, w.execution, strict)
    requires WorkerInv(st, maxTurns, spent, id, w, strict) && Owned(st, w.execution, id) && w.pc.AdvanceSave?
    ensures var turn := w.turn.(callIndex := w.turn.callIndex + 1, approval := None);
            SaveSound(st, id, w, turn, Ready, CallLoop(turn), true, maxTurns)
  {
  }

  lemma RoundPoint(st: Tables, maxTurns: nat, spent: seq<Slot>, id: Uuid, w: Worker, strict: bool)
    requires RowInv(st, maxTurns, spent, w.execution, strict)
    requires WorkerInv(st, maxTurns, spent, id, w, strict) && Owned(st, w.execution, id) && w.pc.RoundSave?
    ensures SaveSound(st, id, w, w.turn.(pending := None), Ready, Top, w.advanced, maxTurns)
  {
  }

  lemma CancelPoint(st: Tables, maxTurns: nat, spent: seq<Slot>, id: Uuid, w: Worker, strict: bool)
    requires RowInv(st, maxTurns, spent, w.execution, strict)
    requires WorkerInv(st, maxTurns, spent, id, w, strict) && Owned(st, w.execution, id) && w.pc.CancelSave?
    ensures SaveSound(st, id, w, w.turn.(cancellation := Some(w.pc.how)), Cancelled, TerminalPublish(Cancelled), w.advanced, maxTurns)
  {
  }

  lemma FailPoint(st: Tables, maxTurns: nat, spent: seq<Slot>, id: Uuid, w: Worker, strict: bool)
    requires RowInv(st, maxTurns, spent, w.execution, strict)
    requires WorkerInv(st, maxTurns, spent, id, w, strict) && Owned(st, w.execution, id) && w.pc.FailSave?
    ensures var turn := w.turn.(error := Some(w.pc.why));
            SaveSound(st, id, w, turn, Failed, TerminalPc(Failed, turn), w.advanced, maxTurns)
  {
  }
}
