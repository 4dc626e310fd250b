/** The worker steps that touch more than one row field: claiming, calling out, asking, releasing
    and acknowledging; then every step of a worker together. */
module ProtocolMoves {
  import opened Wrappers
  import opened Store
  import opened Runtime
  import opened Protocol
  import opened ProtocolFrame
  import opened ProtocolUnits
  import opened ProtocolSteps
  import opened ProtocolSaves
  import opened ProtocolPoints

  // ----- external calls -----

  /** Making the fenced call records it; it was never recorded before and nobody else can make it. */
  lemma SpendRow(st: Tables, maxTurns: nat, spent: seq<Slot>, e: ExecutionId, slot: Slot, strict: bool)
    requires RowInv(st, maxTurns, spent, e, strict)
    requires Fenced(st.executions[e].context, slot) && slot !in spent
    requires slot.Model? ==> slot.round < maxTurns
    ensures RowInv(st, maxTurns, spent + [slot], e, strict)
  {
    var all := spent + [slot];
    forall other | other in all ensures Fenced(st.executions[e].context, other) && (other.Model? ==> other.round < maxTurns) {
      assert other in spent || other == slot;
    }
  }

  lemma SpendPeer(st: Tables, maxTurns: nat, spent: seq<Slot>, slot: Slot, other: Uuid, v: Worker, strict: bool)
    requires WorkerInv(st, maxTurns, spent, other, v, strict)
    requires SlotOf(v) != Some(slot)
    ensures WorkerInv(st, maxTurns, spent + [slot], other, v, strict)
  {
  }

  lemma CalledSelf(st: Tables, maxTurns: nat, spent: seq<Slot>, id: Uuid, w: Worker, next: Pc, strict: bool)
    requires WorkerInv(st, maxTurns, spent, id, w, strict)
    requires w.pc.Submit? ==>
      next.StartedSave? || next.TurnSave? || next.BudgetCheck? || next == Exit(Raising(Crashed, 0))
    requires w.pc.LookupCall? ==> next.ResultSave? || next == AskInsert || next == Exit(Raising(Crashed, 0))
    requires w.pc.Submit? || w.pc.LookupCall?
    ensures WorkerInv(st, maxTurns, spent, id, w.(pc := next), strict)
  {
  }

  lemma CallOutStep(s: World, id: Uuid, next: Pc, strict: bool)
    requires Inv(s, strict) && id in s.workers
    requires SlotOf(s.workers[id]).Some? && SlotOf(s.workers[id].(pc := next)) == None
    requires WorkerInv(s.st, s.maxTurns, SpentOn(s, s.workers[id].execution), id, s.workers[id].(pc := next), strict)
    ensures Inv(Moved(s, id, Move(s.st, Some(s.workers[id].(pc := next)), SlotOf(s.workers[id]))), strict)
  {
    var w := s.workers[id];
    var e := w.execution;
    var slot := SlotOf(w).value;
    var w' := w.(pc := next);
    var s' := Moved(s, id, Move(s.st, Some(w'), Some(slot)));
    assert WorkerOk(s, id, strict) && RowOk(s, e, strict);
    assert SpentOn(s', e) == SpentOn(s, e) + [slot];
    SpendRow(s.st, s.maxTurns, SpentOn(s, e), e, slot, strict);
    forall other | other in s'.workers && s'.workers[other].execution == e ensures WorkerOk(s', other, strict) {
      assert WorkerOk(s, other, strict) && Apart(s.workers, id, other);
      SpendPeer(s.st, s.maxTurns, SpentOn(s, e), slot, other, s'.workers[other], strict);
    }
    SlotsKept(s.workers, id, w');
    LogKeys(s, s');
    Assemble(s, s', e, None, strict);
  }

  // ----- executions.claim -----

  lemma StartSelf(st: Tables, maxTurns: nat, spent: seq<Slot>, id: Uuid, w: Worker, strict: bool)
    requires RowInv(st, maxTurns, spent, w.execution, strict)
    requires WorkerInv(st, maxTurns, spent, id, w, strict) && w.pc.Start?
    requires ExecutionClaimed(st, w.thread, w.execution, id).Success?
    ensures WorkerInv(ExecutionClaimed(st, w.thread, w.execution, id).value, maxTurns, spent, id, StartedWorker(st, w), strict)
  {
  }

  lemma StartMove(s: World, id: Uuid, input: Input, strict: bool)
    requires Inv(s, strict) && id in s.workers && s.workers[id].pc.Start?
    requires strict ==> !Displaces(s, Advance(id, Proceed))
    ensures Inv(Moved(s, id, StartStep(s.st, id, s.workers[id], input)), strict)
  {
    var w := s.workers[id];
    assert WorkerOk(s, id, strict) && RowOk(s, w.execution, strict);
    var claim := ExecutionClaimed(s.st, w.thread, w.execution, id);
    if claim.Success? {
      StartedMove(s, id, strict);
    } else {
      AckRaiseStep(s, id, Raising(ExecutionBusy, claim.error.retryAfter), strict);
    }
  }

  function StartedWorker(st: Tables, w: Worker): Worker
    requires w.execution in st.executions
  {
    var x := st.executions[w.execution];
    w.(turn := x.context, pc := if Terminal(x.status) then TerminalPc(x.status, x.context) else Enter)
  }

  lemma StartedMove(s: World, id: Uuid, strict: bool)
    requires Inv(s, strict) && id in s.workers && s.workers[id].pc.Start?
    requires s.workers[id].execution in s.st.executions
    requires strict ==> !Displaces(s, Advance(id, Proceed))
    requires ExecutionClaimed(s.st, s.workers[id].thread, s.workers[id].execution, id).Success?
    ensures Inv(Moved(s, id, Move(ExecutionClaimed(s.st, s.workers[id].thread, s.workers[id].execution, id).value,
                                  Some(StartedWorker(s.st, s.workers[id])), None)), strict)
  {
    var w := s.workers[id];
    var e := w.execution;
    var s' := Moved(s, id, Move(ExecutionClaimed(s.st, w.thread, e, id).value, Some(StartedWorker(s.st, w)), None));
    assert RowOk(s, e, strict);
    ClaimedRow(s.st, s.maxTurns, SpentOn(s, e), e, w.thread, id, strict);
    StartedWorkers(s, s', id, strict);
    SlotsKept(s.workers, id, StartedWorker(s.st, w));
    StartedKeys(s, s', id);
    Assemble(s, s', e, None, strict);
  }

  lemma StartedWorkers(s: World, s': World, id: Uuid, strict: bool)
    requires Inv(s, strict) && id in s.workers && s.workers[id].pc.Start?
    requires s.workers[id].execution in s.st.executions
    requires strict ==> !Displaces(s, Advance(id, Proceed))
    requires ExecutionClaimed(s.st, s.workers[id].thread, s.workers[id].execution, id).Success?
    requires s' == Moved(s, id, Move(ExecutionClaimed(s.st, s.workers[id].thread, s.workers[id].execution, id).value,
                                     Some(StartedWorker(s.st, s.workers[id])), None))
    ensures forall other :: other in s'.workers && s'.workers[other].execution == s.workers[id].execution ==> WorkerOk(s', other, strict)
  {
    var w := s.workers[id];
    var e := w.execution;
    assert WorkerOk(s, id, strict) && RowOk(s, e, strict);
    StartSelf(s.st, s.maxTurns, SpentOn(s, e), id, w, strict);
    forall other | other in s'.workers && s'.workers[other].execution == e ensures WorkerOk(s', other, strict) {
      if other != id {
        assert WorkerOk(s, other, strict);
        assert ReturningFor(s, e, other) == Returning(s.st, other, s.workers[other]);
        ClaimedPeer(s.st, s.maxTurns, SpentOn(s, e), e, w.thread, id, other, s.workers[other], strict);
      }
    }
  }

  lemma StartedKeys(s: World, s': World, id: Uuid)
    requires KeysInv(s.st) && UuidInv(s) && id in s.workers
    requires ExecutionClaimed(s.st, s.workers[id].thread, s.workers[id].execution, id).Success?
    requires s' == s.(st := ExecutionClaimed(s.st, s.workers[id].thread, s.workers[id].execution, id).value, workers := s'.workers)
    requires s'.workers.Keys == s.workers.Keys
    ensures KeysInv(s'.st) && UuidInv(s')
  {
    forall e ensures RowUuids(s', e) { assert RowUuids(s, e); }
    forall u ensures Drawn(s', u) { assert Drawn(s, u); }
    forall a ensures LinkKnown(s'.st, a) { assert LinkKnown(s.st, a); }
  }

  // ----- approvals.request -----

  /** Inserting the request touches no row; nothing links it until the save. */
  lemma AskedElsewhere(st: Tables, id: Uuid, e: ExecutionId)
    requires id !in st.decisions
    ensures Elsewhere(st, st.(decisions := st.decisions[id := None]), e, None)
  {
  }

  lemma AskedRow(st: Tables, maxTurns: nat, spent: seq<Slot>, e: ExecutionId, id: Uuid, strict: bool)
    requires RowInv(st, maxTurns, spent, e, strict) && id !in st.decisions
    ensures RowInv(st.(decisions := st.decisions[id := None]), maxTurns, spent, e, strict)
  {
  }

  lemma AskedPeer(st: Tables, maxTurns: nat, spent: seq<Slot>, id: Uuid, other: Uuid, v: Worker, strict: bool)
    requires WorkerInv(st, maxTurns, spent, other, v, strict) && id !in st.decisions
    requires RowInv(st, maxTurns, spent, v.execution, strict)
    ensures WorkerInv(st.(decisions := st.decisions[id := None]), maxTurns, spent, other, v, strict)
  {
  }

  lemma AskedSelf(st: Tables, maxTurns: nat, spent: seq<Slot>, id: Uuid, w: Worker, strict: bool)
    requires WorkerInv(st, maxTurns, spent, id, w, strict) && id !in st.decisions && w.pc.AskInsert?
    requires RowInv(st, maxTurns, spent, w.execution, strict)
    requires id !in st.approvalOf
    ensures WorkerInv(st.(decisions := st.decisions[id := None]), maxTurns, spent, id, w.(pc := AskSave), strict)
  {
  }

  lemma AskMove(s: World, id: Uuid, strict: bool)
    requires Inv(s, strict) && id in s.workers && s.workers[id].pc.AskInsert? && id !in s.st.decisions
    ensures Inv(Moved(s, id, To(s.st.(decisions := s.st.decisions[id := None]), s.workers[id], AskSave)), strict)
  {
    var w := s.workers[id];
    var e := w.execution;
    var st' := s.st.(decisions := s.st.decisions[id := None]);
    var w' := w.(pc := AskSave);
    var s' := Moved(s, id, Move(st', Some(w'), None));
    assert WorkerOk(s, id, strict) && RowOk(s, e, strict);
    AskedElsewhere(s.st, id, e);
    AskedRow(s.st, s.maxTurns, SpentOn(s, e), e, id, strict);
    AskedSelf(s.st, s.maxTurns, SpentOn(s, e), id, w, strict);
    forall other | other in s'.workers && s'.workers[other].execution == e ensures WorkerOk(s', other, strict) {
      if other != id {
        assert WorkerOk(s, other, strict);
        AskedPeer(s.st, s.maxTurns, SpentOn(s, e), id, other, s.workers[other], strict);
      }
    }
    SlotsKept(s.workers, id, w');
    AskedKeys(s, s', id);
    Assemble(s, s', e, None, strict);
  }

  lemma AskedKeys(s: World, s': World, id: Uuid)
    requires KeysInv(s.st) && UuidInv(s)
    requires s' == s.(st := s.st.(decisions := s.st.decisions[id := None]), workers := s'.workers)
    requires s'.workers.Keys == s.workers.Keys
    ensures KeysInv(s'.st) && UuidInv(s')
  {
    forall e ensures RowUuids(s', e) { assert RowUuids(s, e); }
    forall u ensures Drawn(s', u) { assert Drawn(s, u); }
    forall a ensures LinkKnown(s'.st, a) { assert LinkKnown(s.st, a); }
  }

  // ----- release and acknowledge -----

  lemma ExitRaised(st: Tables, maxTurns: nat, spent: seq<Slot>, id: Uuid, w: Worker, strict: bool)
    requires RowInv(st, maxTurns, spent, w.execution, strict)
    requires WorkerInv(st, maxTurns, spent, id, w, strict) && w.pc.Exit?
    requires w.pc.ending.Raising? || Terminal(w.pc.ending.status)
    ensures WorkerInv(Released(st, w.execution, id), maxTurns, spent, id, w.(pc := Ack(w.pc.ending)), strict)
  {
    var st', w' := Released(st, w.execution, id), w.(pc := Ack(w.pc.ending));
    assert LastStatus(w'.pc) == LastStatus(w.pc) && !Working(w'.pc) && !Pausing(w'.pc);
    assert WakeInv(st', id, w') && ApprovalInv(st', id, w');
  }

  /** Releasing under a current delivery leaves exactly the row this worker last saved. */
  lemma ExitSelf(st: Tables, maxTurns: nat, spent: seq<Slot>, id: Uuid, w: Worker, strict: bool)
    requires RowInv(st, maxTurns, spent, w.execution, strict)
    requires WorkerInv(st, maxTurns, spent, id, w, strict) && w.pc.Exit?
    requires w.pc.ending.Finishing? && !Terminal(w.pc.ending.status)
    ensures WorkerInv(Released(st, w.execution, id), maxTurns, spent, id, w.(pc := Ack(w.pc.ending)), strict)
  {
  }

  lemma ExitWorkers(s: World, s': World, id: Uuid, strict: bool)
    requires Inv(s, strict) && id in s.workers && s.workers[id].pc.Exit?
    requires s' == Moved(s, id, To(Released(s.st, s.workers[id].execution, id), s.workers[id], Ack(s.workers[id].pc.ending)))
    ensures forall other :: other in s'.workers && s'.workers[other].execution == s.workers[id].execution ==> WorkerOk(s', other, strict)
  {
    var w := s.workers[id];
    var e := w.execution;
    assert WorkerOk(s, id, strict) && RowOk(s, e, strict);
    forall other | other in s'.workers && s'.workers[other].execution == e ensures WorkerOk(s', other, strict) {
      if other != id {
        assert WorkerOk(s, other, strict);
        ReleasedPeer(s.st, s.maxTurns, SpentOn(s, e), e, id, other, s.workers[other], strict);
      } else if w.pc.ending.Raising? || Terminal(w.pc.ending.status) {
        ExitRaised(s.st, s.maxTurns, SpentOn(s, e), id, w, strict);
      } else {
        ExitSelf(s.st, s.maxTurns, SpentOn(s, e), id, w, strict);
      }
    }
  }

  lemma ExitMove(s: World, id: Uuid, strict: bool)
    requires Inv(s, strict) && id in s.workers && s.workers[id].pc.Exit?
    ensures Inv(Moved(s, id, To(Released(s.st, s.workers[id].execution, id), s.workers[id], Ack(s.workers[id].pc.ending))), strict)
  {
    var w := s.workers[id];
    var e := w.execution;
    var s' := Moved(s, id, To(Released(s.st, e, id), w, Ack(w.pc.ending)));
    assert e in s.st.executions by { assert WorkerOk(s, id, strict); }
    assert RowOk(s', e, strict) && Elsewhere(s.st, s'.st, e, None) by {
      assert RowOk(s, e, strict);
      ReleasedRow(s.st, s.maxTurns, SpentOn(s, e), e, id, strict);
    }
    ExitWorkers(s, s', id, strict);
    SlotsKept(s.workers, id, w.(pc := Ack(w.pc.ending)));
    ReleasedKeys(s, s', e, id);
    Assemble(s, s', e, None, strict);
  }

  lemma ReleasedKeys(s: World, s': World, e: ExecutionId, id: Uuid)
    requires KeysInv(s.st) && UuidInv(s)
    requires s' == s.(st := Released(s.st, e, id), workers := s'.workers)
    requires s'.workers.Keys == s.workers.Keys
    ensures KeysInv(s'.st) && UuidInv(s')
  {
    forall e ensures RowUuids(s', e) { assert RowUuids(s, e); }
    forall u ensures Drawn(s', u) { assert Drawn(s, u); }
    forall a ensures LinkKnown(s'.st, a) { assert LinkKnown(s.st, a); }
  }

  function Acknowledged(st: Tables, id: Uuid, w: Worker): Tables
    requires w.pc.Ack?
  {
    Finished(st, w.execution, id, w.version, if w.pc.ending.Raising? then Some(w.pc.ending.kind) else None,
             if w.pc.ending.Raising? then w.pc.ending.retryAfter else 0)
  }

  lemma AckMove(s: World, id: Uuid, strict: bool)
    requires Inv(s, strict) && id in s.workers && s.workers[id].pc.Ack?
    ensures Inv(Moved(s, id, Move(Acknowledged(s.st, id, s.workers[id]), None, None)), strict)
  {
    var w := s.workers[id];
    var e := w.execution;
    var failure := if w.pc.ending.Raising? then Some(w.pc.ending.kind) else None;
    var retryAfter := if w.pc.ending.Raising? then w.pc.ending.retryAfter else 0;
    var s' := Moved(s, id, Move(Finished(s.st, e, id, w.version, failure, retryAfter), None, None));
    assert WorkerOk(s, id, strict) && RowOk(s, e, strict);
    FinishedElsewhere(s.st, e, id, w.version, failure, retryAfter);
    FinishedRow(s.st, s.maxTurns, SpentOn(s, e), e, id, w, strict);
    AckedWorkers(s, s', id, w.version, failure, retryAfter, strict);
    SlotsDropped(s.workers, id);
    FinishedKeys(s, s', id, w.version, failure, retryAfter);
    Assemble(s, s', e, None, strict);
  }

  lemma AckedWorkers(s: World, s': World, id: Uuid, version: nat, failure: Option<FailureKind>, retryAfter: nat, strict: bool)
    requires Inv(s, strict) && id in s.workers && s.workers[id].pc.Ack?
    requires s' == Moved(s, id, Move(Finished(s.st, s.workers[id].execution, id, version, failure, retryAfter), None, None))
    ensures forall other :: other in s'.workers && s'.workers[other].execution == s.workers[id].execution ==> WorkerOk(s', other, strict)
  {
    var e := s.workers[id].execution;
    assert WorkerOk(s, id, strict) && RowOk(s, e, strict);
    forall other | other in s'.workers && s'.workers[other].execution == e ensures WorkerOk(s', other, strict) {
      assert WorkerOk(s, other, strict);
      FinishedPeer(s.st, s.maxTurns, SpentOn(s, e), e, id, version, failure, retryAfter, other, s.workers[other], strict);
    }
  }

  lemma FinishedKeys(s: World, s': World, id: Uuid, version: nat, failure: Option<FailureKind>, retryAfter: nat)
    requires KeysInv(s.st) && UuidInv(s) && id in s.workers
    requires s' == s.(st := Finished(s.st, s.workers[id].execution, id, version, failure, retryAfter), workers := s'.workers)
    requires s'.workers.Keys <= s.workers.Keys
    ensures KeysInv(s'.st) && UuidInv(s')
  {
    forall e ensures RowUuids(s', e) { assert RowUuids(s, e); }
    forall u ensures Drawn(s', u) { assert Drawn(s, u); }
    forall a ensures LinkKnown(s'.st, a) { assert LinkKnown(s.st, a); }
  }
}
