/** Every step of every worker keeps the protocol invariant. */
module ProtocolSteps {
  import opened Wrappers
  import opened Store
  import opened Runtime
  import opened Protocol
  import opened ProtocolFrame
  import opened ProtocolUnits
  import L = EventLog

  lemma SlotsKept(workers: map<Uuid, Worker>, id: Uuid, w: Worker)
    requires SlotsInv(workers) && id in workers
    requires w.execution == workers[id].execution
    requires SlotOf(w) == None || SlotOf(w) == SlotOf(workers[id])
    ensures SlotsInv(workers[id := w])
  {
    var moved := workers[id := w];
    forall one, two ensures Apart(moved, one, two) {
      assert Apart(workers, one, two);
    }
  }

  lemma SlotsDropped(workers: map<Uuid, Worker>, id: Uuid)
    requires SlotsInv(workers)
    ensures SlotsInv(workers - {id})
  {
    var left := workers - {id};
    forall one, two ensures Apart(left, one, two) {
      assert Apart(workers, one, two);
    }
  }

  /** Publications and local moves leave the uuids alone. */
  lemma LogKeys(s: World, s': World)
    requires KeysInv(s.st) && UuidInv(s)
    requires LogOnly(s.st, s'.st) && s'.next == s.next && s'.started == s.started && s'.workers.Keys <= s.workers.Keys
    ensures KeysInv(s'.st) && UuidInv(s')
  {
    forall e ensures RowUuids(s', e) { assert RowUuids(s, e); }
    forall u ensures Drawn(s', u) { assert Drawn(s, u); }
    forall a ensures LinkKnown(s'.st, a) { assert LinkKnown(s.st, a); }
  }

  /** A step that writes nothing but publications: only the moving worker needs an argument. */
  lemma LogMove(s: World, id: Uuid, st': Tables, w: Worker, strict: bool)
    requires Inv(s, strict) && id in s.workers
    requires LogOnly(s.st, st')
    requires w.execution == s.workers[id].execution
    requires SlotOf(w) == None || SlotOf(w) == SlotOf(s.workers[id])
    requires WorkerInv(st', s.maxTurns, SpentOn(s, w.execution), id, w, strict)
    ensures Inv(Moved(s, id, Move(st', Some(w), None)), strict)
  {
    var s' := Moved(s, id, Move(st', Some(w), None));
    SlotsKept(s.workers, id, w);
    LogKeys(s, s');
    forall e ensures RowOk(s', e, strict) {
      assert RowOk(s, e, strict);
      if e in s.st.executions {
        LogRow(s.st, st', s.maxTurns, SpentOn(s, e), e, strict);
      }
    }
    forall other ensures WorkerOk(s', other, strict) {
      assert WorkerOk(s, other, strict);
      if other in s'.workers && other != id {
        var v := s.workers[other];
        LogWorker(s.st, st', s.maxTurns, SpentOn(s, v.execution), other, v, strict);
      }
    }
  }

  /** A worker that leaves needs no argument at all. */
  lemma Gone(s: World, id: Uuid, strict: bool)
    requires Inv(s, strict)
    ensures Inv(s.(workers := s.workers - {id}), strict)
  {
    var s' := s.(workers := s.workers - {id});
    SlotsDropped(s.workers, id);
    LogKeys(s, s');
    forall e ensures RowOk(s', e, strict) { assert RowOk(s, e, strict); }
    forall other ensures WorkerOk(s', other, strict) { assert WorkerOk(s, other, strict); }
  }

  // ----- steps on an exception path -----

  lemma RaiseSelf(st: Tables, maxTurns: nat, spent: seq<Slot>, id: Uuid, w: Worker, advanced: bool, ending: Ending, strict: bool)
    requires WorkerInv(st, maxTurns, spent, id, w, strict)
    requires ending.Raising?
    ensures !w.pc.Start? && !w.pc.Ack? ==>
              WorkerInv(st, maxTurns, spent, id, w.(advanced := advanced, pc := Exit(ending)), strict)
    ensures w.pc.Start? || w.pc.Exit? ==> WorkerInv(st, maxTurns, spent, id, w.(pc := Ack(ending)), strict)
  {
  }

  lemma RaiseStep(s: World, id: Uuid, ending: Ending, strict: bool)
    requires Inv(s, strict) && id in s.workers
    requires ending.Raising? && !s.workers[id].pc.Start? && !s.workers[id].pc.Ack?
    ensures Inv(Moved(s, id, To(s.st, s.workers[id], Exit(ending))), strict)
  {
    var w := s.workers[id];
    assert WorkerOk(s, id, strict);
    RaiseSelf(s.st, s.maxTurns, SpentOn(s, w.execution), id, w, w.advanced, ending, strict);
    LogMove(s, id, s.st, w.(pc := Exit(ending)), strict);
  }

  lemma AckRaiseStep(s: World, id: Uuid, ending: Ending, strict: bool)
    requires Inv(s, strict) && id in s.workers
    requires ending.Raising? && (s.workers[id].pc.Start? || s.workers[id].pc.Exit?)
    ensures Inv(Moved(s, id, To(s.st, s.workers[id], Ack(ending))), strict)
  {
    var w := s.workers[id];
    assert WorkerOk(s, id, strict);
    RaiseSelf(s.st, s.maxTurns, SpentOn(s, w.execution), id, w, w.advanced, ending, strict);
    LogMove(s, id, s.st, w.(pc := Ack(ending)), strict);
  }

  lemma ThrowStep(s: World, id: Uuid, interrupted: bool, strict: bool)
    requires Inv(s, strict) && id in s.workers
    ensures Inv(Moved(s, id, Move(s.st, Thrown(s.workers[id], interrupted), None)), strict)
  {
    var w := s.workers[id];
    var raising := if interrupted then Raising(WorkerInterrupted, 1) else Raising(Crashed, 0);
    if w.pc.Start? || w.pc.Exit? {
      AckRaiseStep(s, id, raising, strict);
    } else if w.pc.Ack? {
      Gone(s, id, strict);
    } else {
      RaiseStep(s, id, raising, strict);
    }
  }

  lemma StayStep(s: World, id: Uuid, strict: bool)
    requires Inv(s, strict) && id in s.workers
    ensures Inv(Moved(s, id, Stay(s.st, s.workers[id])), strict)
  {
    assert s.workers[id := s.workers[id]] == s.workers;
  }

  // ----- steps that save -----

  /** Where a successful save may lead. */
  ghost predicate SaveLeads(st: Tables, id: Uuid, w: Worker, turn': Turn, status: Status, next: Pc, advanced: bool, maxTurns: nat) {
    && TurnAt(next, turn', maxTurns)
    && StatusAt(next, advanced, status)
    && !next.Start? && !next.Ack? && !Pausing(next)
    && !(next.Exit? && next.ending.Raising?)
    && (LastStatus(next).Some? ==> LastStatus(next) == Some(status) && Terminal(status) && !next.Exit?)
    && (w.execution in st.dispatch && Unwoken(st, w) && w.execution in st.cancelled ==> CancelSafe(next))
    && !next.Redecide? && !next.DecisionPublish? && !next.AskSave?
    && (PastApproval(next) && turn'.approval.Some? ==> status != AwaitingApproval && !Undecided(st, turn'.approval.value))
  }

  /** The fence: a call is only entered through a save that fences it for the first time. */
  ghost predicate FenceOk(w: Worker, w': Worker) {
    SlotOf(w').Some? ==> Fenced(w'.turn, SlotOf(w').value) && !Fenced(w.turn, SlotOf(w').value)
  }

  /** What a point's save needs: allowed, well-directed, and fencing before any external call. */
  ghost predicate SaveSound(st: Tables, id: Uuid, w: Worker, turn': Turn, status: Status, next: Pc, advanced: bool, maxTurns: nat) {
    && SaveOk(st, id, w.execution, w.turn, turn', status, maxTurns)
    && SaveLeads(st, id, w, turn', status, next, advanced, maxTurns)
    && FenceOk(w, w.(turn := turn', pc := next, advanced := advanced))
  }

  lemma SavedSelf(st: Tables, maxTurns: nat, spent: seq<Slot>, id: Uuid, w: Worker,
                  turn': Turn, status: Status, next: Pc, advanced: bool, strict: bool)
    requires RowInv(st, maxTurns, spent, w.execution, strict)
    requires WorkerInv(st, maxTurns, spent, id, w, strict) && Working(w.pc)
    requires Saved(st, w.execution, id, turn', status).Success?
    requires SaveSound(st, id, w, turn', status, next, advanced, maxTurns)
    ensures WorkerInv(Saved(st, w.execution, id, turn', status).value, maxTurns, spent, id,
                      w.(turn := turn', pc := next, advanced := advanced), strict)
  {
    var st' := Saved(st, w.execution, id, turn', status).value;
    assert st'.executions[w.execution].context == turn' && st'.executions[w.execution].status == status;
    assert w.turn == st.executions[w.execution].context;
  }

  lemma SaveStep(s: World, id: Uuid, turn': Turn, status: Status, next: Pc, advanced: bool, strict: bool)
    requires Inv(s, strict) && id in s.workers && Working(s.workers[id].pc)
    requires Owned(s.st, s.workers[id].execution, id) ==>
               SaveSound(s.st, id, s.workers[id], turn', status, next, advanced, s.maxTurns)
    ensures Inv(Moved(s, id, Save(s.st, id, s.workers[id].(advanced := advanced), turn', status, next)), strict)
  {
    var w := s.workers[id];
    var e := w.execution;
    assert WorkerOk(s, id, strict) && RowOk(s, e, strict);
    if Owned(s.st, e, id) {
      SavedStep(s, id, turn', status, next, advanced, strict);
    } else {
      var ending := Raising(Crashed, 0);
      RaiseSelf(s.st, s.maxTurns, SpentOn(s, e), id, w, advanced, ending, strict);
      LogMove(s, id, s.st, w.(advanced := advanced, pc := Exit(ending)), strict);
    }
  }

  lemma SavedStep(s: World, id: Uuid, turn': Turn, status: Status, next: Pc, advanced: bool, strict: bool)
    requires Inv(s, strict) && id in s.workers && Working(s.workers[id].pc)
    requires Owned(s.st, s.workers[id].execution, id)
    requires SaveSound(s.st, id, s.workers[id], turn', status, next, advanced, s.maxTurns)
    ensures Inv(Moved(s, id, Move(Saved(s.st, s.workers[id].execution, id, turn', status).value,
                                  Some(s.workers[id].(turn := turn', pc := next, advanced := advanced)), None)), strict)
  {
    SavedMove(s, Moved(s, id, Move(Saved(s.st, s.workers[id].execution, id, turn', status).value,
                                   Some(s.workers[id].(turn := turn', pc := next, advanced := advanced)), None)),
              id, turn', status, next, advanced, strict);
  }

  lemma SavedMove(s: World, s': World, id: Uuid, turn': Turn, status: Status, next: Pc, advanced: bool, strict: bool)
    requires Inv(s, strict) && id in s.workers && Working(s.workers[id].pc)
    requires Owned(s.st, s.workers[id].execution, id)
    requires SaveSound(s.st, id, s.workers[id], turn', status, next, advanced, s.maxTurns)
    requires s' == Moved(s, id, Move(Saved(s.st, s.workers[id].execution, id, turn', status).value,
                                     Some(s.workers[id].(turn := turn', pc := next, advanced := advanced)), None))
    ensures Inv(s', strict)
  {
    var w := s.workers[id];
    var e := w.execution;
    SavedWorkers(s, s', id, turn', status, next, advanced, strict);
    SavedElsewhere(s.st, e, id, w.turn, turn', status, s.maxTurns);
    SavedRow(s.st, s.maxTurns, SpentOn(s, e), e, id, turn', status, strict);
    SavedSlots(s, id, w.(turn := turn', pc := next, advanced := advanced), strict);
    SavedKeys(s, s', id, turn', status);
    Assemble(s, s', e, NewLink(id, status), strict);
  }

  lemma SavedWorkers(s: World, s': World, id: Uuid, turn': Turn, status: Status, next: Pc, advanced: bool, strict: bool)
    requires Inv(s, strict) && id in s.workers && Working(s.workers[id].pc)
    requires Owned(s.st, s.workers[id].execution, id)
    requires SaveSound(s.st, id, s.workers[id], turn', status, next, advanced, s.maxTurns)
    requires s' == Moved(s, id, Move(Saved(s.st, s.workers[id].execution, id, turn', status).value,
                                     Some(s.workers[id].(turn := turn', pc := next, advanced := advanced)), None))
    ensures s.workers[id].execution in s.st.executions
    ensures RowOk(s, s.workers[id].execution, strict)
    ensures s.st.executions[s.workers[id].execution].context == s.workers[id].turn
    ensures forall other :: other in s'.workers && s'.workers[other].execution == s.workers[id].execution ==> WorkerOk(s', other, strict)
  {
    var w := s.workers[id];
    var e := w.execution;
    assert WorkerOk(s, id, strict) && RowOk(s, e, strict);
    SavedSelf(s.st, s.maxTurns, SpentOn(s, e), id, w, turn', status, next, advanced, strict);
    forall other | other in s'.workers && s'.workers[other].execution == e ensures WorkerOk(s', other, strict) {
      if other != id {
        assert WorkerOk(s, other, strict);
        SavedPeer(s.st, s.maxTurns, SpentOn(s, e), e, id, turn', status, other, s.workers[other], strict);
      }
    }
  }

  lemma SavedSlots(s: World, id: Uuid, w': Worker, strict: bool)
    requires Inv(s, strict) && id in s.workers
    requires w'.execution == s.workers[id].execution && w'.execution in s.st.executions
    requires s.st.executions[w'.execution].context == s.workers[id].turn
    requires FenceOk(s.workers[id], w')
    ensures SlotsInv(s.workers[id := w'])
  {
    var moved := s.workers[id := w'];
    forall one, two ensures Apart(moved, one, two) {
      assert Apart(s.workers, one, two) && WorkerOk(s, one, strict) && WorkerOk(s, two, strict);
    }
  }

  lemma SavedKeys(s: World, s': World, id: Uuid, turn': Turn, status: Status)
    requires KeysInv(s.st) && UuidInv(s) && id in s.workers
    requires Saved(s.st, s.workers[id].execution, id, turn', status).Success?
    requires turn'.approval.Some? ==> turn'.approval.value in s.st.decisions
    requires s' == s.(st := Saved(s.st, s.workers[id].execution, id, turn', status).value, workers := s'.workers)
    requires s'.workers.Keys == s.workers.Keys
    ensures KeysInv(s'.st) && UuidInv(s')
  {
    forall e ensures RowUuids(s', e) { assert RowUuids(s, e); }
    forall u ensures Drawn(s', u) { assert Drawn(s, u); }
    forall a ensures LinkKnown(s'.st, a) { assert LinkKnown(s.st, a); }
  }
}
