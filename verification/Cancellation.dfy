/** Cancellation is final at every stage boundary: once it is committed, a run makes no external call that was
    not authorised before, and each of those at most once. */
module Cancellation {
  import opened Wrappers
  import opened Store
  import opened Runtime
  import opened Protocol
  import opened DurableExecution

  /** Past the `begin_stage` of a tool call and before its answer. */
  predicate Calling(pc: Pc) {
    || pc.Announce? || pc.ReadApproval? || pc.Redecide? || pc.DecisionPublish? || pc.Execute?
    || pc.LookupFence? || pc.LookupCall?
  }

  /** The call a worker may still make without asking `begin_stage` again. */
  function Authorised(w: Worker): Option<Slot> {
    if w.pc.Fence? || w.pc.Submit? then Some(Model(w.turn.round))
    else if Calling(w.pc) then Some(Retrieval(w.turn.round, w.turn.callIndex))
    else None
  }

  /** The step grants no new call, and makes none but the one that was granted. */
  ghost predicate GrantsNothing(w: Worker, move: Move) {
    && (move.worker.Some? && Authorised(move.worker.value).Some? ==> Authorised(move.worker.value) == Authorised(w))
    && (move.spent.Some? ==> move.spent == Authorised(w))
  }

  // ----- one step -----

  lemma {:induction false} StartGrants(st: Tables, id: Uuid, w: Worker, input: Input)
    requires InStart(w.pc)
    ensures GrantsNothing(w, StartStep(st, id, w, input))
  {
  }

  predicate SavesTurn(pc: Pc) { pc.Fence? || pc.StartedSave? || pc.PollSave? || pc.TurnSave? }

  lemma {:induction false} TurningGrants(st: Tables, maxTurns: nat, id: Uuid, w: Worker, input: Input)
    requires SavesTurn(w.pc)
    ensures GrantsNothing(w, ModelStep(st, maxTurns, id, w, input))
  {
  }

  /** A refused stage leads to cancellation, not to a call. */
  lemma {:induction false} ModelGrants(st: Tables, maxTurns: nat, id: Uuid, w: Worker, input: Input)
    requires InModel(w.pc) && !SavesTurn(w.pc) && w.execution in st.cancelled
    ensures GrantsNothing(w, ModelStep(st, maxTurns, id, w, input))
  {
  }

  lemma {:induction false} SavingGrants(st: Tables, id: Uuid, w: Worker, input: Input)
    requires w.pc.DoneSave? || w.pc.LookupFence? || w.pc.AskSave?
    ensures GrantsNothing(w, CallStep(st, id, w, input))
  {
  }

  lemma {:induction false} AnsweringGrants(st: Tables, id: Uuid, w: Worker, input: Input)
    requires w.pc.ResultSave? || w.pc.AdvanceSave? || w.pc.RoundSave?
    ensures GrantsNothing(w, CallStep(st, id, w, input))
  {
  }

  lemma {:induction false} SpeakingGrants(st: Tables, id: Uuid, w: Worker, input: Input)
    requires w.pc.Speak?
    ensures GrantsNothing(w, CallStep(st, id, w, input))
  {
  }

  lemma {:induction false} PublishingGrants(st: Tables, id: Uuid, w: Worker, input: Input)
    requires w.pc.AskPublish? || w.pc.PausePublish? || w.pc.ResultPublish?
    ensures GrantsNothing(w, CallStep(st, id, w, input))
  {
  }

  lemma {:induction false} AnnouncingGrants(st: Tables, id: Uuid, w: Worker, input: Input)
    requires w.pc.Announce? || w.pc.DecisionPublish?
    ensures GrantsNothing(w, CallStep(st, id, w, input))
  {
  }

  lemma {:induction false} StagingGrants(st: Tables, id: Uuid, w: Worker, input: Input)
    requires (w.pc.Stage? || w.pc.CallTop?) && w.execution in st.cancelled
    ensures GrantsNothing(w, CallStep(st, id, w, input))
  {
  }

  lemma {:induction false} ReadingGrants(st: Tables, id: Uuid, w: Worker, input: Input)
    requires w.pc.ReadApproval? || w.pc.Redecide?
    ensures GrantsNothing(w, CallStep(st, id, w, input))
  {
  }

  lemma {:induction false} CallingGrants(st: Tables, id: Uuid, w: Worker, input: Input)
    requires w.pc.Execute? || w.pc.LookupCall? || w.pc.AskInsert?
    ensures GrantsNothing(w, CallStep(st, id, w, input))
  {
  }

  lemma {:induction false} CallGrants(st: Tables, id: Uuid, w: Worker, input: Input)
    requires !InStart(w.pc) && !InModel(w.pc) && !InEnd(w.pc) && w.execution in st.cancelled
    ensures GrantsNothing(w, CallStep(st, id, w, input))
  {
    match w.pc
    case Stage => StagingGrants(st, id, w, input);
    case CallTop => StagingGrants(st, id, w, input);
    case DoneSave => SavingGrants(st, id, w, input);
    case LookupFence => SavingGrants(st, id, w, input);
    case AskSave => SavingGrants(st, id, w, input);
    case ResultSave(_) => AnsweringGrants(st, id, w, input);
    case AdvanceSave => AnsweringGrants(st, id, w, input);
    case RoundSave => AnsweringGrants(st, id, w, input);
    case Announce => AnnouncingGrants(st, id, w, input);
    case DecisionPublish(_) => AnnouncingGrants(st, id, w, input);
    case ReadApproval => ReadingGrants(st, id, w, input);
    case Redecide(_) => ReadingGrants(st, id, w, input);
    case Execute(_) => CallingGrants(st, id, w, input);
    case LookupCall => CallingGrants(st, id, w, input);
    case AskInsert => CallingGrants(st, id, w, input);
    case Speak => SpeakingGrants(st, id, w, input);
    case _ => PublishingGrants(st, id, w, input);
  }

  lemma {:induction false} EndGrants(st: Tables, id: Uuid, w: Worker, input: Input)
    requires InEnd(w.pc)
    ensures GrantsNothing(w, EndStep(st, id, w, input))
  {
  }

  lemma {:induction false} StepGrants(st: Tables, maxTurns: nat, id: Uuid, w: Worker, input: Input)
    requires w.execution in st.cancelled
    ensures GrantsNothing(w, Step(st, maxTurns, id, w, input))
  {
    if InStart(w.pc) { StartGrants(st, id, w, input); }
    else if SavesTurn(w.pc) { TurningGrants(st, maxTurns, id, w, input); }
    else if InModel(w.pc) { ModelGrants(st, maxTurns, id, w, input); }
    else if InEnd(w.pc) { EndGrants(st, id, w, input); }
    else { CallGrants(st, id, w, input); }
  }

  // ----- a cancellation is never taken back -----

  /** The step leaves cancellations alone, and the worker on its execution. */
  ghost predicate Keeps(st: Tables, w: Worker, move: Move) {
    && move.st.cancelled == st.cancelled
    && (move.worker.Some? ==> move.worker.value.execution == w.execution)
  }

  lemma {:induction false} StartKeeps(st: Tables, id: Uuid, w: Worker, input: Input)
    ensures Keeps(st, w, StartStep(st, id, w, input))
  {
  }

  lemma {:induction false} TurningKeeps(st: Tables, maxTurns: nat, id: Uuid, w: Worker, input: Input)
    requires SavesTurn(w.pc)
    ensures Keeps(st, w, ModelStep(st, maxTurns, id, w, input))
  {
  }

  lemma {:induction false} ModelKeeps(st: Tables, maxTurns: nat, id: Uuid, w: Worker, input: Input)
    requires !SavesTurn(w.pc)
    ensures Keeps(st, w, ModelStep(st, maxTurns, id, w, input))
  {
  }

  lemma {:induction false} SavingKeeps(st: Tables, id: Uuid, w: Worker, input: Input)
    requires CallSaves(w.pc)
    ensures Keeps(st, w, CallStep(st, id, w, input))
  {
  }

  lemma {:induction false} PublishingKeeps(st: Tables, id: Uuid, w: Worker, input: Input)
    requires CallPublishes(w.pc)
    ensures Keeps(st, w, CallStep(st, id, w, input))
  {
  }

  lemma {:induction false} ExecutingKeeps(st: Tables, id: Uuid, w: Worker, input: Input)
    requires w.pc.Execute? || w.pc.LookupCall? || w.pc.AskInsert?
    ensures Keeps(st, w, CallStep(st, id, w, input))
  {
  }

  lemma {:induction false} DecidingKeeps(st: Tables, id: Uuid, w: Worker, input: Input)
    requires !CallSaves(w.pc) && !CallPublishes(w.pc) && !w.pc.Execute? && !w.pc.LookupCall? && !w.pc.AskInsert?
    ensures Keeps(st, w, CallStep(st, id, w, input))
  {
  }

  lemma {:induction false} EndKeeps(st: Tables, id: Uuid, w: Worker, input: Input)
    ensures Keeps(st, w, EndStep(st, id, w, input))
  {
  }

  lemma {:induction false} StepKeeps(st: Tables, maxTurns: nat, id: Uuid, w: Worker, input: Input)
    ensures Keeps(st, w, Step(st, maxTurns, id, w, input))
  {
    StartKeeps(st, id, w, input);
    if SavesTurn(w.pc) { TurningKeeps(st, maxTurns, id, w, input); }
    else { ModelKeeps(st, maxTurns, id, w, input); }
    EndKeeps(st, id, w, input);
    if CallSaves(w.pc) { SavingKeeps(st, id, w, input); }
    else if CallPublishes(w.pc) { PublishingKeeps(st, id, w, input); }
    else if w.pc.Execute? || w.pc.LookupCall? || w.pc.AskInsert? { ExecutingKeeps(st, id, w, input); }
    else { DecidingKeeps(st, id, w, input); }
  }

  lemma {:induction false} MatchesKeepCancelled(st: Tables, matches: seq<(ResponseId, Option<ExecutionId>)>)
    ensures MatchedAll(st, matches).cancelled == st.cancelled
    decreases |matches|
  {
    if matches != [] { MatchesKeepCancelled(Matched(st, matches[0].0, matches[0].1), matches[1..]); }
  }

  lemma {:induction false} CancelledStays(s: World, a: Action)
    ensures s.st.cancelled <= Next(s, a).st.cancelled
  {
    match a
    case Advance(id, input) => if id in s.workers { StepKeeps(s.st, s.maxTurns, id, s.workers[id], input); }
    case Reconcile(matches) => MatchesKeepCancelled(s.st, matches);
    case _ =>
  }

  // ----- every run -----

  predicate Grants(s: World, e: ExecutionId, id: Uuid, slot: Slot) {
    id in s.workers && s.workers[id].execution == e && Authorised(s.workers[id]) == Some(slot)
  }

  /** What any worker may still call on `e` afterwards, it might have called before. */
  ghost predicate NoNewGrant(s: World, s': World, e: ExecutionId) {
    forall id, slot :: Grants(s', e, id, slot) ==> Grants(s, e, id, slot)
  }

  ghost predicate Granted(s: World, e: ExecutionId, slot: Slot) {
    exists id :: Grants(s, e, id, slot)
  }

  /** Every call made on `e` in between was granted before. */
  ghost predicate OnlyGrantedCalls(s: World, s': World, e: ExecutionId) {
    && SpentOn(s, e) <= SpentOn(s', e)
    && forall i :: |SpentOn(s, e)| <= i < |SpentOn(s', e)| ==> Granted(s, e, SpentOn(s', e)[i])
  }

  lemma {:induction false} OwnGrant(s: World, id: Uuid, input: Input, e: ExecutionId)
    requires e in s.st.cancelled && id in s.workers && s.workers[id].execution == e
    ensures NoNewGrant(s, Next(s, Advance(id, input)), e) && OnlyGrantedCalls(s, Next(s, Advance(id, input)), e)
  {
    var move := Step(s.st, s.maxTurns, id, s.workers[id], input);
    StepGrants(s.st, s.maxTurns, id, s.workers[id], input);
    StepKeeps(s.st, s.maxTurns, id, s.workers[id], input);
    assert Next(s, Advance(id, input)) == Moved(s, id, move);
    if move.spent.Some? { assert Grants(s, e, id, move.spent.value); }
  }

  /** What is not a step of a worker grants nothing: a new delivery has a stage to begin first. */
  lemma {:induction false} OutsideGrants(s: World, a: Action, e: ExecutionId)
    requires !a.Advance?
    ensures NoNewGrant(s, Next(s, a), e) && SpentOn(Next(s, a), e) == SpentOn(s, e)
  {
  }

  lemma {:induction false} NextGrants(s: World, a: Action, e: ExecutionId)
    requires e in s.st.cancelled
    ensures NoNewGrant(s, Next(s, a), e) && OnlyGrantedCalls(s, Next(s, a), e)
  {
    if !a.Advance? { OutsideGrants(s, a, e); }
    else if a.id in s.workers && s.workers[a.id].execution == e { OwnGrant(s, a.id, a.input, e); }
    else if a.id in s.workers { OthersGrant(s, a, e); }
  }

  /** The step of a worker on another execution. */
  lemma {:induction false} OthersGrant(s: World, a: Action, e: ExecutionId)
    requires a.Advance? && a.id in s.workers && s.workers[a.id].execution != e
    ensures NoNewGrant(s, Next(s, a), e) && SpentOn(Next(s, a), e) == SpentOn(s, e)
  {
    StepKeeps(s.st, s.maxTurns, a.id, s.workers[a.id], a.input);
  }

  /** Once an execution is cancelled it stays so, no worker is authorised for a call that it was not already
      authorised for, and every call made from then on was authorised before. */
  lemma {:induction false} CancellationIsFinal(maxTurns: nat, actions: seq<Action>, more: seq<Action>, e: ExecutionId)
    requires e in After(maxTurns, actions).st.cancelled
    ensures var s, s' := After(maxTurns, actions), After(maxTurns, actions + more);
            e in s'.st.cancelled && NoNewGrant(s, s', e) && OnlyGrantedCalls(s, s', e)
    decreases |more|
  {
    if more == [] {
      assert actions + more == actions;
    } else {
      var last := |more| - 1;
      var before := actions + more[..last];
      assert (actions + more)[..|actions| + last] == before && (actions + more)[|actions| + last] == more[last];
      CancellationIsFinal(maxTurns, actions, more[..last], e);
      var s, t := After(maxTurns, actions), After(maxTurns, before);
      CancelledStays(t, more[last]);
      NextGrants(t, more[last], e);
      GrantsCompose(s, t, Next(t, more[last]), e);
    }
  }

  lemma {:induction false} GrantsCompose(s: World, t: World, u: World, e: ExecutionId)
    requires NoNewGrant(s, t, e) && OnlyGrantedCalls(s, t, e) && NoNewGrant(t, u, e) && OnlyGrantedCalls(t, u, e)
    ensures NoNewGrant(s, u, e) && OnlyGrantedCalls(s, u, e)
  {
    forall id, slot | Grants(u, e, id, slot) ensures Grants(s, e, id, slot) { assert Grants(t, e, id, slot); }
    forall i | |SpentOn(s, e)| <= i < |SpentOn(u, e)| ensures Granted(s, e, SpentOn(u, e)[i]) {
      if i < |SpentOn(t, e)| {
        assert SpentOn(u, e)[i] == SpentOn(t, e)[i];
      } else {
        var id :| Grants(t, e, id, SpentOn(u, e)[i]);
        assert Grants(s, e, id, SpentOn(u, e)[i]);
      }
    }
  }

  /** The workers on `e` that had begun a stage. */
  function AtWork(s: World, e: ExecutionId): set<Uuid> {
    set id | id in s.workers && s.workers[id].execution == e && Authorised(s.workers[id]).Some?
  }

  ghost predicate GrantedAmong(s: World, e: ExecutionId, ids: set<Uuid>, slot: Slot) {
    exists id :: id in ids && Grants(s, e, id, slot)
  }

  /** A worker is authorised for one call at a time, so distinct calls need distinct workers. */
  lemma {:induction false} OneCallEach(s: World, e: ExecutionId, calls: seq<Slot>, ids: set<Uuid>)
    requires Distinct(calls) && forall i :: 0 <= i < |calls| ==> GrantedAmong(s, e, ids, calls[i])
    ensures |calls| <= |ids|
  {
    if calls == [] {
    } else {
      var before, last := calls[..|calls| - 1], calls[|calls| - 1];
      var id :| id in ids && Grants(s, e, id, last);
      forall i | 0 <= i < |before| ensures GrantedAmong(s, e, ids - {id}, before[i]) {
        assert before[i] == calls[i];
        var other :| other in ids && Grants(s, e, other, calls[i]);
        assert other in ids - {id};
      }
      OneCallEach(s, e, before, ids - {id});
      assert |ids - {id}| == |ids| - 1;
    }
  }

  /** So at most as many external calls follow a committed cancellation as workers had begun a stage by then. */
  lemma {:induction false} CallsAfterCancellation(maxTurns: nat, actions: seq<Action>, more: seq<Action>, e: ExecutionId)
    requires e in After(maxTurns, actions).st.cancelled
    ensures |SpentOn(After(maxTurns, actions + more), e)|
            <= |SpentOn(After(maxTurns, actions), e)| + |AtWork(After(maxTurns, actions), e)|
  {
    var s, s' := After(maxTurns, actions), After(maxTurns, actions + more);
    CancellationIsFinal(maxTurns, actions, more, e);
    PaidWorkAtMostOnce(maxTurns, actions + more, e);
    var calls := SpentOn(s', e)[|SpentOn(s, e)|..];
    forall i | 0 <= i < |calls| ensures GrantedAmong(s, e, AtWork(s, e), calls[i]) {
      var id :| Grants(s, e, id, SpentOn(s', e)[|SpentOn(s, e)| + i]);
      assert id in AtWork(s, e);
    }
    OneCallEach(s, e, calls, AtWork(s, e));
  }
}
