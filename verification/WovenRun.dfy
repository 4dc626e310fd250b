/** The nested loops inside the whole system: a walk of one delivery, woven with whatever the rest of the
    system does between its steps, is a run of the system. So what holds of every run holds of the loops. */
module WovenRun {
  import opened Wrappers
  import opened Store
  import opened Runtime
  import opened Protocol
  import opened DurableExecution
  import opened Cancellation
  import opened StageLoop

  /** An action that neither steps nor ends this worker. */
  predicate Foreign(a: Action, id: Uuid) {
    match a
    case Advance(other, _) => other != id
    case Throw(other, _) => other != id
    case Crash(other) => other != id
    case _ => true
  }

  predicate AllForeign(actions: seq<Action>, id: Uuid) {
    forall i :: 0 <= i < |actions| ==> Foreign(actions[i], id)
  }

  /** After `prior`: before each step of the worker, what the others do; then the step. */
  function Woven(prior: seq<Action>, id: Uuid, steps: seq<Crossing>, others: seq<seq<Action>>): seq<Action>
    requires |others| == |steps|
    decreases |steps|
  {
    if steps == [] then prior
    else
      var last := |steps| - 1;
      Woven(prior, id, steps[..last], others[..last]) + others[last] + [Advance(id, steps[last].input)]
  }

  /** The tables each step found are those the run had reached. */
  ghost predicate Fits(maxTurns: nat, prior: seq<Action>, id: Uuid, steps: seq<Crossing>, others: seq<seq<Action>>)
    requires |others| == |steps|
    decreases |steps|
  {
    steps == [] ||
    (var last := |steps| - 1;
     && Fits(maxTurns, prior, id, steps[..last], others[..last])
     && AllForeign(others[last], id)
     && After(maxTurns, Woven(prior, id, steps[..last], others[..last]) + others[last]).st == steps[last].before)
  }

  // ----- what the others leave alone -----

  lemma {:induction false} SpentGrows(s: World, a: Action, e: ExecutionId)
    ensures SpentOn(s, e) <= SpentOn(Next(s, a), e)
  {
  }

  /** A fresh delivery draws another uuid. */
  lemma {:induction false} ForeignKeeps(s: World, a: Action, id: Uuid)
    requires Inv(s, false) && id in s.workers && Foreign(a, id)
    ensures id in Next(s, a).workers && Next(s, a).workers[id] == s.workers[id]
  {
    assert id in s.started && Drawn(s, id);
  }

  lemma {:induction false} AfterOne(maxTurns: nat, actions: seq<Action>, a: Action)
    ensures After(maxTurns, actions + [a]) == Next(After(maxTurns, actions), a)
  {
    assert (actions + [a])[..|actions|] == actions;
  }

  lemma {:induction false} OthersKeep(maxTurns: nat, run: seq<Action>, foreign: seq<Action>, id: Uuid, e: ExecutionId)
    requires id in After(maxTurns, run).workers && AllForeign(foreign, id)
    ensures var s, s' := After(maxTurns, run), After(maxTurns, run + foreign);
            id in s'.workers && s'.workers[id] == s.workers[id] && SpentOn(s, e) <= SpentOn(s', e)
    decreases |foreign|
  {
    if foreign == [] {
      assert run + foreign == run;
    } else {
      var before, last := foreign[..|foreign| - 1], foreign[|foreign| - 1];
      assert run + foreign == (run + before) + [last];
      OthersKeep(maxTurns, run, before, id, e);
      AfterOne(maxTurns, run + before, last);
      RunKept(maxTurns, run + before, false);
      ForeignKeeps(After(maxTurns, run + before), last, id);
      SpentGrows(After(maxTurns, run + before), last, e);
    }
  }

  // ----- the walk is a run -----

  /** The run stands where the walk does, and the calls the walk made were made by nobody else. */
  ghost predicate Stands(s: World, start: World, id: Uuid, e: ExecutionId, made: seq<Slot>, last: Option<Worker>) {
    && (last.Some? ==> id in s.workers && s.workers[id] == last.value && last.value.execution == e)
    && (last == None ==> id !in s.workers)
    && Distinct(made)
    && SpentOn(start, e) <= SpentOn(s, e)
    && forall slot :: slot in made ==> slot in SpentOn(s, e) && slot !in SpentOn(start, e)
  }

  lemma {:induction false} PaidOnce(move: Move)
    ensures |Paid(move)| <= 1
  {
  }

  lemma {:induction false} CrossesOnce(maxTurns: nat, id: Uuid, w: Worker, crossing: Crossing, paid: seq<Slot>, last: Option<Worker>)
    requires Crosses(maxTurns, id, w, crossing, paid, last)
    ensures |paid| <= 1 && (last.Some? ==> last.value.execution == w.execution)
  {
    PaidOnce(Step(crossing.before, maxTurns, id, w, crossing.input));
    StepKeeps(crossing.before, maxTurns, id, w, crossing.input);
  }

  /** What a step of the walk adds to the calls of its execution. */
  lemma {:induction false} CrossingSpends(s: World, s': World, id: Uuid, paid: seq<Slot>)
    requires id in s.workers && |paid| <= 1
    requires s'.spent == (if paid == [] then s.spent else Spend(s.spent, s.workers[id].execution, Some(paid[0])))
    ensures SpentOn(s', s.workers[id].execution) == SpentOn(s, s.workers[id].execution) + paid
  {
  }

  lemma {:induction false} NotBefore(spent: seq<Slot>, slot: Slot)
    requires Distinct(spent + [slot])
    ensures slot !in spent
  {
    var all := spent + [slot];
    forall i | 0 <= i < |spent| ensures spent[i] != slot { assert all[i] == spent[i] && all[|spent|] == slot; }
  }

  lemma {:induction false} StandsMore(s: World, s': World, start: World, id: Uuid, e: ExecutionId,
                                      before: seq<Slot>, w: Worker, paid: seq<Slot>, last: Option<Worker>)
    requires Stands(s, start, id, e, before, Some(w)) && |paid| <= 1
    requires SpentOn(s', e) == SpentOn(s, e) + paid && Distinct(SpentOn(s', e))
    requires if last.Some? then id in s'.workers && s'.workers[id] == last.value && last.value.execution == e else id !in s'.workers
    ensures Stands(s', start, id, e, before + paid, last)
  {
    if paid == [] {
      assert before + paid == before;
    } else {
      assert paid == [paid[0]];
      NotBefore(SpentOn(s, e), paid[0]);
    }
  }

  /** One step of the walk, taken in the system. */
  lemma {:induction false} StepStands(maxTurns: nat, run: seq<Action>, start: World, id: Uuid, w: Worker, crossing: Crossing,
                                      before: seq<Slot>, paid: seq<Slot>, last: Option<Worker>)
    requires Stands(After(maxTurns, run), start, id, w.execution, before, Some(w))
    requires After(maxTurns, run).st == crossing.before && Crosses(maxTurns, id, w, crossing, paid, last)
    ensures var s := After(maxTurns, run + [Advance(id, crossing.input)]);
            s.st == crossing.after && Stands(s, start, id, w.execution, before + paid, last)
  {
    var s, s' := After(maxTurns, run), After(maxTurns, run + [Advance(id, crossing.input)]);
    RunFixesLimit(maxTurns, run);
    AfterOne(maxTurns, run, Advance(id, crossing.input));
    CrossingAdvances(s, id, crossing, paid, last);
    CrossesOnce(maxTurns, id, w, crossing, paid, last);
    CrossingSpends(s, s', id, paid);
    PaidWorkAtMostOnce(maxTurns, run + [Advance(id, crossing.input)], w.execution);
    StandsMore(s, s', start, id, w.execution, before, w, paid, last);
  }

  /** However the rest of the system is woven between the steps of a delivery, its walk is part of a run: the
      tables and the worker are where the walk left them, and no call it made was made before, twice, or by
      anybody else. */
  lemma {:induction false} WalkIsRun(maxTurns: nat, prior: seq<Action>, id: Uuid, first: Worker, steps: seq<Crossing>,
                                     others: seq<seq<Action>>, made: seq<Slot>, last: Option<Worker>)
    requires |others| == |steps| && Walk(maxTurns, id, first, steps, made, last) && Fits(maxTurns, prior, id, steps, others)
    requires id in After(maxTurns, prior).workers && After(maxTurns, prior).workers[id] == first
    ensures var s := After(maxTurns, Woven(prior, id, steps, others));
            && (steps != [] ==> s.st == steps[|steps| - 1].after)
            && Stands(s, After(maxTurns, prior), id, first.execution, made, last)
    decreases |steps|
  {
    if steps == [] {
    } else {
      var n := |steps| - 1;
      var w, before, paid :| WalkedTo(maxTurns, id, first, steps, made, last, w, before, paid);
      var run := Woven(prior, id, steps[..n], others[..n]);
      WalkIsRun(maxTurns, prior, id, first, steps[..n], others[..n], before, Some(w));
      OthersKeep(maxTurns, run, others[n], id, first.execution);
      StepStands(maxTurns, run + others[n], After(maxTurns, prior), id, w, steps[n], before, paid, last);
    }
  }
}
