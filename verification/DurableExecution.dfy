/** The promises of durable execution, over every run: any interleaving of workers, crashes,
    exceptions, lease expiry, webhooks, decisions, resumes and cancellations. */
module DurableExecution {
  import opened Wrappers
  import opened Store
  import opened Runtime
  import opened Protocol
  import opened ProtocolTheorems
  import L = EventLog

  /** The system after a run from empty tables. */
  ghost function After(maxTurns: nat, actions: seq<Action>): World {
    Run(InitialWorld(maxTurns), actions)
  }

  /** No claim took over an execution whose current delivery was already returning. */
  ghost predicate Undisplaced(maxTurns: nat, actions: seq<Action>) {
    forall i :: 0 <= i < |actions| ==> !Displaces(After(maxTurns, actions[..i]), actions[i])
  }

  lemma {:induction false} RunKept(maxTurns: nat, actions: seq<Action>, strict: bool)
    requires strict ==> Undisplaced(maxTurns, actions)
    ensures Inv(After(maxTurns, actions), strict)
    decreases |actions|
  {
    if actions == [] {
    } else {
      var last := |actions| - 1;
      var before := actions[..last];
      if strict {
        forall i | 0 <= i < last ensures !Displaces(After(maxTurns, before[..i]), before[i]) {
          assert before[..i] == actions[..i];
        }
        assert !Displaces(After(maxTurns, actions[..last]), actions[last]);
      }
      RunKept(maxTurns, before, strict);
      NextKept(After(maxTurns, before), actions[last], strict);
    }
  }

  lemma {:induction false} RunFixesLimit(maxTurns: nat, actions: seq<Action>)
    ensures After(maxTurns, actions).maxTurns == maxTurns
    decreases |actions|
  {
    if actions != [] { RunFixesLimit(maxTurns, actions[..|actions| - 1]); }
  }

  // ----- at-most-once external calls -----

  function ModelCalls(spent: seq<Slot>): nat {
    if spent == [] then 0 else ModelCalls(spent[..|spent| - 1]) + (if spent[|spent| - 1].Model? then 1 else 0)
  }

  function Rounds(spent: seq<Slot>): set<nat> {
    set i | 0 <= i < |spent| && spent[i].Model? :: spent[i].round
  }

  lemma {:induction false} RoundsSnoc(spent: seq<Slot>, last: nat)
    requires Distinct(spent) && last + 1 == |spent|
    ensures Rounds(spent) == Rounds(spent[..last]) + if spent[last].Model? then {spent[last].round} else {}
    ensures spent[last].Model? ==> spent[last].round !in Rounds(spent[..last])
  {
    forall r | r in Rounds(spent) ensures r in Rounds(spent[..last]) || (spent[last].Model? && r == spent[last].round) {
      var i :| 0 <= i < |spent| && spent[i].Model? && spent[i].round == r;
      if i < last { assert spent[..last][i] == spent[i]; }
    }
    forall r | r in Rounds(spent[..last]) ensures r in Rounds(spent) && (spent[last].Model? ==> r != spent[last].round) {
      var i :| 0 <= i < last && spent[..last][i].Model? && spent[..last][i].round == r;
      assert spent[i] == spent[..last][i];
    }
  }

  /** Distinct model calls have distinct rounds. */
  lemma {:induction false} RoundsCount(spent: seq<Slot>)
    requires Distinct(spent)
    ensures |Rounds(spent)| == ModelCalls(spent)
  {
    if spent == [] {
      assert Rounds(spent) == {};
    } else {
      var last := |spent| - 1;
      var before := spent[..last];
      RoundsCount(before);
      RoundsSnoc(spent, last);
    }
  }

  lemma {:induction false} SetBelow(s: set<nat>, n: nat)
    requires forall x :: x in s ==> x < n
    ensures |s| <= n
    decreases n
  {
    if n == 0 {
      assert s == {};
    } else {
      SetBelow(s - {n - 1}, n - 1);
      assert |s| <= |s - {n - 1}| + 1;
    }
  }

  /** Whatever crashes, expires or is taken over: each model round is submitted to the provider at
      most once, so at most `maxTurns` times in all, and each lookup or ingest call runs at most once. */
  lemma PaidWorkAtMostOnce(maxTurns: nat, actions: seq<Action>, e: ExecutionId)
    ensures var spent := SpentOn(After(maxTurns, actions), e);
            && (forall i, j :: 0 <= i < j < |spent| ==> spent[i] != spent[j])
            && ModelCalls(spent) <= maxTurns
  {
    var s := After(maxTurns, actions);
    RunKept(maxTurns, actions, false);
    RunFixesLimit(maxTurns, actions);
    var spent := SpentOn(s, e);
    if e in s.st.executions {
      assert RowOk(s, e, false);
      RoundsCount(spent);
      forall r | r in Rounds(spent) ensures r < maxTurns {
        var i :| 0 <= i < |spent| && spent[i].Model? && spent[i].round == r;
        assert spent[i] in spent;
      }
      SetBelow(Rounds(spent), maxTurns);
    }
  }

  /** A worker about to contact the provider, or a supplier, is the first and only one to do so. */
  lemma CallsAreFirstAndOnly(maxTurns: nat, actions: seq<Action>, id: Uuid, other: Uuid)
    requires var s := After(maxTurns, actions); id in s.workers && other in s.workers
    ensures var s := After(maxTurns, actions);
            var w := s.workers[id];
            SlotOf(w).Some? ==>
              && SlotOf(w).value !in SpentOn(s, w.execution)
              && (id != other && s.workers[other].execution == w.execution ==> SlotOf(s.workers[other]) != SlotOf(w))
  {
    var s := After(maxTurns, actions);
    RunKept(maxTurns, actions, false);
    assert WorkerOk(s, id, false) && Apart(s.workers, id, other);
  }

  // ----- no lost wake -----

  /** An acknowledged pause still awaits its decision and was not cancelled: a decision or a
      cancellation is never swallowed by the acknowledgement of an older delivery. */
  lemma SettledPauseIsOpen(maxTurns: nat, actions: seq<Action>, e: ExecutionId)
    requires var st := After(maxTurns, actions).st;
             e in st.dispatch && st.dispatch[e].settled && e in st.executions && st.executions[e].status == AwaitingApproval
    ensures var st := After(maxTurns, actions).st;
            && e !in st.cancelled
            && st.executions[e].context.approval.Some?
            && Undecided(st, st.executions[e].context.approval.value)
            && Linked(st, st.executions[e].context.approval.value, e)
  {
    RunKept(maxTurns, actions, false);
    assert RowOk(After(maxTurns, actions), e, false);
  }

  /** A wake between a claim and its acknowledgement survives it: the row stays due and unblocked. */
  lemma AcknowledgementKeepsWake(maxTurns: nat, actions: seq<Action>, id: Uuid, input: Input)
    requires var s := After(maxTurns, actions); id in s.workers && s.workers[id].pc.Ack?
    ensures var s := After(maxTurns, actions);
            var e := s.workers[id].execution;
            && e in s.st.dispatch && e in Next(s, Advance(id, input)).st.dispatch
            && s.workers[id].version <= s.st.dispatch[e].wakeVersion
            && var d, d' := s.st.dispatch[e], Next(s, Advance(id, input)).st.dispatch[e];
               (s.workers[id].version != d.wakeVersion || !Current(s.st, e, id)) ==>
                 && d'.due == d.due && d'.wakeVersion == d.wakeVersion && d'.settled == d.settled
                 && (Current(s.st, e, id) ==> d'.due.Some? && !d'.blocked)
                 && (!Current(s.st, e, id) ==> d' == d)
  {
    var s := After(maxTurns, actions);
    RunKept(maxTurns, actions, false);
    var w := s.workers[id];
    var e := w.execution;
    assert e in s.st.executions && e in s.st.dispatch && w.version <= s.st.dispatch[e].wakeVersion by { assert WorkerOk(s, id, false); }
    assert DeliveryInv(s.st.now, s.st.dispatch[e], s.st.executions[e].status) by { assert RowOk(s, e, false); }
    AckFinishes(s, id, input);
  }

  lemma AckFinishes(s: World, id: Uuid, input: Input)
    requires id in s.workers && s.workers[id].pc.Ack?
    ensures exists failure, retryAfter ::
              Next(s, Advance(id, input)).st
              == Finished(s.st, s.workers[id].execution, id, s.workers[id].version, failure, retryAfter)
  {
    var ending := s.workers[id].pc.ending;
    var failure := if ending.Raising? then Some(ending.kind) else None;
    var retryAfter := if ending.Raising? then ending.retryAfter else 0;
    assert Next(s, Advance(id, input)).st
        == Finished(s.st, s.workers[id].execution, id, s.workers[id].version, failure, retryAfter);
  }

  // ----- no stranded delivery -----

  /** Every row can be delivered again, or was acknowledged at a pause or an end, or ran out of
      attempts; in the last two cases nobody holds it. */
  lemma NoStrandedDelivery(maxTurns: nat, actions: seq<Action>, e: ExecutionId)
    requires e in After(maxTurns, actions).st.dispatch
    ensures var st := After(maxTurns, actions).st;
            var d := st.dispatch[e];
            && e in st.executions
            && (d.due.Some?
                || (d.token == None && d.leaseUntil == 0.0 &&
                    ((d.settled && Settles(st.executions[e].status)) || (d.blocked && d.failures >= MAX_FAILURES))))
            && (d.blocked ==> d.failures >= MAX_FAILURES && d.token == None && d.leaseUntil == 0.0)
            && (!d.blocked && !d.settled ==> exists seconds :: seconds >= 0.0 && Deliverable(Next(After(maxTurns, actions), Tick(seconds)).st, e))
    ensures Repaired(After(maxTurns, actions).st) == After(maxTurns, actions).st
  {
    var s := After(maxTurns, actions);
    var d := s.st.dispatch[e];
    RunKept(maxTurns, actions, false);
    RepairIsIdle(s, false);
    assert RowOk(s, e, false);
    if !d.blocked && !d.settled {
      var latest := if d.due.value < d.leaseUntil then d.leaseUntil else d.due.value;
      var seconds := if latest < s.st.now then 0.0 else latest - s.st.now;
      assert Deliverable(Next(s, Tick(seconds)).st, e);
    }
  }

  // ----- publication before settlement -----

  /** The status a stage returns is the one its row holds when it releases the execution. */
  lemma ReturnedStatusIsPersisted(maxTurns: nat, actions: seq<Action>, id: Uuid)
    requires var s := After(maxTurns, actions);
             id in s.workers && s.workers[id].pc.Exit? && s.workers[id].pc.ending.Finishing?
             && Current(s.st, s.workers[id].execution, id)
    ensures var s := After(maxTurns, actions);
            s.workers[id].execution in s.st.executions
            && s.st.executions[s.workers[id].execution].status == s.workers[id].pc.ending.status
  {
    var s := After(maxTurns, actions);
    RunKept(maxTurns, actions, false);
    assert WorkerOk(s, id, false);
  }

  /** If no worker starts on a delivery it no longer owns, every acknowledged end has been published,
      even when workers die between the terminal checkpoint and the append. */
  lemma SettledEndIsPublished(maxTurns: nat, actions: seq<Action>, e: ExecutionId)
    requires Undisplaced(maxTurns, actions)
    requires var st := After(maxTurns, actions).st;
             e in st.dispatch && st.dispatch[e].settled && e in st.executions && Terminal(st.executions[e].status)
    ensures IsPublished(After(maxTurns, actions).st, Key(e, TerminalPart))
  {
    RunKept(maxTurns, actions, true);
    assert RowOk(After(maxTurns, actions), e, true);
  }

  // ----- the log behind publication -----

  /** Every stored event carries its own key, and the key table names exactly that row. */
  ghost predicate Tagged(log: L.Log<Key, Key>) {
    && L.Valid(log)
    && (forall k :: k in log.keys ==> log.keys[k] in log.rows && log.rows[log.keys[k]].data == k)
    && (forall row :: row in log.rows ==> log.rows[row].data in log.keys && log.keys[log.rows[row].data] == row)
  }

  lemma PublishedTagged(st: Tables, thread: ThreadId, key: Key)
    requires Tagged(st.log) && Published(st, thread, key).Success?
    ensures Tagged(Published(st, thread, key).value.log)
  {
    var event := L.Event(thread, L.OpenAI, key);
    L.AppendExtends(st.log, event, Some(key));
    L.AppendKeepsLog(st.log, event, Some(key));
  }

  /** One step of a worker appends at most one keyed event. */
  ghost predicate Appends(st: Tables, st': Tables) {
    st'.log == st.log
    || exists thread, key :: Published(st, thread, key).Success? && st'.log == Published(st, thread, key).value.log
  }

  lemma EmitAppends(st: Tables, w: Worker, part: Part, next: Pc)
    ensures Appends(st, Emit(st, w, part, next).st)
  {
    var result := Published(st, w.thread, Key(w.execution, part));
  }

  lemma ModelAppends(st: Tables, maxTurns: nat, id: Uuid, w: Worker, input: Input)
    ensures ModelStep(st, maxTurns, id, w, input).st.log == st.log
  {
  }

  lemma StartAppends(st: Tables, id: Uuid, w: Worker, input: Input)
    ensures Appends(st, StartStep(st, id, w, input).st)
  {
    if w.pc.Greet? { EmitAppends(st, w, User, Top); }
  }

  predicate CallPublishes(pc: Pc) {
    pc.Speak? || pc.Announce? || pc.AskPublish? || pc.PausePublish? || pc.DecisionPublish? || pc.ResultPublish?
  }

  predicate CallSaves(pc: Pc) {
    pc.DoneSave? || pc.LookupFence? || pc.AskSave? || pc.ResultSave? || pc.AdvanceSave? || pc.RoundSave?
  }

  lemma CallSavesNoEvent(st: Tables, id: Uuid, w: Worker, input: Input)
    requires CallSaves(w.pc)
    ensures CallStep(st, id, w, input).st.log == st.log
  {
  }

  lemma CallWritesNoEvent(st: Tables, id: Uuid, w: Worker, input: Input)
    requires !CallPublishes(w.pc)
    ensures CallStep(st, id, w, input).st.log == st.log
  {
    if CallSaves(w.pc) { CallSavesNoEvent(st, id, w, input); }
  }

  lemma CallAppends(st: Tables, id: Uuid, w: Worker, input: Input)
    ensures Appends(st, CallStep(st, id, w, input).st)
  {
    var r, i := w.turn.round, w.turn.callIndex;
    match w.pc
    case Speak => EmitAppends(st, w, Text(r), Top);
    case Announce => EmitAppends(st, w, Called(r, i), Top);
    case AskPublish => EmitAppends(st, w, Asked(r, i), Top);
    case PausePublish => EmitAppends(st, w, Paused(r, i), Top);
    case DecisionPublish(_) => EmitAppends(st, w, Decided(r, i), Top);
    case ResultPublish => EmitAppends(st, w, Returned(r, i), Top);
    case _ => CallWritesNoEvent(st, id, w, input);
  }

  lemma EndAppends(st: Tables, id: Uuid, w: Worker, input: Input)
    ensures Appends(st, EndStep(st, id, w, input).st)
  {
    match w.pc
    case CancelPublish => if input.Receipt? { EmitAppends(st, w, Returned(w.turn.round, input.index), Top); }
    case NoticePublish(_) => EmitAppends(st, w, if w.turn.error.Some? then ErrorPart else Text(w.turn.round), Top);
    case TerminalPublish(_) => EmitAppends(st, w, TerminalPart, Top);
    case _ =>
  }

  lemma {:induction false} MatchesAppendNothing(st: Tables, matches: seq<(ResponseId, Option<ExecutionId>)>)
    ensures MatchedAll(st, matches).log == st.log
    decreases |matches|
  {
    if matches != [] { MatchesAppendNothing(Matched(st, matches[0].0, matches[0].1), matches[1..]); }
  }

  lemma NextAppends(s: World, a: Action)
    ensures Appends(s.st, Next(s, a).st)
  {
    match a
    case Advance(id, input) =>
      if id in s.workers {
        StartAppends(s.st, id, s.workers[id], input);
        ModelAppends(s.st, s.maxTurns, id, s.workers[id], input);
        CallAppends(s.st, id, s.workers[id], input);
        EndAppends(s.st, id, s.workers[id], input);
      }
    case Reconcile(matches) => MatchesAppendNothing(s.st, matches);
    case Cancel(thread, e) => CancelAppends(s, thread, e);
    case _ =>
  }

  lemma CancelAppends(s: World, thread: ThreadId, e: ExecutionId)
    ensures Appends(s.st, Next(s, Cancel(thread, e)).st)
  {
    var marked := s.st.(cancelled := s.st.cancelled + {e});
    var key := Key(e, CancelRequest);
    assert Published(marked, thread, key).Success? == Published(s.st, thread, key).Success?;
    if CancellationRequested(s.st, thread, e).Success? && Published(s.st, thread, key).Success? {
      assert Published(marked, thread, key).value.log == Published(s.st, thread, key).value.log;
    }
  }

  lemma {:induction false} LogStaysTagged(maxTurns: nat, actions: seq<Action>)
    ensures Tagged(After(maxTurns, actions).st.log)
    decreases |actions|
  {
    if actions == [] {
      L.LastIs(L.Empty<Key, Key>(), 0, 0);
      assert forall t: L.ThreadId :: L.Last(L.Empty<Key, Key>(), t) == 0;
    } else {
      var before := actions[..|actions| - 1];
      var s := After(maxTurns, before);
      LogStaysTagged(maxTurns, before);
      NextAppends(s, actions[|actions| - 1]);
      var st' := Next(s, actions[|actions| - 1]).st;
      if st'.log != s.st.log {
        var thread, key :| Published(s.st, thread, key).Success? && st'.log == Published(s.st, thread, key).value.log;
        PublishedTagged(s.st, thread, key);
      }
    }
  }

  /** In every reachable state the sequences of each thread are gapless, and whatever was published
      under a key, the terminal event included, was published exactly once. */
  lemma PublishedExactlyOnce(maxTurns: nat, actions: seq<Action>, key: Key)
    ensures var log := After(maxTurns, actions).st.log;
            && L.GapFree(log)
            && (key in log.keys ==>
                  && log.keys[key] in log.rows
                  && (forall row :: row in log.rows && log.rows[row].data == key <==> row == log.keys[key]))
            && (key !in log.keys ==> forall row :: row in log.rows ==> log.rows[row].data != key)
  {
    LogStaysTagged(maxTurns, actions);
  }
}
