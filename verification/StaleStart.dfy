/** Why publication before settlement needs fresh starts: a concrete run in which a worker that
    stalled between claiming its delivery and claiming the execution finishes the work after another
    delivery has returned, and dies before publishing. The other delivery's acknowledgement then
    settles an end that was never published, and nothing will ever deliver the row again. */
module StaleStart {
  import opened Wrappers
  import opened Store
  import opened Runtime
  import opened Protocol
  import opened DurableExecution
  import L = EventLog

  const LIMIT: nat := 8  // the default max_tool_turns

  ghost predicate Reached(s: World) {
    exists actions :: s == After(LIMIT, actions)
  }

  lemma ReachNext(s: World, a: Action)
    requires Reached(s)
    ensures Reached(Next(s, a))
  {
    var actions :| s == After(LIMIT, actions);
    var longer := actions + [a];
    assert longer[..|longer| - 1] == actions;
    assert Next(s, a) == After(LIMIT, longer);
  }

  function Row(context: Turn, status: Status, worker: Option<Uuid>, leaseUntil: real): map<ExecutionId, Execution> {
    map[0 := Execution(0, context, status, worker, leaseUntil)]
  }

  function Delivery(due: real, response: Option<ResponseId>): map<ExecutionId, Dispatch> {
    map[0 := Dispatch(Some(due), Some(2), 601.0, 0, 0, false, false, response)]
  }

  function Fresh(pc: Pc, turn: Turn): Worker {
    Worker(0, 0, 0, false, true, pc, turn, false)
  }

  const ASKED: Turn := InitialTurn(0, false)
  const SUBMITTED: Turn := ASKED.(submitted := true)
  const WAITING: Turn := SUBMITTED.(response := Some(7))
  const ANSWERED: Turn := AfterTurn(WAITING, false, Pending(false, []))

  /** The fields this run depends on. */
  ghost predicate Shape(s: World, executions: map<ExecutionId, Execution>, dispatch: map<ExecutionId, Dispatch>, workers: map<Uuid, Worker>) {
    && s.maxTurns == LIMIT && s.next == 3 && s.started == {1, 2}
    && s.st.now == 301.0 && s.st.cancelled == {} && s.st.inbox == map[] && s.st.approvalOf == map[]
    && s.st.executions == executions && s.st.dispatch == dispatch && s.workers == workers
    && s.st.log.threads.Keys <= {0} && (0 in s.st.log.threads ==> s.st.log.threads[0] == L.OpenAI)
    && s.st.log.keys.Keys <= {Key(0, User)}
    && (forall k :: k in s.st.log.keys ==> s.st.log.keys[k].0 == 0)
  }

  /** Two deliveries of one request: the first stalls, its lease runs out, the second takes over. */
  lemma TwoDeliveries() returns (s: World)
    ensures Reached(s)
    ensures Shape(s, Row(ASKED, Ready, None, 0.0), Delivery(0.0, None), map[1 := Fresh(Start, ASKED), 2 := Fresh(Start, ASKED)])
  {
    s := InitialWorld(LIMIT);
    assert s == After(LIMIT, []);
    ReachNext(s, Accept(0, 0, 0, false));
    s := Next(s, Accept(0, 0, 0, false));
    assert s.st.dispatch[0] == NewDispatch(0.0, None);
    ReachNext(s, Deliver(0, true));
    s := Next(s, Deliver(0, true));
    ReachNext(s, Tick(301.0));
    s := Next(s, Tick(301.0));
    assert Deliverable(s.st, 0);
    ReachNext(s, Deliver(0, true));
    s := Next(s, Deliver(0, true));
  }

  /** One greeting: the only publication either worker makes. */
  lemma Greeting(s: World, id: Uuid, w: Worker)
    requires s.st.executions.Keys == {0} && id in s.workers && s.workers[id] == w && w.pc == Greet
    requires w.thread == 0 && w.execution == 0 && !w.turn.hadImage && !w.photo
    requires Shape(s, s.st.executions, s.st.dispatch, s.workers)
    ensures Shape(Next(s, Advance(id, Proceed)), s.st.executions, s.st.dispatch, s.workers[id := w.(pc := Top)])
  {
    var event := L.Event(0, L.OpenAI, Key(0, User));
    assert L.Appended(s.st.log, event, Some(Key(0, User))).Success?;
  }

  lemma SecondStarts(s: World) returns (s': World)
    requires Reached(s)
    requires Shape(s, Row(ASKED, Ready, None, 0.0), Delivery(0.0, None), map[1 := Fresh(Start, ASKED), 2 := Fresh(Start, ASKED)])
    ensures Reached(s')
    ensures Shape(s', Row(ASKED, Ready, Some(2), 601.0), Delivery(0.0, None), map[1 := Fresh(Start, ASKED), 2 := Fresh(Greet, ASKED)])
  {
    ReachNext(s, Advance(2, Proceed));
    var s1 := Next(s, Advance(2, Proceed));
    assert s1.workers[2] == Fresh(Enter, ASKED);
    ReachNext(s1, Advance(2, Proceed));
    s' := Next(s1, Advance(2, Proceed));
    assert s'.workers[2] == Fresh(Greet, ASKED);
  }

  /** The second delivery submits the model request and releases the execution while it waits. */
  lemma SecondSubmits(s: World) returns (s': World)
    requires Reached(s)
    requires Shape(s, Row(ASKED, Ready, Some(2), 601.0), Delivery(0.0, None), map[1 := Fresh(Start, ASKED), 2 := Fresh(Greet, ASKED)])
    ensures Reached(s')
    ensures Shape(s', Row(SUBMITTED, Ready, Some(2), 601.0), Delivery(301.0, None), map[1 := Fresh(Start, ASKED), 2 := Fresh(Submit, SUBMITTED)])
  {
    Greeting(s, 2, Fresh(Greet, ASKED));
    ReachNext(s, Advance(2, Proceed));
    var s1 := Next(s, Advance(2, Proceed));
    s' := SecondFences(s1);
  }

  lemma SecondFences(s: World) returns (s': World)
    requires Reached(s)
    requires Shape(s, Row(ASKED, Ready, Some(2), 601.0), Delivery(0.0, None), map[1 := Fresh(Start, ASKED), 2 := Fresh(Top, ASKED)])
    ensures Reached(s')
    ensures Shape(s', Row(SUBMITTED, Ready, Some(2), 601.0), Delivery(301.0, None), map[1 := Fresh(Start, ASKED), 2 := Fresh(Submit, SUBMITTED)])
  {
    ReachNext(s, Advance(2, Proceed));
    var s1 := Next(s, Advance(2, Proceed));
    assert s1.workers[2] == Fresh(Fence, ASKED);
    ReachNext(s1, Advance(2, Proceed));
    s' := Next(s1, Advance(2, Proceed));
    assert s'.workers[2] == Fresh(Submit, SUBMITTED);
  }

  lemma SecondWaits(s: World) returns (s': World)
    requires Reached(s)
    requires Shape(s, Row(SUBMITTED, Ready, Some(2), 601.0), Delivery(301.0, None), map[1 := Fresh(Start, ASKED), 2 := Fresh(Submit, SUBMITTED)])
    ensures Reached(s')
    ensures Shape(s', Row(SUBMITTED, Ready, Some(2), 601.0), Delivery(301.0, None),
                  map[1 := Fresh(Start, ASKED), 2 := Fresh(StartedSave(7), SUBMITTED)])
  {
    ReachNext(s, Advance(2, ResponseStarted(7)));
    s' := Next(s, Advance(2, ResponseStarted(7)));
    assert s'.workers[2] == Fresh(StartedSave(7), SUBMITTED);
  }

  lemma SecondSaves(s: World) returns (s': World)
    requires Reached(s)
    requires Shape(s, Row(SUBMITTED, Ready, Some(2), 601.0), Delivery(301.0, None),
                   map[1 := Fresh(Start, ASKED), 2 := Fresh(StartedSave(7), SUBMITTED)])
    ensures Reached(s')
    ensures Shape(s', Row(WAITING, WaitingModel, Some(2), 601.0), Delivery(331.0, Some(7)),
                  map[1 := Fresh(Start, ASKED), 2 := Fresh(Exit(Finishing(WaitingModel)), WAITING)])
  {
    ReachNext(s, Advance(2, Proceed));
    s' := Next(s, Advance(2, Proceed));
    assert s'.workers[2] == Fresh(Exit(Finishing(WaitingModel)), WAITING);
  }

  lemma SecondReturns(s: World) returns (s': World)
    requires Reached(s)
    requires Shape(s, Row(WAITING, WaitingModel, Some(2), 601.0), Delivery(331.0, Some(7)),
                   map[1 := Fresh(Start, ASKED), 2 := Fresh(Exit(Finishing(WaitingModel)), WAITING)])
    ensures Reached(s')
    ensures Shape(s', Row(WAITING, WaitingModel, None, 0.0), Delivery(331.0, Some(7)),
                  map[1 := Fresh(Start, ASKED), 2 := Fresh(Ack(Finishing(WaitingModel)), WAITING)])
  {
    ReachNext(s, Advance(2, Proceed));
    s' := Next(s, Advance(2, Proceed));
    assert s'.workers[2] == Fresh(Ack(Finishing(WaitingModel)), WAITING);
  }

  /** The stalled first worker now claims the free execution: the stale start. */
  lemma FirstStarts(s: World) returns (s': World)
    requires Reached(s)
    requires Shape(s, Row(WAITING, WaitingModel, None, 0.0), Delivery(331.0, Some(7)),
                   map[1 := Fresh(Start, ASKED), 2 := Fresh(Ack(Finishing(WaitingModel)), WAITING)])
    ensures Displaces(s, Advance(1, Proceed))
    ensures Reached(s')
    ensures Shape(s', Row(WAITING, WaitingModel, Some(1), 601.0), Delivery(331.0, Some(7)),
                  map[1 := Fresh(Enter, WAITING), 2 := Fresh(Ack(Finishing(WaitingModel)), WAITING)])
  {
    assert ReturningFor(s, 0, 2);
    ReachNext(s, Advance(1, Proceed));
    s' := Next(s, Advance(1, Proceed));
    assert s'.workers[1] == Fresh(Enter, WAITING);
  }

  lemma FirstEnters(s: World) returns (s': World)
    requires Reached(s)
    requires Shape(s, Row(WAITING, WaitingModel, Some(1), 601.0), Delivery(331.0, Some(7)),
                   map[1 := Fresh(Enter, WAITING), 2 := Fresh(Ack(Finishing(WaitingModel)), WAITING)])
    ensures Reached(s')
    ensures Shape(s', Row(WAITING, WaitingModel, Some(1), 601.0), Delivery(331.0, Some(7)),
                  map[1 := Fresh(Greet, WAITING), 2 := Fresh(Ack(Finishing(WaitingModel)), WAITING)])
  {
    ReachNext(s, Advance(1, Proceed));
    s' := Next(s, Advance(1, Proceed));
  }

  lemma FirstGreets(s: World) returns (s': World)
    requires Reached(s)
    requires Shape(s, Row(WAITING, WaitingModel, Some(1), 601.0), Delivery(331.0, Some(7)),
                   map[1 := Fresh(Greet, WAITING), 2 := Fresh(Ack(Finishing(WaitingModel)), WAITING)])
    ensures Reached(s')
    ensures Shape(s', Row(WAITING, WaitingModel, Some(1), 601.0), Delivery(331.0, Some(7)),
                  map[1 := Fresh(Top, WAITING), 2 := Fresh(Ack(Finishing(WaitingModel)), WAITING)])
  {
    Greeting(s, 1, Fresh(Greet, WAITING));
    ReachNext(s, Advance(1, Proceed));
    s' := Next(s, Advance(1, Proceed));
  }

  lemma FirstWakes(s: World) returns (s': World)
    requires Reached(s)
    requires Shape(s, Row(WAITING, WaitingModel, Some(1), 601.0), Delivery(331.0, Some(7)),
                   map[1 := Fresh(Top, WAITING), 2 := Fresh(Ack(Finishing(WaitingModel)), WAITING)])
    ensures Reached(s')
    ensures Shape(s', Row(WAITING, WaitingModel, Some(1), 601.0), Delivery(331.0, Some(7)),
                  map[1 := Fresh(Retrieve, WAITING), 2 := Fresh(Ack(Finishing(WaitingModel)), WAITING)])
  {
    ReachNext(s, Advance(1, Proceed));
    s' := Next(s, Advance(1, Proceed));
    assert s'.workers[1] == Fresh(Retrieve, WAITING);
  }

  lemma FirstAnswers(s: World) returns (s': World)
    requires Reached(s)
    requires Shape(s, Row(WAITING, WaitingModel, Some(1), 601.0), Delivery(331.0, Some(7)),
                   map[1 := Fresh(Retrieve, WAITING), 2 := Fresh(Ack(Finishing(WaitingModel)), WAITING)])
    ensures Reached(s')
    ensures Shape(s', Row(ANSWERED, Ready, Some(1), 601.0), Delivery(301.0, None),
                  map[1 := Fresh(Stage, ANSWERED).(advanced := true), 2 := Fresh(Ack(Finishing(WaitingModel)), WAITING)])
  {
    var answer := ModelTurn(false, false, []);
    ReachNext(s, Advance(1, answer));
    var s1 := Next(s, Advance(1, answer));
    assert PendingOf(answer) == Pending(false, []);
    assert s1.workers[1] == Fresh(TurnSave(false, Pending(false, [])), WAITING);
    ReachNext(s1, Advance(1, Proceed));
    s' := Next(s1, Advance(1, Proceed));
  }

  lemma FirstSpeaks(s: World) returns (s': World)
    requires Reached(s)
    requires Shape(s, Row(ANSWERED, Ready, Some(1), 601.0), Delivery(301.0, None),
                   map[1 := Fresh(Stage, ANSWERED).(advanced := true), 2 := Fresh(Ack(Finishing(WaitingModel)), WAITING)])
    ensures Reached(s')
    ensures Shape(s', Row(ANSWERED, Ready, Some(1), 601.0), Delivery(301.0, None),
                  map[1 := Fresh(DoneSave, ANSWERED).(advanced := true), 2 := Fresh(Ack(Finishing(WaitingModel)), WAITING)])
  {
    ReachNext(s, Advance(1, Proceed));
    var s1 := Next(s, Advance(1, Proceed));
    assert s1.workers[1] == Fresh(Speak, ANSWERED).(advanced := true);
    ReachNext(s1, Advance(1, Proceed));
    s' := Next(s1, Advance(1, Proceed));
    assert s'.workers[1] == Fresh(DoneSave, ANSWERED).(advanced := true);
  }

  /** It saves the end and dies before the terminal event. */
  lemma FirstEnds(s: World) returns (s': World)
    requires Reached(s)
    requires Shape(s, Row(ANSWERED, Ready, Some(1), 601.0), Delivery(301.0, None),
                   map[1 := Fresh(DoneSave, ANSWERED).(advanced := true), 2 := Fresh(Ack(Finishing(WaitingModel)), WAITING)])
    ensures Reached(s')
    ensures Shape(s', Row(ANSWERED, Completed, Some(1), 601.0), Delivery(301.0, None),
                  map[1 := Fresh(TerminalPublish(Completed), ANSWERED).(advanced := true),
                      2 := Fresh(Ack(Finishing(WaitingModel)), WAITING)])
  {
    ReachNext(s, Advance(1, Proceed));
    s' := Next(s, Advance(1, Proceed));
  }

  lemma FirstDies(s: World) returns (s': World)
    requires Reached(s)
    requires Shape(s, Row(ANSWERED, Completed, Some(1), 601.0), Delivery(301.0, None),
                   map[1 := Fresh(TerminalPublish(Completed), ANSWERED).(advanced := true),
                       2 := Fresh(Ack(Finishing(WaitingModel)), WAITING)])
    ensures Reached(s')
    ensures Shape(s', Row(ANSWERED, Completed, Some(1), 601.0), Delivery(301.0, None), map[2 := Fresh(Ack(Finishing(WaitingModel)), WAITING)])
  {
    ReachNext(s, Crash(1));
    s' := Next(s, Crash(1));
  }

  /** The second delivery acknowledges what it finds stored: a completed execution. */
  lemma SecondSettles(s: World) returns (s': World)
    requires Reached(s)
    requires Shape(s, Row(ANSWERED, Completed, Some(1), 601.0), Delivery(301.0, None), map[2 := Fresh(Ack(Finishing(WaitingModel)), WAITING)])
    ensures Reached(s')
    ensures Lost(s')
  {
    ReachNext(s, Advance(2, Proceed));
    s' := Next(s, Advance(2, Proceed));
    assert s'.st.dispatch[0].settled;
  }

  /** A completed execution, acknowledged, never published, held by no worker, and due never again. */
  ghost predicate Lost(s: World) {
    && 0 in s.st.executions && s.st.executions[0].status == Completed
    && 0 in s.st.dispatch && s.st.dispatch[0].settled && s.st.dispatch[0].due == None
    && !IsPublished(s.st, Key(0, TerminalPart))
    && s.workers == map[]
  }

  /** The promise fails: such a state is reachable. */
  lemma StaleStartLosesPublication()
    ensures exists actions :: Lost(After(LIMIT, actions))
  {
    var s := TwoDeliveries();
    s := SecondStarts(s);
    s := SecondSubmits(s);
    s := SecondWaits(s);
    s := SecondSaves(s);
    s := SecondReturns(s);
    s := FirstStarts(s);
    s := FirstEnters(s);
    s := FirstGreets(s);
    s := FirstWakes(s);
    s := FirstAnswers(s);
    s := FirstSpeaks(s);
    s := FirstEnds(s);
    s := FirstDies(s);
    s := SecondSettles(s);
    var actions :| s == After(LIMIT, actions);
  }
}
