/** The tables behind durable execution and what each write unit does to them:
    `agent_executions`, `agent_dispatch`, `agent_webhook_inbox`, `agent_cancellations`,
    `agent_execution_approvals`, the decision column of `agent_approvals`, and the event log.
    Each function here is one committed unit of `db/postgres/dispatch.py` or
    `db/postgres/execution.py`; `now` is the clock the unit reads. */
module Store {
  import opened Wrappers
  import L = EventLog

  type ExecutionId = nat
  type ThreadId = L.ThreadId
  type ResponseId = nat
  type WebhookId = nat
  // One uuid4 drawn per delivery. It stands for that delivery's dispatch token, its worker id and
  // the approval request it may insert: the three live in different columns and are never compared.
  type Uuid = nat

  const LEASE_SECONDS: real := 300.0
  const POLL_SECONDS: real := 30.0
  const RETENTION_SECONDS: real := 604800.0
  const MAX_FAILURES: nat := 8

  datatype Status = Ready | WaitingModel | AwaitingApproval | Completed | Failed | Cancelled

  predicate Terminal(status: Status) {
    status == Completed || status == Failed || status == Cancelled
  }

  /** The statuses whose acknowledgement clears the due time. */
  predicate Settles(status: Status) {
    Terminal(status) || status == AwaitingApproval
  }

  // ----- The checkpointed turn -----

  datatype ErrorCode = ApprovalRequired | ApprovalDenied | RetrievalInterrupted | OtherRefusal
  datatype Outcome = Okay(created: Option<nat>, enrichmentInterrupted: bool) | Refused(code: ErrorCode)
  datatype Tool = LookupPartSpecs | IngestDatasheet | AddPart | OtherTool(name: nat)
  datatype Call = Call(tool: Tool, part: Option<nat>, retrievalStarted: bool, result: Option<Outcome>)
  datatype Pending = Pending(text: bool, calls: seq<Call>)
  datatype Exchange = ModelOutput | ToolResult(tool: Tool, part: Option<nat>, outcome: Outcome)
  datatype TurnError = ToolLoopLimit | ImageResubmission | SubmissionUncertain | Budget
  datatype CancelOutcome = ProviderCancelled | SubmissionUncertainAtCancel | NoInflightResponse

  datatype Turn = Turn(
    digest: nat,
    hadImage: bool,
    round: nat,
    pending: Option<Pending>,
    callIndex: nat,
    approval: Option<Uuid>,
    submitted: bool,                    // model_submission_started
    response: Option<ResponseId>,       // model_response_id
    exchanges: seq<Exchange>,
    error: Option<TurnError>,
    cancellation: Option<CancelOutcome>)

  function InitialTurn(digest: nat, hadImage: bool): Turn {
    Turn(digest, hadImage, 0, None, 0, None, false, None, [], None, None)
  }

  // ----- The rows -----

  datatype Execution = Execution(thread: ThreadId, context: Turn, status: Status, worker: Option<Uuid>, leaseUntil: real)

  datatype Dispatch = Dispatch(
    due: Option<real>,                  // available_at
    token: Option<Uuid>,
    leaseUntil: real,
    wakeVersion: nat,
    failures: nat,
    blocked: bool,
    settled: bool,
    response: Option<ResponseId>)

  datatype Webhook = Webhook(response: ResponseId, receivedAt: real, consumed: bool)

  datatype Part = User | Text(round: nat) | Called(round: nat, index: nat) | Asked(round: nat, index: nat)
                | Paused(round: nat, index: nat) | Decided(round: nat, index: nat) | Returned(round: nat, index: nat)
                | ErrorPart | TerminalPart | CancelRequest | BlockedError(version: nat) | BlockedCompleted(version: nat)

  // The publication key "<execution>:<part>"; the stored data carries the same two fields.
  datatype Key = Key(execution: ExecutionId, part: Part)

  datatype Tables = Tables(
    now: real,
    executions: map<ExecutionId, Execution>,
    dispatch: map<ExecutionId, Dispatch>,
    cancelled: set<ExecutionId>,
    decisions: map<Uuid, Option<bool>>,   // agent_approvals.decision
    approvalOf: map<Uuid, ExecutionId>,   // agent_execution_approvals
    inbox: map<WebhookId, Webhook>,
    log: L.Log<Key, Key>)

  datatype Error = Unavailable | Busy(retryAfter: nat) | UnknownExecution | InvalidRequest | Publication(e: L.LogError)

  function EmptyTables(): Tables {
    Tables(0.0, map[], map[], {}, map[], map[], map[], L.Empty())
  }

  // ----- Publication -----

  ghost function Published(st: Tables, thread: ThreadId, key: Key): Result<Tables, Error> {
    match L.Appended(st.log, L.Event(thread, L.OpenAI, key), Some(key))
    case Failure(e) => Failure(Publication(e))
    case Success(pair) => Success(st.(log := pair.0))
  }

  predicate IsPublished(st: Tables, key: Key) {
    key in st.log.keys
  }

  // ----- db/postgres/execution.py -----

  predicate Unfinished(x: Execution) {
    x.status == Ready || x.status == WaitingModel
  }

  predicate ThreadBusy(st: Tables, thread: ThreadId) {
    exists e :: e in st.executions && st.executions[e].thread == thread && Unfinished(st.executions[e])
  }

  /** `prepare`: a repeated intake returns the stored row, a different request under the same id is refused. */
  function Prepared(st: Tables, thread: ThreadId, e: ExecutionId, context: Turn): Result<Tables, Error> {
    if e in st.executions then
      if st.executions[e].thread != thread || st.executions[e].context.digest != context.digest
      then Failure(Unavailable) else Success(st)
    else if ThreadBusy(st, thread) then Failure(Unavailable)
    else Success(st.(executions := st.executions[e := Execution(thread, context, Ready, None, 0.0)]))
  }

  /** Whole seconds until a lease ends, at least one. */
  function SecondsLeft(until: real, now: real): nat
    requires until > now
  {
    -(now - until).Floor  // at least 1, because the lease is still live
  }

  /** `claim` on an accepted execution: a terminal record is returned unowned, a live lease refuses. */
  function ExecutionClaimed(st: Tables, thread: ThreadId, e: ExecutionId, worker: Uuid): Result<Tables, Error> {
    if e !in st.executions || st.executions[e].thread != thread then Failure(Unavailable)
    else
      var x := st.executions[e];
      if Terminal(x.status) then Success(st)
      else if x.worker.Some? && x.leaseUntil > st.now then Failure(Busy(SecondsLeft(x.leaseUntil, st.now)))
      else Success(st.(executions := st.executions[e := x.(worker := Some(worker), leaseUntil := st.now + LEASE_SECONDS)]))
  }

  predicate Owned(st: Tables, e: ExecutionId, worker: Uuid) {
    e in st.executions && st.executions[e].worker == Some(worker) && st.executions[e].leaseUntil > st.now
  }

  /** `begin_stage`: refuse a non-owner, otherwise say whether the stage may run. */
  function StageBegun(st: Tables, e: ExecutionId, worker: Uuid): Result<bool, Error> {
    if Owned(st, e, worker) then Success(e !in st.cancelled) else Failure(Unavailable)
  }

  /** `save`: checkpoint under the execution fence, link the approval, then re-arm delivery. */
  function Saved(st: Tables, e: ExecutionId, worker: Uuid, context: Turn, status: Status): Result<Tables, Error> {
    if !Owned(st, e, worker) then Failure(Unavailable)
    else
      var x := st.executions[e].(context := context, status := status, leaseUntil := st.now + LEASE_SECONDS);
      var links := if context.approval.Some? && context.approval.value !in st.approvalOf
                   then st.approvalOf[context.approval.value := e] else st.approvalOf;
      Success(Checkpointed(st.(executions := st.executions[e := x], approvalOf := links), e, context, status))
  }

  function Released(st: Tables, e: ExecutionId, worker: Uuid): Tables {
    if e in st.executions && st.executions[e].worker == Some(worker)
    then st.(executions := st.executions[e := st.executions[e].(worker := None, leaseUntil := 0.0)])
    else st
  }

  /** `request_cancellation`: irreversible, published once, and a wake in the same unit. */
  ghost function CancellationRequested(st: Tables, thread: ThreadId, e: ExecutionId): Result<Tables, Error> {
    if e !in st.executions || st.executions[e].thread != thread then Failure(UnknownExecution)
    else if Terminal(st.executions[e].status) then Success(st)
    else
      match Published(st.(cancelled := st.cancelled + {e}), thread, Key(e, CancelRequest))
      case Failure(error) => Failure(error)
      case Success(st') => Woken(st', thread, e, true)
  }

  // ----- db/postgres/dispatch.py -----

  function NewDispatch(now: real, reservation: Option<Uuid>): Dispatch {
    Dispatch(Some(now), reservation, if reservation.Some? then now + LEASE_SECONDS else 0.0, 0, 0, false, false, None)
  }

  function Accepted(st: Tables, thread: ThreadId, e: ExecutionId, context: Turn, reservation: Option<Uuid>): Result<Tables, Error> {
    var st' :- Prepared(st, thread, e, context);
    Success(if e in st'.dispatch then st' else st'.(dispatch := st'.dispatch[e := NewDispatch(st.now, reservation)]))
  }

  /** A row `claim()` may take: not blocked, due, and under no live delivery lease. */
  predicate Deliverable(st: Tables, e: ExecutionId) {
    && e in st.dispatch && e in st.executions
    && !st.dispatch[e].blocked
    && st.dispatch[e].due.Some? && st.dispatch[e].due.value <= st.now
    && st.dispatch[e].leaseUntil <= st.now
  }

  /** The delivery holding `token` is current: its lease has not run out and nothing replaced it. */
  predicate Current(st: Tables, e: ExecutionId, token: Uuid) {
    e in st.dispatch && st.dispatch[e].token == Some(token) && st.dispatch[e].leaseUntil > st.now
  }

  function DeliveryClaimed(st: Tables, e: ExecutionId, token: Uuid): Tables
    requires e in st.dispatch
  {
    st.(dispatch := st.dispatch[e := st.dispatch[e].(token := Some(token), leaseUntil := st.now + LEASE_SECONDS)])
  }

  predicate Unconsumed(st: Tables, response: ResponseId) {
    exists w :: w in st.inbox && st.inbox[w].response == response && !st.inbox[w].consumed
  }

  function Consumed(inbox: map<WebhookId, Webhook>, response: ResponseId): map<WebhookId, Webhook> {
    map w | w in inbox :: if inbox[w].response == response then inbox[w].(consumed := true) else inbox[w]
  }

  /** `checkpoint`: even terminal and approval checkpoints stay deliverable until acknowledged. */
  function Checkpointed(st: Tables, e: ExecutionId, context: Turn, status: Status): Tables {
    if e !in st.dispatch then st
    else
      var early := context.response.Some? && Unconsumed(st, context.response.value);
      var wait := if status == WaitingModel && e !in st.cancelled then POLL_SECONDS else 0.0;
      var due := if early then st.now else st.now + wait;
      st.(dispatch := st.dispatch[e := st.dispatch[e].(response := context.response, due := Some(due), settled := false)],
          inbox := if early then Consumed(st.inbox, context.response.value) else st.inbox)
  }

  datatype FailureKind = ExecutionBusy | WorkerInterrupted | Crashed

  function Pow2(n: nat): nat {
    if n == 0 then 1 else 2 * Pow2(n - 1)
  }

  function RetryDelay(retryAfter: nat, failures: nat): nat {
    if retryAfter != 0 then retryAfter else if Pow2(failures) < 60 then Pow2(failures) else 60
  }

  function FailuresAfter(d: Dispatch, failure: Option<FailureKind>): nat {
    match failure
    case None => 0
    case Some(kind) => if kind == ExecutionBusy then d.failures else d.failures + 1
  }

  /** `finish`: only the current delivery acknowledges, and a later wake wins over it. */
  function Finished(st: Tables, e: ExecutionId, token: Uuid, version: nat, failure: Option<FailureKind>, retryAfter: nat): Tables {
    if !Current(st, e, token) || e !in st.executions then st
    else
      var d := st.dispatch[e];
      var failures := FailuresAfter(d, failure);
      var exhausted := failures >= MAX_FAILURES;
      var acknowledged := d.(token := None, leaseUntil := 0.0, failures := failures);
      var d' :=
        if d.wakeVersion != version then acknowledged.(blocked := false)
        else if failure.Some? then
          acknowledged.(blocked := exhausted,
                        due := if exhausted then None else Some(st.now + RetryDelay(retryAfter, failures) as real))
        else if Settles(st.executions[e].status) then acknowledged.(blocked := exhausted, due := None, settled := true)
        else acknowledged.(blocked := exhausted);
      st.(dispatch := st.dispatch[e := d'])
  }

  /** `wake`: enrol if needed, make due now, and outdate every delivery claimed so far. */
  function Woken(st: Tables, thread: ThreadId, e: ExecutionId, cancellation: bool): Result<Tables, Error> {
    if e !in st.executions || st.executions[e].thread != thread then Failure(Unavailable)
    else if !cancellation && e in st.cancelled then Failure(Unavailable)
    else
      var d := if e in st.dispatch then st.dispatch[e] else NewDispatch(st.now, None);
      Success(st.(dispatch := st.dispatch[e :=
        d.(due := Some(st.now), wakeVersion := d.wakeVersion + 1, blocked := false, failures := 0, settled := false)]))
  }

  predicate Matches(st: Tables, response: ResponseId, e: ExecutionId) {
    e in st.dispatch && st.dispatch[e].response == Some(response) && !st.dispatch[e].blocked
  }

  /** `_match` on the row its query returned, if any. */
  function Matched(st: Tables, response: ResponseId, row: Option<ExecutionId>): Tables {
    if row.Some? && Matches(st, response, row.value) then
      var d := st.dispatch[row.value];
      st.(dispatch := st.dispatch[row.value := d.(due := Some(st.now), wakeVersion := d.wakeVersion + 1)],
          inbox := Consumed(st.inbox, response))
    else st
  }

  /** `notify`: a webhook is stored once and matched in the same unit. */
  function Notified(st: Tables, event: WebhookId, response: ResponseId, row: Option<ExecutionId>): Tables {
    if event in st.inbox then st
    else Matched(st.(inbox := st.inbox[event := Webhook(response, st.now, false)]), response, row)
  }

  predicate Stranded(d: Dispatch) {
    !d.blocked && !d.settled && d.due == None
  }

  /** The repair UPDATE of `reconcile`. */
  function Repaired(st: Tables): Tables {
    st.(dispatch := map e | e in st.dispatch ::
      if Stranded(st.dispatch[e]) then st.dispatch[e].(due := Some(st.now)) else st.dispatch[e])
  }

  function MatchedAll(st: Tables, matches: seq<(ResponseId, Option<ExecutionId>)>): Tables
    decreases |matches|
  {
    if matches == [] then st
    else MatchedAll(Matched(st, matches[0].0, matches[0].1), matches[1..])
  }

  function Expired(st: Tables): Tables {
    st.(inbox := map w | w in st.inbox && st.inbox[w].receivedAt >= st.now - RETENTION_SECONDS :: st.inbox[w])
  }

  /** `reconcile`: match the selected inbox rows, repair, then drop old webhooks. */
  function Reconciled(st: Tables, matches: seq<(ResponseId, Option<ExecutionId>)>): Tables {
    Expired(Repaired(MatchedAll(st, matches)))
  }

  // ----- agent_runtime/dispatch.py, decide -----

  /** `DurableDispatch.decide`: record the decision and wake its execution in one unit. */
  function DecisionRecorded(st: Tables, thread: ThreadId, request: Uuid, approved: bool): Result<Tables, Error> {
    if request !in st.approvalOf || st.approvalOf[request] !in st.executions
       || st.executions[st.approvalOf[request]].thread != thread then Failure(InvalidRequest)
    else
      var e := st.approvalOf[request];
      if e in st.cancelled || request !in st.decisions then Failure(InvalidRequest)
      else if st.decisions[request].Some? && st.decisions[request] != Some(approved) then Failure(InvalidRequest)
      else Woken(st.(decisions := st.decisions[request := Some(approved)]), thread, e, false)
  }
}
