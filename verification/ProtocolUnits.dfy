/** Each write unit, row by row: the row it works on stays sound, and so does every other worker
    on the same execution. */
module ProtocolUnits {
  import opened Wrappers
  import opened Store
  import opened Runtime
  import opened Protocol
  import opened ProtocolFrame
  import L = EventLog

  // ----- Publication -----

  lemma PublishedGrows(st: Tables, thread: ThreadId, key: Key)
    requires Published(st, thread, key).Success?
    ensures var st' := Published(st, thread, key).value;
      st' == st.(log := st'.log) && IsPublished(st', key) && forall k :: IsPublished(st, k) ==> IsPublished(st', k)
  {
  }

  /** Only the log and the clock-free shared tables grew. */
  ghost predicate LogOnly(st: Tables, st': Tables) {
    st' == st.(log := st'.log) && forall k :: IsPublished(st, k) ==> IsPublished(st', k)
  }

  lemma LogRow(st: Tables, st': Tables, maxTurns: nat, spent: seq<Slot>, e: ExecutionId, strict: bool)
    requires LogOnly(st, st') && RowInv(st, maxTurns, spent, e, strict)
    ensures RowInv(st', maxTurns, spent, e, strict)
  {
  }

  lemma LogWorker(st: Tables, st': Tables, maxTurns: nat, spent: seq<Slot>, id: Uuid, w: Worker, strict: bool)
    requires LogOnly(st, st') && WorkerInv(st, maxTurns, spent, id, w, strict)
    ensures WorkerInv(st', maxTurns, spent, id, w, strict)
  {
  }

  // ----- save -----

  /** A checkpoint a stage may write. */
  ghost predicate SaveOk(st: Tables, id: Uuid, e: ExecutionId, turn: Turn, turn': Turn, status: Status, maxTurns: nat) {
    && Later(turn, turn')
    && turn'.round <= maxTurns
    && (turn'.submitted ==> turn'.round < maxTurns && turn'.pending == None)
    && (status == AwaitingApproval ==> turn'.approval == Some(id) && Undecided(st, id) && id !in st.approvalOf)
    && (turn'.approval.Some? ==> CurrentCall(turn').Some?)
    && (status != AwaitingApproval && turn'.approval.Some? ==>
          && Linked(st, turn'.approval.value, e)
          && (Terminal(status) || !Undecided(st, turn'.approval.value)))
  }

  function NewLink(id: Uuid, status: Status): Option<Uuid> {
    if status == AwaitingApproval then Some(id) else None
  }

  lemma SavedElsewhere(st: Tables, e: ExecutionId, id: Uuid, turn: Turn, turn': Turn, status: Status, maxTurns: nat)
    requires SaveOk(st, id, e, turn, turn', status, maxTurns)
    requires Saved(st, e, id, turn', status).Success?
    ensures Elsewhere(st, Saved(st, e, id, turn', status).value, e, NewLink(id, status))
  {
  }

  lemma SavedRow(st: Tables, maxTurns: nat, spent: seq<Slot>, e: ExecutionId, id: Uuid,
                 turn': Turn, status: Status, strict: bool)
    requires RowInv(st, maxTurns, spent, e, strict)
    requires SaveOk(st, id, e, st.executions[e].context, turn', status, maxTurns)
    requires Saved(st, e, id, turn', status).Success?
    ensures RowInv(Saved(st, e, id, turn', status).value, maxTurns, spent, e, strict)
  {
    var st' := Saved(st, e, id, turn', status).value;
    assert st'.executions[e].context == turn' && st'.executions[e].status == status;
    assert st'.dispatch[e].due.Some? && !st'.dispatch[e].settled;
  }

  lemma SavedPeer(st: Tables, maxTurns: nat, spent: seq<Slot>, e: ExecutionId, id: Uuid,
                  turn': Turn, status: Status, other: Uuid, v: Worker, strict: bool)
    requires RowInv(st, maxTurns, spent, e, strict)
    requires SaveOk(st, id, e, st.executions[e].context, turn', status, maxTurns)
    requires Saved(st, e, id, turn', status).Success?
    requires !Terminal(st.executions[e].status)
    requires other != id && v.execution == e
    requires WorkerInv(st, maxTurns, spent, other, v, strict)
    ensures WorkerInv(Saved(st, e, id, turn', status).value, maxTurns, spent, other, v, strict)
  {
    var st' := Saved(st, e, id, turn', status).value;
    assert st'.executions[e].context == turn' && st'.executions[e].status == status;
    assert st'.executions[e].worker == Some(id);
  }

  // ----- executions.claim and release -----

  lemma ClaimedRow(st: Tables, maxTurns: nat, spent: seq<Slot>, e: ExecutionId, thread: ThreadId, id: Uuid, strict: bool)
    requires RowInv(st, maxTurns, spent, e, strict)
    requires ExecutionClaimed(st, thread, e, id).Success?
    ensures RowInv(ExecutionClaimed(st, thread, e, id).value, maxTurns, spent, e, strict)
    ensures Elsewhere(st, ExecutionClaimed(st, thread, e, id).value, e, None)
  {
  }

  /** A live lease refuses; so a claim never disturbs a worker whose delivery is current. In strict
      runs it does not disturb one that is returning. */
  lemma ClaimedPeer(st: Tables, maxTurns: nat, spent: seq<Slot>, e: ExecutionId, thread: ThreadId, id: Uuid,
                    other: Uuid, v: Worker, strict: bool)
    requires RowInv(st, maxTurns, spent, e, strict)
    requires ExecutionClaimed(st, thread, e, id).Success?
    requires strict && !Terminal(st.executions[e].status) ==> !Returning(st, other, v)
    requires other != id && v.execution == e
    requires WorkerInv(st, maxTurns, spent, other, v, strict)
    ensures WorkerInv(ExecutionClaimed(st, thread, e, id).value, maxTurns, spent, other, v, strict)
  {
  }

  lemma ReleasedRow(st: Tables, maxTurns: nat, spent: seq<Slot>, e: ExecutionId, id: Uuid, strict: bool)
    requires RowInv(st, maxTurns, spent, e, strict)
    ensures RowInv(Released(st, e, id), maxTurns, spent, e, strict)
    ensures Elsewhere(st, Released(st, e, id), e, None)
  {
  }

  lemma ReleasedPeer(st: Tables, maxTurns: nat, spent: seq<Slot>, e: ExecutionId, id: Uuid,
                     other: Uuid, v: Worker, strict: bool)
    requires RowInv(st, maxTurns, spent, e, strict)
    requires other != id && v.execution == e
    requires WorkerInv(st, maxTurns, spent, other, v, strict)
    ensures WorkerInv(Released(st, e, id), maxTurns, spent, other, v, strict)
  {
  }

  // ----- dispatch.claim and finish -----

  lemma DeliveredRow(st: Tables, maxTurns: nat, spent: seq<Slot>, e: ExecutionId, token: Uuid, strict: bool)
    requires RowInv(st, maxTurns, spent, e, strict)
    requires Deliverable(st, e) || Current(st, e, token)
    ensures RowInv(DeliveryClaimed(st, e, token), maxTurns, spent, e, strict)
    ensures Elsewhere(st, DeliveryClaimed(st, e, token), e, None)
  {
  }

  lemma DeliveredPeer(st: Tables, maxTurns: nat, spent: seq<Slot>, e: ExecutionId, token: Uuid,
                      other: Uuid, v: Worker, strict: bool)
    requires RowInv(st, maxTurns, spent, e, strict)
    requires Deliverable(st, e) || Current(st, e, token)
    requires other != token && v.execution == e
    requires WorkerInv(st, maxTurns, spent, other, v, strict)
    ensures WorkerInv(DeliveryClaimed(st, e, token), maxTurns, spent, other, v, strict)
  {
  }

  /** A stale acknowledgement changes nothing. A current one settles only what its own worker left
      behind: an undecided pause, or a published end. */
  lemma FinishedRow(st: Tables, maxTurns: nat, spent: seq<Slot>, e: ExecutionId, id: Uuid, w: Worker, strict: bool)
    requires RowInv(st, maxTurns, spent, e, strict)
    requires w.execution == e && w.pc.Ack?
    requires WorkerInv(st, maxTurns, spent, id, w, strict)
    ensures var failure := if w.pc.ending.Raising? then Some(w.pc.ending.kind) else None;
            var retryAfter := if w.pc.ending.Raising? then w.pc.ending.retryAfter else 0;
            RowInv(Finished(st, e, id, w.version, failure, retryAfter), maxTurns, spent, e, strict)
  {
  }

  lemma FinishedElsewhere(st: Tables, e: ExecutionId, id: Uuid, version: nat, failure: Option<FailureKind>, retryAfter: nat)
    ensures Elsewhere(st, Finished(st, e, id, version, failure, retryAfter), e, None)
  {
  }

  lemma FinishedPeer(st: Tables, maxTurns: nat, spent: seq<Slot>, e: ExecutionId, id: Uuid, version: nat,
                     failure: Option<FailureKind>, retryAfter: nat, other: Uuid, v: Worker, strict: bool)
    requires RowInv(st, maxTurns, spent, e, strict)
    requires other != id && v.execution == e
    requires WorkerInv(st, maxTurns, spent, other, v, strict)
    ensures WorkerInv(Finished(st, e, id, version, failure, retryAfter), maxTurns, spent, other, v, strict)
  {
  }

  // ----- wakes -----

  lemma WokenRow(st: Tables, maxTurns: nat, spent: seq<Slot>, e: ExecutionId, thread: ThreadId, cancellation: bool, strict: bool)
    requires RowInv(st, maxTurns, spent, e, strict)
    requires Woken(st, thread, e, cancellation).Success?
    ensures RowInv(Woken(st, thread, e, cancellation).value, maxTurns, spent, e, strict)
    ensures Elsewhere(st, Woken(st, thread, e, cancellation).value, e, None)
  {
  }

  lemma WokenPeer(st: Tables, maxTurns: nat, spent: seq<Slot>, e: ExecutionId, thread: ThreadId, cancellation: bool,
                  other: Uuid, v: Worker, strict: bool)
    requires Woken(st, thread, e, cancellation).Success?
    requires v.execution == e
    requires WorkerInv(st, maxTurns, spent, other, v, strict)
    ensures WorkerInv(Woken(st, thread, e, cancellation).value, maxTurns, spent, other, v, strict)
  {
  }

  lemma CancelledRow(st: Tables, maxTurns: nat, spent: seq<Slot>, e: ExecutionId, thread: ThreadId, strict: bool)
    requires RowInv(st, maxTurns, spent, e, strict)
    requires CancellationRequested(st, thread, e).Success?
    ensures RowInv(CancellationRequested(st, thread, e).value, maxTurns, spent, e, strict)
  {
  }

  lemma CancelledElsewhere(st: Tables, thread: ThreadId, e: ExecutionId)
    requires CancellationRequested(st, thread, e).Success?
    ensures Elsewhere(st, CancellationRequested(st, thread, e).value, e, None)
  {
  }

  lemma CancelledPeer(st: Tables, maxTurns: nat, spent: seq<Slot>, e: ExecutionId, thread: ThreadId,
                      other: Uuid, v: Worker, strict: bool)
    requires CancellationRequested(st, thread, e).Success?
    requires v.execution == e
    requires WorkerInv(st, maxTurns, spent, other, v, strict)
    ensures WorkerInv(CancellationRequested(st, thread, e).value, maxTurns, spent, other, v, strict)
  {
  }

  lemma DecidedRow(st: Tables, maxTurns: nat, spent: seq<Slot>, thread: ThreadId, request: Uuid, approved: bool, strict: bool)
    requires DecisionRecorded(st, thread, request, approved).Success?
    requires RowInv(st, maxTurns, spent, st.approvalOf[request], strict)
    ensures RowInv(DecisionRecorded(st, thread, request, approved).value, maxTurns, spent, st.approvalOf[request], strict)
    ensures Elsewhere(st, DecisionRecorded(st, thread, request, approved).value, st.approvalOf[request], None)
  {
  }

  lemma DecidedPeer(st: Tables, maxTurns: nat, spent: seq<Slot>, thread: ThreadId, request: Uuid, approved: bool,
                    other: Uuid, v: Worker, strict: bool)
    requires DecisionRecorded(st, thread, request, approved).Success?
    requires v.execution == st.approvalOf[request]
    requires WorkerInv(st, maxTurns, spent, other, v, strict)
    ensures WorkerInv(DecisionRecorded(st, thread, request, approved).value, maxTurns, spent, other, v, strict)
  {
  }

  lemma MatchedRow(st: Tables, maxTurns: nat, spent: seq<Slot>, response: ResponseId, e: ExecutionId, strict: bool)
    requires Matches(st, response, e)
    requires RowInv(st, maxTurns, spent, e, strict)
    ensures RowInv(Matched(st, response, Some(e)), maxTurns, spent, e, strict)
    ensures Elsewhere(st, Matched(st, response, Some(e)), e, None)
  {
  }

  lemma MatchedPeer(st: Tables, maxTurns: nat, spent: seq<Slot>, response: ResponseId, e: ExecutionId,
                    other: Uuid, v: Worker, strict: bool)
    requires Matches(st, response, e)
    requires v.execution == e
    requires WorkerInv(st, maxTurns, spent, other, v, strict)
    ensures WorkerInv(Matched(st, response, Some(e)), maxTurns, spent, other, v, strict)
  {
  }

  // ----- the clock -----

  lemma TickRow(st: Tables, seconds: real, maxTurns: nat, spent: seq<Slot>, e: ExecutionId, strict: bool)
    requires seconds >= 0.0 && RowInv(st, maxTurns, spent, e, strict)
    ensures RowInv(st.(now := st.now + seconds), maxTurns, spent, e, strict)
  {
  }

  lemma TickWorker(st: Tables, seconds: real, maxTurns: nat, spent: seq<Slot>, id: Uuid, w: Worker, strict: bool)
    requires seconds >= 0.0 && WorkerInv(st, maxTurns, spent, id, w, strict)
    ensures WorkerInv(st.(now := st.now + seconds), maxTurns, spent, id, w, strict)
  {
  }
}
