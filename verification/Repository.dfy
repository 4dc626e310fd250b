/** `PostgresExecutionRepository` and `PostgresDispatchRepository`: each method is one write unit that
    updates the tables in place, proved equal to its function in module Store. */
module Repository {
  import opened Wrappers
  import opened Store
  import L = EventLog

  datatype DeliveryRow = DeliveryRow(execution: ExecutionId, thread: ThreadId, token: Uuid, version: nat, failures: nat)

  lemma {:induction false} MatchedAllLast(st: Tables, matches: seq<(ResponseId, Option<ExecutionId>)>, last: (ResponseId, Option<ExecutionId>))
    ensures MatchedAll(st, matches + [last]) == Matched(MatchedAll(st, matches), last.0, last.1)
    decreases |matches|
  {
    if matches == [] {
      assert [last][1..] == [];
    } else {
      var next := Matched(st, matches[0].0, matches[0].1);
      assert (matches + [last])[1..] == matches[1..] + [last];
      MatchedAllLast(next, matches[1..], last);
    }
  }

  const RECONCILED: nat := 100

  predicate NoneOlder(inbox: map<WebhookId, Webhook>, left: set<WebhookId>, webhook: WebhookId)
    requires webhook in inbox
  {
    forall w :: w in left ==> w in inbox && inbox[webhook].receivedAt <= inbox[w].receivedAt
  }

  /** No webhook is listed twice, each is at least as old as the ones after it, and as those in `left`. */
  ghost predicate InOrder(inbox: map<WebhookId, Webhook>, webhooks: seq<WebhookId>, left: set<WebhookId>) {
    && (forall i :: 0 <= i < |webhooks| ==> webhooks[i] in inbox && webhooks[i] !in left)
    && (forall i, j :: 0 <= i < j < |webhooks| ==>
          webhooks[i] != webhooks[j] && inbox[webhooks[i]].receivedAt <= inbox[webhooks[j]].receivedAt)
    && (forall i :: 0 <= i < |webhooks| ==> NoneOlder(inbox, left, webhooks[i]))
  }

  /** The oldest unconsumed webhooks in order: all of them, or one hundred. */
  ghost predicate Oldest(inbox: map<WebhookId, Webhook>, webhooks: seq<WebhookId>) {
    var unread := set w | w in inbox && !inbox[w].consumed;
    && (forall w :: w in webhooks ==> w in unread)
    && InOrder(inbox, webhooks, unread - set w | w in webhooks)
    && (|webhooks| == RECONCILED || (|webhooks| < RECONCILED && forall w :: w in unread ==> w in webhooks))
  }

  /** What `_match` finds: an unblocked row with this response, if there is one. */
  ghost predicate FoundRow(st: Tables, response: ResponseId, row: Option<ExecutionId>) {
    if row.Some? then Matches(st, response, row.value) else forall e :: !Matches(st, response, e)
  }

  /** The webhooks were matched in order, each on the tables the earlier ones left. */
  ghost predicate MatchedInOrder(st: Tables, webhooks: seq<WebhookId>, matches: seq<(ResponseId, Option<ExecutionId>)>) {
    && |matches| <= |webhooks|
    && forall i :: 0 <= i < |matches| ==> MatchedAt(st, webhooks, matches, i)
  }

  ghost predicate MatchedAt(st: Tables, webhooks: seq<WebhookId>, matches: seq<(ResponseId, Option<ExecutionId>)>, i: nat)
    requires i < |matches| <= |webhooks|
  {
    && webhooks[i] in st.inbox && matches[i].0 == st.inbox[webhooks[i]].response
    && FoundRow(MatchedAll(st, matches[..i]), matches[i].0, matches[i].1)
  }

  lemma {:induction false} MatchedNext(st: Tables, webhooks: seq<WebhookId>, matches: seq<(ResponseId, Option<ExecutionId>)>,
                                       row: Option<ExecutionId>)
    requires |matches| < |webhooks| && MatchedInOrder(st, webhooks, matches) && webhooks[|matches|] in st.inbox
    requires FoundRow(MatchedAll(st, matches), st.inbox[webhooks[|matches|]].response, row)
    ensures MatchedInOrder(st, webhooks, matches + [(st.inbox[webhooks[|matches|]].response, row)])
  {
    var after := matches + [(st.inbox[webhooks[|matches|]].response, row)];
    forall i | 0 <= i < |after| ensures MatchedAt(st, webhooks, after, i) {
      assert after[..i] == matches[..i];
      if i < |matches| { assert MatchedAt(st, webhooks, matches, i); } else { assert matches[..i] == matches; }
    }
  }

  class PostgresRepository {
    var now: real
    var executions: map<ExecutionId, Execution>
    var dispatch: map<ExecutionId, Dispatch>
    var cancelled: set<ExecutionId>
    var decisions: map<Uuid, Option<bool>>
    var approvalOf: map<Uuid, ExecutionId>
    var inbox: map<WebhookId, Webhook>
    const conversations: L.ConversationRepository<Key, Key>

    ghost function Snapshot(): Tables
      reads this, conversations
    {
      Tables(now, executions, dispatch, cancelled, decisions, approvalOf, inbox, conversations.Snapshot())
    }

    constructor ()
      ensures Snapshot() == EmptyTables() && fresh(conversations)
    {
      now, executions, dispatch, cancelled := 0.0, map[], map[], {};
      decisions, approvalOf, inbox := map[], map[], map[];
      conversations := new L.ConversationRepository();
    }

    // ----- execution.py -----

    method ThreadIsBusy(thread: ThreadId) returns (busy: bool)
      ensures busy == ThreadBusy(Snapshot(), thread)
    {
      var left := executions.Keys;
      while left != {}
        invariant left <= executions.Keys
        invariant forall e :: e in executions && e !in left ==> executions[e].thread != thread || !Unfinished(executions[e])
        decreases left
      {
        var e :| e in left;
        if executions[e].thread == thread && Unfinished(executions[e]) { return true; }
        left := left - {e};
      }
      return false;
    }

    method Prepare(thread: ThreadId, e: ExecutionId, context: Turn) returns (error: Option<Error>)
      modifies this
      ensures match Prepared(old(Snapshot()), thread, e, context)
              case Success(st) => error == None && Snapshot() == st
              case Failure(why) => error == Some(why) && Snapshot() == old(Snapshot())
    {
      if e in executions {
        var record := executions[e];
        if record.thread != thread || record.context.digest != context.digest { return Some(Unavailable); }
        return None;
      }
      var busy := ThreadIsBusy(thread);
      if busy { return Some(Unavailable); }
      executions := executions[e := Execution(thread, context, Ready, None, 0.0)];
      return None;
    }

    /** The record a claim returns is owned by the worker unless it is terminal. */
    method ClaimExecution(thread: ThreadId, e: ExecutionId, worker: Uuid) returns (record: Result<Execution, Error>)
      modifies this
      ensures match ExecutionClaimed(old(Snapshot()), thread, e, worker)
              case Success(st) => Snapshot() == st && record == Success(old(executions)[e])
              case Failure(why) => Snapshot() == old(Snapshot()) && record == Failure(why)
    {
      if e !in executions || executions[e].thread != thread { return Failure(Unavailable); }
      var row := executions[e];
      if Terminal(row.status) { return Success(row); }
      if row.worker.Some? && row.leaseUntil > now { return Failure(Busy(SecondsLeft(row.leaseUntil, now))); }
      executions := executions[e := row.(worker := Some(worker), leaseUntil := now + LEASE_SECONDS)];
      return Success(row);
    }

    method BeginStage(e: ExecutionId, worker: Uuid) returns (result: Result<bool, Error>)
      ensures result == StageBegun(Snapshot(), e, worker)
    {
      if e !in executions || executions[e].worker != Some(worker) || executions[e].leaseUntil <= now { return Failure(Unavailable); }
      return Success(e !in cancelled);
    }

    method Save(e: ExecutionId, worker: Uuid, context: Turn, status: Status) returns (error: Option<Error>)
      modifies this
      ensures match Saved(old(Snapshot()), e, worker, context, status)
              case Success(st) => error == None && Snapshot() == st
              case Failure(why) => error == Some(why) && Snapshot() == old(Snapshot())
    {
      if e !in executions || executions[e].worker != Some(worker) || executions[e].leaseUntil <= now { return Some(Unavailable); }
      executions := executions[e := executions[e].(context := context, status := status, leaseUntil := now + LEASE_SECONDS)];
      if context.approval.Some? && context.approval.value !in approvalOf {
        approvalOf := approvalOf[context.approval.value := e];
      }
      Checkpoint(e, context, status);
      return None;
    }

    method Release(e: ExecutionId, worker: Uuid)
      modifies this
      ensures Snapshot() == Released(old(Snapshot()), e, worker)
    {
      if e in executions && executions[e].worker == Some(worker) {
        executions := executions[e := executions[e].(worker := None, leaseUntil := 0.0)];
      }
    }

    /** Refused publication rolls the whole unit back. */
    method RequestCancellation(thread: ThreadId, e: ExecutionId) returns (error: Option<Error>)
      modifies this, conversations
      ensures match CancellationRequested(old(Snapshot()), thread, e)
              case Success(st) => error == None && Snapshot() == st
              case Failure(why) => error == Some(why) && Snapshot() == old(Snapshot())
    {
      if e !in executions || executions[e].thread != thread { return Some(UnknownExecution); }
      if Terminal(executions[e].status) { return None; }
      var savedCancelled, savedThreads := cancelled, conversations.threads;
      cancelled := cancelled + {e};
      var key := Key(e, CancelRequest);
      var published := conversations.Append(L.Event(thread, L.OpenAI, key), Some(key));
      if published.Failure? {
        cancelled, conversations.threads := savedCancelled, savedThreads;
        return Some(Publication(published.error));
      }
      error := Wake(thread, e, true);
    }

    /** `append_once`: a refused publication leaves nothing behind. */
    method Publish(thread: ThreadId, key: Key) returns (error: Option<Error>)
      modifies conversations
      ensures match Published(old(Snapshot()), thread, key)
              case Success(st) => error == None && Snapshot() == st
              case Failure(why) => error == Some(why) && Snapshot() == old(Snapshot())
    {
      var savedThreads := conversations.threads;
      var published := conversations.Append(L.Event(thread, L.OpenAI, key), Some(key));
      if published.Failure? {
        conversations.threads := savedThreads;
        return Some(Publication(published.error));
      }
      return None;
    }

    // ----- dispatch.py -----

    method Accept(thread: ThreadId, e: ExecutionId, context: Turn, reservation: Option<Uuid>) returns (error: Option<Error>)
      modifies this
      ensures match Accepted(old(Snapshot()), thread, e, context, reservation)
              case Success(st) => error == None && Snapshot() == st
              case Failure(why) => error == Some(why) && Snapshot() == old(Snapshot())
    {
      error := Prepare(thread, e, context);
      if error == None && e !in dispatch {
        dispatch := dispatch[e := NewDispatch(now, reservation)];
      }
    }

    /** `claim()`: the earliest due row that is not blocked or held, ties broken by id. */
    method ClaimDue(token: Uuid) returns (delivery: Option<DeliveryRow>)
      modifies this
      ensures delivery == None ==> Snapshot() == old(Snapshot()) && forall e :: !Deliverable(old(Snapshot()), e)
      ensures delivery.Some? ==>
        var e := delivery.value.execution;
        && Deliverable(old(Snapshot()), e)
        && Snapshot() == DeliveryClaimed(old(Snapshot()), e, token)
        && delivery.value == DeliveryRow(e, executions[e].thread, token, old(dispatch)[e].wakeVersion, old(dispatch)[e].failures)
        && forall f :: Deliverable(old(Snapshot()), f) ==>
             old(dispatch)[e].due.value < old(dispatch)[f].due.value
             || (old(dispatch)[e].due.value == old(dispatch)[f].due.value && e <= f)
    {
      var best: Option<ExecutionId> := None;
      var left := dispatch.Keys;
      while left != {}
        invariant left <= dispatch.Keys
        invariant best.Some? ==> Deliverable(Snapshot(), best.value)
        invariant forall f :: Deliverable(Snapshot(), f) && f !in left ==>
          && best.Some?
          && (dispatch[best.value].due.value < dispatch[f].due.value
              || (dispatch[best.value].due.value == dispatch[f].due.value && best.value <= f))
        decreases left
      {
        var e :| e in left;
        var row := dispatch[e];
        if e in executions && !row.blocked && row.due.Some? && row.due.value <= now && row.leaseUntil <= now {
          if best == None || row.due.value < dispatch[best.value].due.value
             || (row.due.value == dispatch[best.value].due.value && e < best.value) {
            best := Some(e);
          }
        }
        left := left - {e};
      }
      if best == None { return None; }
      var row := dispatch[best.value];
      dispatch := dispatch[best.value := row.(token := Some(token), leaseUntil := now + LEASE_SECONDS)];
      return Some(DeliveryRow(best.value, executions[best.value].thread, token, row.wakeVersion, row.failures));
    }

    /** `claim(execution_id, token)`: renew a reservation that is still current. */
    method ClaimReserved(e: ExecutionId, token: Uuid) returns (delivery: Option<DeliveryRow>)
      modifies this
      ensures delivery.Some? <==> Current(old(Snapshot()), e, token) && e in old(executions)
      ensures delivery == None ==> Snapshot() == old(Snapshot())
      ensures delivery.Some? ==>
        && Snapshot() == DeliveryClaimed(old(Snapshot()), e, token)
        && delivery.value == DeliveryRow(e, executions[e].thread, token, old(dispatch)[e].wakeVersion, old(dispatch)[e].failures)
    {
      if e !in dispatch || e !in executions || dispatch[e].token != Some(token) || dispatch[e].leaseUntil <= now { return None; }
      var row := dispatch[e];
      dispatch := dispatch[e := row.(token := Some(token), leaseUntil := now + LEASE_SECONDS)];
      return Some(DeliveryRow(e, executions[e].thread, token, row.wakeVersion, row.failures));
    }

    method HasUnconsumed(response: ResponseId) returns (found: bool)
      ensures found == Unconsumed(Snapshot(), response)
    {
      var left := inbox.Keys;
      while left != {}
        invariant left <= inbox.Keys
        invariant forall w :: w in inbox && w !in left ==> inbox[w].response != response || inbox[w].consumed
        decreases left
      {
        var w :| w in left;
        if inbox[w].response == response && !inbox[w].consumed { return true; }
        left := left - {w};
      }
      return false;
    }

    method Checkpoint(e: ExecutionId, context: Turn, status: Status)
      modifies this
      ensures Snapshot() == Checkpointed(old(Snapshot()), e, context, status)
    {
      if e !in dispatch { return; }
      var due := now + if status == WaitingModel && e !in cancelled then POLL_SECONDS else 0.0;
      if context.response.Some? {
        var early := HasUnconsumed(context.response.value);
        if early {
          due := now;
          inbox := Consumed(inbox, context.response.value);
        }
      }
      dispatch := dispatch[e := dispatch[e].(response := context.response, due := Some(due), settled := false)];
    }

    method Finish(delivery: DeliveryRow, failure: Option<FailureKind>, retryAfter: nat) returns (blockedNow: bool)
      modifies this
      ensures Snapshot() == Finished(old(Snapshot()), delivery.execution, delivery.token, delivery.version, failure, retryAfter)
      ensures blockedNow <==> Current(old(Snapshot()), delivery.execution, delivery.token) && delivery.execution in executions
                              && dispatch[delivery.execution].blocked
    {
      var e := delivery.execution;
      if e !in dispatch || e !in executions || dispatch[e].token != Some(delivery.token) || dispatch[e].leaseUntil <= now { return false; }
      var row := dispatch[e];
      var failures := if failure == None then 0 else row.failures + if failure == Some(ExecutionBusy) then 0 else 1;
      var blocked := failures >= MAX_FAILURES;
      var due, settled := row.due, row.settled;
      if row.wakeVersion == delivery.version {
        if failure.Some? {
          due := if blocked then None else Some(now + RetryDelay(retryAfter, failures) as real);
        } else if Settles(executions[e].status) {
          due, settled := None, true;
        }
      } else {
        blocked := false;
      }
      dispatch := dispatch[e := row.(token := None, leaseUntil := 0.0, due := due, failures := failures, blocked := blocked, settled := settled)];
      return blocked;
    }

    method Wake(thread: ThreadId, e: ExecutionId, cancellation: bool) returns (error: Option<Error>)
      modifies this
      ensures match Woken(old(Snapshot()), thread, e, cancellation)
              case Success(st) => error == None && Snapshot() == st
              case Failure(why) => error == Some(why) && Snapshot() == old(Snapshot())
    {
      if e !in executions || executions[e].thread != thread { return Some(Unavailable); }
      if !cancellation && e in cancelled { return Some(Unavailable); }
      if e !in dispatch { dispatch := dispatch[e := NewDispatch(now, None)]; }
      var row := dispatch[e];
      dispatch := dispatch[e := row.(due := Some(now), wakeVersion := row.wakeVersion + 1, blocked := false, failures := 0, settled := false)];
      return None;
    }

    /** `DurableDispatch.decide`: the decision and the wake commit or fail together. */
    method Decide(thread: ThreadId, request: Uuid, approved: bool) returns (error: Option<Error>)
      modifies this
      ensures match DecisionRecorded(old(Snapshot()), thread, request, approved)
              case Success(st) => error == None && Snapshot() == st
              case Failure(why) => error == Some(why) && Snapshot() == old(Snapshot())
    {
      if request !in approvalOf { return Some(InvalidRequest); }
      var e := approvalOf[request];
      if e !in executions || executions[e].thread != thread { return Some(InvalidRequest); }
      if e in cancelled || request !in decisions { return Some(InvalidRequest); }
      var stored := decisions[request];
      if stored.Some? && stored.value != approved { return Some(InvalidRequest); }
      decisions := decisions[request := Some(approved)];
      error := Wake(thread, e, false);
    }

    /** `_match`: any one unblocked row with this response id. */
    method Match(response: ResponseId) returns (row: Option<ExecutionId>)
      modifies this
      ensures Snapshot() == Matched(old(Snapshot()), response, row)
      ensures row.Some? ==> Matches(old(Snapshot()), response, row.value)
      ensures row == None ==> forall e :: !Matches(old(Snapshot()), response, e)
    {
      var left := dispatch.Keys;
      while left != {}
        invariant left <= dispatch.Keys
        invariant Snapshot() == old(Snapshot())
        invariant forall e :: Matches(Snapshot(), response, e) ==> e in left
        decreases left
      {
        var e :| e in left;
        if dispatch[e].response == Some(response) && !dispatch[e].blocked {
          dispatch := dispatch[e := dispatch[e].(due := Some(now), wakeVersion := dispatch[e].wakeVersion + 1)];
          inbox := Consumed(inbox, response);
          return Some(e);
        }
        left := left - {e};
      }
      return None;
    }

    method Notify(event: WebhookId, response: ResponseId) returns (accepted: bool, row: Option<ExecutionId>)
      modifies this
      ensures Snapshot() == Notified(old(Snapshot()), event, response, row)
      ensures accepted <==> event !in old(inbox)
    {
      if event in inbox { return false, None; }
      inbox := inbox[event := Webhook(response, now, false)];
      row := Match(response);
      return true, row;
    }

    /** Up to one hundred unconsumed webhooks, oldest first. */
    method OldestUnconsumed() returns (webhooks: seq<WebhookId>)
      ensures Oldest(inbox, webhooks)
    {
      webhooks := [];
      var left := set w | w in inbox && !inbox[w].consumed;
      while left != {} && |webhooks| < RECONCILED
        invariant |webhooks| <= RECONCILED
        invariant forall w :: w in left || w in webhooks <==> w in inbox && !inbox[w].consumed
        invariant InOrder(inbox, webhooks, left)
        decreases left
      {
        var oldest := OldestOf(left);
        webhooks := webhooks + [oldest];
        left := left - {oldest};
      }
    }

    method OldestOf(among: set<WebhookId>) returns (oldest: WebhookId)
      requires among != {} && among <= inbox.Keys
      ensures oldest in among && forall w :: w in among ==> inbox[oldest].receivedAt <= inbox[w].receivedAt
    {
      oldest :| oldest in among;
      var left := among - {oldest};
      while left != {}
        invariant oldest in among && left <= among
        invariant forall w :: w in among && w !in left ==> inbox[oldest].receivedAt <= inbox[w].receivedAt
        decreases left
      {
        var w :| w in left;
        if inbox[w].receivedAt < inbox[oldest].receivedAt { oldest := w; }
        left := left - {w};
      }
    }

    /** The oldest unconsumed webhooks, each matched with any one row that has its response by then; then the
        repair, and the webhooks past retention. */
    method Reconcile() returns (matches: seq<(ResponseId, Option<ExecutionId>)>, ghost webhooks: seq<WebhookId>)
      modifies this
      ensures Snapshot() == Reconciled(old(Snapshot()), matches)
      ensures Oldest(old(inbox), webhooks) && |matches| == |webhooks|
      ensures MatchedInOrder(old(Snapshot()), webhooks, matches)
    {
      var chosen := OldestUnconsumed();
      var before := inbox;
      ghost var start := Snapshot();
      matches, webhooks := [], chosen;
      for i := 0 to |chosen|
        invariant |matches| == i
        invariant Snapshot() == MatchedAll(start, matches)
        invariant MatchedInOrder(start, chosen, matches)
      {
        var response := before[chosen[i]].response;
        var row := Match(response);
        MatchedAllLast(start, matches, (response, row));
        MatchedNext(start, chosen, matches, row);
        matches := matches + [(response, row)];
      }
      dispatch := map e | e in dispatch :: if Stranded(dispatch[e]) then dispatch[e].(due := Some(now)) else dispatch[e];
      inbox := map w | w in inbox && inbox[w].receivedAt >= now - RETENTION_SECONDS :: inbox[w];
    }
  }
}
