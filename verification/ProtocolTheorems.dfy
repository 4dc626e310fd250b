/** Intake, deliveries, webhooks, decisions, cancellations and the clock keep the protocol invariant;
    so every run does, and the promises of durable execution follow for every reachable state. */
module ProtocolTheorems {
  import opened Wrappers
  import opened Store
  import opened Runtime
  import opened Protocol
  import opened ProtocolFrame
  import opened ProtocolUnits
  import opened ProtocolSteps
  import opened ProtocolRun
  import L = EventLog

  // ----- one row changed, no worker moved -----

  /** A unit outside any worker: its row and the workers on it are argued, the rest is framed. */
  lemma UnitKept(s: World, st': Tables, e: ExecutionId, strict: bool)
    requires Inv(s, strict)
    requires Elsewhere(s.st, st', e, None)
    requires st'.executions.Keys == s.st.executions.Keys && st'.dispatch.Keys == s.st.dispatch.Keys
    requires KeysInv(st')
    requires RowUuids(s.(st := st'), e)
    requires RowOk(s.(st := st'), e, strict)
    requires forall id :: id in s.workers && s.workers[id].execution == e ==> WorkerOk(s.(st := st'), id, strict)
    ensures Inv(s.(st := st'), strict)
  {
    var s' := s.(st := st');
    forall f ensures RowUuids(s', f) { assert RowUuids(s, f); }
    forall u ensures Drawn(s', u) { assert Drawn(s, u); }
    Assemble(s, s', e, None, strict);
  }

  lemma PublicationKept(s: World, thread: ThreadId, key: Key, strict: bool)
    requires Inv(s, strict)
    ensures Inv(OrSame(s, Published(s.st, thread, key)), strict)
  {
    if Published(s.st, thread, key).Success? {
      var st' := Published(s.st, thread, key).value;
      var s' := s.(st := st');
      PublishedGrows(s.st, thread, key);
      LogKeys(s, s');
      forall e ensures RowOk(s', e, strict) {
        assert RowOk(s, e, strict);
        if e in s.st.executions { LogRow(s.st, st', s.maxTurns, SpentOn(s, e), e, strict); }
      }
      forall id ensures WorkerOk(s', id, strict) {
        assert WorkerOk(s, id, strict);
        if id in s.workers { LogWorker(s.st, st', s.maxTurns, SpentOn(s, s.workers[id].execution), id, s.workers[id], strict); }
      }
    }
  }

  lemma ResumeKept(s: World, thread: ThreadId, e: ExecutionId, strict: bool)
    requires Inv(s, strict)
    ensures Inv(OrSame(s, Woken(s.st, thread, e, false)), strict)
  {
    if Woken(s.st, thread, e, false).Success? {
      var st' := Woken(s.st, thread, e, false).value;
      assert RowOk(s, e, strict) && RowUuids(s, e);
      WokenRow(s.st, s.maxTurns, SpentOn(s, e), e, thread, false, strict);
      forall id | id in s.workers && s.workers[id].execution == e ensures WorkerOk(s.(st := st'), id, strict) {
        assert WorkerOk(s, id, strict);
        WokenPeer(s.st, s.maxTurns, SpentOn(s, e), e, thread, false, id, s.workers[id], strict);
      }
      forall a ensures LinkKnown(st', a) { assert LinkKnown(s.st, a); }
      UnitKept(s, st', e, strict);
    }
  }

  lemma CancellationKept(s: World, thread: ThreadId, e: ExecutionId, strict: bool)
    requires Inv(s, strict)
    ensures Inv(OrSame(s, CancellationRequested(s.st, thread, e)), strict)
  {
    if CancellationRequested(s.st, thread, e).Success? {
      var st' := CancellationRequested(s.st, thread, e).value;
      assert RowOk(s, e, strict) && RowUuids(s, e);
      CancelledRow(s.st, s.maxTurns, SpentOn(s, e), e, thread, strict);
      CancelledElsewhere(s.st, thread, e);
      forall id | id in s.workers && s.workers[id].execution == e ensures WorkerOk(s.(st := st'), id, strict) {
        assert WorkerOk(s, id, strict);
        CancelledPeer(s.st, s.maxTurns, SpentOn(s, e), e, thread, id, s.workers[id], strict);
      }
      CancelledKeys(s.st, thread, e);
      assert RowUuids(s.(st := st'), e);
      UnitKept(s, st', e, strict);
    }
  }

  lemma CancelledKeys(st: Tables, thread: ThreadId, e: ExecutionId)
    requires KeysInv(st) && CancellationRequested(st, thread, e).Success?
    ensures var st' := CancellationRequested(st, thread, e).value;
            && KeysInv(st') && st'.executions == st.executions && st'.dispatch.Keys == st.dispatch.Keys
            && (e in st.dispatch ==> st'.dispatch[e].token == st.dispatch[e].token)
  {
    var st' := CancellationRequested(st, thread, e).value;
    forall a ensures LinkKnown(st', a) { assert LinkKnown(st, a); }
  }

  lemma DecisionKept(s: World, thread: ThreadId, request: Uuid, approved: bool, strict: bool)
    requires Inv(s, strict)
    ensures Inv(OrSame(s, DecisionRecorded(s.st, thread, request, approved)), strict)
  {
    if DecisionRecorded(s.st, thread, request, approved).Success? {
      var e := s.st.approvalOf[request];
      var st' := DecisionRecorded(s.st, thread, request, approved).value;
      assert RowOk(s, e, strict) && RowUuids(s, e);
      DecidedRow(s.st, s.maxTurns, SpentOn(s, e), thread, request, approved, strict);
      forall id | id in s.workers && s.workers[id].execution == e ensures WorkerOk(s.(st := st'), id, strict) {
        assert WorkerOk(s, id, strict);
        DecidedPeer(s.st, s.maxTurns, SpentOn(s, e), thread, request, approved, id, s.workers[id], strict);
      }
      DecidedKeys(s.st, thread, request, approved);
      assert RowUuids(s.(st := st'), e);
      UnitKept(s, st', e, strict);
    }
  }

  lemma DecidedKeys(st: Tables, thread: ThreadId, request: Uuid, approved: bool)
    requires KeysInv(st) && DecisionRecorded(st, thread, request, approved).Success?
    ensures var st' := DecisionRecorded(st, thread, request, approved).value;
            && KeysInv(st') && st'.executions == st.executions && st'.dispatch.Keys == st.dispatch.Keys
            && (forall e :: e in st.dispatch ==> st'.dispatch[e].token == st.dispatch[e].token)
  {
    var st' := DecisionRecorded(st, thread, request, approved).value;
    forall a ensures LinkKnown(st', a) { assert LinkKnown(st, a); }
  }

  // ----- webhooks -----

  lemma MatchKept(s: World, response: ResponseId, row: Option<ExecutionId>, strict: bool)
    requires Inv(s, strict)
    ensures Inv(s.(st := Matched(s.st, response, row)), strict)
  {
    if row.Some? && Matches(s.st, response, row.value) {
      var e := row.value;
      var st' := Matched(s.st, response, row);
      assert RowOk(s, e, strict) && RowUuids(s, e);
      MatchedRow(s.st, s.maxTurns, SpentOn(s, e), response, e, strict);
      forall id | id in s.workers && s.workers[id].execution == e ensures WorkerOk(s.(st := st'), id, strict) {
        assert WorkerOk(s, id, strict);
        MatchedPeer(s.st, s.maxTurns, SpentOn(s, e), response, e, id, s.workers[id], strict);
      }
      forall a ensures LinkKnown(st', a) { assert LinkKnown(s.st, a); }
      UnitKept(s, st', e, strict);
    }
  }

  /** The inbox is invisible to the invariant. */
  lemma InboxRow(st: Tables, inbox: map<WebhookId, Webhook>, maxTurns: nat, spent: seq<Slot>, e: ExecutionId, strict: bool)
    requires RowInv(st, maxTurns, spent, e, strict)
    ensures RowInv(st.(inbox := inbox), maxTurns, spent, e, strict)
  {
  }

  lemma InboxWorker(st: Tables, inbox: map<WebhookId, Webhook>, maxTurns: nat, spent: seq<Slot>, id: Uuid, w: Worker, strict: bool)
    requires WorkerInv(st, maxTurns, spent, id, w, strict)
    ensures WorkerInv(st.(inbox := inbox), maxTurns, spent, id, w, strict)
  {
  }

  lemma InboxKept(s: World, inbox: map<WebhookId, Webhook>, strict: bool)
    requires Inv(s, strict)
    ensures Inv(s.(st := s.st.(inbox := inbox)), strict)
  {
    var s' := s.(st := s.st.(inbox := inbox));
    forall e ensures RowUuids(s', e) { assert RowUuids(s, e); }
    forall u ensures Drawn(s', u) { assert Drawn(s, u); }
    forall a ensures LinkKnown(s'.st, a) { assert LinkKnown(s.st, a); }
    forall e ensures RowOk(s', e, strict) {
      assert RowOk(s, e, strict);
      if e in s.st.executions { InboxRow(s.st, inbox, s.maxTurns, SpentOn(s, e), e, strict); }
    }
    forall id ensures WorkerOk(s', id, strict) {
      assert WorkerOk(s, id, strict);
      if id in s.workers { InboxWorker(s.st, inbox, s.maxTurns, SpentOn(s, s.workers[id].execution), id, s.workers[id], strict); }
    }
  }

  lemma NotifyKept(s: World, event: WebhookId, response: ResponseId, row: Option<ExecutionId>, strict: bool)
    requires Inv(s, strict)
    ensures Inv(s.(st := Notified(s.st, event, response, row)), strict)
  {
    if event !in s.st.inbox {
      var inbox := s.st.inbox[event := Webhook(response, s.st.now, false)];
      InboxKept(s, inbox, strict);
      MatchKept(s.(st := s.st.(inbox := inbox)), response, row, strict);
    }
  }

  lemma MatchAllKept(s: World, matches: seq<(ResponseId, Option<ExecutionId>)>, strict: bool)
    requires Inv(s, strict)
    ensures Inv(s.(st := MatchedAll(s.st, matches)), strict)
    decreases |matches|
  {
    if matches != [] {
      MatchKept(s, matches[0].0, matches[0].1, strict);
      MatchAllKept(s.(st := Matched(s.st, matches[0].0, matches[0].1)), matches[1..], strict);
    }
  }

  /** No reachable row is stranded, so the repair UPDATE of `reconcile` changes nothing. */
  lemma RepairIsIdle(s: World, strict: bool)
    requires Inv(s, strict)
    ensures Repaired(s.st) == s.st
    ensures forall e :: e in s.st.dispatch ==> !Stranded(s.st.dispatch[e])
  {
    forall e | e in s.st.dispatch ensures !Stranded(s.st.dispatch[e]) {
      assert RowOk(s, e, strict);
    }
    assert Repaired(s.st).dispatch == s.st.dispatch;
  }

  lemma ReconcileKept(s: World, matches: seq<(ResponseId, Option<ExecutionId>)>, strict: bool)
    requires Inv(s, strict)
    ensures Inv(s.(st := Reconciled(s.st, matches)), strict)
  {
    MatchAllKept(s, matches, strict);
    var matched := s.(st := MatchedAll(s.st, matches));
    RepairIsIdle(matched, strict);
    InboxKept(matched, Expired(matched.st).inbox, strict);
  }

  // ----- intake, delivery, time -----

  lemma TickKept(s: World, seconds: real, strict: bool)
    requires Inv(s, strict) && seconds >= 0.0
    ensures Inv(s.(st := s.st.(now := s.st.now + seconds)), strict)
  {
    var s' := s.(st := s.st.(now := s.st.now + seconds));
    forall e ensures RowUuids(s', e) { assert RowUuids(s, e); }
    forall u ensures Drawn(s', u) { assert Drawn(s, u); }
    forall a ensures LinkKnown(s'.st, a) { assert LinkKnown(s.st, a); }
    forall e ensures RowOk(s', e, strict) {
      assert RowOk(s, e, strict);
      if e in s.st.executions { TickRow(s.st, seconds, s.maxTurns, SpentOn(s, e), e, strict); }
    }
    forall id ensures WorkerOk(s', id, strict) {
      assert WorkerOk(s, id, strict);
      if id in s.workers { TickWorker(s.st, seconds, s.maxTurns, SpentOn(s, s.workers[id].execution), id, s.workers[id], strict); }
    }
  }

  lemma AcceptedRow(st: Tables, maxTurns: nat, e: ExecutionId, thread: ThreadId, digest: nat, photo: bool, reservation: Option<Uuid>, strict: bool)
    requires Accepted(st, thread, e, InitialTurn(digest, photo), reservation).Success?
    requires e !in st.executions && e !in st.dispatch && 0.0 <= st.now && e !in st.cancelled
    ensures RowInv(Accepted(st, thread, e, InitialTurn(digest, photo), reservation).value, maxTurns, [], e, strict)
    ensures Elsewhere(st, Accepted(st, thread, e, InitialTurn(digest, photo), reservation).value, e, None)
  {
  }

  /** Intake inserts both rows or, repeated, none: progress is never reset. */
  lemma AcceptedKeys(s: World, s': World, thread: ThreadId, e: ExecutionId, context: Turn, reservation: Option<Uuid>)
    requires KeysInv(s.st) && UuidInv(s)
    requires s' == OrSame(s, Accepted(s.st, thread, e, context, reservation)).(next := s.next + 1)
    requires reservation == None || reservation == Some(s.next)
    ensures KeysInv(s'.st) && UuidInv(s')
  {
    forall f ensures RowUuids(s', f) { assert RowUuids(s, f); }
    forall u ensures Drawn(s', u) { assert Drawn(s, u); }
    forall a ensures LinkKnown(s'.st, a) { assert LinkKnown(s.st, a); }
  }

  lemma AcceptedNew(s: World, s': World, thread: ThreadId, e: ExecutionId, digest: nat, photo: bool, reservation: Option<Uuid>, strict: bool)
    requires Inv(s, strict) && KeysInv(s'.st) && UuidInv(s') && e !in s.st.executions
    requires Accepted(s.st, thread, e, InitialTurn(digest, photo), reservation).Success?
    requires s' == s.(st := Accepted(s.st, thread, e, InitialTurn(digest, photo), reservation).value, next := s.next + 1)
    ensures Inv(s', strict)
  {
    AcceptedRow(s.st, s.maxTurns, e, thread, digest, photo, reservation, strict);
    forall id | id in s.workers ensures s.workers[id].execution != e { assert WorkerOk(s, id, strict); }
    Assemble(s, s', e, None, strict);
  }

  lemma AcceptedSame(s: World, s': World, strict: bool)
    requires Inv(s, strict) && KeysInv(s'.st) && UuidInv(s') && s' == s.(next := s.next + 1)
    ensures Inv(s', strict)
  {
    forall f ensures RowOk(s', f, strict) { assert RowOk(s, f, strict); }
    forall id ensures WorkerOk(s', id, strict) { assert WorkerOk(s, id, strict); }
  }

  lemma AcceptKept(s: World, thread: ThreadId, e: ExecutionId, digest: nat, photo: bool, strict: bool)
    requires Inv(s, strict)
    ensures Inv(Next(s, Accept(thread, e, digest, photo)), strict)
  {
    var reservation := if photo then Some(s.next) else None;
    var result := Accepted(s.st, thread, e, InitialTurn(digest, photo), reservation);
    var s' := OrSame(s, result).(next := s.next + 1);
    AcceptedKeys(s, s', thread, e, InitialTurn(digest, photo), reservation);
    if s'.st == s.st {
      AcceptedSame(s, s', strict);
    } else {
      AcceptedNew(s, s', thread, e, digest, photo, reservation, strict);
    }
  }

  lemma NewWorkerSelf(st: Tables, maxTurns: nat, spent: seq<Slot>, e: ExecutionId, token: Uuid, photo: bool, background: bool, strict: bool)
    requires RowInv(st, maxTurns, spent, e, strict)
    requires st.executions[e].worker != Some(token)
    ensures WorkerInv(DeliveryClaimed(st, e, token), maxTurns, spent, token, NewWorker(st, e, photo, background), strict)
  {
  }

  lemma NewWorkerApart(workers: map<Uuid, Worker>, id: Uuid, w: Worker)
    requires SlotsInv(workers) && id !in workers && w.pc.Start?
    ensures SlotsInv(workers[id := w])
  {
    var grown := workers[id := w];
    forall one, two ensures Apart(grown, one, two) { assert Apart(workers, one, two); }
  }

  /** A delivery starts with a uuid no row has ever named as its worker. */
  lemma DeliveryKept(s: World, e: ExecutionId, token: Uuid, photo: bool, background: bool, strict: bool)
    requires Inv(s, strict)
    requires e in s.st.executions && e in s.st.dispatch
    requires Deliverable(s.st, e) || Current(s.st, e, token)
    requires token <= s.next && token !in s.started
    ensures Inv(s.(st := DeliveryClaimed(s.st, e, token), started := s.started + {token},
                   next := if token < s.next then s.next else s.next + 1,
                   workers := s.workers[token := NewWorker(s.st, e, photo, background)]), strict)
  {
    DeliveredKept(s, s.(st := DeliveryClaimed(s.st, e, token), started := s.started + {token},
                        next := if token < s.next then s.next else s.next + 1,
                        workers := s.workers[token := NewWorker(s.st, e, photo, background)]), e, token, photo, background, strict);
  }

  lemma DeliveredKept(s: World, s': World, e: ExecutionId, token: Uuid, photo: bool, background: bool, strict: bool)
    requires Inv(s, strict)
    requires e in s.st.executions && e in s.st.dispatch
    requires Deliverable(s.st, e) || Current(s.st, e, token)
    requires token < s'.next && s.next <= s'.next && token !in s.started
    requires s'.st == DeliveryClaimed(s.st, e, token) && s'.started == s.started + {token}
    requires s'.workers == s.workers[token := NewWorker(s.st, e, photo, background)]
    requires s'.spent == s.spent && s'.maxTurns == s.maxTurns
    ensures Inv(s', strict)
  {
    assert token !in s.workers;
    assert RowOk(s', e, strict) && Elsewhere(s.st, s'.st, e, None) by {
      assert RowOk(s, e, strict);
      DeliveredRow(s.st, s.maxTurns, SpentOn(s, e), e, token, strict);
    }
    NewWorkerApart(s.workers, token, NewWorker(s.st, e, photo, background));
    DeliveredWorkers(s, s', e, token, photo, background, strict);
    DeliveredKeys(s, s', e, token);
    Assemble(s, s', e, None, strict);
  }

  lemma DeliveredWorkers(s: World, s': World, e: ExecutionId, token: Uuid, photo: bool, background: bool, strict: bool)
    requires Inv(s, strict)
    requires e in s.st.executions && e in s.st.dispatch && token !in s.started
    requires Deliverable(s.st, e) || Current(s.st, e, token)
    requires s'.st == DeliveryClaimed(s.st, e, token) && s'.maxTurns == s.maxTurns && s'.spent == s.spent
    requires s'.workers == s.workers[token := NewWorker(s.st, e, photo, background)]
    ensures forall id :: id in s'.workers && s'.workers[id].execution == e ==> WorkerOk(s', id, strict)
  {
    assert RowOk(s, e, strict) && RowUuids(s, e);
    NewWorkerSelf(s.st, s.maxTurns, SpentOn(s, e), e, token, photo, background, strict);
    forall id | id in s'.workers && s'.workers[id].execution == e ensures WorkerOk(s', id, strict) {
      if id != token {
        assert WorkerOk(s, id, strict);
        DeliveredPeer(s.st, s.maxTurns, SpentOn(s, e), e, token, id, s.workers[id], strict);
      }
    }
  }

  lemma DeliveredKeys(s: World, s': World, e: ExecutionId, token: Uuid)
    requires KeysInv(s.st) && UuidInv(s) && e in s.st.dispatch
    requires s'.st == DeliveryClaimed(s.st, e, token) && s'.started == s.started + {token}
    requires s'.workers.Keys == s.workers.Keys + {token} && token < s'.next && s.next <= s'.next
    ensures KeysInv(s'.st) && UuidInv(s')
  {
    forall f ensures RowUuids(s', f) { assert RowUuids(s, f); }
    forall u ensures Drawn(s', u) { assert Drawn(s, u); }
    forall a ensures LinkKnown(s'.st, a) { assert LinkKnown(s.st, a); }
  }

  // ----- every action, every run -----

  lemma NextKept(s: World, a: Action, strict: bool)
    requires Inv(s, strict)
    requires strict ==> !Displaces(s, a)
    ensures Inv(Next(s, a), strict)
  {
    match a
    case Tick(seconds) => if seconds >= 0.0 { TickKept(s, seconds, strict); }
    case Accept(thread, e, digest, photo) => AcceptKept(s, thread, e, digest, photo, strict);
    case AnnounceUser(e) =>
      if e in s.st.executions { PublicationKept(s, s.st.executions[e].thread, Key(e, User), strict); }
    case Deliver(e, background) =>
      if Deliverable(s.st, e) {
        assert Drawn(s, s.next);
        DeliveryKept(s, e, s.next, false, background, strict);
      }
    case DeliverReserved(e, token, background) =>
      if Current(s.st, e, token) && e in s.st.executions && token !in s.started {
        assert RowUuids(s, e);
        DeliveryKept(s, e, token, true, background, strict);
      }
    case Resume(thread, e) => ResumeKept(s, thread, e, strict);
    case Cancel(thread, e) => CancellationKept(s, thread, e, strict);
    case Decide(thread, request, approved) => DecisionKept(s, thread, request, approved, strict);
    case Notify(event, response, row) => NotifyKept(s, event, response, row, strict);
    case Reconcile(matches) => ReconcileKept(s, matches, strict);
    case PublishBlocked(e, completed) =>
      if e in s.st.dispatch && e in s.st.executions && s.st.dispatch[e].blocked {
        var version := s.st.dispatch[e].wakeVersion;
        PublicationKept(s, s.st.executions[e].thread,
          Key(e, if completed then BlockedCompleted(version) else BlockedError(version)), strict);
      }
    case Advance(id, input) => if id in s.workers { AdvanceKept(s, id, input, strict); }
    case Throw(id, interrupted) => if id in s.workers { ThrowStep(s, id, interrupted, strict); }
    case Crash(id) => Gone(s, id, strict);
  }
}
