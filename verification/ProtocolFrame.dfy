/** What a unit may change without disturbing the executions and workers it does not name. */
module ProtocolFrame {
  import opened Wrappers
  import opened Store
  import opened Runtime
  import opened Protocol
  import L = EventLog

  /** A unit that works on execution `e` and links at most the approval `link`. */
  ghost predicate Elsewhere(st: Tables, st': Tables, e: ExecutionId, link: Option<Uuid>) {
    && st'.now == st.now
    && (forall f :: f != e ==> (f in st.executions <==> f in st'.executions))
    && (forall f :: f != e && f in st.executions ==> st'.executions[f] == st.executions[f])
    && (forall f :: f != e ==> (f in st.dispatch <==> f in st'.dispatch))
    && (forall f :: f != e && f in st.dispatch ==> st'.dispatch[f] == st.dispatch[f])
    && (forall f :: f != e ==> (f in st.cancelled <==> f in st'.cancelled))
    && SharedGrow(st, st', e, link)
  }

  /** The shared tables only grow, and only decisions linked to `e` are filled in. */
  ghost predicate SharedGrow(st: Tables, st': Tables, e: ExecutionId, link: Option<Uuid>) {
    && (forall a :: a in st.approvalOf ==> a in st'.approvalOf && st'.approvalOf[a] == st.approvalOf[a])
    && (forall a :: a in st'.approvalOf && a !in st.approvalOf ==> link == Some(a))
    && (forall a :: a in st.decisions ==> a in st'.decisions)
    && (forall a :: a in st.decisions && st'.decisions[a] != st.decisions[a] ==>
          st.decisions[a] == None && a in st.approvalOf && st.approvalOf[a] == e)
    && (forall k :: IsPublished(st, k) ==> IsPublished(st', k))
  }

  lemma FrameRow(st: Tables, st': Tables, e: ExecutionId, link: Option<Uuid>,
                 maxTurns: nat, spent: seq<Slot>, f: ExecutionId, strict: bool)
    requires Elsewhere(st, st', e, link) && f != e
    requires RowInv(st, maxTurns, spent, f, strict)
    ensures RowInv(st', maxTurns, spent, f, strict)
  {
    var turn := st.executions[f].context;
    if turn.approval.Some? {
      assert Linked(st, turn.approval.value, f);
      assert st'.decisions[turn.approval.value] == st.decisions[turn.approval.value];
    }
  }

  lemma FrameWorker(st: Tables, st': Tables, e: ExecutionId, link: Option<Uuid>,
                    maxTurns: nat, spent: seq<Slot>, id: Uuid, w: Worker, strict: bool)
    requires Elsewhere(st, st', e, link) && w.execution != e && link != Some(id)
    requires RowInv(st, maxTurns, spent, w.execution, strict)
    requires WorkerInv(st, maxTurns, spent, id, w, strict)
    ensures WorkerInv(st', maxTurns, spent, id, w, strict)
  {
    var turn := st.executions[w.execution].context;
    if turn.approval.Some? {
      assert Linked(st, turn.approval.value, w.execution);
      assert st'.decisions[turn.approval.value] == st.decisions[turn.approval.value];
    }
    if w.turn.approval.Some? {
      assert Linked(st, w.turn.approval.value, w.execution);
      assert st'.decisions[w.turn.approval.value] == st.decisions[w.turn.approval.value];
    }
  }

  /** Putting one unit together: everything about `e` is re-established, everything else is framed. */
  lemma Assemble(s: World, s': World, e: ExecutionId, link: Option<Uuid>, strict: bool)
    requires Inv(s, strict)
    requires s'.maxTurns == s.maxTurns
    requires Elsewhere(s.st, s'.st, e, link)
    requires KeysInv(s'.st) && UuidInv(s') && SlotsInv(s'.workers)
    requires s'.spent.Keys <= s'.st.executions.Keys
    requires forall f :: f != e ==> SpentOn(s', f) == SpentOn(s, f)
    requires RowOk(s', e, strict)
    requires forall id :: id in s'.workers && s'.workers[id].execution != e ==>
               id in s.workers && s'.workers[id] == s.workers[id] && link != Some(id)
    requires forall id :: id in s'.workers && s'.workers[id].execution == e ==> WorkerOk(s', id, strict)
    ensures Inv(s', strict)
  {
    forall f ensures RowOk(s', f, strict) {
      if f != e && f in s'.st.executions {
        assert RowOk(s, f, strict);
        FrameRow(s.st, s'.st, e, link, s.maxTurns, SpentOn(s, f), f, strict);
      }
    }
    forall id ensures WorkerOk(s', id, strict) {
      if id in s'.workers && s'.workers[id].execution != e {
        var w := s.workers[id];
        assert WorkerOk(s, id, strict) && RowOk(s, w.execution, strict);
        FrameWorker(s.st, s'.st, e, link, s.maxTurns, SpentOn(s, w.execution), id, w, strict);
      }
    }
  }
}
