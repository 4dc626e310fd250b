/** The client's copy against the server's own log: one poll makes the stored events of a session equal to
    the conversation as the server stores it, whatever the session had missed. */
module Replica {
  import opened Wrappers
  import opened Store
  import opened Runtime
  import opened DurableExecution
  import L = EventLog
  import A = AgentSession

  /** An event as it is sent, with its sequence. */
  function Wire(encode: Key -> nat, event: L.Event<Key>, sequence: nat): A.Event {
    A.Event(sequence, event.thread, event.data.part == User, event.data.execution, encode(event.data))
  }

  function Wired(encode: Key -> nat, events: seq<L.Event<Key>>, after: nat): seq<A.Event> {
    seq(|events|, i requires 0 <= i < |events| => Wire(encode, events[i], after + 1 + i))
  }

  /** The whole conversation, as a client that has missed nothing holds it. */
  ghost function Conversation(log: L.Log<Key, Key>, thread: ThreadId, encode: Key -> nat): seq<A.Event>
    requires L.GapFree(log)
  {
    Wired(encode, L.Events(log, thread, 0), 0)
  }

  lemma ConversationIsALog(log: L.Log<Key, Key>, thread: ThreadId, encode: Key -> nat)
    requires L.GapFree(log)
    ensures A.ServerLog(Conversation(log, thread, encode), thread)
  {
    L.EventsAfterIsSuffix(log, thread, 0);
  }

  /** What the server answers after a cursor is the rest of the conversation. */
  lemma AnswerIsTheRest(log: L.Log<Key, Key>, thread: ThreadId, encode: Key -> nat, after: nat)
    requires L.GapFree(log) && after <= |Conversation(log, thread, encode)|
    ensures Wired(encode, L.Events(log, thread, after), after) == Conversation(log, thread, encode)[after..]
  {
    L.EventsAfterIsSuffix(log, thread, after);
  }

  /** A log that grows only appends to each conversation. */
  lemma ConversationGrows(log: L.Log<Key, Key>, later: L.Log<Key, Key>, thread: ThreadId, encode: Key -> nat)
    requires L.GapFree(log) && L.GapFree(later) && L.Grows(log, later)
    ensures Conversation(log, thread, encode) <= Conversation(later, thread, encode)
  {
    L.EventsAfterIsSuffix(log, thread, 0);
    L.EventsAfterIsSuffix(later, thread, 0);
    var n := L.Last(log, thread);
    assert n == 0 || (thread, n) in later.rows;
    forall i | 0 <= i < n ensures L.Events(log, thread, 0)[i] == L.Events(later, thread, 0)[i] {
      assert (thread, i + 1) in log.rows;
    }
  }

  lemma {:induction false} LogGrows(maxTurns: nat, actions: seq<Action>, more: seq<Action>)
    ensures L.Grows(After(maxTurns, actions).st.log, After(maxTurns, actions + more).st.log)
    decreases |more|
  {
    if more == [] {
      assert actions + more == actions;
    } else {
      var last := |more| - 1;
      var before := actions + more[..last];
      assert (actions + more)[..|actions| + last] == before && (actions + more)[|actions| + last] == more[last];
      LogGrows(maxTurns, actions, more[..last]);
      StepGrows(maxTurns, before, more[last]);
    }
  }

  lemma StepGrows(maxTurns: nat, actions: seq<Action>, a: Action)
    ensures L.Grows(After(maxTurns, actions).st.log, Next(After(maxTurns, actions), a).st.log)
  {
    var s := After(maxTurns, actions);
    LogStaysTagged(maxTurns, actions);
    NextAppends(s, a);
    var st' := Next(s, a).st;
    if st'.log != s.st.log {
      var thread, key :| Published(s.st, thread, key).Success? && st'.log == Published(s.st, thread, key).value.log;
      L.AppendKeepsLog(s.st.log, L.Event(thread, L.OpenAI, key), Some(key));
    }
  }

  /** In every run of durable execution, what a client has seen of a conversation stays its beginning. */
  lemma SeenStaysSeen(maxTurns: nat, actions: seq<Action>, more: seq<Action>, thread: ThreadId, encode: Key -> nat)
    ensures var log, later := After(maxTurns, actions).st.log, After(maxTurns, actions + more).st.log;
            && L.GapFree(log) && L.GapFree(later)
            && Conversation(log, thread, encode) <= Conversation(later, thread, encode)
  {
    LogStaysTagged(maxTurns, actions);
    LogStaysTagged(maxTurns, actions + more);
    LogGrows(maxTurns, actions, more);
    ConversationGrows(After(maxTurns, actions).st.log, After(maxTurns, actions + more).st.log, thread, encode);
  }

  /** One poll against the stored log: whatever events an earlier log had given the session, and whatever it
      had missed, afterwards its stored events are exactly the conversation. */
  method Watch(session: A.Session, server: L.ConversationRepository<Key, Key>, encode: Key -> nat, ghost seen: L.Log<Key, Key>)
    requires L.GapFree(server.Snapshot()) && L.GapFree(seen) && L.Grows(seen, server.Snapshot())
    requires A.WellOrdered(session.events) && A.FromLog(session.events, Conversation(seen, session.thread, encode))
    modifies session
    ensures A.WellOrdered(session.events)
    ensures A.Positives(session.events) == Conversation(server.Snapshot(), session.thread, encode)
    ensures multiset(A.Negatives(session.events)) <= multiset(A.Negatives(old(session.events)))
  {
    ghost var log := server.Snapshot();
    ghost var conversation := Conversation(log, session.thread, encode);
    ConversationIsALog(log, session.thread, encode);
    ConversationGrows(seen, log, session.thread, encode);
    var cursor := session.Cursor();
    A.HeldInLog(session.events, Conversation(seen, session.thread, encode), cursor);
    A.EarlierLog(session.events, Conversation(seen, session.thread, encode), conversation);
    var stored := server.EventsAfter(session.thread, cursor);
    AnswerIsTheRest(log, session.thread, encode, cursor);
    session.Fill(Wired(encode, stored, cursor), conversation, cursor);
  }
}
