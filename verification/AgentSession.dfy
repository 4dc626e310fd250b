/** The client's copy of a conversation (`ui/src/agentSession.ts`): events arrive in any order and with
    gaps, and a cursor over the contiguous prefix makes the next poll fill them. */
module AgentSession {
  import opened Wrappers

  type ThreadId = nat
  type ExecutionId = nat

  /** Stored events have positive sequences; a local echo of a message being sent has a negative one. */
  datatype Event = Event(sequence: int, thread: ThreadId, userMessage: bool, execution: ExecutionId, data: nat)

  /** The server's log of one thread. */
  ghost predicate ServerLog(log: seq<Event>, thread: ThreadId) {
    forall i :: 0 <= i < |log| ==> log[i].sequence == i + 1 && log[i].thread == thread
  }

  // ----- receive -----

  function Positives(events: seq<Event>): seq<Event> {
    if events == [] then [] else (if events[0].sequence > 0 then [events[0]] else []) + Positives(events[1..])
  }

  function Negatives(events: seq<Event>): seq<Event> {
    if events == [] then [] else (if events[0].sequence < 0 then [events[0]] else []) + Negatives(events[1..])
  }

  /** `sort((a, b) => a.sequence - b.sequence)`, stable. */
  function Insert(event: Event, sorted: seq<Event>): seq<Event> {
    if sorted == [] then [event]
    else if event.sequence < sorted[0].sequence then [event] + sorted
    else [sorted[0]] + Insert(event, sorted[1..])
  }

  function Sorted(events: seq<Event>): seq<Event>
    decreases |events|
  {
    if events == [] then [] else Insert(events[|events| - 1], Sorted(events[..|events| - 1]))
  }

  predicate IsEchoOf(item: Event, event: Event, echo: Option<int>) {
    event.userMessage && item.sequence < 0 && (echo == Some(item.sequence) || item.execution == event.execution)
  }

  function WithoutEchoes(events: seq<Event>, event: Event, echo: Option<int>): seq<Event> {
    if events == [] then []
    else (if IsEchoOf(events[0], event, echo) then [] else [events[0]]) + WithoutEchoes(events[1..], event, echo)
  }

  predicate Holds(events: seq<Event>, sequence: int) {
    exists i :: 0 <= i < |events| && events[i].sequence == sequence
  }

  /** The events held after receiving one more. */
  function Received(events: seq<Event>, event: Event, echo: Option<int>): seq<Event> {
    var kept := WithoutEchoes(events, event, echo);
    var pushed := if Holds(kept, event.sequence) then kept else kept + [event];
    Sorted(Positives(pushed)) + Negatives(pushed)
  }

  // ----- the shape of what is held -----

  predicate Ascending(events: seq<Event>) {
    forall i, j :: 0 <= i < j < |events| ==> events[i].sequence < events[j].sequence
  }

  predicate AllPositive(events: seq<Event>) {
    forall i :: 0 <= i < |events| ==> events[i].sequence > 0
  }

  predicate AllNegative(events: seq<Event>) {
    forall i :: 0 <= i < |events| ==> events[i].sequence < 0
  }

  /** Stored events first, ascending and duplicate-free, then the echoes. */
  predicate WellOrdered(events: seq<Event>) {
    && Ascending(Positives(events))
    && events == Positives(events) + Negatives(events)
  }

  predicate InLog(event: Event, log: seq<Event>) {
    event.sequence > 0 ==> event.sequence <= |log| && event == log[event.sequence - 1]
  }

  /** Every stored event held is the server's. */
  ghost predicate FromLog(events: seq<Event>, log: seq<Event>) {
    forall i :: 0 <= i < |events| ==> InLog(events[i], log)
  }

  lemma {:induction false} PositivesArePositive(events: seq<Event>)
    ensures AllPositive(Positives(events)) && AllNegative(Negatives(events))
  {
    if events != [] { PositivesArePositive(events[1..]); }
  }

  lemma {:induction false} SplitBySign(one: seq<Event>, two: seq<Event>)
    ensures Positives(one + two) == Positives(one) + Positives(two)
    ensures Negatives(one + two) == Negatives(one) + Negatives(two)
  {
    if one == [] {
      assert one + two == two;
    } else {
      var both := one + two;
      assert both[1..] == one[1..] + two && both[0] == one[0];
      SplitBySign(one[1..], two);
      assert Positives(both) == Positives(one) + Positives(two);
      assert Negatives(both) == Negatives(one) + Negatives(two);
    }
  }

  lemma {:induction false} SignedOnly(events: seq<Event>)
    ensures AllPositive(events) ==> Positives(events) == events && Negatives(events) == []
    ensures AllNegative(events) ==> Negatives(events) == events && Positives(events) == []
  {
    if events != [] { SignedOnly(events[1..]); }
  }

  lemma {:induction false} EchoesKeepPositives(events: seq<Event>, event: Event, echo: Option<int>)
    ensures Positives(WithoutEchoes(events, event, echo)) == Positives(events)
  {
    if events != [] {
      EchoesKeepPositives(events[1..], event, echo);
      SplitBySign(if IsEchoOf(events[0], event, echo) then [] else [events[0]], WithoutEchoes(events[1..], event, echo));
      SignedOnly([events[0]]);
    }
  }

  lemma {:induction false} HoldsPositive(events: seq<Event>, sequence: int)
    requires sequence > 0
    ensures Holds(events, sequence) <==> Holds(Positives(events), sequence)
  {
    if events != [] {
      HoldsPositive(events[1..], sequence);
      var head := if events[0].sequence > 0 then [events[0]] else [];
      HoldsAppend([events[0]], events[1..], sequence);
      HoldsAppend(head, Positives(events[1..]), sequence);
      assert [events[0]] + events[1..] == events;
      assert Holds([events[0]], sequence) <==> events[0].sequence == sequence by {
        if events[0].sequence == sequence { assert [events[0]][0].sequence == sequence; }
      }
      assert Holds(head, sequence) <==> events[0].sequence == sequence by {
        if events[0].sequence == sequence { assert head[0].sequence == sequence; }
      }
    }
  }

  lemma HoldsAppend(one: seq<Event>, two: seq<Event>, sequence: int)
    ensures Holds(one + two, sequence) <==> Holds(one, sequence) || Holds(two, sequence)
  {
    var all := one + two;
    if Holds(one, sequence) {
      var i :| 0 <= i < |one| && one[i].sequence == sequence;
      assert all[i].sequence == sequence;
    }
    if Holds(two, sequence) {
      var i :| 0 <= i < |two| && two[i].sequence == sequence;
      assert all[|one| + i].sequence == sequence;
    }
  }

  // ----- sorting -----

  lemma {:induction false} InsertAdds(event: Event, sorted: seq<Event>)
    ensures |Insert(event, sorted)| == |sorted| + 1
    ensures multiset(Insert(event, sorted)) == multiset(sorted) + multiset{event}
  {
    if sorted != [] && event.sequence >= sorted[0].sequence {
      InsertAdds(event, sorted[1..]);
      assert sorted == [sorted[0]] + sorted[1..];
    }
  }

  /** Inserting into an ascending list keeps it ascending and adds exactly the event. */
  lemma {:induction false} InsertSorts(event: Event, sorted: seq<Event>)
    requires Ascending(sorted) && !Holds(sorted, event.sequence)
    ensures Ascending(Insert(event, sorted))
    ensures multiset(Insert(event, sorted)) == multiset(sorted) + multiset{event}
  {
    InsertAdds(event, sorted);
    if sorted != [] {
      assert sorted[0].sequence != event.sequence;
      if event.sequence < sorted[0].sequence {
        InsertFront(event, sorted);
      } else {
        var tail := sorted[1..];
        forall i | 0 <= i < |tail| ensures tail[i].sequence != event.sequence { assert sorted[i + 1].sequence != event.sequence; }
        InsertSorts(event, tail);
        forall i | 0 <= i < |Insert(event, tail)| ensures sorted[0].sequence < Insert(event, tail)[i].sequence {
          InsertedMember(event, tail, i);
        }
        InsertFront(sorted[0], Insert(event, tail));
      }
    }
  }

  lemma InsertFront(event: Event, sorted: seq<Event>)
    requires Ascending(sorted)
    requires forall i :: 0 <= i < |sorted| ==> event.sequence < sorted[i].sequence
    ensures Ascending([event] + sorted)
  {
    var all := [event] + sorted;
    forall i, j | 0 <= i < j < |all| ensures all[i].sequence < all[j].sequence {
      assert all[j] == sorted[j - 1];
      if i > 0 { assert all[i] == sorted[i - 1]; }
    }
  }

  lemma InsertedMember(event: Event, sorted: seq<Event>, i: nat)
    requires i < |Insert(event, sorted)|
    requires multiset(Insert(event, sorted)) == multiset(sorted) + multiset{event}
    ensures Insert(event, sorted)[i] == event || Insert(event, sorted)[i] in sorted
  {
    assert Insert(event, sorted)[i] in multiset(Insert(event, sorted));
  }

  lemma {:induction false} InsertLast(event: Event, sorted: seq<Event>)
    requires forall i :: 0 <= i < |sorted| ==> sorted[i].sequence <= event.sequence
    ensures Insert(event, sorted) == sorted + [event]
  {
    if sorted != [] { InsertLast(event, sorted[1..]); }
  }

  /** Sorting what is already ascending changes nothing. */
  lemma {:induction false} SortedIsIdle(events: seq<Event>)
    requires Ascending(events)
    ensures Sorted(events) == events
    decreases |events|
  {
    if events != [] {
      var before := events[..|events| - 1];
      SortedIsIdle(before);
      InsertLast(events[|events| - 1], before);
    }
  }

  // ----- one event received -----

  /** The stored events after receiving one more. */
  function Stored(held: seq<Event>, event: Event): seq<Event> {
    if Holds(held, event.sequence) then held else Insert(event, held)
  }

  /** Receiving a stored event of this thread keeps the order, adds exactly that sequence, and never
      duplicates, drops or alters another stored event. */
  lemma ReceiveKeeps(events: seq<Event>, log: seq<Event>, event: Event, echo: Option<int>)
    requires WellOrdered(events) && FromLog(events, log)
    requires event.sequence > 0 && InLog(event, log)
    ensures WellOrdered(Received(events, event, echo)) && FromLog(Received(events, event, echo), log)
    ensures Positives(Received(events, event, echo)) == Stored(Positives(events), event)
    ensures forall k: int :: k > 0 ==> (Holds(Received(events, event, echo), k) <==> Holds(events, k) || k == event.sequence)
    ensures Negatives(Received(events, event, echo)) == WithoutEchoes(Negatives(events), event, echo)
  {
    var held, echoes := Positives(events), WithoutEchoes(Negatives(events), event, echo);
    PositivesArePositive(events);
    EchoesStayNegative(Negatives(events), event, echo);
    ReceivedForm(events, event, echo);
    StoredShape(held, event);
    PositivesFromLog(events, log);
    StoredFromLog(held, log, event);
    var stored := Stored(held, event);
    FormIsOrdered(stored, echoes);
    FormFromLog(stored, echoes, log);
    forall k: int | k > 0 ensures Holds(Received(events, event, echo), k) <==> Holds(events, k) || k == event.sequence {
      HoldsPositive(events, k);
      HoldsPositive(Received(events, event, echo), k);
      StoredHolds(held, event, k);
    }
  }

  /** What `receive` computes: the event is put in its place among the stored ones, and the echoes it
      answers are dropped. */
  lemma ReceivedForm(events: seq<Event>, event: Event, echo: Option<int>)
    requires event.sequence > 0 && Ascending(Positives(events))
    ensures Received(events, event, echo) == Stored(Positives(events), event) + WithoutEchoes(Negatives(events), event, echo)
  {
    var kept := WithoutEchoes(events, event, echo);
    var held := Positives(events);
    EchoesKeepPositives(events, event, echo);
    EchoesFilterNegatives(events, event, echo);
    HoldsPositive(kept, event.sequence);
    SplitBySign(kept, [event]);
    SignedOnly([event]);
    SortPushed(held, event);
    assert Negatives(kept) + [] == Negatives(kept);
  }

  lemma {:induction false} EchoesFilterNegatives(events: seq<Event>, event: Event, echo: Option<int>)
    ensures Negatives(WithoutEchoes(events, event, echo)) == WithoutEchoes(Negatives(events), event, echo)
  {
    if events != [] {
      var rest := events[1..];
      EchoesFilterNegatives(rest, event, echo);
      var head := if IsEchoOf(events[0], event, echo) then [] else [events[0]];
      SplitBySign(head, WithoutEchoes(rest, event, echo));
      SignedOnly([events[0]]);
      if events[0].sequence < 0 {
        assert ([events[0]] + Negatives(rest))[1..] == Negatives(rest);
      } else {
        assert [] + Negatives(rest) == Negatives(rest);
      }
    }
  }

  lemma {:induction false} EchoesStayNegative(echoes: seq<Event>, event: Event, echo: Option<int>)
    requires AllNegative(echoes)
    ensures AllNegative(WithoutEchoes(echoes, event, echo))
  {
    if echoes != [] { EchoesStayNegative(echoes[1..], event, echo); }
  }

  lemma FormIsOrdered(stored: seq<Event>, echoes: seq<Event>)
    requires Ascending(stored) && AllPositive(stored) && AllNegative(echoes)
    ensures Positives(stored + echoes) == stored && Negatives(stored + echoes) == echoes
    ensures WellOrdered(stored + echoes)
  {
    SplitBySign(stored, echoes);
    SignedOnly(stored);
    SignedOnly(echoes);
    assert stored + [] == stored && [] + echoes == echoes;
  }

  lemma FormFromLog(stored: seq<Event>, echoes: seq<Event>, log: seq<Event>)
    requires FromLog(stored, log) && AllNegative(echoes)
    ensures FromLog(stored + echoes, log)
  {
    var all := stored + echoes;
    forall i | 0 <= i < |all| ensures InLog(all[i], log) {
      if i < |stored| { assert all[i] == stored[i]; } else { assert all[i] == echoes[i - |stored|]; }
    }
  }

  lemma SortPushed(held: seq<Event>, event: Event)
    requires Ascending(held)
    ensures Sorted(held) == held
    ensures Sorted(held + [event]) == Insert(event, held)
  {
    SortedIsIdle(held);
    assert (held + [event])[..|held|] == held;
  }

  lemma StoredHolds(held: seq<Event>, event: Event, k: int)
    requires Ascending(held)
    ensures Holds(Stored(held, event), k) <==> Holds(held, k) || k == event.sequence
  {
    if !Holds(held, event.sequence) {
      var stored := Insert(event, held);
      InsertSorts(event, held);
      if Holds(held, k) {
        var i :| 0 <= i < |held| && held[i].sequence == k;
        assert held[i] in multiset(held) && held[i] in multiset(stored);
        assert held[i] in stored;
      }
      if k == event.sequence {
        assert event in multiset(stored) && event in stored;
      }
      if Holds(stored, k) {
        var i :| 0 <= i < |stored| && stored[i].sequence == k;
        InsertedMember(event, held, i);
      }
    }
  }

  lemma PositivesFromLog(events: seq<Event>, log: seq<Event>)
    requires events == Positives(events) + Negatives(events) && FromLog(events, log)
    ensures FromLog(Positives(events), log)
  {
    var held := Positives(events);
    forall i | 0 <= i < |held| ensures InLog(held[i], log) { assert held[i] == events[i]; }
  }

  lemma StoredShape(held: seq<Event>, event: Event)
    requires Ascending(held) && AllPositive(held) && event.sequence > 0
    ensures Ascending(Stored(held, event)) && AllPositive(Stored(held, event))
  {
    if !Holds(held, event.sequence) {
      InsertSorts(event, held);
      InsertKeepsSigns(event, held);
    }
  }

  lemma StoredFromLog(held: seq<Event>, log: seq<Event>, event: Event)
    requires Ascending(held) && FromLog(held, log) && InLog(event, log)
    ensures FromLog(Stored(held, event), log)
  {
    if !Holds(held, event.sequence) {
      InsertSorts(event, held);
      var stored := Insert(event, held);
      forall i | 0 <= i < |stored| ensures InLog(stored[i], log) { InsertedMember(event, held, i); }
    }
  }

  lemma {:induction false} InsertKeepsSigns(event: Event, sorted: seq<Event>)
    requires AllPositive(sorted) && event.sequence > 0
    ensures AllPositive(Insert(event, sorted))
  {
    if sorted != [] { InsertKeepsSigns(event, sorted[1..]); }
  }

  // ----- the session -----

  /** `cursor` is the greatest k such that 1..k are all held. */
  predicate IsCursor(events: seq<Event>, cursor: nat) {
    && HoldsAll(events, cursor)
    && !Holds(events, cursor + 1)
  }

  predicate HoldsAll(events: seq<Event>, n: int) {
    forall k: int :: 1 <= k <= n ==> Holds(events, k)
  }

  lemma NotBefore(events: seq<Event>, i: nat, j: nat)
    requires 0 < i <= |events| && j < |events| && events[j].sequence == i
    requires forall k :: 0 <= k < i - 1 ==> events[k].sequence == k + 1
    ensures j >= i - 1
  {
  }

  /** An ascending list holding every sequence up to n counts 1, 2, 3 and so on. */
  lemma {:induction false} Counts(events: seq<Event>, n: nat, i: nat)
    requires Ascending(events) && AllPositive(events) && HoldsAll(events, n)
    requires forall j :: 0 <= j < |events| ==> events[j].sequence <= n
    requires i <= |events|
    ensures forall j :: 0 <= j < i ==> events[j].sequence == j + 1
  {
    if i > 0 {
      Counts(events, n, i - 1);
      assert events[i - 1].sequence >= i by {
        if i > 1 { assert events[i - 2].sequence < events[i - 1].sequence; }
      }
      assert Holds(events, i);
      var j :| 0 <= j < |events| && events[j].sequence == i;
      NotBefore(events, i, j);
      assert events[i - 1].sequence <= events[j].sequence;
    }
  }

  lemma FullyHeld(events: seq<Event>, log: seq<Event>)
    requires Ascending(events) && AllPositive(events) && FromLog(events, log) && HoldsAll(events, |log|)
    ensures events == log
  {
    forall j | 0 <= j < |events| ensures events[j].sequence <= |log| { assert InLog(events[j], log); }
    Counts(events, |log|, |events|);
    if events != [] { assert events[|events| - 1].sequence == |events|; }
    assert !Holds(events, |events| + 1);
    forall j | 0 <= j < |events| ensures events[j] == log[j] { assert InLog(events[j], log); }
  }

  class Session {
    const thread: ThreadId
    var events: seq<Event>

    constructor (thread: ThreadId)
      ensures this.thread == thread && events == []
    {
      this.thread, events := thread, [];
    }

    /** `receive`. False: the event belongs to another conversation and nothing changed. */
    method Receive(event: Event, echo: Option<int>) returns (accepted: bool)
      modifies this
      ensures accepted <==> event.thread == thread
      ensures events == if accepted then Received(old(events), event, echo) else old(events)
    {
      if event.thread != thread { return false; }
      events := Received(events, event, echo);
      return true;
    }

    /** `cursor`: skip echoes and repeats, stop at the first gap. */
    method Cursor() returns (cursor: nat)
      requires WellOrdered(events)
      ensures IsCursor(events, cursor)
    {
      cursor := 0;
      var i := 0;
      PositivesArePositive(events);
      ghost var stored := |Positives(events)|;
      while i < |events|
        invariant 0 <= i <= |events|
        invariant forall k: int :: 1 <= k <= cursor ==> Holds(events, k)
        invariant forall j :: 0 <= j < i ==> events[j].sequence <= cursor
        invariant cursor > 0 ==> Holds(events, cursor)
        decreases |events| - i
      {
        var sequence := events[i].sequence;
        if sequence >= 1 && sequence > cursor {
          if sequence != cursor + 1 {
            forall j | i <= j < |events| ensures events[j].sequence != cursor + 1 {
              if i < j < stored { assert Positives(events)[i].sequence < Positives(events)[j].sequence; }
            }
            return;
          }
          assert Holds(events, cursor + 1);
          cursor := cursor + 1;
        }
        i := i + 1;
      }
    }

    /** One successful poll of `startWatching`: everything after the cursor, received in order. Whatever
        gaps there were, the stored events now are exactly the server's log at that snapshot, and the
        only echoes left were there before. */
    method Poll(ghost before: seq<Event>, log: seq<Event>) returns (cursor: nat)
      requires WellOrdered(events) && FromLog(events, before)
      requires ServerLog(log, thread) && before <= log
      modifies this
      ensures WellOrdered(events) && Positives(events) == log
      ensures IsCursor(old(events), cursor)
      ensures multiset(Negatives(events)) <= multiset(Negatives(old(events)))
    {
      cursor := Cursor();
      HeldInLog(events, before, cursor);
      EarlierLog(events, before, log);
      Fill(log[cursor..], log, cursor);
    }

    /** Receive what the server answers for everything after the cursor. */
    method Fill(answer: seq<Event>, ghost log: seq<Event>, ghost cursor: nat)
      requires WellOrdered(events) && FromLog(events, log) && ServerLog(log, thread)
      requires HoldsAll(events, cursor) && cursor <= |log| && answer == log[cursor..]
      modifies this
      ensures WellOrdered(events) && Positives(events) == log
      ensures multiset(Negatives(events)) <= multiset(Negatives(old(events)))
    {
      for i := 0 to |answer|
        invariant WellOrdered(events) && FromLog(events, log)
        invariant HoldsAll(events, cursor + i)
        invariant multiset(Negatives(events)) <= multiset(Negatives(old(events)))
      {
        assert answer[i] == log[cursor + i];
        ReceiveKeeps(events, log, answer[i], None);
        FewerEchoes(Negatives(events), answer[i], None);
        var accepted := Receive(answer[i], None);
      }
      AllHeld(events, log);
    }
  }

  lemma EarlierLog(events: seq<Event>, before: seq<Event>, log: seq<Event>)
    requires FromLog(events, before) && before <= log
    ensures FromLog(events, log)
  {
    forall i | 0 <= i < |events| ensures InLog(events[i], log) { assert InLog(events[i], before); }
  }

  lemma AllHeld(events: seq<Event>, log: seq<Event>)
    requires WellOrdered(events) && FromLog(events, log)
    requires HoldsAll(events, |log|)
    ensures Positives(events) == log
  {
    PositivesArePositive(events);
    PositivesFromLog(events, log);
    forall k: int | 1 <= k <= |log| ensures Holds(Positives(events), k) {
      assert Holds(events, k);
      HoldsPositive(events, k);
    }
    FullyHeld(Positives(events), log);
  }

  lemma {:induction false} FewerEchoes(events: seq<Event>, event: Event, echo: Option<int>)
    ensures multiset(WithoutEchoes(events, event, echo)) <= multiset(events)
  {
    if events != [] {
      FewerEchoes(events[1..], event, echo);
      assert events == [events[0]] + events[1..];
    }
  }

  lemma HeldInLog(events: seq<Event>, log: seq<Event>, cursor: nat)
    requires FromLog(events, log)
    requires HoldsAll(events, cursor)
    ensures cursor <= |log|
  {
    if cursor > 0 {
      assert Holds(events, cursor);
      var i :| 0 <= i < |events| && events[i].sequence == cursor;
    }
  }
}
