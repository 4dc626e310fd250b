/** The server's conversation log: `agent_events`, `agent_event_keys` and `agent_threads`.
    One row per (thread, sequence); the next sequence is one more than the largest stored,
    and a keyed append that finds its key returns the stored row instead of writing. */
module EventLog {
  import opened Wrappers

  type ThreadId = nat
  datatype Provider = OpenAI | Local | Codex
  datatype Event<D> = Event(thread: ThreadId, provider: Provider, data: D)

  datatype LogError = UnsupportedRuntime | RuntimeSelection | ForeignKey

  datatype Log<!K, D> = Log(
    threads: map<ThreadId, Provider>,
    rows: map<(ThreadId, nat), Event<D>>,
    keys: map<K, (ThreadId, nat)>)

  function Empty<K, D>(): Log<K, D> { Log(map[], map[], map[]) }

  /** `COALESCE(MAX(sequence), 0)` over the rows of one thread. */
  ghost function Last<K, D>(log: Log<K, D>, thread: ThreadId): (n: nat)
    ensures n == 0 || (thread, n) in log.rows
    ensures forall k: nat :: (thread, k) in log.rows ==> k <= n
  {
    MaxRow(log.rows, thread, log.rows.Keys)
  }

  ghost function MaxRow<D>(rows: map<(ThreadId, nat), Event<D>>, thread: ThreadId, among: set<(ThreadId, nat)>): (n: nat)
    requires among <= rows.Keys
    ensures n == 0 || (thread, n) in among
    ensures forall k: nat :: (thread, k) in among ==> k <= n
  {
    if among == {} then 0
    else
      var row: (ThreadId, nat) :| row in among;
      var rest := MaxRow(rows, thread, among - {row});
      if row.0 == thread && rest < row.1 then row.1 else rest
  }

  /** `create_thread`: only OpenAI conversations are created, and an existing one keeps its provider. */
  function WithThread<K, D>(log: Log<K, D>, thread: ThreadId, provider: Provider): Result<Log<K, D>, LogError> {
    if thread !in log.threads then
      if provider == OpenAI then Success(log.(threads := log.threads[thread := provider])) else Failure(UnsupportedRuntime)
    else if log.threads[thread] != provider then Failure(RuntimeSelection)
    else Success(log)
  }

  /** `_append`: the new log and the sequence the event is stored under. */
  ghost function Appended<K, D>(log: Log<K, D>, event: Event<D>, key: Option<K>): Result<(Log<K, D>, nat), LogError>
  {
    match WithThread(log, event.thread, event.provider)
    case Failure(e) => Failure(e)
    case Success(bound) =>
      if key.Some? && key.value in bound.keys && bound.keys[key.value] in bound.rows then
        var row := bound.keys[key.value];
        if row.0 != event.thread then Failure(ForeignKey) else Success((bound, row.1))
      else
        var sequence := Last(bound, event.thread) + 1;
        var row := (event.thread, sequence);
        Success((bound.(rows := bound.rows[row := event],
                         keys := if key.Some? then bound.keys[key.value := row] else bound.keys), sequence))
  }

  /** `events(thread, after)`: the stored events past a cursor, in order. */
  ghost function Events<K, D>(log: Log<K, D>, thread: ThreadId, after: nat): seq<Event<D>>
    requires GapFree(log)
  {
    var n := Last(log, thread);
    if after >= n then [] else seq(n - after, i requires 0 <= i < n - after => log.rows[(thread, after + 1 + i)])
  }

  /** Per thread the stored sequences are exactly 1..n. */
  ghost predicate GapFree<K, D>(log: Log<K, D>) {
    && (forall thread: ThreadId, k: nat :: (thread, k) in log.rows <==> 1 <= k <= Last(log, thread))
    && (forall row :: row in log.rows ==> log.rows[row].thread == row.0)
  }

  /** Every key names a stored row, and no two keys name the same one. */
  ghost predicate KeysSound<K, D>(log: Log<K, D>) {
    && (forall k :: k in log.keys ==> log.keys[k] in log.rows)
    && (forall k, l :: k in log.keys && l in log.keys && k != l ==> log.keys[k] != log.keys[l])
  }

  ghost predicate Valid<K, D>(log: Log<K, D>) {
    GapFree(log) && KeysSound(log)
  }

  /** The largest sequence is determined by which rows are stored. */
  lemma LastIs<K, D>(log: Log<K, D>, thread: ThreadId, n: nat)
    requires n == 0 || (thread, n) in log.rows
    requires forall k: nat :: (thread, k) in log.rows ==> k <= n
    ensures Last(log, thread) == n
  {
  }

  /** Inserting the next row keeps the sequences gapless. */
  lemma InsertKeepsGapFree<K, D>(log: Log<K, D>, after: Log<K, D>, event: Event<D>)
    requires GapFree(log)
    requires after.rows == log.rows[(event.thread, Last(log, event.thread) + 1) := event]
    ensures GapFree(after)
    ensures Last(after, event.thread) == Last(log, event.thread) + 1
    ensures forall t: ThreadId :: t != event.thread ==> Last(after, t) == Last(log, t)
  {
    LastIs(after, event.thread, Last(log, event.thread) + 1);
    forall t: ThreadId | t != event.thread ensures Last(after, t) == Last(log, t) {
      LastIs(after, t, Last(log, t));
    }
    forall thread: ThreadId, k: nat ensures (thread, k) in after.rows <==> 1 <= k <= Last(after, thread) {
      assert (thread, k) in log.rows <==> 1 <= k <= Last(log, thread);
    }
  }

  lemma SameRowsGapFree<K, D>(log: Log<K, D>, after: Log<K, D>)
    requires GapFree(log) && after.rows == log.rows
    ensures GapFree(after)
  {
    forall t: ThreadId ensures Last(after, t) == Last(log, t) {
      LastIs(after, t, Last(log, t));
    }
  }

  /** What one append does to the tables: nothing when the key is stored, otherwise the next row. */
  ghost predicate Extends<K, D>(log: Log<K, D>, after: Log<K, D>, event: Event<D>, key: Option<K>, sequence: nat) {
    if key.Some? && key.value in log.keys
    then after.rows == log.rows && after.keys == log.keys && log.keys[key.value] == (event.thread, sequence)
    else && sequence == Last(log, event.thread) + 1
         && (event.thread, sequence) !in log.rows
         && after.rows == log.rows[(event.thread, sequence) := event]
         && after.keys == if key.Some? then log.keys[key.value := (event.thread, sequence)] else log.keys
  }

  lemma AppendExtends<K, D>(log: Log<K, D>, event: Event<D>, key: Option<K>)
    requires Valid(log)
    requires Appended(log, event, key).Success?
    ensures Extends(log, Appended(log, event, key).value.0, event, key, Appended(log, event, key).value.1)
  {
    var bound := WithThread(log, event.thread, event.provider).value;
    LastIs(bound, event.thread, Last(log, event.thread));
  }

  /** Rows and keys are only ever added. */
  ghost predicate Grows<K, D>(log: Log<K, D>, after: Log<K, D>) {
    && (forall row :: row in log.rows ==> row in after.rows && after.rows[row] == log.rows[row])
    && (forall k :: k in log.keys ==> k in after.keys && after.keys[k] == log.keys[k])
  }

  lemma ExtendsKeepsGapFree<K, D>(log: Log<K, D>, after: Log<K, D>, event: Event<D>, key: Option<K>, sequence: nat)
    requires GapFree(log) && Extends(log, after, event, key, sequence)
    ensures GapFree(after)
  {
    if key.Some? && key.value in log.keys {
      SameRowsGapFree(log, after);
    } else {
      InsertKeepsGapFree(log, after, event);
    }
  }

  lemma ExtendsKeepsKeys<K, D>(log: Log<K, D>, after: Log<K, D>, event: Event<D>, key: Option<K>, sequence: nat)
    requires KeysSound(log) && Extends(log, after, event, key, sequence)
    ensures KeysSound(after)
  {
  }

  lemma ExtendsGrows<K, D>(log: Log<K, D>, after: Log<K, D>, event: Event<D>, key: Option<K>, sequence: nat)
    requires Extends(log, after, event, key, sequence)
    ensures Grows(log, after)
    ensures key.Some? ==> key.value in after.keys && after.keys[key.value] == (event.thread, sequence)
  {
  }

  /** One append keeps the sequences gapless and the keys injective; it never rewrites a row and
      never forgets a key, and a keyed append leaves its key naming the stored row. */
  lemma AppendKeepsLog<K, D>(log: Log<K, D>, event: Event<D>, key: Option<K>)
    requires Valid(log)
    requires Appended(log, event, key).Success?
    ensures var (after, sequence) := Appended(log, event, key).value;
      && Valid(after) && Grows(log, after)
      && (key.Some? ==> key.value in after.keys && after.keys[key.value] == (event.thread, sequence))
  {
    AppendExtends(log, event, key);
    var (after, sequence) := Appended(log, event, key).value;
    ExtendsKeepsGapFree(log, after, event, key, sequence);
    ExtendsKeepsKeys(log, after, event, key, sequence);
    ExtendsGrows(log, after, event, key, sequence);
  }

  /** A keyed append repeated finds its key: it returns the same sequence and changes nothing. */
  lemma KeyedAppendIsIdempotent<K, D>(log: Log<K, D>, event: Event<D>, again: Event<D>, key: K)
    requires Valid(log)
    requires Appended(log, event, Some(key)).Success?
    requires again.thread == event.thread && again.provider == event.provider
    ensures var (after, sequence) := Appended(log, event, Some(key)).value;
            Appended(after, again, Some(key)) == Success((after, sequence))
  {
    AppendKeepsLog(log, event, Some(key));
  }

  /** `events` after `k` is the tail of the whole thread: replaying from a cursor loses nothing. */
  lemma EventsAfterIsSuffix<K, D>(log: Log<K, D>, thread: ThreadId, after: nat)
    requires GapFree(log)
    ensures |Events(log, thread, 0)| == Last(log, thread)
    ensures Events(log, thread, after) ==
            if after <= Last(log, thread) then Events(log, thread, 0)[after..] else []
    ensures forall i :: 0 <= i < |Events(log, thread, 0)| ==> Events(log, thread, 0)[i] == log.rows[(thread, i + 1)]
  {
  }

  /** `PostgresConversationRepository`: each method is one write unit over the three tables. */
  class ConversationRepository<K(==,!new), D(!new)> {
    var threads: map<ThreadId, Provider>
    var rows: map<(ThreadId, nat), Event<D>>
    var keys: map<K, (ThreadId, nat)>

    ghost function Snapshot(): Log<K, D>
      reads this
    {
      Log(threads, rows, keys)
    }

    constructor ()
      ensures Snapshot() == Empty()
    {
      threads, rows, keys := map[], map[], map[];
    }

    method CreateThread(thread: ThreadId, provider: Provider) returns (error: Option<LogError>)
      modifies this
      ensures match WithThread(old(Snapshot()), thread, provider)
              case Success(log) => error == None && Snapshot() == log
              case Failure(e) => error == Some(e) && Snapshot() == old(Snapshot())
    {
      if thread !in threads {
        if provider != OpenAI { return Some(UnsupportedRuntime); }
        threads := threads[thread := provider];
      } else if threads[thread] != provider {
        return Some(RuntimeSelection);
      }
      return None;
    }

    /** `SELECT COALESCE(MAX(sequence), 0) + 1`. */
    method NextSequence(thread: ThreadId) returns (next: nat)
      ensures next == Last(Snapshot(), thread) + 1
    {
      var largest := 0;
      var left := rows.Keys;
      while left != {}
        invariant left <= rows.Keys
        invariant largest == 0 || (thread, largest) in rows
        invariant forall row :: row in rows && row !in left && row.0 == thread ==> row.1 <= largest
        decreases left
      {
        var row :| row in left;
        if row.0 == thread && row.1 > largest { largest := row.1; }
        left := left - {row};
      }
      LastIs(Snapshot(), thread, largest);
      next := largest + 1;
    }

    method Append(event: Event<D>, key: Option<K>) returns (result: Result<nat, LogError>)
      modifies this
      ensures match Appended(old(Snapshot()), event, key)
              case Success(pair) => result == Success(pair.1) && Snapshot() == pair.0
              case Failure(e) => result == Failure(e) && rows == old(rows) && keys == old(keys)
    {
      var refused := CreateThread(event.thread, event.provider);
      if refused.Some? { return Failure(refused.value); }
      if key.Some? && key.value in keys && keys[key.value] in rows {
        var stored := keys[key.value];
        if stored.0 != event.thread { return Failure(ForeignKey); }
        return Success(stored.1);
      }
      var sequence := NextSequence(event.thread);
      rows := rows[(event.thread, sequence) := event];
      if key.Some? { keys := keys[key.value := (event.thread, sequence)]; }
      return Success(sequence);
    }

    /** `events(thread, after=...)`. */
    method EventsAfter(thread: ThreadId, after: nat) returns (events: seq<Event<D>>)
      requires GapFree(Snapshot())
      ensures events == Events(Snapshot(), thread, after)
    {
      ghost var n := Last(Snapshot(), thread);
      events := [];
      while (thread, after + 1 + |events|) in rows
        invariant |events| <= |Events(Snapshot(), thread, after)|
        invariant events == Events(Snapshot(), thread, after)[..|events|]
        decreases n - (after + |events|)
      {
        events := events + [rows[(thread, after + 1 + |events|)]];
      }
    }
  }
}
