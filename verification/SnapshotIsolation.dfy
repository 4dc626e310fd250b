/** `db/postgres/connection.py`: units of work under REPEATABLE READ, where a row may be updated only
    if no unit committed a newer version since the snapshot, and a row lock is held until the end.
    Every write unit first updates one shared revision row. */
module SnapshotIsolation {
  import opened Wrappers

  type Row = nat
  // A row's columns; only the shared row uses its revision column.
  datatype Value = Cells(revision: int, columns: int)
  type Database = map<Row, Value>
  type UnitId = nat

  const REVISION: Row := 0

  /** What a write unit's statements write after reading its snapshot. */
  type Body = Database -> Database

  datatype Phase = Begun | Revised | Written
  datatype Unit = Reader(snapshot: nat) | Writer(snapshot: nat, body: Body, phase: Phase, writes: Database)

  datatype Server = Server(
    history: seq<Database>,         // committed states, oldest first
    lastWrite: map<Row, nat>,       // the commit that wrote each row's newest version
    locks: map<Row, UnitId>,
    units: map<UnitId, Unit>,
    committed: seq<UnitId>,         // write units in commit order
    bodies: seq<Body>)              // their bodies

  datatype Action =
    | BeginRead(u: UnitId)
    | BeginWrite(u: UnitId, body: Body)
    | Revise(u: UnitId)             // UPDATE pb_revision SET revision = revision + 1
    | WriteRow(u: UnitId, row: Row) // one later statement of the body
    | Finish(u: UnitId)             // the body has run to its end
    | Commit(u: UnitId)
    | Rollback(u: UnitId)

  function Initial(db: Database): Server {
    Server([db], map[], map[], map[], [], [])
  }

  predicate Fresh(s: Server, u: UnitId) {
    u !in s.units && u !in s.committed && (forall row :: row in s.locks ==> s.locks[row] != u)
  }

  function LastWrite(s: Server, row: Row): nat {
    if row in s.lastWrite then s.lastWrite[row] else 0
  }

  /** First updater wins: a newer committed version refuses with 40001, another lock makes us wait. */
  datatype Attempt = Granted | Waits | SerializationFailure

  function TryLock(s: Server, u: UnitId, row: Row): Attempt
    requires u in s.units
  {
    if row in s.locks && s.locks[row] != u then Waits
    else if LastWrite(s, row) > s.units[u].snapshot then SerializationFailure
    else Granted
  }

  function Unlock(locks: map<Row, UnitId>, u: UnitId): map<Row, UnitId> {
    map row | row in locks && locks[row] != u :: locks[row]
  }

  function RolledBack(s: Server, u: UnitId): Server {
    s.(locks := Unlock(s.locks, u), units := s.units - {u})
  }

  /** `UPDATE` of one row by a writer: lock it, remember the new value, or fail. */
  function Updated(s: Server, u: UnitId, row: Row, value: Value, phase: Phase): Server
    requires u in s.units && s.units[u].Writer?
  {
    match TryLock(s, u, row)
    case Waits => s
    case SerializationFailure => RolledBack(s, u)
    case Granted => s.(locks := s.locks[row := u],
                       units := s.units[u := s.units[u].(writes := s.units[u].writes[row := value], phase := phase)])
  }

  function Value0(db: Database, row: Row): Value {
    if row in db then db[row] else Cells(0, 0)
  }

  function Bumped(db: Database): Value {
    Value0(db, REVISION).(revision := Value0(db, REVISION).revision + 1)
  }

  /** What the body writes. Of the revision row it may write the other columns, such as the next part id. */
  function Effects(db: Database, body: Body): Database {
    var writes := body(db);
    if REVISION in writes then writes[REVISION := Bumped(db).(columns := writes[REVISION].columns)] else writes
  }

  predicate WrittenAs(writes: Database, effects: Database, row: Row) {
    row in effects ==> row in writes && writes[row] == effects[row]
  }

  predicate AllWritten(writes: Database, effects: Database) {
    forall row :: row in effects ==> WrittenAs(writes, effects, row)
  }

  function Next(s: Server, a: Action): Server
    requires s.history != []
  {
    match a
    case BeginRead(u) =>
      if Fresh(s, u) then s.(units := s.units[u := Reader(|s.history| - 1)]) else s
    case BeginWrite(u, body) =>
      if Fresh(s, u) then s.(units := s.units[u := Writer(|s.history| - 1, body, Begun, map[])]) else s
    case Revise(u) =>
      if u in s.units && s.units[u].Writer? && s.units[u].phase == Begun && s.units[u].snapshot < |s.history| then
        Updated(s, u, REVISION, Bumped(s.history[s.units[u].snapshot]), Revised)
      else s
    case WriteRow(u, row) =>
      if u in s.units && s.units[u].Writer? && s.units[u].phase == Revised && s.units[u].snapshot < |s.history|
         && row in Effects(s.history[s.units[u].snapshot], s.units[u].body) then
        Updated(s, u, row, Effects(s.history[s.units[u].snapshot], s.units[u].body)[row], Revised)
      else s
    case Finish(u) =>
      if u in s.units && s.units[u].Writer? && s.units[u].phase == Revised && s.units[u].snapshot < |s.history|
         && AllWritten(s.units[u].writes, Effects(s.history[s.units[u].snapshot], s.units[u].body)) then
        s.(units := s.units[u := s.units[u].(phase := Written)])
      else s
    case Commit(u) =>
      if u in s.units && s.units[u].Writer? && s.units[u].phase == Written then Committed(s, u)
      else if u in s.units && s.units[u].Reader? then RolledBack(s, u)
      else s
    case Rollback(u) => RolledBack(s, u)
  }

  /** A commit installs the unit's rows over whatever is committed by then. */
  function Committed(s: Server, u: UnitId): Server
    requires s.history != [] && u in s.units && s.units[u].Writer?
  {
    var unit := s.units[u];
    s.(history := s.history + [s.history[|s.history| - 1] + unit.writes],
       lastWrite := map row | row in s.lastWrite.Keys + unit.writes.Keys ::
                      if row in unit.writes then |s.history| else s.lastWrite[row],
       locks := Unlock(s.locks, u),
       units := s.units - {u},
       committed := s.committed + [u],
       bodies := s.bodies + [unit.body])
  }

  function Run(s: Server, actions: seq<Action>): (r: Server)
    requires s.history != []
    ensures r.history != []
    decreases |actions|
  {
    if actions == [] then s else Next(Run(s, actions[..|actions| - 1]), actions[|actions| - 1])
  }

  // ----- serial execution -----

  /** One write unit alone: bump the revision, then the body's effects. */
  function Alone(db: Database, body: Body): Database {
    db[REVISION := Bumped(db)] + Effects(db, body)
  }

  function Serially(db: Database, bodies: seq<Body>): Database
    decreases |bodies|
  {
    if bodies == [] then db else Alone(Serially(db, bodies[..|bodies| - 1]), bodies[|bodies| - 1])
  }

  /** A unit past its first update owns the revision row and has the newest state as its snapshot. */
  predicate UnitInv(s: Server, u: UnitId) {
    u in s.units ==>
      && s.units[u].snapshot < |s.history|
      && u !in s.committed
      && (s.units[u].Writer? && s.units[u].phase == Begun ==> s.units[u].writes == map[])
      && (s.units[u].Writer? && s.units[u].phase != Begun ==>
            var unit := s.units[u];
            var db := s.history[unit.snapshot];
            && REVISION in s.locks && s.locks[REVISION] == u
            && unit.snapshot == |s.history| - 1
            && unit.writes.Keys <= {REVISION} + Effects(db, unit.body).Keys
            && REVISION in unit.writes
            && (unit.writes[REVISION] == Bumped(db)
                || (REVISION in Effects(db, unit.body) && unit.writes[REVISION] == Effects(db, unit.body)[REVISION]))
            && (forall row :: row in unit.writes && row != REVISION ==> unit.writes[row] == Effects(db, unit.body)[row])
            && (unit.phase == Written ==> AllWritten(unit.writes, Effects(db, unit.body))))
  }

  /** Whoever locks anything owns the revision row. */
  predicate LockInv(s: Server, row: Row) {
    row in s.locks ==>
      && REVISION in s.locks && s.locks[row] == s.locks[REVISION]
      && s.locks[row] in s.units && s.units[s.locks[row]].Writer? && s.units[s.locks[row]].phase != Begun
  }

  predicate VersionInv(s: Server, row: Row) {
    LastWrite(s, row) < |s.history|
  }

  ghost predicate Prefix(s: Server, db: Database, i: nat) {
    i <= |s.bodies| && i < |s.history| ==> s.history[i] == Serially(db, s.bodies[..i])
  }

  ghost predicate Inv(s: Server, db: Database) {
    && |s.history| == |s.bodies| + 1 && |s.committed| == |s.bodies|
    && LastWrite(s, REVISION) == |s.history| - 1
    && (forall i :: Prefix(s, db, i))
    && (forall row :: VersionInv(s, row))
    && (forall row :: LockInv(s, row))
    && (forall u :: UnitInv(s, u))
  }

  /** What a finished unit installs is exactly what it would have done alone on the newest state. */
  lemma CommitIsSerial(s: Server, u: UnitId)
    requires s.history != [] && UnitInv(s, u) && u in s.units && s.units[u].Writer? && s.units[u].phase == Written
    ensures s.history[|s.history| - 1] + s.units[u].writes == Alone(s.history[|s.history| - 1], s.units[u].body)
  {
    var last := s.history[|s.history| - 1];
    var unit := s.units[u];
    var effects := Effects(last, unit.body);
    forall row | row in effects ensures unit.writes[row] == effects[row] { assert WrittenAs(unit.writes, effects, row); }
    assert unit.writes == map[REVISION := Bumped(last)] + effects;
  }

  lemma CommitHistory(s: Server, db: Database, u: UnitId, i: nat)
    requires Inv(s, db) && u in s.units && s.units[u].Writer? && s.units[u].phase == Written
    ensures Prefix(Committed(s, u), db, i)
  {
    var s' := Committed(s, u);
    assert UnitInv(s, u) && Prefix(s, db, i) && Prefix(s, db, |s.bodies|);
    if i <= |s.bodies| {
      assert s'.bodies[..i] == s.bodies[..i];
    } else if i == |s'.bodies| {
      CommitIsSerial(s, u);
      assert s'.bodies[..i] == s'.bodies && s'.bodies[..i - 1] == s.bodies && s.bodies[..|s.bodies|] == s.bodies;
    }
  }

  lemma CommitKept(s: Server, db: Database, u: UnitId)
    requires Inv(s, db) && u in s.units && s.units[u].Writer? && s.units[u].phase == Written
    ensures Inv(Committed(s, u), db)
  {
    var s' := Committed(s, u);
    assert UnitInv(s, u);
    forall i ensures Prefix(s', db, i) { CommitHistory(s, db, u, i); }
    forall row ensures VersionInv(s', row) { assert VersionInv(s, row); }
    forall row ensures LockInv(s', row) { assert LockInv(s, row); }
    forall v ensures UnitInv(s', v) { assert UnitInv(s, v); }
  }

  /** A statement the revised unit may run: the revision bump first, then rows of its body. */
  predicate Statement(s: Server, u: UnitId, row: Row, value: Value)
    requires u in s.units && s.units[u].Writer? && s.units[u].snapshot < |s.history|
  {
    var db := s.history[s.units[u].snapshot];
    if s.units[u].phase == Begun then row == REVISION && s.units[u].writes == map[] && value == Bumped(db)
    else s.units[u].phase == Revised && row in Effects(db, s.units[u].body) && value == Effects(db, s.units[u].body)[row]
  }

  lemma UpdateKept(s: Server, db: Database, u: UnitId, row: Row, value: Value)
    requires Inv(s, db) && u in s.units && s.units[u].Writer? && s.units[u].snapshot < |s.history|
    requires Statement(s, u, row, value)
    ensures Inv(Updated(s, u, row, value, Revised), db)
  {
    var s' := Updated(s, u, row, value, Revised);
    assert UnitInv(s, u) && LockInv(s, row) && LockInv(s, REVISION) && VersionInv(s, REVISION);
    forall i ensures Prefix(s', db, i) { assert Prefix(s, db, i); }
    forall r ensures VersionInv(s', r) { assert VersionInv(s, r); }
    forall r ensures LockInv(s', r) { assert LockInv(s, r); }
    forall v ensures UnitInv(s', v) { assert UnitInv(s, v); }
  }

  lemma RollbackKept(s: Server, db: Database, u: UnitId)
    requires Inv(s, db)
    ensures Inv(RolledBack(s, u), db)
  {
    var s' := RolledBack(s, u);
    forall i ensures Prefix(s', db, i) { assert Prefix(s, db, i); }
    forall row ensures VersionInv(s', row) { assert VersionInv(s, row); }
    forall row ensures LockInv(s', row) { assert LockInv(s, row) && LockInv(s, REVISION); }
    forall v ensures UnitInv(s', v) { assert UnitInv(s, v); }
  }

  lemma UnitsKept(s: Server, db: Database, u: UnitId, unit: Unit)
    requires Inv(s, db)
    requires UnitInv(s.(units := s.units[u := unit]), u)
    requires u in s.units && s.units[u].Writer? ==> unit.Writer? && (s.units[u].phase != Begun ==> unit.phase != Begun)
    requires u !in s.units ==> Fresh(s, u)
    requires u in s.units ==> s.units[u].Writer?
    ensures Inv(s.(units := s.units[u := unit]), db)
  {
    var s' := s.(units := s.units[u := unit]);
    forall i ensures Prefix(s', db, i) { assert Prefix(s, db, i); }
    forall row ensures VersionInv(s', row) { assert VersionInv(s, row); }
    forall row ensures LockInv(s', row) { assert LockInv(s, row); }
    forall v ensures UnitInv(s', v) { assert UnitInv(s, v); }
  }

  lemma NextKept(s: Server, db: Database, a: Action)
    requires Inv(s, db)
    ensures Inv(Next(s, a), db)
  {
    match a
    case BeginRead(u) => if Fresh(s, u) { UnitsKept(s, db, u, Reader(|s.history| - 1)); }
    case BeginWrite(u, body) => if Fresh(s, u) { UnitsKept(s, db, u, Writer(|s.history| - 1, body, Begun, map[])); }
    case Revise(u) =>
      if u in s.units && s.units[u].Writer? && s.units[u].phase == Begun && s.units[u].snapshot < |s.history| {
        assert UnitInv(s, u);
        UpdateKept(s, db, u, REVISION, Bumped(s.history[s.units[u].snapshot]));
      }
    case WriteRow(u, row) =>
      if u in s.units && s.units[u].Writer? && s.units[u].phase == Revised && s.units[u].snapshot < |s.history|
         && row in Effects(s.history[s.units[u].snapshot], s.units[u].body) {
        UpdateKept(s, db, u, row, Effects(s.history[s.units[u].snapshot], s.units[u].body)[row]);
      }
    case Finish(u) =>
      if u in s.units && s.units[u].Writer? && s.units[u].phase == Revised && s.units[u].snapshot < |s.history|
         && AllWritten(s.units[u].writes, Effects(s.history[s.units[u].snapshot], s.units[u].body)) {
        assert UnitInv(s, u);
        UnitsKept(s, db, u, s.units[u].(phase := Written));
      }
    case Commit(u) =>
      if u in s.units && s.units[u].Writer? && s.units[u].phase == Written {
        CommitKept(s, db, u);
      } else if u in s.units && s.units[u].Reader? {
        RollbackKept(s, db, u);
      }
    case Rollback(u) => RollbackKept(s, db, u);
  }

  lemma {:induction false} RunKept(db: Database, actions: seq<Action>)
    ensures Inv(Run(Initial(db), actions), db)
    decreases |actions|
  {
    if actions == [] {
    } else {
      RunKept(db, actions[..|actions| - 1]);
      NextKept(Run(Initial(db), actions[..|actions| - 1]), db, actions[|actions| - 1]);
    }
  }

  // ----- the promises -----

  /** Every committed history is the serial execution of the write units in revision order. */
  lemma CommitsAreSerial(db: Database, actions: seq<Action>, i: nat)
    requires i < |Run(Initial(db), actions).history|
    ensures i <= |Run(Initial(db), actions).bodies|
    ensures Run(Initial(db), actions).history[i] == Serially(db, Run(Initial(db), actions).bodies[..i])
  {
    RunKept(db, actions);
    assert Prefix(Run(Initial(db), actions), db, i);
  }

  lemma {:induction false} RevisionCounts(db: Database, bodies: seq<Body>)
    ensures Value0(Serially(db, bodies), REVISION).revision == Value0(db, REVISION).revision + |bodies|
    decreases |bodies|
  {
    if bodies != [] { RevisionCounts(db, bodies[..|bodies| - 1]); }
  }

  /** The revision of a committed state is its place in that order. */
  lemma RevisionIsTheOrder(db: Database, actions: seq<Action>, i: nat)
    requires i < |Run(Initial(db), actions).history|
    ensures Value0(Run(Initial(db), actions).history[i], REVISION).revision == Value0(db, REVISION).revision + i
  {
    CommitsAreSerial(db, actions, i);
    RevisionCounts(db, Run(Initial(db), actions).bodies[..i]);
  }

  /** A unit of either kind reads the state after some prefix of the committed write units. */
  lemma SnapshotIsAPrefix(db: Database, actions: seq<Action>, u: UnitId)
    requires u in Run(Initial(db), actions).units
    ensures var s := Run(Initial(db), actions);
            s.units[u].snapshot <= |s.bodies| && s.units[u].snapshot < |s.history|
            && s.history[s.units[u].snapshot] == Serially(db, s.bodies[..s.units[u].snapshot])
  {
    RunKept(db, actions);
    assert UnitInv(Run(Initial(db), actions), u);
    CommitsAreSerial(db, actions, Run(Initial(db), actions).units[u].snapshot);
  }

  /** Once the revision row is updated, no later statement of the unit waits or fails. */
  lemma RevisedUnitNeverFails(db: Database, actions: seq<Action>, u: UnitId, row: Row)
    requires var s := Run(Initial(db), actions); u in s.units && s.units[u].Writer? && s.units[u].phase != Begun
    ensures TryLock(Run(Initial(db), actions), u, row) == Granted
  {
    var s := Run(Initial(db), actions);
    RunKept(db, actions);
    assert UnitInv(s, u) && LockInv(s, row) && VersionInv(s, row);
  }

  // ----- why the revision row is needed -----

  /** A unit that reads two rows and takes from one: alone, the second of two such units sees the first. */
  function TakeOne(row: Row, other: Row): Body {
    (db: Database) =>
      if Value0(db, row).columns + Value0(db, other).columns >= 1 then map[row := Cells(0, Value0(db, row).columns - 1)] else map[]
  }

  /** The same server, but a write unit starts without updating the revision row. */
  function NextBare(s: Server, a: Action): Server
    requires s.history != []
  {
    match a
    case BeginWrite(u, body) =>
      if Fresh(s, u) then s.(units := s.units[u := Writer(|s.history| - 1, body, Revised, map[])]) else s
    case Revise(_) => s
    case _ => Next(s, a)
  }

  function RunBare(s: Server, actions: seq<Action>): (r: Server)
    requires s.history != []
    ensures r.history != []
    decreases |actions|
  {
    if actions == [] then s else NextBare(RunBare(s, actions[..|actions| - 1]), actions[|actions| - 1])
  }

  lemma {:induction false} BareSnoc(s: Server, before: seq<Action>, a: Action)
    requires s.history != []
    ensures RunBare(s, before + [a]) == NextBare(RunBare(s, before), a)
  {
    assert (before + [a])[..|before|] == before;
  }

  /** One unit left in two rows, and two units that each take one if there is one. */
  const SHARED: Database := map[1 := Cells(0, 1), 2 := Cells(0, 0)]

  lemma Takes(row: Row, other: Row)
    requires (row == 1 && other == 2) || (row == 2 && other == 1)
    ensures Effects(SHARED, TakeOne(row, other)) == map[row := Cells(0, SHARED[row].columns - 1)]
  {
  }

  lemma SkewBegins() returns (actions: seq<Action>, s: Server)
    ensures s == RunBare(Initial(SHARED), actions)
    ensures s.history == [SHARED] && s.lastWrite == map[] && s.locks == map[] && s.committed == []
    ensures s.units == map[1 := Writer(0, TakeOne(1, 2), Revised, map[]), 2 := Writer(0, TakeOne(2, 1), Revised, map[])]
  {
    var one, two := BeginWrite(1, TakeOne(1, 2)), BeginWrite(2, TakeOne(2, 1));
    BareSnoc(Initial(SHARED), [], one);
    BareSnoc(Initial(SHARED), [one], two);
    assert [] + [one] == [one];
    actions := [one] + [two];
    s := RunBare(Initial(SHARED), actions);
  }

  lemma SkewWrites() returns (actions: seq<Action>, s: Server)
    ensures s == RunBare(Initial(SHARED), actions)
    ensures s.history == [SHARED] && s.committed == []
    ensures s.units == map[1 := Writer(0, TakeOne(1, 2), Revised, map[1 := Cells(0, 0)]),
                           2 := Writer(0, TakeOne(2, 1), Revised, map[2 := Cells(0, -1)])]
  {
    actions, s := SkewBegins();
    Takes(1, 2);
    Takes(2, 1);
    BareSnoc(Initial(SHARED), actions, WriteRow(1, 1));
    actions := actions + [WriteRow(1, 1)];
    s := NextBare(s, WriteRow(1, 1));
    assert s.locks == map[1 := 1] && s.lastWrite == map[];
    BareSnoc(Initial(SHARED), actions, WriteRow(2, 2));
    actions := actions + [WriteRow(2, 2)];
    s := NextBare(s, WriteRow(2, 2));
  }

  lemma SkewFinishes() returns (actions: seq<Action>, s: Server)
    ensures s == RunBare(Initial(SHARED), actions)
    ensures s.history == [SHARED]
    ensures s.units == map[1 := Writer(0, TakeOne(1, 2), Written, map[1 := Cells(0, 0)]),
                           2 := Writer(0, TakeOne(2, 1), Written, map[2 := Cells(0, -1)])]
  {
    actions, s := SkewWrites();
    Takes(1, 2);
    Takes(2, 1);
    BareSnoc(Initial(SHARED), actions, Finish(1));
    actions := actions + [Finish(1)];
    s := NextBare(s, Finish(1));
    BareSnoc(Initial(SHARED), actions, Finish(2));
    actions := actions + [Finish(2)];
    s := NextBare(s, Finish(2));
  }

  lemma SkewCommits() returns (actions: seq<Action>)
    ensures var s := RunBare(Initial(SHARED), actions);
            |s.history| == 3 && s.history[2] == map[1 := Cells(0, 0), 2 := Cells(0, -1)]
  {
    var s;
    actions, s := SkewFinishes();
    BareSnoc(Initial(SHARED), actions, Commit(1));
    actions := actions + [Commit(1)];
    s := NextBare(s, Commit(1));
    BareSnoc(Initial(SHARED), actions, Commit(2));
    actions := actions + [Commit(2)];
    s := NextBare(s, Commit(2));
  }

  /** Neither order of the two units, one after the other, takes what was not there. */
  lemma SerialTakes(first: Row, second: Row)
    requires (first == 1 && second == 2) || (first == 2 && second == 1)
    ensures var db := SHARED + Effects(SHARED, TakeOne(first, second));
            Effects(db, TakeOne(second, first)) == map[]
  {
    Takes(first, second);
  }

  /** Without the update of the revision row, a run commits both units from one snapshot: they write
      different rows, so first-updater-wins never objects. The result is write skew, the outcome of
      neither serial order. */
  lemma WriteSkewWithoutRevision()
    ensures exists actions ::
              var s := RunBare(Initial(SHARED), actions);
              var one, two := TakeOne(1, 2), TakeOne(2, 1);
              && |s.history| == 3
              && s.history[2] != SHARED + Effects(SHARED, one) + Effects(SHARED + Effects(SHARED, one), two)
              && s.history[2] != SHARED + Effects(SHARED, two) + Effects(SHARED + Effects(SHARED, two), one)
  {
    var actions := SkewCommits();
    var s := RunBare(Initial(SHARED), actions);
    Takes(1, 2);
    Takes(2, 1);
    SerialTakes(1, 2);
    SerialTakes(2, 1);
    assert s.history[2][1].columns == 0 && s.history[2][2].columns == -1;
    assert (SHARED + Effects(SHARED, TakeOne(1, 2)))[2].columns == 0;
    assert (SHARED + Effects(SHARED, TakeOne(2, 1)))[1].columns == 1;
  }

  // ----- the retry rule -----

  function UnitOf(a: Action): UnitId {
    match a
    case BeginRead(u) => u
    case BeginWrite(u, _) => u
    case Revise(u) => u
    case WriteRow(u, _) => u
    case Finish(u) => u
    case Commit(u) => u
    case Rollback(u) => u
  }

  predicate Avoids(actions: seq<Action>, u: UnitId) {
    forall i :: 0 <= i < |actions| ==> UnitOf(actions[i]) != u
  }

  /** Other units neither commit nor disturb this one; locks it does not hold stay not its own. */
  lemma {:induction false} OthersKeepOut(s: Server, actions: seq<Action>, u: UnitId)
    requires s.history != [] && Avoids(actions, u)
    ensures var r := Run(s, actions);
            && (u in r.committed <==> u in s.committed)
            && (u in r.units <==> u in s.units) && (u in s.units ==> r.units[u] == s.units[u])
            && (Fresh(s, u) ==> Fresh(r, u))
    decreases |actions|
  {
    if actions != [] {
      OthersKeepOut(s, actions[..|actions| - 1], u);
      OtherKeepsOut(Run(s, actions[..|actions| - 1]), actions[|actions| - 1], u);
    }
  }

  lemma OtherKeepsOut(s: Server, a: Action, u: UnitId)
    requires s.history != [] && UnitOf(a) != u
    ensures var r := Next(s, a);
            && (u in r.committed <==> u in s.committed)
            && (u in r.units <==> u in s.units) && (u in s.units ==> r.units[u] == s.units[u])
            && (Fresh(s, u) ==> Fresh(r, u))
  {
  }

  lemma {:induction false} RunOnKept(s: Server, db: Database, actions: seq<Action>)
    requires Inv(s, db)
    ensures Inv(Run(s, actions), db)
    decreases |actions|
  {
    if actions != [] {
      RunOnKept(s, db, actions[..|actions| - 1]);
      NextKept(Run(s, actions[..|actions| - 1]), db, actions[|actions| - 1]);
    }
  }

  lemma EndKeepsFresh(s: Server, u: UnitId, v: UnitId)
    requires s.history != [] && v != u && Fresh(s, v)
    ensures Fresh(RolledBack(s, u), v)
    ensures u in s.units && s.units[u].Writer? ==> Fresh(Committed(s, u), v)
  {
  }

  /** BEGIN, with others running before the snapshot and again before the first statement. */
  method BeginUnit(start: Server, ghost db: Database, u: UnitId, body: Body, before: seq<Action>, during: seq<Action>)
    returns (s: Server)
    requires Inv(start, db) && Fresh(start, u) && Avoids(before, u) && Avoids(during, u)
    ensures Inv(s, db) && u in s.units && s.units[u].Writer? && s.units[u].phase == Begun && s.units[u].body == body
    ensures forall v :: v != u && Fresh(start, v) && Avoids(before, v) && Avoids(during, v) ==> Fresh(s, v)
  {
    s := Run(start, before);
    RunOnKept(start, db, before);
    OthersKeepOut(start, before, u);
    ghost var others := s;
    NextKept(s, db, BeginWrite(u, body));
    s := Next(s, BeginWrite(u, body));
    ghost var begun := s;
    s := Run(s, during);
    RunOnKept(begun, db, during);
    OthersKeepOut(begun, during, u);
    forall v | v != u && Fresh(start, v) && Avoids(before, v) && Avoids(during, v) ensures Fresh(s, v) {
      OthersKeepOut(start, before, v);
      OtherKeepsOut(others, BeginWrite(u, body), v);
      OthersKeepOut(begun, during, v);
    }
  }

  /** `unit(write=True)` once: either its whole effect is one serial commit on the newest state, or
      nothing of it remains. */
  method RunUnit(start: Server, ghost db: Database, u: UnitId, body: Body, before: seq<Action>, during: seq<Action>)
    returns (s: Server, busy: bool)
    requires Inv(start, db) && Fresh(start, u) && Avoids(before, u) && Avoids(during, u)
    ensures Inv(s, db)
    ensures !busy ==> |s.bodies| > 0 && s.committed[|s.committed| - 1] == u && |s.history| >= 2
                      && s.history[|s.history| - 1] == Alone(s.history[|s.history| - 2], body)
    ensures busy ==> u !in s.committed && Fresh(s, u)
    ensures forall v :: v != u && Fresh(start, v) && Avoids(before, v) && Avoids(during, v) ==> Fresh(s, v)
  {
    s := BeginUnit(start, db, u, body, before, during);
    ghost var begun := s;
    assert UnitInv(s, u);
    if TryLock(s, u, REVISION) != Granted {
      RollbackKept(s, db, u);
      s := RolledBack(s, u);
      forall v | v != u && Fresh(begun, v) ensures Fresh(s, v) { EndKeepsFresh(begun, u, v); }
      return s, true;
    }
    s := CompleteUnit(s, db, u);
    return s, false;
  }

  method CompleteUnit(start: Server, ghost db: Database, u: UnitId) returns (s: Server)
    requires Inv(start, db) && u in start.units && start.units[u].Writer? && start.units[u].phase == Begun
    requires TryLock(start, u, REVISION) == Granted
    ensures Inv(s, db)
    ensures s.committed == start.committed + [u]
    ensures s.history == start.history + [Alone(start.history[|start.history| - 1], start.units[u].body)]
    ensures forall v :: v != u && Fresh(start, v) ==> Fresh(s, v)
  {
    assert UnitInv(start, u);
    NextKept(start, db, Revise(u));
    s := Next(start, Revise(u));
    ghost var revised := s;
    s := WriteRows(s, db, u);
    NextKept(s, db, Finish(u));
    s := Next(s, Finish(u));
    ghost var written := s;
    assert UnitInv(s, u);
    CommitKept(s, db, u);
    CommitIsSerial(s, u);
    s := Committed(s, u);
    forall v | v != u && Fresh(start, v) ensures Fresh(s, v) {
      OtherKeepsOut(start, Revise(u), v);
      EndKeepsFresh(written, u, v);
    }
  }

  method WriteRows(start: Server, ghost db: Database, u: UnitId) returns (s: Server)
    requires Inv(start, db) && u in start.units && start.units[u].Writer? && start.units[u].phase == Revised
    ensures Inv(s, db) && u in s.units && s.units[u].Writer? && s.units[u].phase == Revised
    ensures s.history == start.history && s.bodies == start.bodies && s.committed == start.committed
    ensures s.units[u].snapshot == start.units[u].snapshot < |s.history| && s.units[u].body == start.units[u].body
    ensures AllWritten(s.units[u].writes, Effects(s.history[s.units[u].snapshot], s.units[u].body))
    ensures forall v :: v != u && Fresh(start, v) ==> Fresh(s, v)
  {
    s := start;
    assert UnitInv(s, u);
    var effects := Effects(s.history[s.units[u].snapshot], s.units[u].body);
    var left := effects.Keys;
    while left != {}
      invariant left <= effects.Keys
      invariant Inv(s, db) && u in s.units && s.units[u].Writer? && s.units[u].phase == Revised
      invariant s.history == start.history && s.bodies == start.bodies && s.committed == start.committed
      invariant s.units[u].snapshot == start.units[u].snapshot < |s.history| && s.units[u].body == start.units[u].body
      invariant forall row :: row in effects && row !in left ==> WrittenAs(s.units[u].writes, effects, row)
      invariant forall v :: v != u && Fresh(start, v) ==> Fresh(s, v)
      decreases left
    {
      var row :| row in left;
      assert UnitInv(s, u) && LockInv(s, row) && VersionInv(s, row);
      NextKept(s, db, WriteRow(u, row));
      s := Next(s, WriteRow(u, row));
      left := left - {row};
    }
  }

  /** `access`: up to six attempts, each a fresh unit; a busy attempt has left nothing behind, so the
      call commits its body exactly once or not at all. */
  method Access(start: Server, ghost db: Database, ids: seq<UnitId>, body: Body, before: seq<seq<Action>>, during: seq<seq<Action>>)
    returns (s: Server, winner: Option<UnitId>)
    requires Inv(start, db) && |ids| == 6 && |before| == 6 && |during| == 6
    requires forall i, j :: 0 <= i < j < 6 ==> ids[i] != ids[j]
    requires forall i :: 0 <= i < 6 ==> Fresh(start, ids[i])
    requires forall i, j :: 0 <= i < 6 && 0 <= j < 6 ==> Avoids(before[i], ids[j]) && Avoids(during[i], ids[j])
    ensures Inv(s, db)
    ensures winner.Some? ==> winner.value in ids && winner.value in s.committed
                             && forall id :: id in ids && id != winner.value ==> id !in s.committed
    ensures winner == None ==> forall id :: id in ids ==> id !in s.committed
  {
    s := start;
    for attempt := 0 to 6
      invariant Inv(s, db)
      invariant forall i :: 0 <= i < 6 ==> Fresh(s, ids[i])
    {
      var busy;
      s, busy := RunUnit(s, db, ids[attempt], body, before[attempt], during[attempt]);
      if !busy {
        forall id | id in ids && id != ids[attempt] ensures id !in s.committed {
          var i :| 0 <= i < 6 && ids[i] == id;
          assert Fresh(s, ids[i]);
        }
        assert s.committed[|s.committed| - 1] in s.committed;
        return s, Some(ids[attempt]);
      }
    }
    return s, None;
  }
}
