/** Comparing the stated conditions of a fact and a requirement (`domain/specification_conditions.py`). */
module Conditions {
  import opened Wrappers
  import opened Intervals
  import opened Normalization
  import opened Numbers

  type Stated = map<string, string>

  /** How the texts of conditions are read (`interval(text, unit)`), and the context sums are rounded in. */
  datatype Reader = Reader(parse: (string, string) -> Option<(Number, Number)>, round: Number -> Number)

  type Table = seq<(string, string)>                   // condition name, unit

  datatype Value = Literal(text: string) | Range(unit: string, range: Interval)

  const CELSIUS: string := "\U{B0}C"

  /** The named dimensions; every other condition stays literal. */
  const UNITS: Table := [
    ("ambient_temperature", CELSIUS), ("case_temperature", CELSIUS),
    ("rating_temperature", CELSIUS), ("measurement_temperature", CELSIUS),
    ("junction_temperature", CELSIUS), ("lead_temperature", CELSIUS),
    ("solder_point_temperature", CELSIUS), ("ambient_humidity", "%"), ("duty_cycle", "%"),
    ("forward_current", "A"), ("output_current", "A"), ("collector_current", "A"),
    ("drain_current", "A"), ("base_current", "A"), ("reverse_current", "A"),
    ("recovery_endpoint_current", "A"),
    ("input_voltage", "V"), ("output_voltage", "V"), ("supply_voltage", "V"),
    ("gate_source_voltage", "V"), ("drain_source_voltage", "V"),
    ("collector_emitter_voltage", "V"), ("reverse_voltage", "V"), ("common_mode_voltage", "V"),
    ("measurement_frequency", "Hz"), ("pulse_duration", "s"), ("load_resistance", "\U{3A9}")]

  const TOLERANCE: string := "_tolerance"

  function ToleranceKey(key: string): string { key + TOLERANCE }

  /** A dictionary of dimensions: no name twice, none that is the tolerance of another, none of the
      names settled beforehand. */
  ghost predicate Dimensions(table: Table) {
    && (forall i, j :: 0 <= i < j < |table| ==> table[i].0 != table[j].0)
    && (forall i, j :: 0 <= i < |table| && 0 <= j < |table| ==> ToleranceKey(table[i].0) != table[j].0)
    && (forall i :: 0 <= i < |table| ==> Plain(table[i].0) && Plain(ToleranceKey(table[i].0)))
  }

  predicate Plain(key: string) { key != "voltage_type" && key != "current_type" && key != "load_type" }

  // ----- one dimension -----

  function RangeOf(endpoints: Option<(Number, Number)>): Option<Interval> {
    match endpoints
    case None => None
    case Some((lo, hi)) => Some(Interval(RealOf(lo), RealOf(hi)))
  }

  function Scalar(endpoints: Option<(Number, Number)>): Option<Number> {
    if endpoints.Some? && RealOf(endpoints.value.0) == RealOf(endpoints.value.1) then Some(endpoints.value.0) else None
  }

  /** `(value[0] - delta[0], value[0] + delta[0])`. */
  function Merged(center: Number, delta: Number, round: Number -> Number): Interval {
    Interval(RealOf(round(Sum(center, Numbers.Negated(delta)))), RealOf(round(Sum(center, delta))))
  }

  /** A condition and its separate tolerance, where both are explicit scalars. */
  function Combined(raw: Stated, reader: Reader, dimension: (string, string)): Option<Interval> {
    var (key, unit) := dimension;
    if key !in raw then None
    else if ToleranceKey(key) !in raw then RangeOf(reader.parse(raw[key], unit))
    else
      var center, delta := Scalar(reader.parse(raw[key], unit)), Scalar(reader.parse(raw[ToleranceKey(key)], unit));
      if center.Some? && delta.Some? && RealOf(delta.value) >= 0.0 then Some(Merged(center.value, delta.value, reader.round)) else None
  }

  // ----- the whole mapping -----

  /** Synonyms settled, everything literal. */
  function Literals(raw: Stated): map<string, Value> {
    var named := if "voltage_type" in raw && "current_type" !in raw
                 then (raw - {"voltage_type"})["current_type" := raw["voltage_type"]] else raw;
    var all := map key | key in named :: Literal(named[key]);
    var load := LowerText(if "load_type" in raw then raw["load_type"] else "");
    if load == "resistive" || load == "resistive load" then all["load_type" := Literal("resistive")] else all
  }

  predicate Absorbs(raw: Stated, reader: Reader, dimension: (string, string), key: string) {
    ToleranceKey(dimension.0) == key && key in raw && Combined(raw, reader, dimension).Some?
  }

  /** A tolerance merged into its condition disappears. */
  predicate Absorbed(raw: Stated, reader: Reader, table: Table, key: string) {
    exists i :: 0 <= i < |table| && Absorbs(raw, reader, table[i], key)
  }

  predicate Reads(raw: Stated, reader: Reader, dimension: (string, string), key: string) {
    dimension.0 == key && Combined(raw, reader, dimension).Some?
  }

  /** A named condition that reads as a range in its dimension. */
  ghost predicate IsRange(raw: Stated, reader: Reader, table: Table, key: string, value: Value) {
    exists i :: 0 <= i < |table| && Reads(raw, reader, table[i], key)
                && value == Range(table[i].1, Combined(raw, reader, table[i]).value)
  }

  ghost predicate IsLiteral(raw: Stated, reader: Reader, table: Table, key: string, value: Value) {
    && (forall i :: 0 <= i < |table| ==> !Reads(raw, reader, table[i], key))
    && key in Literals(raw) && value == Literals(raw)[key]
  }

  /** What the comparable form of a mapping is, name by name. */
  ghost predicate IsComparable(raw: Stated, reader: Reader, table: Table, result: map<string, Value>) {
    && (forall key :: key in result <==> key in Literals(raw) && !Absorbed(raw, reader, table, key))
    && (forall key :: key in result ==>
          IsRange(raw, reader, table, key, result[key]) || IsLiteral(raw, reader, table, key, result[key]))
  }

  lemma {:induction false} DimensionsPrefix(table: Table, n: nat)
    requires Dimensions(table) && n <= |table|
    ensures Dimensions(table[..n])
  {
  }

  lemma {:induction false} OneDimension(table: Table, i: nat, j: nat)
    requires Dimensions(table) && i < |table| && j < |table| && table[i].0 == table[j].0
    ensures i == j
  {
  }

  // ----- the loop -----

  lemma {:induction false} NothingRead(raw: Stated, reader: Reader)
    ensures IsComparable(raw, reader, [], Literals(raw))
  {
  }

  lemma {:induction false} LiteralStays(raw: Stated, reader: Reader, table: Table, d: (string, string), key: string, value: Value)
    requires IsLiteral(raw, reader, table, key, value) && !Reads(raw, reader, d, key)
    ensures IsLiteral(raw, reader, table + [d], key, value)
  {
    var more := table + [d];
    forall i | 0 <= i < |more| ensures !Reads(raw, reader, more[i], key) {
      if i < |table| { assert more[i] == table[i]; } else { assert more[i] == d; }
    }
  }

  lemma {:induction false} RangeStays(raw: Stated, reader: Reader, table: Table, d: (string, string), key: string, value: Value)
    requires IsRange(raw, reader, table, key, value)
    ensures IsRange(raw, reader, table + [d], key, value)
  {
    var i :| 0 <= i < |table| && Reads(raw, reader, table[i], key) && value == Range(table[i].1, Combined(raw, reader, table[i]).value);
    var more := table + [d];
    assert more[i] == table[i];
    assert Reads(raw, reader, more[i], key) && value == Range(more[i].1, Combined(raw, reader, more[i]).value);
  }

  lemma {:induction false} NewRange(raw: Stated, reader: Reader, table: Table, d: (string, string))
    requires Combined(raw, reader, d).Some?
    ensures IsRange(raw, reader, table + [d], d.0, Range(d.1, Combined(raw, reader, d).value))
  {
    var more := table + [d];
    var i := |table|;
    assert more[i] == d;
    assert Reads(raw, reader, more[i], d.0);
  }

  lemma {:induction false} AbsorbedMore(raw: Stated, reader: Reader, table: Table, d: (string, string), key: string)
    ensures Absorbed(raw, reader, table + [d], key) <==> Absorbed(raw, reader, table, key) || Absorbs(raw, reader, d, key)
  {
    var more := table + [d];
    if Absorbed(raw, reader, table, key) {
      var i :| 0 <= i < |table| && Absorbs(raw, reader, table[i], key);
      assert more[i] == table[i];
    }
    if Absorbs(raw, reader, d, key) { assert more[|table|] == d; }
    if Absorbed(raw, reader, more, key) {
      var i :| 0 <= i < |more| && Absorbs(raw, reader, more[i], key);
      if i < |table| { assert more[i] == table[i]; } else { assert more[i] == d; }
    }
  }

  /** One turn of the loop over the dimensions. */
  function Dimensioned(raw: Stated, reader: Reader, result: map<string, Value>, d: (string, string)): map<string, Value> {
    if d.0 !in result || Combined(raw, reader, d) == None then result
    else (result - {ToleranceKey(d.0)})[d.0 := Range(d.1, Combined(raw, reader, d).value)]
  }

  lemma {:induction false} KeptName(raw: Stated, key: string)
    requires Plain(key)
    ensures key in Literals(raw) <==> key in raw
  {
  }

  lemma {:induction false} NotYetAbsorbed(raw: Stated, reader: Reader, table: Table, d: (string, string))
    requires forall i :: 0 <= i < |table| ==> ToleranceKey(table[i].0) != d.0
    ensures !Absorbed(raw, reader, table, d.0)
  {
  }

  /** Which names are left after one more dimension. */
  lemma {:induction false} DimensionName(raw: Stated, reader: Reader, table: Table, d: (string, string), result: map<string, Value>, key: string)
    requires IsComparable(raw, reader, table, result)
    requires !Absorbed(raw, reader, table, d.0) && !Absorbed(raw, reader, table, ToleranceKey(d.0))
    requires (d.0 in raw <==> d.0 in Literals(raw)) && (ToleranceKey(d.0) in raw <==> ToleranceKey(d.0) in Literals(raw))
    ensures key in Dimensioned(raw, reader, result, d) <==> key in Literals(raw) && !Absorbed(raw, reader, table + [d], key)
  {
    AbsorbedMore(raw, reader, table, d, key);
  }

  lemma {:induction false} DimensionNames(raw: Stated, reader: Reader, table: Table, d: (string, string), result: map<string, Value>)
    requires IsComparable(raw, reader, table, result) && Dimensions(table + [d])
    ensures forall key :: key in Dimensioned(raw, reader, result, d) <==> key in Literals(raw) && !Absorbed(raw, reader, table + [d], key)
  {
    NotAbsorbedYet(raw, reader, table, d);
    KeptName(raw, d.0);
    KeptName(raw, ToleranceKey(d.0));
    forall key ensures key in Dimensioned(raw, reader, result, d) <==> key in Literals(raw) && !Absorbed(raw, reader, table + [d], key) {
      DimensionName(raw, reader, table, d, result, key);
    }
  }

  lemma {:induction false} NotAbsorbedYet(raw: Stated, reader: Reader, table: Table, d: (string, string))
    requires Dimensions(table + [d])
    ensures !Absorbed(raw, reader, table, d.0) && !Absorbed(raw, reader, table, ToleranceKey(d.0))
    ensures Plain(d.0) && Plain(ToleranceKey(d.0))
  {
    var more := table + [d];
    assert more[|table|] == d;
    assert forall i :: 0 <= i < |table| ==> more[i] == table[i];
    NotYetAbsorbed(raw, reader, table, d);
    forall i | 0 <= i < |table| ensures ToleranceKey(table[i].0) != ToleranceKey(d.0) { SuffixApart(table[i].0, d.0); }
  }

  /** What is left under a name after one more dimension. */
  lemma {:induction false} DimensionValue(raw: Stated, reader: Reader, table: Table, d: (string, string), result: map<string, Value>, key: string)
    requires IsComparable(raw, reader, table, result) && key in Dimensioned(raw, reader, result, d)
    requires d.0 in raw ==> d.0 in result
    ensures var value := Dimensioned(raw, reader, result, d)[key];
            IsRange(raw, reader, table + [d], key, value) || IsLiteral(raw, reader, table + [d], key, value)
  {
    var value := Dimensioned(raw, reader, result, d)[key];
    if key == d.0 && Combined(raw, reader, d).Some? {
      NewRange(raw, reader, table, d);
    } else {
      assert value == result[key];
      if IsRange(raw, reader, table, key, value) { RangeStays(raw, reader, table, d, key, value); }
      else { LiteralStays(raw, reader, table, d, key, value); }
    }
  }

  lemma {:induction false} DimensionRead(raw: Stated, reader: Reader, table: Table, d: (string, string), result: map<string, Value>)
    requires IsComparable(raw, reader, table, result) && Dimensions(table + [d])
    ensures IsComparable(raw, reader, table + [d], Dimensioned(raw, reader, result, d))
  {
    DimensionNames(raw, reader, table, d, result);
    NamesKept(raw, reader, table, d, result);
    forall key | key in Dimensioned(raw, reader, result, d)
      ensures IsRange(raw, reader, table + [d], key, Dimensioned(raw, reader, result, d)[key])
           || IsLiteral(raw, reader, table + [d], key, Dimensioned(raw, reader, result, d)[key])
    {
      DimensionValue(raw, reader, table, d, result, key);
    }
  }

  /** Names the loop has not come to are as they were stated. */
  lemma {:induction false} NamesKept(raw: Stated, reader: Reader, table: Table, d: (string, string), result: map<string, Value>)
    requires IsComparable(raw, reader, table, result) && Dimensions(table + [d])
    ensures (d.0 in result <==> d.0 in raw) && (ToleranceKey(d.0) in result <==> ToleranceKey(d.0) in raw)
  {
    var more := table + [d];
    assert more[|table|] == d;
    assert forall i :: 0 <= i < |table| ==> more[i] == table[i];
    NotYetAbsorbed(raw, reader, table, d);
    KeptName(raw, d.0);
    KeptName(raw, ToleranceKey(d.0));
    forall i | 0 <= i < |table| ensures ToleranceKey(table[i].0) != ToleranceKey(d.0) {
      SuffixApart(table[i].0, d.0);
    }
  }

  lemma {:induction false} SuffixApart(one: string, two: string)
    ensures ToleranceKey(one) == ToleranceKey(two) ==> one == two
  {
    assert ToleranceKey(one)[..|one|] == one && ToleranceKey(two)[..|two|] == two;
  }

  /** The body of the loop, for one dimension. */
  method ReadDimension(raw: Stated, reader: Reader, d: (string, string), result: map<string, Value>) returns (after: map<string, Value>)
    requires (d.0 in result <==> d.0 in raw) && (ToleranceKey(d.0) in result <==> ToleranceKey(d.0) in raw)
    ensures after == Dimensioned(raw, reader, result, d)
  {
    var (key, unit) := d;
    after := result;
    if key !in result { return; }
    var endpoints := reader.parse(raw[key], unit);
    var value := RangeOf(endpoints);
    var tolerance := ToleranceKey(key);
    if tolerance in result {
      var center, delta := Scalar(endpoints), Scalar(reader.parse(raw[tolerance], unit));
      if center == None || delta == None || RealOf(delta.value) < 0.0 { return; }
      value := Some(Merged(center.value, delta.value, reader.round));
      after := after - {tolerance};
    } else {
      assert result - {tolerance} == result;
    }
    if value.Some? { after := after[key := Range(unit, value.value)]; }
  }

  /** The comparable form: the dimensions read one after the other. */
  function Comparable(raw: Stated, reader: Reader, table: Table): map<string, Value> {
    if table == [] then Literals(raw)
    else Dimensioned(raw, reader, Comparable(raw, reader, table[..|table| - 1]), table[|table| - 1])
  }

  /** `comparable_conditions`: one dimension at a time, replacing a condition that reads as a range and
      dropping the tolerance it took in. */
  method ComparableConditions(raw: Stated, reader: Reader, table: Table) returns (result: map<string, Value>)
    requires Dimensions(table)
    ensures result == Comparable(raw, reader, table)
  {
    result := Literals(raw);
    for i := 0 to |table|
      invariant result == Comparable(raw, reader, table[..i])
    {
      var before := table[..i];
      assert before + [table[i]] == table[..i + 1] && table[..i + 1][..i] == before;
      DimensionsPrefix(table, i + 1);
      DimensionsPrefix(table, i);
      ComparableMeans(raw, reader, before);
      NamesKept(raw, reader, before, table[i], result);
      result := ReadDimension(raw, reader, table[i], result);
    }
    assert table[..|table|] == table;
  }

  /** What the loop computes, name by name: merged tolerances are gone, a named condition that reads in its
      dimension is a range, and everything else is as stated. */
  lemma {:induction false} ComparableMeans(raw: Stated, reader: Reader, table: Table)
    requires Dimensions(table)
    ensures IsComparable(raw, reader, table, Comparable(raw, reader, table))
    decreases |table|
  {
    if table == [] {
      NothingRead(raw, reader);
    } else {
      var before, d := table[..|table| - 1], table[|table| - 1];
      assert before + [d] == table;
      DimensionsPrefix(table, |before|);
      ComparableMeans(raw, reader, before);
      DimensionRead(raw, reader, before, d, Comparable(raw, reader, before));
    }
  }

  // ----- comparing two mappings -----

  lemma {:induction false} OneMapping(raw: Stated, reader: Reader, table: Table, one: map<string, Value>, two: map<string, Value>)
    requires Dimensions(table) && IsComparable(raw, reader, table, one) && IsComparable(raw, reader, table, two)
    ensures one == two
  {
    assert one.Keys == two.Keys;
    forall key | key in one ensures one[key] == two[key] {
      OneReading(raw, reader, table, key, one[key], two[key]);
    }
  }

  /** And no other mapping answers that description. */
  lemma {:induction false} ComparableIsOne(raw: Stated, reader: Reader, table: Table, other: map<string, Value>)
    requires Dimensions(table) && IsComparable(raw, reader, table, other)
    ensures other == Comparable(raw, reader, table)
  {
    ComparableMeans(raw, reader, table);
    OneMapping(raw, reader, table, other, Comparable(raw, reader, table));
  }

  lemma {:induction false} OneReading(raw: Stated, reader: Reader, table: Table, key: string, one: Value, two: Value)
    requires Dimensions(table)
    requires IsRange(raw, reader, table, key, one) || IsLiteral(raw, reader, table, key, one)
    requires IsRange(raw, reader, table, key, two) || IsLiteral(raw, reader, table, key, two)
    ensures one == two
  {
    if IsRange(raw, reader, table, key, one) {
      var i :| 0 <= i < |table| && Reads(raw, reader, table[i], key) && one == Range(table[i].1, Combined(raw, reader, table[i]).value);
      if IsRange(raw, reader, table, key, two) {
        var j :| 0 <= j < |table| && Reads(raw, reader, table[j], key) && two == Range(table[j].1, Combined(raw, reader, table[j]).value);
        OneDimension(table, i, j);
      }
    }
  }

  predicate ContainsInterval(available: Interval, requested: Interval) {
    available.lo <= requested.lo && requested.hi <= available.hi
  }

  /** One condition covers another: an interval around it in the same unit, or the same literal. */
  predicate CoversValue(available: Value, requested: Value) {
    if available.Range? && requested.Range? then
      available.unit == requested.unit && ContainsInterval(available.range, requested.range)
    else available == requested
  }

  predicate Covers(available: map<string, Value>, requested: map<string, Value>) {
    available.Keys == requested.Keys && forall key :: key in available && key in requested ==> CoversValue(available[key], requested[key])
  }

  /** `same_conditions`. */
  method SameConditions(left: Stated, right: Stated, reader: Reader, table: Table) returns (same: bool)
    requires Dimensions(table)
    ensures same <==> Comparable(left, reader, table) == Comparable(right, reader, table)
  {
    var one := ComparableConditions(left, reader, table);
    var two := ComparableConditions(right, reader, table);
    return one == two;
  }

  /** `conditions_cover`: every qualifier on both sides, each one covered. */
  method ConditionsCover(available: Stated, requested: Stated, reader: Reader, table: Table) returns (covered: bool)
    requires Dimensions(table)
    ensures covered <==> Covers(Comparable(available, reader, table), Comparable(requested, reader, table))
  {
    var left := ComparableConditions(available, reader, table);
    var right := ComparableConditions(requested, reader, table);
    if left.Keys != right.Keys { return false; }
    var remaining := left.Keys;
    while remaining != {}
      invariant remaining <= left.Keys
      invariant forall key :: key in left && key !in remaining ==> CoversValue(left[key], right[key])
      decreases |remaining|
    {
      var key :| key in remaining;
      var value, target := left[key], right[key];
      if value.Range? && target.Range? {
        if value.unit != target.unit || !ContainsInterval(value.range, target.range) { return false; }
      } else if value != target {
        return false;
      }
      remaining := remaining - {key};
    }
    return true;
  }

  /** Coverage is a preorder on comparable conditions. */
  lemma {:induction false} CoverIsPreorder(a: map<string, Value>, b: map<string, Value>, c: map<string, Value>)
    ensures Covers(a, a)
    ensures Covers(a, b) && Covers(b, c) ==> Covers(a, c)
  {
    if Covers(a, b) && Covers(b, c) {
      forall key | key in a && key in c ensures CoversValue(a[key], c[key]) {
        assert key in b && CoversValue(a[key], b[key]) && CoversValue(b[key], c[key]);
      }
    }
  }

  /** Its kernel is sameness: two mappings cover each other exactly when they are the same conditions. */
  lemma {:induction false} CoverKernel(a: map<string, Value>, b: map<string, Value>)
    ensures Covers(a, b) && Covers(b, a) <==> a == b
  {
    if Covers(a, b) && Covers(b, a) {
      forall key | key in a ensures a[key] == b[key] {
        assert key in b && CoversValue(a[key], b[key]) && CoversValue(b[key], a[key]);
      }
      assert a == b;
    }
    if a == b { CoverIsPreorder(a, a, a); }
  }

  /** A covered request lies inside the available conditions: in every named dimension, each requested
      value is an available one. */
  lemma {:induction false} CoverIsContainment(a: map<string, Value>, b: map<string, Value>, key: string, x: real)
    requires Covers(a, b) && key in a && key in b && a[key].Range? && b[key].Range? && b[key].range.Has(x)
    ensures a[key].unit == b[key].unit && a[key].range.Has(x)
  {
    assert CoversValue(a[key], b[key]);
  }

  lemma {:induction false} UnitsDiffer()
    ensures forall i, j :: 0 <= i < j < |UNITS| ==> UNITS[i].0 != UNITS[j].0
  {
  }

  lemma {:induction false} NoUnitIsTolerance(key: string)
    ensures forall j :: 0 <= j < |UNITS| ==> ToleranceKey(key) != UNITS[j].0
  {
    ToleranceEnd(key);
  }

  lemma {:induction false} UnitsArePlain()
    ensures forall i :: 0 <= i < |UNITS| ==> Plain(UNITS[i].0)
  {
  }

  lemma {:induction false} ToleranceIsPlain(key: string)
    ensures Plain(ToleranceKey(key))
  {
    ToleranceEnd(key);
  }

  /** The table the service uses. */
  lemma {:induction false} UnitsAreDimensions(table: Table)
    requires table == UNITS
    ensures Dimensions(table)
  {
    UnitsDiffer();
    UnitsArePlain();
    forall i, j | 0 <= i < |table| && 0 <= j < |table| ensures ToleranceKey(table[i].0) != table[j].0 {
      NoUnitIsTolerance(table[i].0);
    }
    forall i | 0 <= i < |table| ensures Plain(table[i].0) && Plain(ToleranceKey(table[i].0)) {
      ToleranceIsPlain(table[i].0);
    }
  }

  lemma {:induction false} ToleranceEnd(key: string)
    ensures var t := ToleranceKey(key); |t| >= 10 && t[|t| - 2] == 'c' && t[|t| - 5] == 'r' && t[|t| - 1] == 'e'
  {
  }
}
