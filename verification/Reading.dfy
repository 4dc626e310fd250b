/** The readers the service itself uses (`_value` in `domain/specifications.py` over `interval`), and what
    the confirmation results say with them: nothing is left to assume about the values compared. */
module Reading {
  import opened Wrappers
  import opened Decimals
  import opened Numbers
  import opened Intervals
  import opened Conditions
  import opened Tolerance
  import opened Merging
  import opened Confirmation
  import Nominal

  const LENGTH: nat := 100

  /** `_value`: a numeric specification is a nonnegative interval in its unit, any other one of its choices. */
  function ReadValue(unit: Option<string>, raw: string, ranges: Splitter): Option<NormalValue> {
    if |raw| > LENGTH then None
    else
      match unit
      case None => Some(Choice(raw))
      case Some(u) =>
        match IntervalOf(raw, u, ranges, InContext)
        case None => None
        case Some((lo, hi)) => if RealOf(lo) < 0.0 then None else Some(Amount(Interval(RealOf(lo), RealOf(hi))))
  }

  lemma {:induction false} AroundOrdered(c: Number, t: Number)
    ensures Around(c, t, Exact).Some? ==> RealOf(Around(c, t, Exact).value.0) <= RealOf(Around(c, t, Exact).value.1)
  {
    AtMostIsReal(Number(0, 0), t);
    SumIsReal(c, t);
    SumIsReal(c, Numbers.Negated(t));
    NegatedIsReal(t);
  }

  lemma {:induction false} EndpointsOrdered(raw: string, unit: string, ranges: Splitter)
    requires IntervalOf(raw, unit, ranges, Exact).Some?
    ensures var range := IntervalOf(raw, unit, ranges, Exact).value; RealOf(range.0) <= RealOf(range.1)
  {
    var text := ReplaceMinus(raw);
    var pieces := if PLUS_MINUS in text then Split(text, PLUS_MINUS) else ranges(Nominal.Strip(text));
    EndpointsAre(raw, unit, ranges, text, pieces);
    if QuantityOf(text, unit) == None {
      var pair := PairOf(Nominal.Strip(pieces[0]), Nominal.Strip(pieces[1]), unit).value;
      AroundOrdered(NumberOf(pair.0), NumberOf(pair.1));
      AtMostIsReal(NumberOf(pair.0), NumberOf(pair.1));
    }
  }

  /** Every value that is read is a proper interval, from zero up. */
  lemma {:induction false} ReadIsSound(unit: Option<string>, raw: string, ranges: Splitter)
    requires ReadValue(unit, raw, ranges).Some?
    ensures var value := ReadValue(unit, raw, ranges).value; Sound(value) && (value.Amount? ==> value.range.lo >= 0.0)
  {
    if unit.Some? {
      ContextIsExact(raw, unit.value, ranges);
      EndpointsOrdered(raw, unit.value, ranges);
    }
  }

  ghost predicate ReadFrom(value: NormalValue, unit: Option<string>, raw: string, ranges: Splitter) {
    ReadValue(unit, raw, ranges) == Some(value)
  }

  ghost predicate WasRead(value: NormalValue, ranges: Splitter) {
    exists unit, raw :: ReadFrom(value, unit, raw, ranges)
  }

  ghost predicate AllRead(facts: seq<Fact>, requirements: seq<Requirement>, ranges: Splitter) {
    && (forall f :: f in facts ==> WasRead(f.value, ranges))
    && (forall r :: r in requirements ==> WasRead(r.value, ranges))
  }

  lemma {:induction false} ReadInputsAreSound(facts: seq<Fact>, requirements: seq<Requirement>, ranges: Splitter)
    requires AllRead(facts, requirements, ranges)
    ensures SoundInputs(facts, requirements)
  {
    forall f | f in facts ensures Sound(f.value) {
      var unit, raw :| ReadFrom(f.value, unit, raw, ranges);
      ReadIsSound(unit, raw, ranges);
    }
    forall r | r in requirements ensures Sound(r.value) {
      var unit, raw :| ReadFrom(r.value, unit, raw, ranges);
      ReadIsSound(unit, raw, ranges);
    }
  }

  /** The rules of a category, with the service's own reader of conditions and its table of dimensions. */
  function CodeRules(ranges: Splitter, minimum: string -> seq<seq<string>>): Rules {
    Rules(CodeReader(ranges), UNITS, minimum)
  }

  /** As the service reads values and conditions: nothing is missing and nothing failed exactly when every
      requirement is confirmed by a source fact, and the distance is positive exactly when one failed. */
  lemma {:induction false} ReadEvidenceConfirms(ranges: Splitter, minimum: string -> seq<seq<string>>,
                                                facts: seq<Fact>, requirements: seq<Requirement>)
    requires AllRead(facts, requirements, ranges)
    ensures var a := Assessed(CodeRules(ranges, minimum), facts, requirements);
            && (Clear(a) <==> AllConfirmed(CodeRules(ranges, minimum), facts, requirements))
            && |a.supporting| + |a.missing| + |a.failed| == |requirements|
            && (a.distance > 0.0 <==> a.failed != [])
  {
    ReadInputsAreSound(facts, requirements, ranges);
    ClearMeansConfirmed(CodeRules(ranges, minimum), facts, requirements);
    EachRequirementOnce(CodeRules(ranges, minimum), facts, requirements);
  }

  /** And with that reader the comparable form of every mapping of conditions is what `ComparableMeans` says. */
  lemma {:induction false} ReadConditionsCompare(raw: Stated, ranges: Splitter, table: Table)
    requires table == UNITS
    ensures IsComparable(raw, CodeReader(ranges), table, Comparable(raw, CodeReader(ranges), table))
  {
    UnitsAreDimensions(table);
    ComparableMeans(raw, CodeReader(ranges), table);
  }
}
