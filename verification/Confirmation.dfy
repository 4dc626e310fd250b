/** Confirming requirements from reviewed evidence (`domain/specifications.py`) and listing the parts
    (`search_specifications` in `domain/service.py`). */
module Confirmation {
  import opened Wrappers
  import opened Intervals
  import opened Conditions

  /** A normalized value: an interval in the specification's unit, or one of its choices. */
  datatype NormalValue = Amount(range: Interval) | Choice(text: string)
  datatype Fact = Fact(name: string, value: NormalValue, basis: string, conditions: Stated, fromSource: bool)
  datatype Requirement = Requirement(name: string, comparison: Comparison, value: NormalValue, basis: string, conditions: Stated)

  /** The static tables of a category: how conditions read, and which of them each fact must state at
      least one of. */
  datatype Rules = Rules(reader: Reader, table: Table, minimum: string -> seq<seq<string>>)

  predicate OperatingBasis(basis: string) { basis == "operating_minimum" || basis == "operating_maximum" }

  // ----- one requirement -----

  /** `{fact['name']: fact for fact in facts}`: the last one of a name. */
  function FactNamed(facts: seq<Fact>, name: string): Option<Fact> {
    if facts == [] then None
    else if facts[|facts| - 1].name == name then Some(facts[|facts| - 1])
    else FactNamed(facts[..|facts| - 1], name)
  }

  /** No group of minimum qualifiers is missing altogether. */
  predicate Qualified(rules: Rules, f: Fact) {
    forall g :: g in rules.minimum(f.name) ==> exists key :: key in g && key in f.conditions
  }

  predicate ConditionsMet(rules: Rules, f: Fact, r: Requirement) {
    var stated, asked := Comparable(f.conditions, rules.reader, rules.table), Comparable(r.conditions, rules.reader, rules.table);
    if OperatingBasis(r.basis) then Covers(stated, asked) else stated == asked
  }

  predicate Usable(rules: Rules, f: Fact, r: Requirement) {
    f.fromSource && f.basis == r.basis && Qualified(rules, f) && ConditionsMet(rules, f, r)
  }

  function OutcomeOf(stored: NormalValue, r: Requirement): Option<bool> {
    if stored.Amount? && r.value.Amount? then CompareIntervals(stored.range, r.value.range, r.comparison)
    else Some(stored == r.value)
  }

  function GapOf(stored: NormalValue, r: Requirement): real {
    if stored.Amount? && r.value.Amount? then RelativeGap(stored.range, r.value.range, r.comparison) else 1.0
  }

  datatype Verdict = Unconfirmed | Failed(fact: Fact) | Supported(fact: Fact)

  function Judge(rules: Rules, facts: seq<Fact>, r: Requirement): Verdict {
    match FactNamed(facts, r.name)
    case None => Unconfirmed
    case Some(f) =>
      if !Usable(rules, f, r) then Unconfirmed
      else match OutcomeOf(f.value, r)
           case Some(true) => Supported(f)
           case Some(false) => Failed(f)
           case None => Unconfirmed
  }

  // ----- all requirements -----

  datatype Assessment = Assessment(supporting: seq<Fact>, missing: seq<string>, failed: seq<(Requirement, Fact)>, distance: real)

  function Judged(a: Assessment, r: Requirement, v: Verdict): Assessment {
    match v
    case Unconfirmed => a.(missing := a.missing + [r.name])
    case Failed(f) => a.(failed := a.failed + [(r, f)], distance := a.distance + GapOf(f.value, r))
    case Supported(f) => a.(supporting := a.supporting + [f])
  }

  function Assessed(rules: Rules, facts: seq<Fact>, requirements: seq<Requirement>): Assessment {
    if requirements == [] then Assessment([], [], [], 0.0)
    else
      var last := requirements[|requirements| - 1];
      Judged(Assessed(rules, facts, requirements[..|requirements| - 1]), last, Judge(rules, facts, last))
  }

  method FindNamed(facts: seq<Fact>, name: string) returns (found: Option<Fact>)
    ensures found == FactNamed(facts, name)
  {
    found := None;
    for i := 0 to |facts|
      invariant found == FactNamed(facts[..i], name)
    {
      assert facts[..i + 1][..i] == facts[..i];
      if facts[i].name == name { found := Some(facts[i]); }
    }
    assert facts[..|facts|] == facts;
  }

  /** `evaluate`. */
  method Evaluate(rules: Rules, facts: seq<Fact>, requirements: seq<Requirement>) returns (a: Assessment)
    requires Dimensions(rules.table)
    ensures a == Assessed(rules, facts, requirements)
  {
    a := Assessment([], [], [], 0.0);
    for i := 0 to |requirements|
      invariant a == Assessed(rules, facts, requirements[..i])
    {
      var r := requirements[i];
      assert requirements[..i + 1][..i] == requirements[..i];
      var found := FindNamed(facts, r.name);
      if found == None || !found.value.fromSource || found.value.basis != r.basis || !Qualified(rules, found.value) {
        a := a.(missing := a.missing + [r.name]);
        continue;
      }
      var f := found.value;
      var met;
      if OperatingBasis(r.basis) {
        met := ConditionsCover(f.conditions, r.conditions, rules.reader, rules.table);
      } else {
        met := SameConditions(f.conditions, r.conditions, rules.reader, rules.table);
      }
      if !met {
        a := a.(missing := a.missing + [r.name]);
        continue;
      }
      var outcome := OutcomeOf(f.value, r);
      if outcome == Some(false) {
        a := a.(failed := a.failed + [(r, f)], distance := a.distance + GapOf(f.value, r));
      } else if outcome == None {
        a := a.(missing := a.missing + [r.name]);
      } else {
        a := a.(supporting := a.supporting + [f]);
      }
    }
    assert requirements[..|requirements|] == requirements;
  }

  // ----- what the assessment means -----

  predicate Sound(value: NormalValue) { value.Amount? ==> value.range.Valid() }

  predicate SoundInputs(facts: seq<Fact>, requirements: seq<Requirement>) {
    && (forall f :: f in facts ==> Sound(f.value))
    && (forall r :: r in requirements ==> Sound(r.value))
  }

  /** The comparison holds between all stored and all requested values; for equality the intervals are equal. */
  ghost predicate Confirms(stored: NormalValue, r: Requirement) {
    if stored.Amount? && r.value.Amount? then
      if r.comparison == Eq then stored.range == r.value.range else AllCompare(stored.range, r.value.range, r.comparison)
    else stored == r.value
  }

  ghost predicate Confirmed(rules: Rules, facts: seq<Fact>, r: Requirement) {
    var f := FactNamed(facts, r.name);
    f.Some? && Usable(rules, f.value, r) && Confirms(f.value.value, r)
  }

  lemma {:induction false} NamedIsAFact(facts: seq<Fact>, name: string)
    ensures FactNamed(facts, name).Some? ==> FactNamed(facts, name).value in facts && FactNamed(facts, name).value.name == name
  {
    if facts == [] {
    } else if facts[|facts| - 1].name != name {
      NamedIsAFact(facts[..|facts| - 1], name);
    }
  }

  lemma {:induction false} OutcomeMeans(stored: NormalValue, r: Requirement)
    requires Sound(stored) && Sound(r.value)
    ensures OutcomeOf(stored, r) == Some(true) <==> Confirms(stored, r)
    ensures GapOf(stored, r) >= 0.0
    ensures OutcomeOf(stored, r) == Some(false) ==> GapOf(stored, r) > 0.0
  {
    if stored.Amount? && r.value.Amount? {
      ConfirmedMeans(stored.range, r.value.range, r.comparison);
      GapIsFailure(stored.range, r.value.range, r.comparison);
    }
  }

  lemma {:induction false} SupportedMeans(rules: Rules, facts: seq<Fact>, r: Requirement)
    requires SoundInputs(facts, [r])
    ensures Judge(rules, facts, r).Supported? <==> Confirmed(rules, facts, r)
  {
    NamedIsAFact(facts, r.name);
    assert r in [r];
    var f := FactNamed(facts, r.name);
    if f.Some? { OutcomeMeans(f.value.value, r); }
  }

  ghost predicate AllConfirmed(rules: Rules, facts: seq<Fact>, requirements: seq<Requirement>) {
    forall r :: r in requirements ==> Confirmed(rules, facts, r)
  }

  lemma {:induction false} ConfirmedSnoc(rules: Rules, facts: seq<Fact>, before: seq<Requirement>, r: Requirement)
    ensures AllConfirmed(rules, facts, before + [r]) <==> AllConfirmed(rules, facts, before) && Confirmed(rules, facts, r)
  {
    assert r in before + [r];
    if AllConfirmed(rules, facts, before + [r]) {
      forall other | other in before ensures Confirmed(rules, facts, other) { assert other in before + [r]; }
    }
  }

  predicate Clear(a: Assessment) { a.missing == [] && a.failed == [] }

  /** Nothing is missing and nothing failed exactly when every requirement is confirmed by a source fact. */
  lemma {:induction false} ClearMeansConfirmed(rules: Rules, facts: seq<Fact>, requirements: seq<Requirement>)
    requires SoundInputs(facts, requirements)
    ensures Clear(Assessed(rules, facts, requirements)) <==> AllConfirmed(rules, facts, requirements)
    decreases |requirements|
  {
    if requirements == [] {
    } else {
      var before, r := requirements[..|requirements| - 1], requirements[|requirements| - 1];
      assert requirements == before + [r];
      ClearMeansConfirmed(rules, facts, before);
      ConfirmedSnoc(rules, facts, before, r);
      SupportedMeans(rules, facts, r);
    }
  }

  /** Every requirement lands in exactly one list, and the ranking distance is positive exactly when one failed. */
  lemma {:induction false} EachRequirementOnce(rules: Rules, facts: seq<Fact>, requirements: seq<Requirement>)
    requires SoundInputs(facts, requirements)
    ensures var a := Assessed(rules, facts, requirements);
            && |a.supporting| + |a.missing| + |a.failed| == |requirements|
            && a.distance >= 0.0 && (a.distance > 0.0 <==> a.failed != [])
    decreases |requirements|
  {
    if requirements == [] {
    } else {
      var before, r := requirements[..|requirements| - 1], requirements[|requirements| - 1];
      EachRequirementOnce(rules, facts, before);
      NamedIsAFact(facts, r.name);
      assert r in requirements;
      var f := FactNamed(facts, r.name);
      if f.Some? { OutcomeMeans(f.value.value, r); }
    }
  }

  // ----- listing the parts -----

  /** A candidate part with its accepted facts; nominal alternatives come with their filter mismatch. */
  datatype Candidate = Candidate(part: nat, facts: seq<Fact>, mismatched: bool, mismatchDistance: real)

  datatype Rank = Rank(supporting: int, missing: nat, mismatches: nat, distance: real, part: nat)

  function RankOf(c: Candidate, a: Assessment): Rank {
    Rank(-|a.supporting|, |a.missing|, |a.failed| + if c.mismatched then 1 else 0, a.distance + c.mismatchDistance, c.part)
  }

  datatype Listing = Listing(matches: seq<nat>, incomplete: seq<nat>, partial: seq<(Rank, nat)>)

  function Listed(l: Listing, c: Candidate, a: Assessment): Listing {
    if a.failed != [] || c.mismatched then l.(partial := l.partial + [(RankOf(c, a), c.part)])
    else if a.missing != [] then l.(incomplete := l.incomplete + [c.part])
    else l.(matches := l.matches + [c.part])
  }

  function ListedAll(rules: Rules, candidates: seq<Candidate>, requirements: seq<Requirement>): Listing {
    if candidates == [] then Listing([], [], [])
    else
      var c := candidates[|candidates| - 1];
      Listed(ListedAll(rules, candidates[..|candidates| - 1], requirements), c, Assessed(rules, c.facts, requirements))
  }

  // ----- ranking the partial matches -----

  /** Tuples compare by their first difference. */
  predicate Ahead(a: Rank, b: Rank) {
    if a.supporting != b.supporting then a.supporting < b.supporting
    else if a.missing != b.missing then a.missing < b.missing
    else if a.mismatches != b.mismatches then a.mismatches < b.mismatches
    else if a.distance != b.distance then a.distance < b.distance
    else a.part < b.part
  }

  function Placed(sorted: seq<(Rank, nat)>, entry: (Rank, nat)): seq<(Rank, nat)> {
    if sorted == [] then [entry]
    else if Ahead(entry.0, sorted[0].0) then [entry] + sorted
    else [sorted[0]] + Placed(sorted[1..], entry)
  }

  /** `sorted(partial, key=lambda entry: entry[0])`, which keeps equal ranks in order. */
  function Ranked(partial: seq<(Rank, nat)>): seq<(Rank, nat)>
    decreases |partial|
  {
    if partial == [] then [] else Placed(Ranked(partial[..|partial| - 1]), partial[|partial| - 1])
  }

  predicate InOrder(entries: seq<(Rank, nat)>) {
    forall i, j :: 0 <= i < j < |entries| ==> !Ahead(entries[j].0, entries[i].0)
  }

  lemma {:induction false} PlacedInOrder(sorted: seq<(Rank, nat)>, entry: (Rank, nat))
    requires InOrder(sorted)
    ensures InOrder(Placed(sorted, entry)) && multiset(Placed(sorted, entry)) == multiset(sorted) + multiset{entry}
    decreases |sorted|
  {
    if sorted == [] {
    } else if Ahead(entry.0, sorted[0].0) {
      var after := [entry] + sorted;
      forall i, j | 0 <= i < j < |after| ensures !Ahead(after[j].0, after[i].0) {
        if i > 0 { assert !Ahead(sorted[j - 1].0, sorted[i - 1].0); } else if j > 1 { assert !Ahead(sorted[j - 1].0, sorted[0].0); }
      }
    } else {
      var rest := sorted[1..];
      assert sorted == [sorted[0]] + rest;
      PlacedInOrder(rest, entry);
      var placed := Placed(rest, entry);
      var after := [sorted[0]] + placed;
      forall i, j | 0 <= i < j < |after| ensures !Ahead(after[j].0, after[i].0) {
        if i > 0 {
          assert !Ahead(placed[j - 1].0, placed[i - 1].0);
        } else {
          assert placed[j - 1] in multiset(rest) + multiset{entry};
        }
      }
    }
  }

  /** Ranking reorders the partial matches: most confirmed first, then fewest unresolved, fewest mismatches,
      smallest distance, and lowest part id. */
  lemma {:induction false} RankedInOrder(partial: seq<(Rank, nat)>)
    ensures InOrder(Ranked(partial)) && multiset(Ranked(partial)) == multiset(partial)
    decreases |partial|
  {
    if partial != [] {
      var before, last := partial[..|partial| - 1], partial[|partial| - 1];
      assert partial == before + [last];
      RankedInOrder(before);
      PlacedInOrder(Ranked(before), last);
    }
  }

  /** What a search returns. */
  function Found(rules: Rules, candidates: seq<Candidate>, requirements: seq<Requirement>): Listing {
    var l := ListedAll(rules, candidates, requirements);
    l.(partial := Ranked(l.partial))
  }

  /** `search_specifications`. */
  method SearchSpecifications(rules: Rules, candidates: seq<Candidate>, requirements: seq<Requirement>) returns (l: Listing)
    requires Dimensions(rules.table)
    ensures l == Found(rules, candidates, requirements)
  {
    l := Listing([], [], []);
    for i := 0 to |candidates|
      invariant l == ListedAll(rules, candidates[..i], requirements)
    {
      var c := candidates[i];
      assert candidates[..i + 1][..i] == candidates[..i];
      var a := Evaluate(rules, c.facts, requirements);
      if a.failed != [] || c.mismatched {
        l := l.(partial := l.partial + [(RankOf(c, a), c.part)]);
      } else if a.missing != [] {
        l := l.(incomplete := l.incomplete + [c.part]);
      } else {
        l := l.(matches := l.matches + [c.part]);
      }
    }
    assert candidates[..|candidates|] == candidates;
    l := l.(partial := Ranked(l.partial));
  }

  ghost predicate SoundCandidates(candidates: seq<Candidate>, requirements: seq<Requirement>) {
    forall c :: c in candidates ==> SoundInputs(c.facts, requirements)
  }

  /** A candidate that was not an alternative, all of whose requirements are confirmed. */
  ghost predicate IsMatch(rules: Rules, c: Candidate, requirements: seq<Requirement>) {
    !c.mismatched && AllConfirmed(rules, c.facts, requirements)
  }

  ghost predicate MatchOf(rules: Rules, candidates: seq<Candidate>, requirements: seq<Requirement>, i: nat, part: nat) {
    i < |candidates| && candidates[i].part == part && IsMatch(rules, candidates[i], requirements)
  }

  lemma {:induction false} ListedMatch(rules: Rules, l: Listing, c: Candidate, requirements: seq<Requirement>)
    requires SoundInputs(c.facts, requirements)
    ensures var after := Listed(l, c, Assessed(rules, c.facts, requirements));
            after.matches == if IsMatch(rules, c, requirements) then l.matches + [c.part] else l.matches
  {
    ClearMeansConfirmed(rules, c.facts, requirements);
  }

  ghost predicate HasMatch(rules: Rules, candidates: seq<Candidate>, requirements: seq<Requirement>, part: nat) {
    exists i: nat :: MatchOf(rules, candidates, requirements, i, part)
  }

  lemma {:induction false} MatchSnoc(rules: Rules, before: seq<Candidate>, c: Candidate, requirements: seq<Requirement>, part: nat)
    ensures HasMatch(rules, before + [c], requirements, part)
       <==> HasMatch(rules, before, requirements, part) || (c.part == part && IsMatch(rules, c, requirements))
  {
    var all := before + [c];
    if i: nat :| MatchOf(rules, before, requirements, i, part) {
      assert all[i] == before[i];
      assert MatchOf(rules, all, requirements, i, part);
    }
    if c.part == part && IsMatch(rules, c, requirements) {
      assert all[|before|] == c;
      assert MatchOf(rules, all, requirements, |before|, part);
    }
    if i: nat :| MatchOf(rules, all, requirements, i, part) {
      if i < |before| {
        assert all[i] == before[i];
        assert MatchOf(rules, before, requirements, i, part);
      }
    }
  }

  /** A part is listed as a match exactly when some candidate of that part is confirmed on every requirement. */
  lemma {:induction false} MatchesAreConfirmed(rules: Rules, candidates: seq<Candidate>, requirements: seq<Requirement>, part: nat)
    requires SoundCandidates(candidates, requirements)
    ensures part in Found(rules, candidates, requirements).matches <==> HasMatch(rules, candidates, requirements, part)
    decreases |candidates|
  {
    if candidates == [] {
      assert forall i: nat :: !MatchOf(rules, candidates, requirements, i, part);
    } else {
      var before, c := candidates[..|candidates| - 1], candidates[|candidates| - 1];
      assert candidates == before + [c];
      MatchesAreConfirmed(rules, before, requirements, part);
      ListedMatch(rules, ListedAll(rules, before, requirements), c, requirements);
      MatchSnoc(rules, before, c, requirements, part);
    }
  }

  function PartialParts(l: Listing): seq<nat> { seq(|l.partial|, i requires 0 <= i < |l.partial| => l.partial[i].1) }

  function PartsOf(candidates: seq<Candidate>): seq<nat> { seq(|candidates|, i requires 0 <= i < |candidates| => candidates[i].part) }

  function Everyone(l: Listing): multiset<nat> {
    multiset(l.matches) + multiset(l.incomplete) + multiset(PartialParts(l))
  }

  lemma {:induction false} ListedOnce(l: Listing, c: Candidate, a: Assessment)
    ensures Everyone(Listed(l, c, a)) == Everyone(l) + multiset{c.part}
  {
    var after := Listed(l, c, a);
    if a.failed != [] || c.mismatched {
      assert PartialParts(after) == PartialParts(l) + [c.part];
    } else {
      assert PartialParts(after) == PartialParts(l);
    }
  }

  lemma {:induction false} PlacedParts(l: Listing, sorted: seq<(Rank, nat)>, entry: (Rank, nat))
    ensures multiset(PartialParts(l.(partial := Placed(sorted, entry)))) == multiset(PartialParts(l.(partial := sorted))) + multiset{entry.1}
    decreases |sorted|
  {
    var after := PartialParts(l.(partial := Placed(sorted, entry)));
    if sorted == [] {
      assert after == [entry.1];
    } else if Ahead(entry.0, sorted[0].0) {
      assert after == [entry.1] + PartialParts(l.(partial := sorted));
    } else {
      PlacedParts(l, sorted[1..], entry);
      assert after == [sorted[0].1] + PartialParts(l.(partial := Placed(sorted[1..], entry)));
      assert PartialParts(l.(partial := sorted)) == [sorted[0].1] + PartialParts(l.(partial := sorted[1..]));
    }
  }

  lemma {:induction false} RankedParts(l: Listing, partial: seq<(Rank, nat)>)
    ensures multiset(PartialParts(l.(partial := Ranked(partial)))) == multiset(PartialParts(l.(partial := partial)))
    decreases |partial|
  {
    if partial != [] {
      var before, last := partial[..|partial| - 1], partial[|partial| - 1];
      RankedParts(l, before);
      PlacedParts(l, Ranked(before), last);
      assert PartialParts(l.(partial := partial)) == PartialParts(l.(partial := before)) + [last.1];
    }
  }

  /** Each candidate is listed exactly once, in exactly one of the three lists, and the partial ones in order
      of rank. */
  lemma {:induction false} EachCandidateOnce(rules: Rules, candidates: seq<Candidate>, requirements: seq<Requirement>)
    ensures Everyone(Found(rules, candidates, requirements)) == multiset(PartsOf(candidates))
    ensures InOrder(Found(rules, candidates, requirements).partial)
  {
    var l := ListedAll(rules, candidates, requirements);
    AllListedOnce(rules, candidates, requirements);
    RankedParts(l, l.partial);
    assert l.(partial := l.partial) == l;
    RankedInOrder(l.partial);
  }

  lemma {:induction false} AllListedOnce(rules: Rules, candidates: seq<Candidate>, requirements: seq<Requirement>)
    ensures Everyone(ListedAll(rules, candidates, requirements)) == multiset(PartsOf(candidates))
    decreases |candidates|
  {
    if candidates == [] {
      assert PartsOf(candidates) == [];
    } else {
      var before, c := candidates[..|candidates| - 1], candidates[|candidates| - 1];
      AllListedOnce(rules, before, requirements);
      ListedOnce(ListedAll(rules, before, requirements), c, Assessed(rules, c.facts, requirements));
      assert PartsOf(candidates) == PartsOf(before) + [c.part];
    }
  }

  // ----- paging -----

  function NextOffset(count: nat, limit: nat, offset: nat): Option<nat> {
    if offset + limit < count then Some(offset + limit) else None
  }

  function Least(a: nat, b: nat): nat { if a < b then a else b }

  /** `rows[offset:offset + limit]`. */
  function PageAt<T>(rows: seq<T>, limit: nat, offset: nat): seq<T> {
    rows[Least(offset, |rows|)..Least(offset + limit, |rows|)]
  }

  /** The pages a client sees following `next_offset` from here. */
  function PagesFrom<T>(rows: seq<T>, count: nat, limit: nat, offset: nat): seq<T>
    requires limit > 0
    decreases count - offset
  {
    match NextOffset(count, limit, offset)
    case None => PageAt(rows, limit, offset)
    case Some(next) => PageAt(rows, limit, offset) + PagesFrom(rows, count, limit, next)
  }

  /** The offset that counts the longest list enumerates each list once, in order. */
  lemma {:induction false} PagesEnumerate<T>(rows: seq<T>, count: nat, limit: nat, offset: nat)
    requires limit > 0 && |rows| <= count
    ensures PagesFrom(rows, count, limit, offset) == rows[Least(offset, |rows|)..]
    decreases count - offset
  {
    if offset + limit < count {
      PagesEnumerate(rows, count, limit, offset + limit);
    }
  }

  function Longest(l: Listing): nat {
    var ab := if |l.matches| > |l.incomplete| then |l.matches| else |l.incomplete|;
    if ab > |l.partial| then ab else |l.partial|
  }

  /** So following `next_offset` shows every list of a search exactly once. */
  lemma {:induction false} SearchPagesAreComplete(l: Listing, limit: nat)
    requires limit > 0
    ensures PagesFrom(l.matches, Longest(l), limit, 0) == l.matches
    ensures PagesFrom(l.incomplete, Longest(l), limit, 0) == l.incomplete
    ensures PagesFrom(l.partial, Longest(l), limit, 0) == l.partial
  {
    PagesEnumerate(l.matches, Longest(l), limit, 0);
    PagesEnumerate(l.incomplete, Longest(l), limit, 0);
    PagesEnumerate(l.partial, Longest(l), limit, 0);
  }
}
