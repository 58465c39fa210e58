/** The drift gate: a bench's aggregates against a baseline
    (cmd/ao-harness/bench_report_baseline.go). */
module Baseline {
  import opened Text
  import opened Sorting
  import opened Canonical
  import opened BenchMetrics

  const DEFAULT_TOLERANCE_PCT: real := 25.0

  datatype Tolerance = Tolerance(
    value: Option<real>, max: Option<real>, maxPctOver: Option<real>, min: Option<real>, minPctUnder: Option<real>)

  datatype BaselineFile = BaselineFile(metrics: map<string, Tolerance>, aggregate: map<string, Aggregate>)

  datatype Comparison = Comparison(metric: string, current: real, reference: real, limit: real, drift: bool)

  /** A resolved limit, or none. */
  function UpperLimit(tol: Tolerance): Option<real> {
    if tol.max.Some? then tol.max
    else if tol.value.None? then None
    else
      var pct := if tol.maxPctOver.Some? then tol.maxPctOver.value else DEFAULT_TOLERANCE_PCT;
      Some(tol.value.value * (1.0 + pct / 100.0))
  }

  function LowerLimit(tol: Tolerance): Option<real> {
    if tol.min.Some? then tol.min
    else if tol.value.None? then None
    else
      var pct := if tol.minPctUnder.Some? then tol.minPctUnder.value else DEFAULT_TOLERANCE_PCT;
      Some(tol.value.value * (1.0 - pct / 100.0))
  }

  function Evaluate(name: string, agg: Aggregate, tol: Tolerance): Comparison {
    var limit := if agg.lowerIsBetter then UpperLimit(tol) else LowerLimit(tol);
    Comparison(
      name, agg.p50,
      if tol.value.Some? then tol.value.value else 0.0,
      if limit.Some? then limit.value else 0.0,
      limit.Some? && if agg.lowerIsBetter then agg.p50 > limit.value else agg.p50 < limit.value)
  }

  function Referenced(agg: Aggregate): Tolerance { Tolerance(Some(agg.p50), None, None, None, None) }

  /** What the baseline asks of a name it mentions; an explicit budget wins. */
  function Asked(b: BaselineFile, name: string): Tolerance
    requires name in b.metrics || name in b.aggregate
  {
    if name in b.metrics then b.metrics[name] else Referenced(b.aggregate[name])
  }

  ghost predicate Mentions(b: BaselineFile, name: string) { name in b.metrics || name in b.aggregate }

  /** The tolerance table, filled by ranging over two maps in any order. */
  method Tolerances(b: BaselineFile) returns (tolerances: map<string, Tolerance>)
    ensures tolerances.Keys == b.metrics.Keys + b.aggregate.Keys
    ensures forall name :: name in tolerances ==> tolerances[name] == Asked(b, name)
  {
    tolerances := map[];
    var left := b.aggregate.Keys;
    while left != {}
      invariant left <= b.aggregate.Keys
      invariant tolerances.Keys == b.aggregate.Keys - left
      invariant forall name :: name in tolerances ==> tolerances[name] == Referenced(b.aggregate[name])
      decreases left
    {
      var name :| name in left;
      tolerances := tolerances[name := Referenced(b.aggregate[name])];
      left := left - {name};
    }
    left := b.metrics.Keys;
    while left != {}
      invariant left <= b.metrics.Keys
      invariant tolerances.Keys == b.aggregate.Keys + (b.metrics.Keys - left)
      invariant forall name :: name in b.metrics && name !in left ==> tolerances[name] == b.metrics[name]
      invariant forall name :: name in b.aggregate && (name !in b.metrics || name in left) ==>
                  tolerances[name] == Referenced(b.aggregate[name])
      decreases left
    {
      var name :| name in left;
      tolerances := tolerances[name := b.metrics[name]];
      left := left - {name};
    }
  }

  /** The names of the table, sorted. */
  method SortedNames(tolerances: map<string, Tolerance>) returns (names: seq<string>)
    ensures Increasing(names, Less)
    ensures forall name :: name in names <==> name in tolerances
  {
    var collected := [];
    var left := tolerances.Keys;
    while left != {}
      invariant left <= tolerances.Keys
      invariant forall name :: name in collected <==> name in tolerances && name !in left
      decreases left
    {
      var name :| name in left;
      collected := collected + [name];
      left := left - {name};
    }
    LessIsStrictWeakOrder();
    names := Canonicalise(collected, Less);
  }

  function Names(out: seq<Comparison>): (names: seq<string>)
    ensures |names| == |out| && forall i :: 0 <= i < |out| ==> names[i] == out[i].metric
  {
    seq(|out|, i requires 0 <= i < |out| => out[i].metric)
  }

  ghost predicate IsComparison(c: Comparison, current: map<string, Aggregate>, b: BaselineFile) {
    Mentions(b, c.metric) && c.metric in current && c == Evaluate(c.metric, current[c.metric], Asked(b, c.metric))
  }

  /** Every name lands once: among the comparisons if the run measured it, among the
      unmeasured if it did not, each list in name order. */
  ghost predicate IsVerdict(current: map<string, Aggregate>, b: BaselineFile, out: seq<Comparison>,
                            unmeasured: seq<string>, budgeted: seq<string>) {
    && Increasing(Names(out), Less) && Increasing(unmeasured, Less) && Increasing(budgeted, Less)
    && (forall name :: name in Names(out) <==> Mentions(b, name) && name in current)
    && (forall name :: name in unmeasured <==> Mentions(b, name) && name !in current)
    && (forall name :: name in budgeted <==> name in b.metrics && name !in current)
    && AllCompared(out, current, b)
  }

  lemma IncreasingAppend(s: seq<string>, names: seq<string>, k: nat)
    requires Increasing(names, Less) && k < |names| && Increasing(s, Less)
    requires forall x :: x in s ==> x in names[..k]
    ensures Increasing(s + [names[k]], Less)
  {
    forall i | 0 <= i < |s| ensures Less(s[i], names[k]) {
      assert s[i] in names[..k];
      var j :| 0 <= j < k && names[j] == s[i];
    }
  }

  /** The lists built so far, for the first k names. */
  ghost predicate Sorted3(names: seq<string>, k: nat, current: map<string, Aggregate>, b: BaselineFile,
                          out: seq<Comparison>, unmeasured: seq<string>, budgeted: seq<string>)
    requires k <= |names|
  {
    && Increasing(Names(out), Less) && Increasing(unmeasured, Less) && Increasing(budgeted, Less)
    && (forall name :: name in Names(out) <==> name in names[..k] && name in current)
    && (forall name :: name in unmeasured <==> name in names[..k] && name !in current)
    && (forall name :: name in budgeted <==> name in names[..k] && name in b.metrics && name !in current)
  }

  ghost predicate AllCompared(out: seq<Comparison>, current: map<string, Aggregate>, b: BaselineFile) {
    forall i :: 0 <= i < |out| ==> IsComparison(out[i], current, b)
  }

  lemma NamesAppend(out: seq<Comparison>, c: Comparison)
    ensures Names(out + [c]) == Names(out) + [c.metric]
  {
  }

  lemma AddMeasured(names: seq<string>, k: nat, current: map<string, Aggregate>, b: BaselineFile,
                    out: seq<Comparison>, unmeasured: seq<string>, budgeted: seq<string>, c: Comparison)
    requires Increasing(names, Less) && k < |names| && Sorted3(names, k, current, b, out, unmeasured, budgeted)
    requires c.metric == names[k] && names[k] in current
    ensures Sorted3(names, k + 1, current, b, out + [c], unmeasured, budgeted)
  {
    NamesAppend(out, c);
    IncreasingAppend(Names(out), names, k);
    assert names[..k + 1] == names[..k] + [names[k]];
  }

  lemma AddUnmeasured(names: seq<string>, k: nat, current: map<string, Aggregate>, b: BaselineFile,
                      out: seq<Comparison>, unmeasured: seq<string>, budgeted: seq<string>)
    requires Increasing(names, Less) && k < |names| && Sorted3(names, k, current, b, out, unmeasured, budgeted)
    requires names[k] !in current
    ensures Sorted3(names, k + 1, current, b, out, unmeasured + [names[k]],
                    if names[k] in b.metrics then budgeted + [names[k]] else budgeted)
  {
    IncreasingAppend(unmeasured, names, k);
    IncreasingAppend(budgeted, names, k);
    assert names[..k + 1] == names[..k] + [names[k]];
  }

  /** One name's turn. */
  method CompareOne(ghost names: seq<string>, ghost k: nat, current: map<string, Aggregate>, b: BaselineFile,
                    name: string, tol: Tolerance,
                    out0: seq<Comparison>, unmeasured0: seq<string>, budgeted0: seq<string>)
    returns (out: seq<Comparison>, unmeasured: seq<string>, budgeted: seq<string>)
    requires Increasing(names, Less) && k < |names| && names[k] == name && Mentions(b, name) && tol == Asked(b, name)
    requires Sorted3(names, k, current, b, out0, unmeasured0, budgeted0) && AllCompared(out0, current, b)
    ensures Sorted3(names, k + 1, current, b, out, unmeasured, budgeted) && AllCompared(out, current, b)
  {
    out, unmeasured, budgeted := out0, unmeasured0, budgeted0;
    if name !in current {
      AddUnmeasured(names, k, current, b, out, unmeasured, budgeted);
      unmeasured := unmeasured + [name];
      if name in b.metrics { budgeted := budgeted + [name]; }
    } else {
      var c := Evaluate(name, current[name], tol);
      AddMeasured(names, k, current, b, out, unmeasured, budgeted, c);
      out := out + [c];
    }
  }

  /** compareToBaselineDetailed */
  method CompareToBaseline(current: map<string, Aggregate>, b: BaselineFile)
    returns (out: seq<Comparison>, unmeasured: seq<string>, budgeted: seq<string>)
    ensures IsVerdict(current, b, out, unmeasured, budgeted)
  {
    var tolerances := Tolerances(b);
    var names := SortedNames(tolerances);
    out, unmeasured, budgeted := [], [], [];
    for k := 0 to |names|
      invariant Sorted3(names, k, current, b, out, unmeasured, budgeted)
      invariant AllCompared(out, current, b)
    {
      assert names[k] in names;
      out, unmeasured, budgeted :=
        CompareOne(names, k, current, b, names[k], tolerances[names[k]], out, unmeasured, budgeted);
    }
    assert names[..|names|] == names;
    Landed(names, current, b, out, unmeasured, budgeted);
  }

  lemma Landed(names: seq<string>, current: map<string, Aggregate>, b: BaselineFile,
               out: seq<Comparison>, unmeasured: seq<string>, budgeted: seq<string>)
    requires Sorted3(names, |names|, current, b, out, unmeasured, budgeted) && AllCompared(out, current, b)
    requires forall name :: name in names <==> Mentions(b, name)
    ensures IsVerdict(current, b, out, unmeasured, budgeted)
  {
    assert names[..|names|] == names;
  }

  // ---- the gate's meaning

  /** The verdict is settled by the current numbers and the baseline, whatever order the maps
      are ranged over. */
  lemma VerdictIsUnique(current: map<string, Aggregate>, b: BaselineFile,
                        out1: seq<Comparison>, un1: seq<string>, bu1: seq<string>,
                        out2: seq<Comparison>, un2: seq<string>, bu2: seq<string>)
    requires IsVerdict(current, b, out1, un1, bu1) && IsVerdict(current, b, out2, un2, bu2)
    ensures out1 == out2 && un1 == un2 && bu1 == bu2
  {
    LessIsStrictWeakOrder();
    IncreasingUnique(un1, un2, Less);
    IncreasingUnique(bu1, bu2, Less);
    IncreasingUnique(Names(out1), Names(out2), Less);
    forall i | 0 <= i < |out1| ensures out1[i] == out2[i] {
      assert IsComparison(out1[i], current, b) && IsComparison(out2[i], current, b);
      assert Names(out1)[i] == Names(out2)[i];
    }
  }

  /** A worse number never passes where a better one drifts. */
  lemma WorseDriftsToo(name: string, a: Aggregate, b: Aggregate, tol: Tolerance)
    requires a.lowerIsBetter == b.lowerIsBetter
    requires if a.lowerIsBetter then a.p50 <= b.p50 else a.p50 >= b.p50
    requires Evaluate(name, a, tol).drift
    ensures Evaluate(name, b, tol).drift
  {
  }

  /** When a comparison drifts, without division: past an explicit ceiling or floor whatever
      the reference; else past the reference by more than the percentage given, or 25; never
      without a reference. */
  lemma DriftIff(name: string, agg: Aggregate, tol: Tolerance)
    ensures Evaluate(name, agg, tol).drift <==>
            if agg.lowerIsBetter then
              if tol.max.Some? then agg.p50 > tol.max.value
              else tol.value.Some? && 100.0 * (agg.p50 - tol.value.value) > tol.value.value * Percent(tol.maxPctOver)
            else
              if tol.min.Some? then agg.p50 < tol.min.value
              else tol.value.Some? && 100.0 * (tol.value.value - agg.p50) > tol.value.value * Percent(tol.minPctUnder)
  {
    if tol.value.Some? {
      PercentOf(tol.value.value, Percent(tol.maxPctOver));
      PercentOf(tol.value.value, Percent(tol.minPctUnder));
    }
  }

  function Percent(given: Option<real>): real { if given.Some? then given.value else 25.0 }

  lemma PercentOf(v: real, pct: real)
    ensures 100.0 * (v * (1.0 + pct / 100.0)) == 100.0 * v + v * pct
    ensures 100.0 * (v * (1.0 - pct / 100.0)) == 100.0 * v - v * pct
  {
    var f := pct / 100.0;
    assert pct == 100.0 * f;
    assert v * (1.0 + f) == v + v * f && v * (1.0 - f) == v - v * f;
    assert v * pct == 100.0 * (v * f);
  }

  /** Against its own aggregate a metric drifts exactly when its median is negative. */
  lemma SelfDriftIff(name: string, agg: Aggregate)
    ensures Evaluate(name, agg, Referenced(agg)).drift <==> agg.p50 < 0.0
  {
    Quarter(agg.p50);
  }

  lemma Quarter(p: real)
    ensures p * (1.0 + 25.0 / 100.0) == p + p / 4.0
    ensures p * (1.0 - 25.0 / 100.0) == p - p / 4.0
  {
    assert 25.0 / 100.0 == 0.25;
  }

  lemma EmptyOrNot(s: seq<string>)
    ensures s == [] || exists x :: x in s
  {
    if s != [] { assert s[0] in s; }
  }

  /** A report gated on its own aggregate, with no explicit budgets: nothing is unmeasured,
      every metric is compared, and one drifts exactly when its median is negative; so a
      report of non-negative samples never drifts. */
  lemma SelfComparison(current: map<string, Aggregate>, out: seq<Comparison>, unmeasured: seq<string>, budgeted: seq<string>)
    requires IsVerdict(current, BaselineFile(map[], current), out, unmeasured, budgeted)
    ensures unmeasured == [] && budgeted == []
    ensures forall name :: name in Names(out) <==> name in current
    ensures forall i :: 0 <= i < |out| ==>
              out[i].metric in current && (out[i].drift <==> current[out[i].metric].p50 < 0.0)
  {
    var b := BaselineFile(map[], current);
    assert forall name :: Mentions(b, name) ==> name in current;
    EmptyOrNot(unmeasured);
    EmptyOrNot(budgeted);
    forall i | 0 <= i < |out|
      ensures out[i].metric in current && (out[i].drift <==> current[out[i].metric].p50 < 0.0)
    {
      assert IsComparison(out[i], current, b);
      SelfDriftIff(out[i].metric, current[out[i].metric]);
    }
  }

  /** Non-negative samples have a non-negative median. */
  lemma NonNegativeNeverDrifts(name: string, values: seq<real>, lowerIsBetter: bool)
    requires values != [] && forall v :: v in values ==> v >= 0.0
    ensures !Evaluate(name, AggregateOf(values, lowerIsBetter), Referenced(AggregateOf(values, lowerIsBetter))).drift
  {
    AggregateOrder(values, lowerIsBetter);
    SelfDriftIff(name, AggregateOf(values, lowerIsBetter));
  }

  /** What a comparison says: this run's median; an explicit ceiling or floor whatever the
      aggregate says of the name; else, for a name only the aggregate has, its median as the
      reference, 25 percent either way. */
  lemma ExplicitBudgetWins(current: map<string, Aggregate>, b: BaselineFile, out: seq<Comparison>,
                           unmeasured: seq<string>, budgeted: seq<string>, i: nat)
    requires IsVerdict(current, b, out, unmeasured, budgeted) && i < |out|
    ensures out[i].metric in current && out[i].current == current[out[i].metric].p50
    ensures var c, lower := out[i], current[out[i].metric].lowerIsBetter;
            c.metric in b.metrics && (if lower then b.metrics[c.metric].max.Some? else b.metrics[c.metric].min.Some?) ==>
              if lower then c.limit == b.metrics[c.metric].max.value && (c.drift <==> c.current > c.limit)
              else c.limit == b.metrics[c.metric].min.value && (c.drift <==> c.current < c.limit)
    ensures var c, lower := out[i], current[out[i].metric].lowerIsBetter;
            c.metric !in b.metrics ==>
              c.metric in b.aggregate && c.reference == b.aggregate[c.metric].p50 &&
              (c.drift <==> if lower then 100.0 * (c.current - c.reference) > 25.0 * c.reference
                            else 100.0 * (c.reference - c.current) > 25.0 * c.reference)
  {
    var name := out[i].metric;
    assert IsComparison(out[i], current, b);
    DriftIff(name, current[name], Asked(b, name));
  }

  /** Every value the vocabulary measures in the repeats is non-negative. */
  ghost predicate NonNegative(metrics: seq<Metric>, reports: seq<Report>) {
    forall i, v :: 0 <= i < |metrics| && v in Values(metrics[i], reports) ==> v >= 0.0
  }

  lemma FoldedMedian(metrics: seq<Metric>, reports: seq<Report>, current: map<string, Aggregate>, name: string)
    requires FoldedUpTo(metrics, |metrics|, reports, current) && NonNegative(metrics, reports) && name in current
    ensures current[name].p50 >= 0.0
  {
    var i :| 0 <= i < |metrics| && metrics[i].name == name;
    assert IsFolded(metrics[i], reports, current);
    AggregateOrder(Values(metrics[i], reports), metrics[i].lowerIsBetter);
  }

  /** A bench of non-negative samples gated on its own aggregate passes: nothing it compares
      drifts. */
  lemma OwnAggregatePasses(metrics: seq<Metric>, reports: seq<Report>, current: map<string, Aggregate>,
                           out: seq<Comparison>, unmeasured: seq<string>, budgeted: seq<string>)
    requires FoldedUpTo(metrics, |metrics|, reports, current) && NonNegative(metrics, reports)
    requires IsVerdict(current, BaselineFile(map[], current), out, unmeasured, budgeted)
    ensures unmeasured == [] && forall i :: 0 <= i < |out| ==> !out[i].drift
  {
    SelfComparison(current, out, unmeasured, budgeted);
    forall i | 0 <= i < |out| ensures !out[i].drift {
      FoldedMedian(metrics, reports, current, out[i].metric);
    }
  }

  /** The same from the repeats on, with both methods called. */
  method GateOnItself(reports: seq<Report>, spell: real -> string) returns (out: seq<Comparison>, unmeasured: seq<string>)
    requires SpelledApart(reports, spell)
    requires forall m, v :: v in Values(m, reports) ==> v >= 0.0
    ensures unmeasured == [] && forall i :: 0 <= i < |out| ==> !out[i].drift
  {
    ghost var budgets;
    var current, budgeted;
    current, budgets := AggregateBenchMetrics(reports, spell);
    out, unmeasured, budgeted := CompareToBaseline(current, BaselineFile(map[], current));
    OwnAggregatePasses(FixedMetrics() + budgets, reports, current, out, unmeasured, budgeted);
  }

  /** A page report with one negative sample drifts from itself. */
  lemma NegativeMedianDrifts()
    ensures Evaluate("layoutShift", AggregateOf([-1.0], true), Referenced(AggregateOf([-1.0], true))).drift
  {
    OneRepeat(-1.0, true);
    SelfDriftIff("layoutShift", AggregateOf([-1.0], true));
  }
}
