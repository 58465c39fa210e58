/** Folding a bench's repeats into nearest-rank percentiles
    (cmd/ao-harness/bench_report_metrics.go). Numbers are exact: fractions are rationals. */
module BenchMetrics {
  import opened Text
  import opened Sorting
  import opened Canonical

  datatype Fit = Fit(budgetMs: real, withinPct: real)

  datatype Frontend = Frontend(busyMeasured: bool, ticks: nat, budgets: seq<Fit>)

  /** One repeat: what it measured by name, and its page's budgets. */
  datatype Report = Report(readings: map<string, real>, frontend: Option<Frontend>)

  datatype Metric =
    | Fixed(name: string, lowerIsBetter: bool)
    | BusyFit(name: string, lowerIsBetter: bool, budgetMs: real)

  function FitFor(budgets: seq<Fit>, budgetMs: real): Option<real> {
    if budgets == [] then None
    else if budgets[0].budgetMs == budgetMs then Some(budgets[0].withinPct)
    else FitFor(budgets[1..], budgetMs)
  }

  /** What a repeat measured, absent rather than zero when it did not. */
  function Read(m: Metric, r: Report): Option<real> {
    match m
    case Fixed(name, _) => if name in r.readings then Some(r.readings[name]) else None
    case BusyFit(_, _, budgetMs) =>
      if r.frontend.None? || !r.frontend.value.busyMeasured || r.frontend.value.ticks == 0 then None
      else FitFor(r.frontend.value.budgets, budgetMs)
  }

  function Measured(m: Metric, r: Report): seq<real> {
    if Read(m, r).Some? then [Read(m, r).value] else []
  }

  /** The measured values, in the order of the repeats. */
  function Values(m: Metric, reports: seq<Report>): seq<real> {
    if reports == [] then [] else Values(m, reports[..|reports| - 1]) + Measured(m, reports[|reports| - 1])
  }

  datatype Aggregate = Aggregate(runs: nat, p50: real, p95: real, min: real, max: real, lowerIsBetter: bool)

  function Below(): (real, real) -> bool { (x: real, y: real) => x < y }

  function InOrder(values: seq<real>): (s: seq<real>)
    ensures Sorted(s, Below()) && multiset(s) == multiset(values) && |s| == |values|
  {
    var s := SortedCopy(values, Below());
    assert |multiset(s)| == |multiset(values)|;
    s
  }

  function Ceil(num: nat, den: nat): (c: nat)
    requires den > 0
    ensures den * c >= num && (c > 0 ==> den * (c - 1) < num)
  {
    (num + den - 1) / den
  }

  /** ceil(pct/100 * n), clamped to 1..n. */
  function RankOf(n: nat, pct: nat): (r: nat)
    requires n > 0
    ensures 1 <= r <= n
  {
    var rank := Ceil(pct * n, 100);
    if rank < 1 then 1 else if rank > n then n else rank
  }

  function NearestRank(sorted: seq<real>, pct: nat): real {
    if sorted == [] then 0.0 else sorted[RankOf(|sorted|, pct) - 1]
  }

  /** The aggregate of a metric's values: a function of them alone. */
  function AggregateOf(values: seq<real>, lowerIsBetter: bool): Aggregate
    requires values != []
  {
    var s := InOrder(values);
    Aggregate(|values|, NearestRank(s, 50), NearestRank(s, 95), s[0], s[|s| - 1], lowerIsBetter)
  }

  lemma SortedIsInOrder(values: seq<real>, s: seq<real>)
    requires Sorted(s, Below()) && multiset(s) == multiset(values)
    ensures s == InOrder(values)
  {
    SortedUnique(s, InOrder(values), Below());
  }

  // ---- the fold

  method MeasuredValues(m: Metric, reports: seq<Report>) returns (values: seq<real>)
    ensures values == Values(m, reports)
  {
    values := [];
    for i := 0 to |reports|
      invariant values == Values(m, reports[..i])
    {
      assert reports[..i + 1][..i] == reports[..i];
      var reading := Read(m, reports[i]);
      if reading.Some? { values := values + [reading.value]; }
    }
    assert reports[..|reports|] == reports;
  }

  method SortValues(values: seq<real>) returns (s: seq<real>)
    ensures s == InOrder(values)
  {
    var a := new real[|values|](i requires 0 <= i < |values| => values[i]);
    assert a[..] == values;
    SortSlice(a, Below());
    s := a[..];
    SortedIsInOrder(values, s);
  }

  method Fold(values: seq<real>, lowerIsBetter: bool) returns (agg: Aggregate)
    requires values != []
    ensures agg == AggregateOf(values, lowerIsBetter)
  {
    var s := SortValues(values);
    agg := Aggregate(|s|, NearestRank(s, 50), NearestRank(s, 95), s[0], s[|s| - 1], lowerIsBetter);
  }

  /** A metric is present exactly when some repeat measured it, with the aggregate of what
      they measured. */
  ghost predicate IsFolded(m: Metric, reports: seq<Report>, out: map<string, Aggregate>) {
    && (m.name in out <==> Values(m, reports) != [])
    && (m.name in out ==> out[m.name] == AggregateOf(Values(m, reports), m.lowerIsBetter))
  }

  predicate DistinctNames(metrics: seq<Metric>) {
    forall i, j :: 0 <= i < j < |metrics| ==> metrics[i].name != metrics[j].name
  }

  /** The first k metrics are folded, and nothing else is there. */
  ghost predicate FoldedUpTo(metrics: seq<Metric>, k: nat, reports: seq<Report>, out: map<string, Aggregate>)
    requires k <= |metrics|
  {
    && (forall i :: 0 <= i < k ==> IsFolded(metrics[i], reports, out))
    && (forall name :: name in out ==> exists i :: 0 <= i < k && metrics[i].name == name)
  }

  lemma FoldOneMore(metrics: seq<Metric>, k: nat, reports: seq<Report>, out: map<string, Aggregate>, next: map<string, Aggregate>)
    requires k < |metrics| && DistinctNames(metrics) && FoldedUpTo(metrics, k, reports, out)
    requires IsFolded(metrics[k], reports, next)
    requires next == out || (metrics[k].name in next && next == out[metrics[k].name := next[metrics[k].name]])
    ensures FoldedUpTo(metrics, k + 1, reports, next)
  {
    forall i | 0 <= i < k ensures IsFolded(metrics[i], reports, next) {
      if next != out { FoldedBeside(metrics[i], reports, out, metrics[k].name, next[metrics[k].name]); }
    }
    forall name | name in next ensures exists i :: 0 <= i < k + 1 && metrics[i].name == name {
      if name in out {
        var i :| 0 <= i < k && metrics[i].name == name;
      } else {
        assert metrics[k].name == name;
      }
    }
  }

  /** The fold over a vocabulary of distinct names. */
  method AggregateOver(metrics: seq<Metric>, reports: seq<Report>) returns (out: map<string, Aggregate>)
    requires DistinctNames(metrics)
    ensures FoldedUpTo(metrics, |metrics|, reports, out)
  {
    out := map[];
    for k := 0 to |metrics|
      invariant FoldedUpTo(metrics, k, reports, out)
    {
      ghost var before := out;
      assert metrics[k].name !in out;
      out := AggregateOne(metrics[k], reports, out);
      FoldOneMore(metrics, k, reports, before, out);
    }
  }

  /** The loop's body: one metric's aggregate, if any repeat measured it. */
  method AggregateOne(m: Metric, reports: seq<Report>, before: map<string, Aggregate>) returns (out: map<string, Aggregate>)
    requires m.name !in before
    ensures IsFolded(m, reports, out)
    ensures out == before || (m.name in out && out == before[m.name := out[m.name]])
  {
    out := before;
    var values := MeasuredValues(m, reports);
    if values != [] {
      var agg := Fold(values, m.lowerIsBetter);
      out := before[m.name := agg];
    }
  }

  lemma FoldedBeside(m: Metric, reports: seq<Report>, out: map<string, Aggregate>, name: string, agg: Aggregate)
    requires IsFolded(m, reports, out) && m.name != name
    ensures IsFolded(m, reports, out[name := agg])
  {
  }

  ghost predicate Carried(reports: seq<Report>, budgetMs: real) {
    exists r, fit :: r in reports && r.frontend.Some? && fit in r.frontend.value.budgets && fit.budgetMs == budgetMs
  }

  function BudgetsOf(r: Report): seq<real> {
    if r.frontend.None? then [] else seq(|r.frontend.value.budgets|, i requires 0 <= i < |r.frontend.value.budgets| => r.frontend.value.budgets[i].budgetMs)
  }

  method SeenBudgets(reports: seq<Report>) returns (seen: seq<real>)
    ensures forall b :: b in seen <==> Carried(reports, b)
  {
    seen := [];
    for i := 0 to |reports|
      invariant forall b :: b in seen <==> Carried(reports[..i], b)
    {
      CarriedNext(reports, i);
      seen := seen + BudgetsOf(reports[i]);
    }
    assert reports[..|reports|] == reports;
  }

  lemma CarriedNext(reports: seq<Report>, i: nat)
    requires i < |reports|
    ensures forall b :: Carried(reports[..i + 1], b) <==> Carried(reports[..i], b) || b in BudgetsOf(reports[i])
  {
    var r := reports[i];
    assert reports[..i + 1] == reports[..i] + [r];
    forall b
      ensures Carried(reports[..i + 1], b) <==> Carried(reports[..i], b) || b in BudgetsOf(r)
    {
      if Carried(reports[..i], b) {
        var r0, fit :| r0 in reports[..i] && r0.frontend.Some? && fit in r0.frontend.value.budgets && fit.budgetMs == b;
        assert r0 in reports[..i + 1];
      }
      if b in BudgetsOf(r) {
        var k :| 0 <= k < |BudgetsOf(r)| && BudgetsOf(r)[k] == b;
        assert r in reports[..i + 1] && r.frontend.value.budgets[k] in r.frontend.value.budgets;
      }
      if Carried(reports[..i + 1], b) && !Carried(reports[..i], b) {
        var r0, fit :| r0 in reports[..i + 1] && r0.frontend.Some? && fit in r0.frontend.value.budgets && fit.budgetMs == b;
        assert r0 == r;
        var k :| 0 <= k < |r.frontend.value.budgets| && r.frontend.value.budgets[k] == fit;
        assert BudgetsOf(r)[k] == b;
      }
    }
  }

  /** The spelling tells the budgets of these repeats apart, as printing floats does. */
  ghost predicate SpelledApart(reports: seq<Report>, spell: real -> string) {
    forall x, y :: Carried(reports, x) && Carried(reports, y) && spell(x) == spell(y) ==> x == y
  }

  /** benchBudgetMetrics: one metric for each budget any repeat carries, in budget order,
      whatever order the repeats and the set of budgets come in. */
  method BenchBudgetMetrics(reports: seq<Report>, spell: real -> string) returns (metrics: seq<Metric>)
    requires SpelledApart(reports, spell)
    ensures AreBudgetMetrics(metrics, reports, spell) && DistinctNames(metrics)
  {
    var seen := SeenBudgets(reports);
    var budgets := Canonicalise(seen, Below());
    metrics := seq(|budgets|, i requires 0 <= i < |budgets| => BusyFit(BusyFitName(spell(budgets[i])), false, budgets[i]));
    forall b ensures Carried(reports, b) <==> exists i :: 0 <= i < |metrics| && metrics[i].BusyFit? && metrics[i].budgetMs == b {
      assert b in seen <==> b in budgets;
      if b in budgets {
        var i :| 0 <= i < |budgets| && budgets[i] == b;
        assert metrics[i].budgetMs == b;
      }
    }
    forall i, j | 0 <= i < j < |metrics| ensures metrics[i].budgetMs < metrics[j].budgetMs && metrics[i].name != metrics[j].name {
      assert Below()(budgets[i], budgets[j]);
      assert budgets[i] in budgets && budgets[j] in budgets;
      if metrics[i].name == metrics[j].name { BusyFitNameInjective(spell(budgets[i]), spell(budgets[j])); }
    }
  }

  // ---- the whole vocabulary

  /** benchMetrics: the fixed vocabulary, in print order. */
  function FixedMetrics(): seq<Metric> {
    [
      Fixed("duration.ms", true),
      Fixed("frames.fps", false),
      Fixed("frames.p50Ms", true),
      Fixed("frames.p95Ms", true),
      Fixed("frames.p99Ms", true),
      Fixed("frames.maxMs", true),
      Fixed("frames.long", true),
      Fixed("busy.p50Ms", true),
      Fixed("busy.p95Ms", true),
      Fixed("busy.maxMs", true),
      Fixed("longTasks", true),
      Fixed("longestTaskMs", true),
      Fixed("longAnimationFrames", true),
      Fixed("longestAnimationFrameMs", true),
      Fixed("layoutShift", true),
      Fixed("slowEvents", true),
      Fixed("glide.droppedFrames", true),
      Fixed("glide.maxHoleFrames", true),
      Fixed("glide.lateTicks", true),
      Fixed("glide.unevenWrites", true),
      Fixed("glide.stepJumps", true),
      Fixed("glide.fallbackTicks", true),
      Fixed("domNodes.max", true),
      Fixed("jsHeap.maxBytes", true),
      Fixed("goHeap.maxBytes", true),
      Fixed("goroutines.max", true),
      Fixed("webviewRss.maxBytes", true)
    ]
  }

  /** busyFitMetricName, of a budget already spelled. */
  function BusyFitName(spelled: string): string { "busy.fitPct." + spelled + "ms" }

  /** Of the fixed metrics only the frame rate is better higher. */
  lemma OnlyTheFrameRateIsBetterHigher(i: nat)
    requires i < |FixedMetrics()|
    ensures FixedMetrics()[i].lowerIsBetter <==> i != 1
    ensures FixedMetrics()[1].name == "frames.fps"
  {
  }

  lemma FirstNamesDiffer(i: nat, j: nat)
    requires i < j < |FixedMetrics()| && i < 3
    ensures FixedMetrics()[i].name != FixedMetrics()[j].name
  {
  }

  lemma SecondNamesDiffer(i: nat, j: nat)
    requires i < j < |FixedMetrics()| && 3 <= i < 6
    ensures FixedMetrics()[i].name != FixedMetrics()[j].name
  {
  }

  lemma ThirdNamesDiffer(i: nat, j: nat)
    requires i < j < |FixedMetrics()| && 6 <= i < 10
    ensures FixedMetrics()[i].name != FixedMetrics()[j].name
  {
  }

  lemma FourthNamesDiffer(i: nat, j: nat)
    requires i < j < |FixedMetrics()| && 10 <= i < 16
    ensures FixedMetrics()[i].name != FixedMetrics()[j].name
  {
  }

  lemma FifthNamesDiffer(i: nat, j: nat)
    requires i < j < |FixedMetrics()| && 16 <= i
    ensures FixedMetrics()[i].name != FixedMetrics()[j].name
  {
  }

  lemma FixedNamesDiffer(i: nat, j: nat)
    requires i < j < |FixedMetrics()|
    ensures FixedMetrics()[i].name != FixedMetrics()[j].name
  {
    if i < 3 { FirstNamesDiffer(i, j); }
    else if i < 6 { SecondNamesDiffer(i, j); }
    else if i < 10 { ThirdNamesDiffer(i, j); }
    else if i < 16 { FourthNamesDiffer(i, j); }
    else { FifthNamesDiffer(i, j); }
  }

  lemma FixedIsNoBudget(i: nat, spelled: string)
    requires i < |FixedMetrics()|
    ensures FixedMetrics()[i].name != BusyFitName(spelled)
  {
    var name := FixedMetrics()[i].name;
    assert |name| > 5 && !(name[0] == 'b' && name[5] == 'f');
    assert BusyFitName(spelled)[0] == 'b' && BusyFitName(spelled)[5] == 'f';
  }

  lemma BusyFitNameInjective(x: string, y: string)
    requires BusyFitName(x) == BusyFitName(y)
    ensures x == y
  {
    assert x == BusyFitName(x)[12..12 + |x|] && y == BusyFitName(y)[12..12 + |y|];
    assert |BusyFitName(x)| == |x| + 14 && |BusyFitName(y)| == |y| + 14;
  }

  /** The metrics the budgets of some repeats stand for. */
  ghost predicate AreBudgetMetrics(metrics: seq<Metric>, reports: seq<Report>, spell: real -> string) {
    && (forall i :: 0 <= i < |metrics| ==>
          metrics[i].BusyFit? && metrics[i] == BusyFit(BusyFitName(spell(metrics[i].budgetMs)), false, metrics[i].budgetMs))
    && (forall i, j :: 0 <= i < j < |metrics| && metrics[i].BusyFit? && metrics[j].BusyFit? ==>
          metrics[i].budgetMs < metrics[j].budgetMs)
    && (forall b :: Carried(reports, b) <==> exists i :: 0 <= i < |metrics| && metrics[i].BusyFit? && metrics[i].budgetMs == b)
  }

  lemma DistinctBeside(fixed: seq<Metric>, budgets: seq<Metric>)
    requires DistinctNames(fixed) && DistinctNames(budgets)
    requires forall i, j :: 0 <= i < |fixed| && 0 <= j < |budgets| ==> fixed[i].name != budgets[j].name
    ensures DistinctNames(fixed + budgets)
  {
  }

  /** No two names of the whole vocabulary are the same. */
  lemma VocabularyIsDistinct(reports: seq<Report>, budgets: seq<Metric>, spell: real -> string)
    requires AreBudgetMetrics(budgets, reports, spell) && DistinctNames(budgets)
    ensures DistinctNames(FixedMetrics() + budgets)
  {
    var fixed := FixedMetrics();
    forall i, j | 0 <= i < j < |fixed| ensures fixed[i].name != fixed[j].name {
      FixedNamesDiffer(i, j);
    }
    forall i, j | 0 <= i < |fixed| && 0 <= j < |budgets| ensures fixed[i].name != budgets[j].name {
      FixedIsNoBudget(i, spell(budgets[j].budgetMs));
    }
    DistinctBeside(fixed, budgets);
  }

  /** aggregateBenchMetrics: the fixed metrics and one for each budget the repeats carry, each
      present exactly when some repeat measured it, and nothing else. */
  method AggregateBenchMetrics(reports: seq<Report>, spell: real -> string)
    returns (out: map<string, Aggregate>, ghost budgets: seq<Metric>)
    requires SpelledApart(reports, spell)
    ensures IsAggregateOf(reports, spell, budgets, out) && DistinctNames(FixedMetrics() + budgets)
  {
    var measured := BenchBudgetMetrics(reports, spell);
    budgets := measured;
    VocabularyIsDistinct(reports, budgets, spell);
    out := AggregateOver(FixedMetrics() + measured, reports);
  }

  // ---- what an aggregate says of the samples

  function AtMost(s: seq<real>, v: real): nat {
    if s == [] then 0 else AtMost(s[..|s| - 1], v) + if s[|s| - 1] <= v then 1 else 0
  }

  function AtLeast(s: seq<real>, v: real): nat {
    if s == [] then 0 else AtLeast(s[..|s| - 1], v) + if s[|s| - 1] >= v then 1 else 0
  }

  lemma {:induction false} CountsAppend(a: seq<real>, b: seq<real>, v: real)
    ensures AtMost(a + b, v) == AtMost(a, v) + AtMost(b, v)
    ensures AtLeast(a + b, v) == AtLeast(a, v) + AtLeast(b, v)
  {
    if b == [] {
      assert a + b == a;
    } else {
      assert (a + b)[..|a + b| - 1] == a + b[..|b| - 1];
      CountsAppend(a, b[..|b| - 1], v);
    }
  }

  lemma CountsWithout(s: seq<real>, i: nat, v: real)
    requires i < |s|
    ensures AtMost(s, v) == AtMost(s[..i] + s[i + 1..], v) + if s[i] <= v then 1 else 0
    ensures AtLeast(s, v) == AtLeast(s[..i] + s[i + 1..], v) + if s[i] >= v then 1 else 0
  {
    assert s == s[..i] + ([s[i]] + s[i + 1..]);
    CountsAppend(s[..i], [s[i]] + s[i + 1..], v);
    CountsAppend([s[i]], s[i + 1..], v);
    CountsAppend(s[..i], s[i + 1..], v);
    assert [s[i]][..0] == [];
  }

  /** Counting does not see the order. */
  lemma {:induction false} CountsOfPermutation(a: seq<real>, b: seq<real>, v: real)
    requires multiset(a) == multiset(b)
    ensures AtMost(a, v) == AtMost(b, v) && AtLeast(a, v) == AtLeast(b, v)
    decreases |a|
  {
    assert |multiset(a)| == |a| == |multiset(b)| == |b|;
    if a != [] {
      var i := RestsPermute(a, b);
      CountsWithout(b, i, v);
      CountsOfPermutation(a[..|a| - 1], b[..i] + b[i + 1..], v);
    }
  }

  lemma {:induction false} SortedCounts(s: seq<real>, k: nat, v: real)
    requires Sorted(s, Below()) && k < |s| && v == s[k]
    ensures AtMost(s, v) >= k + 1
    ensures AtLeast(s, v) >= |s| - k
  {
    var n := |s| - 1;
    assert !Below()(s[n], s[k]) || k == n;
    if k < n {
      SortedCounts(s[..n], k, v);
    } else {
      AllAtMost(s, v);
    }
  }

  lemma {:induction false} AllAtMost(s: seq<real>, v: real)
    requires forall i :: 0 <= i < |s| ==> s[i] <= v
    ensures AtMost(s, v) == |s|
  {
    if s != [] { AllAtMost(s[..|s| - 1], v); }
  }

  lemma SortedPercentile(s: seq<real>, pct: nat)
    requires s != [] && Sorted(s, Below()) && 0 < pct <= 100
    ensures var v, r := NearestRank(s, pct), Ceil(pct * |s|, 100);
            v in s && AtMost(s, v) >= r && AtLeast(s, v) >= |s| - r + 1
  {
    RankIsCeil(|s|, pct);
    SortedCounts(s, RankOf(|s|, pct) - 1, NearestRank(s, pct));
  }

  /** What a nearest-rank percentile promises of the samples themselves, in any order: it is
      one of them, at least ceil(f n) of them are at or below it, and at least
      n - ceil(f n) + 1 at or above it. */
  lemma PercentileLaws(values: seq<real>, pct: nat)
    requires values != [] && 0 < pct <= 100
    ensures var v, r := NearestRank(InOrder(values), pct), Ceil(pct * |values|, 100);
            v in values && AtMost(values, v) >= r && AtLeast(values, v) >= |values| - r + 1
  {
    var s := InOrder(values);
    SortedPercentile(s, pct);
    CountsOfPermutation(values, s, NearestRank(s, pct));
    assert NearestRank(s, pct) in multiset(s);
  }

  /** For a fraction in (0, 1] the clamp never acts. */
  lemma RankIsCeil(n: nat, pct: nat)
    requires n > 0 && 0 < pct <= 100
    ensures RankOf(n, pct) == Ceil(pct * n, 100)
  {
    assert pct * n <= 100 * n by { ProductsOrder(pct, 100, n); }
    assert pct * n >= n by { ProductsOrder(1, pct, n); }
  }

  lemma ProductsOrder(a: nat, b: nat, n: nat)
    requires a <= b
    ensures a * n <= b * n
  {
  }

  lemma CeilInPercent(n: nat, pct: nat, atMost: nat, atLeast: nat)
    requires atMost >= Ceil(pct * n, 100) && atLeast >= n - Ceil(pct * n, 100) + 1 && n > 0 && 0 < pct <= 100
    ensures 100 * atMost >= pct * n
    ensures 100 * atLeast > 100 * n - pct * n
  {
  }

  /** P50 and P95 in plain numbers: samples of which at least half, or 95 in 100, are no
      greater, and more than half, or 5 in 100, no smaller. */
  lemma MediansAndTails(values: seq<real>, lowerIsBetter: bool)
    requires values != []
    ensures var agg := AggregateOf(values, lowerIsBetter);
            && agg.runs == |values| && agg.lowerIsBetter == lowerIsBetter
            && agg.p50 in values && 100 * AtMost(values, agg.p50) >= 50 * |values| && 100 * AtLeast(values, agg.p50) > 50 * |values|
            && agg.p95 in values && 100 * AtMost(values, agg.p95) >= 95 * |values| && 100 * AtLeast(values, agg.p95) > 5 * |values|
  {
    var agg, n := AggregateOf(values, lowerIsBetter), |values|;
    PercentileLaws(values, 50);
    PercentileLaws(values, 95);
    CeilInPercent(n, 50, AtMost(values, agg.p50), AtLeast(values, agg.p50));
    CeilInPercent(n, 95, AtMost(values, agg.p95), AtLeast(values, agg.p95));
  }

  /** A budget's reading is its first fit, absent when there is none, and absent altogether
      when the page was not there, did not measure, or never ticked. */
  lemma BudgetReading(r: Report, name: string, budgetMs: real)
    ensures Read(BusyFit(name, false, budgetMs), r).Some? <==>
            r.frontend.Some? && r.frontend.value.busyMeasured && r.frontend.value.ticks > 0 &&
            exists fit :: fit in r.frontend.value.budgets && fit.budgetMs == budgetMs
    ensures Read(BusyFit(name, false, budgetMs), r).Some? ==>
              exists k :: IsFirstFit(r.frontend.value.budgets, budgetMs, k) &&
                r.frontend.value.budgets[k].withinPct == Read(BusyFit(name, false, budgetMs), r).value
  {
    if r.frontend.Some? { FitForIff(r.frontend.value.budgets, budgetMs); }
  }

  predicate IsFirstFit(budgets: seq<Fit>, budgetMs: real, k: int) {
    0 <= k < |budgets| && budgets[k].budgetMs == budgetMs && forall j :: 0 <= j < k ==> budgets[j].budgetMs != budgetMs
  }

  lemma {:induction false} FitForIff(budgets: seq<Fit>, budgetMs: real)
    ensures FitFor(budgets, budgetMs).Some? <==> exists fit :: fit in budgets && fit.budgetMs == budgetMs
    ensures FitFor(budgets, budgetMs).Some? ==>
              exists k :: IsFirstFit(budgets, budgetMs, k) && budgets[k].withinPct == FitFor(budgets, budgetMs).value
  {
    if budgets != [] {
      FitForIff(budgets[1..], budgetMs);
      assert budgets == [budgets[0]] + budgets[1..];
      if budgets[0].budgetMs == budgetMs {
        assert IsFirstFit(budgets, budgetMs, 0);
      } else if k :| IsFirstFit(budgets[1..], budgetMs, k) && budgets[1..][k].withinPct == FitFor(budgets[1..], budgetMs).value {
        assert IsFirstFit(budgets, budgetMs, k + 1);
      }
    }
  }

  /** Min and Max bound every sample, and the percentiles stand between them in order. */
  lemma AggregateOrder(values: seq<real>, lowerIsBetter: bool)
    requires values != []
    ensures var agg := AggregateOf(values, lowerIsBetter);
            agg.min <= agg.p50 <= agg.p95 <= agg.max && agg.min in values && agg.max in values &&
            forall v :: v in values ==> agg.min <= v <= agg.max
  {
    var s := InOrder(values);
    var n := |s|;
    RankIsCeil(n, 50);
    RankIsCeil(n, 95);
    var i, j := RankOf(n, 50) - 1, RankOf(n, 95) - 1;
    assert i <= j;
    assert forall a, b :: 0 <= a <= b < n ==> s[a] <= s[b] by {
      forall a, b | 0 <= a <= b < n ensures s[a] <= s[b] {
        assert a == b || !Below()(s[b], s[a]);
      }
    }
    assert s[0] in multiset(s) && s[n - 1] in multiset(s);
    forall v | v in values ensures s[0] <= v <= s[n - 1] {
      assert v in multiset(s);
      var k :| 0 <= k < n && s[k] == v;
    }
  }

  /** One repeat is every percentile. */
  lemma OneRepeat(v: real, lowerIsBetter: bool)
    ensures AggregateOf([v], lowerIsBetter) == Aggregate(1, v, v, v, v, lowerIsBetter)
  {
    assert InOrder([v]) == [v] by { SortedIsInOrder([v], [v]); }
  }

  lemma {:induction false} ValuesAppend(m: Metric, a: seq<Report>, b: seq<Report>)
    ensures Values(m, a + b) == Values(m, a) + Values(m, b)
  {
    if b == [] {
      assert a + b == a;
    } else {
      assert (a + b)[..|a + b| - 1] == a + b[..|b| - 1];
      ValuesAppend(m, a, b[..|b| - 1]);
    }
  }

  lemma ValuesWithout(m: Metric, reports: seq<Report>, i: nat)
    requires i < |reports|
    ensures multiset(Values(m, reports)) == multiset(Values(m, reports[..i] + reports[i + 1..])) + multiset(Measured(m, reports[i]))
  {
    assert reports == reports[..i] + ([reports[i]] + reports[i + 1..]);
    ValuesAppend(m, reports[..i], [reports[i]] + reports[i + 1..]);
    ValuesAppend(m, [reports[i]], reports[i + 1..]);
    ValuesAppend(m, reports[..i], reports[i + 1..]);
    assert Values(m, [reports[i]]) == Measured(m, reports[i]) by {
      assert [reports[i]][..0] == [];
    }
  }

  lemma {:induction false} ValuesOfPermutation(m: Metric, a: seq<Report>, b: seq<Report>)
    requires multiset(a) == multiset(b)
    ensures multiset(Values(m, a)) == multiset(Values(m, b))
    decreases |a|
  {
    assert |multiset(a)| == |a| == |multiset(b)| == |b|;
    if a != [] {
      var i := RestsPermute(a, b);
      ValuesOfPermutation(m, a[..|a| - 1], b[..i] + b[i + 1..]);
      ValuesWithout(m, b, i);
    }
  }

  /** The order of the repeats changes no aggregate, nor which metrics have one. */
  lemma RepeatsInAnyOrder(m: Metric, a: seq<Report>, b: seq<Report>)
    requires multiset(a) == multiset(b)
    ensures Values(m, a) != [] <==> Values(m, b) != []
    ensures Values(m, a) != [] ==>
              AggregateOf(Values(m, a), m.lowerIsBetter) == AggregateOf(Values(m, b), m.lowerIsBetter)
  {
    ValuesOfPermutation(m, a, b);
    var x, y := Values(m, a), Values(m, b);
    assert |multiset(x)| == |x| == |multiset(y)| == |y|;
    SortedIsInOrder(x, InOrder(y));
  }

  // ---- the whole fold, in any order

  lemma {:induction false} SameReports(a: seq<Report>, b: seq<Report>)
    requires multiset(a) == multiset(b)
    ensures forall r :: r in a <==> r in b
  {
    forall r ensures r in a <==> r in b {
      assert r in a <==> r in multiset(a);
      assert r in b <==> r in multiset(b);
    }
  }

  lemma CarriedInAnyOrder(a: seq<Report>, b: seq<Report>, budgetMs: real)
    requires forall r :: r in a <==> r in b
    ensures Carried(a, budgetMs) <==> Carried(b, budgetMs)
  {
  }

  function BudgetList(metrics: seq<Metric>): (budgets: seq<real>)
    requires forall i :: 0 <= i < |metrics| ==> metrics[i].BusyFit?
    ensures |budgets| == |metrics| && forall i :: 0 <= i < |metrics| ==> budgets[i] == metrics[i].budgetMs
  {
    seq(|metrics|, i requires 0 <= i < |metrics| => metrics[i].budgetMs)
  }

  lemma BudgetListHolds(metrics: seq<Metric>, reports: seq<Report>, spell: real -> string, b: real)
    requires AreBudgetMetrics(metrics, reports, spell)
    ensures b in BudgetList(metrics) <==> Carried(reports, b)
  {
    if b in BudgetList(metrics) {
      var i :| 0 <= i < |metrics| && BudgetList(metrics)[i] == b;
      assert metrics[i].BusyFit? && metrics[i].budgetMs == b;
    }
    if Carried(reports, b) {
      var i :| 0 <= i < |metrics| && metrics[i].BusyFit? && metrics[i].budgetMs == b;
      assert BudgetList(metrics)[i] == b;
    }
  }

  /** The budgets' metrics are settled by the set of repeats. */
  lemma BudgetsInAnyOrder(a: seq<Report>, b: seq<Report>, spell: real -> string, metricsA: seq<Metric>, metricsB: seq<Metric>)
    requires multiset(a) == multiset(b)
    requires AreBudgetMetrics(metricsA, a, spell) && AreBudgetMetrics(metricsB, b, spell)
    ensures metricsA == metricsB
  {
    var x, y := BudgetList(metricsA), BudgetList(metricsB);
    SameReports(a, b);
    forall v ensures v in x <==> v in y {
      BudgetListHolds(metricsA, a, spell, v);
      BudgetListHolds(metricsB, b, spell, v);
      CarriedInAnyOrder(a, b, v);
    }
    IncreasingUnique(x, y, Below());
    forall i | 0 <= i < |metricsA| ensures metricsA[i] == metricsB[i] {
      assert x[i] == y[i];
    }
  }

  lemma FoldedName(metrics: seq<Metric>, a: seq<Report>, b: seq<Report>, outA: map<string, Aggregate>, outB: map<string, Aggregate>, name: string)
    requires multiset(a) == multiset(b)
    requires FoldedUpTo(metrics, |metrics|, a, outA) && FoldedUpTo(metrics, |metrics|, b, outB)
    ensures name in outA ==> name in outB && outA[name] == outB[name]
  {
    if name in outA {
      var i :| 0 <= i < |metrics| && metrics[i].name == name;
      assert IsFolded(metrics[i], a, outA) && IsFolded(metrics[i], b, outB);
      RepeatsInAnyOrder(metrics[i], a, b);
    }
  }

  /** All of one map is in the other. */
  ghost predicate Within(a: map<string, Aggregate>, b: map<string, Aggregate>) {
    forall name :: name in a ==> name in b && a[name] == b[name]
  }

  lemma FoldWithin(metrics: seq<Metric>, a: seq<Report>, b: seq<Report>, outA: map<string, Aggregate>, outB: map<string, Aggregate>)
    requires multiset(a) == multiset(b)
    requires FoldedUpTo(metrics, |metrics|, a, outA) && FoldedUpTo(metrics, |metrics|, b, outB)
    ensures Within(outA, outB)
  {
    forall name | name in outA ensures name in outB && outA[name] == outB[name] {
      FoldedName(metrics, a, b, outA, outB, name);
    }
  }

  lemma WithinBoth(a: map<string, Aggregate>, b: map<string, Aggregate>)
    requires Within(a, b) && Within(b, a)
    ensures a == b
  {
  }

  lemma FoldsAgree(metrics: seq<Metric>, a: seq<Report>, b: seq<Report>, outA: map<string, Aggregate>, outB: map<string, Aggregate>)
    requires multiset(a) == multiset(b)
    requires FoldedUpTo(metrics, |metrics|, a, outA) && FoldedUpTo(metrics, |metrics|, b, outB)
    ensures outA == outB
  {
    FoldWithin(metrics, a, b, outA, outB);
    FoldWithin(metrics, b, a, outB, outA);
    WithinBoth(outA, outB);
  }

  /** What aggregateBenchMetrics answers: the budgets of the repeats, and the fold. */
  ghost predicate IsAggregateOf(reports: seq<Report>, spell: real -> string, budgets: seq<Metric>, out: map<string, Aggregate>) {
    AreBudgetMetrics(budgets, reports, spell) &&
    FoldedUpTo(FixedMetrics() + budgets, |FixedMetrics() + budgets|, reports, out)
  }

  /** Permuting the repeats changes nothing of it: the same budgets, and the same map. */
  lemma AggregateInAnyOrder(a: seq<Report>, b: seq<Report>, spell: real -> string,
                            budgetsA: seq<Metric>, budgetsB: seq<Metric>, outA: map<string, Aggregate>, outB: map<string, Aggregate>)
    requires multiset(a) == multiset(b)
    requires IsAggregateOf(a, spell, budgetsA, outA) && IsAggregateOf(b, spell, budgetsB, outB)
    ensures budgetsA == budgetsB && outA == outB
  {
    BudgetsInAnyOrder(a, b, spell, budgetsA, budgetsB);
    FoldsAgree(FixedMetrics() + budgetsA, a, b, outA, outB);
  }
}
