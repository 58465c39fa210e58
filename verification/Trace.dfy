/** Folding a timeline trace into forced-layout tallies per call site
    (cmd/ao-harness/bench_trace.go). Durations are exact reals. */
module Trace {
  import opened Text
  import opened Decimal
  import opened Sorting

  const TOP_GROUPS: nat := 15

  datatype Frame = Frame(functionName: string, url: string, line: int, column: int)

  /** What decoding an event's args finds at beginData.stackTrace. */
  datatype Args = NoArgs | Malformed | Decoded(stackTrace: seq<Frame>)

  datatype Event = Event(name: string, dur: real, args: Args)

  datatype Group = Group(frame: string, count: int, style: int, layout: int, ms: real)

  datatype Summary = Summary(events: int, forcedEvents: int, forcedMs: real, scheduledEvents: int,
                             groups: seq<Group>, truncated: int)

  /** A summary as the program holds it: its groups are a slice that other code can
      reach, so leaving an input's groups alone is something a method has to keep. */
  datatype Report = Report(events: int, forcedEvents: int, forcedMs: real, scheduledEvents: int,
                           groups: array<Group>, truncated: int)
  {
    function Value(): Summary
      reads groups
    {
      Summary(events, forcedEvents, forcedMs, scheduledEvents, groups[..], truncated)
    }
  }

  function Values(reports: seq<Report>): (r: seq<Summary>)
    reads set i | 0 <= i < |reports| :: reports[i].groups
    ensures |r| == |reports|
    ensures forall i :: 0 <= i < |reports| ==> r[i] == reports[i].Value()
  {
    if reports == [] then [] else Values(reports[..|reports| - 1]) + [reports[|reports| - 1].Value()]
  }

  // ---- events

  function TopStackFrame(args: Args): Option<Frame> {
    if args.Decoded? && args.stackTrace != [] then Some(args.stackTrace[0]) else None
  }

  function FormatFrame(frame: Frame): string {
    var name := if TrimSpace(frame.functionName) == "" then "(anonymous)" else frame.functionName;
    if frame.url == "" then name
    else name + "@" + frame.url + ":" + Format(frame.line) + ":" + Format(frame.column)
  }

  predicate IsStyle(e: Event) { e.name == "UpdateLayoutTree" }
  predicate IsLayout(e: Event) { e.name == "Layout" }
  predicate Forced(e: Event) { (IsStyle(e) || IsLayout(e)) && TopStackFrame(e.args).Some? }
  predicate Scheduled(e: Event) { (IsStyle(e) || IsLayout(e)) && TopStackFrame(e.args).None? }

  /** What one event adds to the tallies: one row for a forced pass, nothing otherwise. */
  function Contribution(e: Event): seq<Group> {
    if Forced(e) then
      [Group(FormatFrame(TopStackFrame(e.args).value), 1,
             if IsStyle(e) then 1 else 0, if IsStyle(e) then 0 else 1, e.dur / 1000.0)]
    else []
  }

  function Contributions(events: seq<Event>): seq<Group> {
    if events == [] then [] else Contributions(events[..|events| - 1]) + Contribution(events[|events| - 1])
  }

  function CountScheduled(events: seq<Event>): nat {
    if events == [] then 0
    else CountScheduled(events[..|events| - 1]) + (if Scheduled(events[|events| - 1]) then 1 else 0)
  }

  // ---- rows and tables

  function Plus(a: Group, b: Group): Group {
    Group(a.frame, a.count + b.count, a.style + b.style, a.layout + b.layout, a.ms + b.ms)
  }

  /** The sum of the rows whose frame is k. */
  function SumAt(rows: seq<Group>, k: string): (g: Group)
    ensures g.frame == k
  {
    if rows == [] then Group(k, 0, 0, 0, 0.0)
    else
      var init := SumAt(rows[..|rows| - 1], k);
      if rows[|rows| - 1].frame == k then Plus(init, rows[|rows| - 1]) else init
  }

  /** The sum of all rows, whatever their frame. */
  function SumAll(rows: seq<Group>): (g: Group)
    ensures g.frame == ""
  {
    if rows == [] then Group("", 0, 0, 0, 0.0) else Plus(SumAll(rows[..|rows| - 1]), rows[|rows| - 1])
  }

  function Frames(rows: seq<Group>): set<string> {
    set i | 0 <= i < |rows| :: rows[i].frame
  }

  /** One row per frame: the reference answer a fold over `rows` must give. */
  function Table(rows: seq<Group>): map<string, Group> {
    map k | k in Frames(rows) :: SumAt(rows, k)
  }

  ghost predicate DistinctFrames(rows: seq<Group>) {
    forall i, j :: 0 <= i < j < |rows| ==> rows[i].frame != rows[j].frame
  }

  /** The rows of a table, each once, in some order. */
  ghost predicate Lists(rows: seq<Group>, table: map<string, Group>) {
    && DistinctFrames(rows)
    && Frames(rows) == table.Keys
    && (forall i :: 0 <= i < |rows| ==> rows[i].frame in table && table[rows[i].frame] == rows[i])
  }

  // ---- ranking

  /** The comparator of sortTraceGroups: count, then duration, then frame name. */
  predicate RanksAbove(a: Group, b: Group) {
    if a.count != b.count then a.count > b.count
    else if a.ms != b.ms then a.ms > b.ms
    else Less(a.frame, b.frame)
  }

  lemma RanksAboveIsStrictWeakOrder()
    ensures StrictWeakOrder(RanksAbove)
  {
    LessIsStrictWeakOrder();
  }

  /** On groups with distinct frames the comparator never ties. */
  lemma RanksAboveIsTotalOnFrames(rows: seq<Group>)
    requires DistinctFrames(rows)
    ensures TieFree(rows, RanksAbove)
    ensures forall i, j :: 0 <= i < |rows| && 0 <= j < |rows| && i != j ==>
              RanksAbove(rows[i], rows[j]) != RanksAbove(rows[j], rows[i])
  {
    RanksAboveIsStrictWeakOrder();
    LessIsStrictWeakOrder();
  }

  ghost predicate Ranking(rows: seq<Group>, table: map<string, Group>) {
    Lists(rows, table) && Sorted(rows, RanksAbove)
  }

  lemma {:induction false} OccursOnce(rows: seq<Group>, g: Group)
    requires DistinctFrames(rows)
    ensures multiset(rows)[g] == if g in rows then 1 else 0
  {
    if rows != [] {
      var n := |rows| - 1;
      assert rows == rows[..n] + [rows[n]];
      OccursOnce(rows[..n], g);
    }
  }

  /** A table has one ranking, so neither map order nor the sort's algorithm shows. */
  lemma RankingIsUnique(a: seq<Group>, b: seq<Group>, table: map<string, Group>)
    requires Ranking(a, table) && Ranking(b, table)
    ensures a == b
  {
    forall g ensures multiset(a)[g] == multiset(b)[g] {
      OccursOnce(a, g);
      OccursOnce(b, g);
      assert g in a <==> g in b by {
        SameRows(a, b, table, g);
        SameRows(b, a, table, g);
      }
    }
    RanksAboveIsStrictWeakOrder();
    RanksAboveIsTotalOnFrames(a);
    SortedUnique(a, b, RanksAbove);
  }

  lemma SameRows(a: seq<Group>, b: seq<Group>, table: map<string, Group>, g: Group)
    requires Lists(a, table) && Lists(b, table)
    ensures g in a ==> g in b
  {
    if g in a {
      assert g.frame in Frames(b);
      var j :| 0 <= j < |b| && b[j].frame == g.frame;
    }
  }

  // ---- algebra of the fold

  lemma {:induction false} SumAtAppend(a: seq<Group>, b: seq<Group>, k: string)
    ensures SumAt(a + b, k) == Plus(SumAt(a, k), SumAt(b, k))
  {
    if b == [] {
      assert a + b == a;
    } else {
      var n := |b| - 1;
      assert (a + b)[..|a + b| - 1] == a + b[..n];
      SumAtAppend(a, b[..n], k);
    }
  }

  lemma {:induction false} SumAllAppend(a: seq<Group>, b: seq<Group>)
    ensures SumAll(a + b) == Plus(SumAll(a), SumAll(b))
  {
    if b == [] {
      assert a + b == a;
    } else {
      var n := |b| - 1;
      var whole := a + b;
      SumAllAppend(a, b[..n]);
      assert whole[..|whole| - 1] == a + b[..n] && whole[|whole| - 1] == b[n];
      assert SumAll(whole) == Plus(SumAll(a + b[..n]), b[n]);
    }
  }

  lemma {:induction false} SumAtOtherFrame(rows: seq<Group>, k: string)
    requires k !in Frames(rows)
    ensures SumAt(rows, k) == Group(k, 0, 0, 0, 0.0)
  {
    if rows != [] {
      var n := |rows| - 1;
      assert Frames(rows[..n]) <= Frames(rows);
      assert rows[n].frame in Frames(rows);
      SumAtOtherFrame(rows[..n], k);
    }
  }

  /** A list of distinct frames sums, at each frame, to the row it holds there. */
  lemma {:induction false} SumAtOfDistinct(rows: seq<Group>, i: nat)
    requires DistinctFrames(rows) && i < |rows|
    ensures SumAt(rows, rows[i].frame) == rows[i]
  {
    var n := |rows| - 1;
    if i == n {
      SumAtOtherFrame(rows[..n], rows[n].frame);
    } else {
      SumAtOfDistinct(rows[..n], i);
    }
  }

  lemma SumAtOfListing(rows: seq<Group>, source: seq<Group>, k: string)
    requires Lists(rows, Table(source))
    ensures SumAt(rows, k) == SumAt(source, k)
  {
    if k in Frames(source) {
      assert k in Frames(rows);
      var i :| 0 <= i < |rows| && rows[i].frame == k;
      SumAtOfDistinct(rows, i);
    } else {
      SumAtOtherFrame(rows, k);
      SumAtOtherFrame(source, k);
    }
  }

  lemma FramesAppend(a: seq<Group>, b: seq<Group>)
    ensures Frames(a + b) == Frames(a) + Frames(b)
  {
    forall k | k in Frames(a) + Frames(b) ensures k in Frames(a + b) {
      if k in Frames(a) {
        var i :| 0 <= i < |a| && a[i].frame == k;
        assert (a + b)[i].frame == k;
      } else {
        var i :| 0 <= i < |b| && b[i].frame == k;
        assert (a + b)[|a| + i].frame == k;
      }
    }
  }

  function Flatten<T>(parts: seq<seq<T>>): seq<T> {
    if parts == [] then [] else Flatten(parts[..|parts| - 1]) + parts[|parts| - 1]
  }

  lemma {:induction false} ContributionsAppend(a: seq<Event>, b: seq<Event>)
    ensures Contributions(a + b) == Contributions(a) + Contributions(b)
    ensures CountScheduled(a + b) == CountScheduled(a) + CountScheduled(b)
  {
    if b == [] {
      assert a + b == a;
    } else {
      assert (a + b)[..|a + b| - 1] == a + b[..|b| - 1];
      ContributionsAppend(a, b[..|b| - 1]);
    }
  }

  function Without(rows: seq<Group>, k: string): seq<Group> {
    if rows == [] then []
    else
      var init := Without(rows[..|rows| - 1], k);
      if rows[|rows| - 1].frame == k then init else init + [rows[|rows| - 1]]
  }

  lemma FramesOfOne(g: Group)
    ensures Frames([g]) == {g.frame}
  {
    assert [g][0] == g;
  }

  lemma FramesExtend(rows: seq<Group>, g: Group)
    ensures Frames(rows + [g]) == Frames(rows) + {g.frame}
  {
    FramesAppend(rows, [g]);
    FramesOfOne(g);
  }

  lemma {:induction false} WithoutFrames(rows: seq<Group>, k: string)
    ensures Frames(Without(rows, k)) == Frames(rows) - {k}
  {
    if rows != [] {
      var n := |rows| - 1;
      WithoutFrames(rows[..n], k);
      assert rows == rows[..n] + [rows[n]];
      FramesExtend(rows[..n], rows[n]);
      if rows[n].frame != k {
        FramesExtend(Without(rows[..n], k), rows[n]);
      }
    }
  }

  lemma {:induction false} WithoutSum(rows: seq<Group>, k: string)
    ensures SumAll(rows) == Plus(SumAll(Without(rows, k)), SumAt(rows, k))
  {
    if rows != [] {
      var n := |rows| - 1;
      WithoutSum(rows[..n], k);
      if rows[n].frame != k {
        var rest := Without(rows[..n], k) + [rows[n]];
        assert rest[..|rest| - 1] == Without(rows[..n], k);
        assert Without(rows, k) == rest;
      }
    }
  }

  lemma {:induction false} WithoutSumAt(rows: seq<Group>, k: string, j: string)
    requires j != k
    ensures SumAt(Without(rows, k), j) == SumAt(rows, j)
  {
    if rows != [] {
      var n := |rows| - 1;
      WithoutSumAt(rows[..n], k, j);
      if rows[n].frame != k {
        var rest := Without(rows[..n], k) + [rows[n]];
        assert rest[..|rest| - 1] == Without(rows[..n], k);
        assert Without(rows, k) == rest;
      }
    }
  }

  lemma FrameOfFirst(rows: seq<Group>)
    ensures rows != [] ==> Frames(rows) != {}
  {
    if rows != [] { assert rows[0].frame in Frames(rows); }
  }

  /** Conservation: grouping rows by frame loses none of them. */
  lemma {:induction false} GroupingConserves(rows: seq<Group>, source: seq<Group>)
    requires Lists(rows, Table(source))
    ensures SumAll(rows) == SumAll(source)
  {
    assert Table(source).Keys == Frames(source);
    if rows == [] {
      assert Frames(rows) == {};
      FrameOfFirst(source);
    } else {
      var n := |rows| - 1;
      var k := rows[n].frame;
      assert rows == rows[..n] + [rows[n]];
      ListingWithoutLast(rows, source);
      GroupingConserves(rows[..n], Without(source, k));
      WithoutSum(source, k);
    }
  }

  lemma ListingWithoutLast(rows: seq<Group>, source: seq<Group>)
    requires rows != [] && Lists(rows, Table(source))
    ensures SumAt(source, rows[|rows| - 1].frame) == rows[|rows| - 1]
    ensures Lists(rows[..|rows| - 1], Table(Without(source, rows[|rows| - 1].frame)))
  {
    var n := |rows| - 1;
    var k := rows[n].frame;
    WithoutFrames(source, k);
    assert rows == rows[..n] + [rows[n]];
    FramesExtend(rows[..n], rows[n]);
    assert Frames(rows[..n]) == Frames(rows) - {k} by {
      assert k !in Frames(rows[..n]);
    }
    forall i | 0 <= i < n ensures SumAt(Without(source, k), rows[i].frame) == rows[i] {
      WithoutSumAt(source, k, rows[i].frame);
    }
  }

  // ---- the code's own fold

  /** A tally the map points at and the loops update in place. */
  class GroupCell {
    const frame: string
    var count: int
    var style: int
    var layout: int
    var ms: real

    function Row(): Group
      reads this
    {
      Group(frame, count, style, layout, ms)
    }

    constructor (g: Group)
      ensures Row() == g
    {
      frame, count, style, layout, ms := g.frame, g.count, g.style, g.layout, g.ms;
    }

    /** The in-place update of a tally. */
    method Add(g: Group)
      modifies this
      ensures Row() == Plus(old(Row()), g)
    {
      count := count + g.count;
      style := style + g.style;
      layout := layout + g.layout;
      ms := ms + g.ms;
    }
  }

  /** The map of pointers holds exactly `table`, each entry in a cell of its own. */
  ghost predicate Holds(byFrame: map<string, GroupCell>, table: map<string, Group>)
    reads byFrame.Values
  {
    && byFrame.Keys == table.Keys
    && (forall k :: k in byFrame ==> byFrame[k].Row() == table[k])
    && (forall j, k :: j in byFrame && k in byFrame && j != k ==> byFrame[j] != byFrame[k])
  }

  lemma TableStep(rows: seq<Group>, g: Group)
    ensures Table(rows + [g]) ==
            Table(rows)[g.frame := if g.frame in Table(rows) then Plus(Table(rows)[g.frame], g) else g]
  {
    FramesExtend(rows, g);
    assert (rows + [g])[..|rows|] == rows;
    if g.frame !in Frames(rows) { SumAtOtherFrame(rows, g.frame); }
  }

  /** Adds one row to the tallies: a new cell for a new frame, an update in place otherwise. */
  method Tally(byFrame: map<string, GroupCell>, g: Group, ghost rows: seq<Group>)
    returns (updated: map<string, GroupCell>)
    requires Holds(byFrame, Table(rows))
    modifies byFrame.Values
    ensures Holds(updated, Table(rows + [g]))
    ensures fresh(updated.Values - byFrame.Values)
  {
    TableStep(rows, g);
    if g.frame in byFrame {
      byFrame[g.frame].Add(g);
      updated := byFrame;
    } else {
      var cell := new GroupCell(g);
      updated := byFrame[g.frame := cell];
    }
  }

  /** Collects the map's values in an arbitrary order and sorts them in place. */
  method SortGroups(byFrame: map<string, GroupCell>, ghost table: map<string, Group>)
    returns (sorted: array<Group>)
    requires Holds(byFrame, table)
    requires forall k :: k in table ==> table[k].frame == k
    ensures Ranking(sorted[..], table)
    ensures fresh(sorted)
  {
    var groups: seq<Group> := [];
    var left := byFrame.Keys;
    while left != {}
      invariant left <= byFrame.Keys
      invariant DistinctFrames(groups)
      invariant Frames(groups) == table.Keys - left
      invariant forall i :: 0 <= i < |groups| ==> groups[i].frame in table && table[groups[i].frame] == groups[i]
      decreases left
    {
      var k :| k in left;
      var g := byFrame[k].Row();
      FramesExtend(groups, g);
      assert forall i :: 0 <= i < |groups| ==> groups[i].frame in Frames(groups);
      groups := groups + [g];
      left := left - {k};
    }
    sorted := new Group[|groups|](i requires 0 <= i < |groups| => groups[i]);
    assert sorted[..] == groups;
    RanksAboveIsStrictWeakOrder();
    SortSlice(sorted, RanksAbove);
    ListsSurvivesPermutation(groups, sorted[..], table);
  }

  lemma SameElements(a: seq<Group>, b: seq<Group>)
    requires multiset(a) == multiset(b)
    ensures forall i :: 0 <= i < |b| ==> b[i] in a
    ensures Frames(b) <= Frames(a)
  {
    forall i | 0 <= i < |b| ensures b[i] in a {
      assert b[i] in multiset(b);
    }
    forall k | k in Frames(b) ensures k in Frames(a) {
      var i :| 0 <= i < |b| && b[i].frame == k;
      var j :| 0 <= j < |a| && a[j] == b[i];
    }
  }

  lemma ListsSurvivesPermutation(a: seq<Group>, b: seq<Group>, table: map<string, Group>)
    requires Lists(a, table)
    requires multiset(a) == multiset(b)
    ensures Lists(b, table)
  {
    SameElements(a, b);
    SameElements(b, a);
    forall i, j | 0 <= i < j < |b| ensures b[i].frame != b[j].frame {
      if b[i].frame == b[j].frame {
        assert b[i] == table[b[i].frame] && b[j] == table[b[j].frame];
        OccursOnce(a, b[i]);
        TwiceInSequence(b, i, j);
      }
    }
  }

  lemma TwiceInSequence(s: seq<Group>, i: nat, j: nat)
    requires i < j < |s| && s[i] == s[j]
    ensures multiset(s)[s[i]] >= 2
  {
    assert s == s[..j] + s[j..];
    assert s[j..] == [s[j]] + s[j + 1..];
    assert s[i] in s[..j];
  }

  /** What summarizeForcedLayout answers for a list of events. */
  ghost predicate SummaryOf(s: Summary, events: seq<Event>) {
    && s.events == |events|
    && s.forcedEvents == |Contributions(events)|
    && s.forcedMs == SumAll(Contributions(events)).ms
    && s.scheduledEvents == CountScheduled(events)
    && Ranking(s.groups, Table(Contributions(events)))
    && s.truncated == 0
  }

  lemma ContributionStep(events: seq<Event>, i: nat)
    requires i < |events|
    ensures Contributions(events[..i + 1]) == Contributions(events[..i]) + Contribution(events[i])
    ensures CountScheduled(events[..i + 1]) == CountScheduled(events[..i]) + (if Scheduled(events[i]) then 1 else 0)
  {
    assert events[..i + 1][..i] == events[..i];
  }

  lemma SumAllStep(rows: seq<Group>, g: Group)
    ensures SumAll(rows + [g]) == Plus(SumAll(rows), g)
  {
    assert (rows + [g])[..|rows|] == rows;
  }

  /** The loop's body: one event's tally. `counted` is what it adds to the forced totals. */
  method TallyEvent(byFrame: map<string, GroupCell>, event: Event, ghost rows: seq<Group>)
    returns (updated: map<string, GroupCell>, counted: Option<real>, scheduled: bool)
    requires Holds(byFrame, Table(rows))
    modifies byFrame.Values
    ensures Holds(updated, Table(rows + Contribution(event)))
    ensures fresh(updated.Values - byFrame.Values)
    ensures scheduled == Scheduled(event)
    ensures |Contribution(event)| == if counted.Some? then 1 else 0
    ensures counted.Some? ==> Contribution(event)[0].ms == counted.value
  {
    updated, counted, scheduled := byFrame, None, false;
    assert rows + [] == rows;
    var isStyle := event.name == "UpdateLayoutTree";
    var isLayout := event.name == "Layout";
    if isStyle || isLayout {
      var frame := TopStackFrame(event.args);
      if frame.None? {
        assert Contribution(event) == [];
        scheduled := true;
      } else {
        var g := Group(FormatFrame(frame.value), 1,
                       if isStyle then 1 else 0, if isStyle then 0 else 1, event.dur / 1000.0);
        assert Contribution(event) == [g];
        updated := Tally(byFrame, g, rows);
        counted := Some(event.dur / 1000.0);
      }
    }
  }

  lemma SumAllContribution(rows: seq<Group>, c: seq<Group>)
    requires |c| <= 1
    ensures SumAll(rows + c).ms == SumAll(rows).ms + if c == [] then 0.0 else c[0].ms
  {
    if c == [] { assert rows + c == rows; } else { assert c == [c[0]]; SumAllStep(rows, c[0]); }
  }

  method SummarizeForcedLayout(events: seq<Event>) returns (summary: Report)
    ensures summary.Value() == Summarised(events)
  {
    var forcedEvents, forcedMs, scheduledEvents := 0, 0.0, 0;
    var byFrame: map<string, GroupCell> := map[];
    ghost var rows: seq<Group> := [];
    for i := 0 to |events|
      invariant rows == Contributions(events[..i])
      invariant Holds(byFrame, Table(rows))
      invariant fresh(byFrame.Values)
      invariant forcedEvents == |rows|
      invariant forcedMs == SumAll(rows).ms
      invariant scheduledEvents == CountScheduled(events[..i])
    {
      ContributionStep(events, i);
      ghost var c := Contribution(events[i]);
      var counted, scheduled;
      byFrame, counted, scheduled := TallyEvent(byFrame, events[i], rows);
      SumAllContribution(rows, c);
      if scheduled { scheduledEvents := scheduledEvents + 1; }
      if counted.Some? { forcedEvents, forcedMs := forcedEvents + 1, forcedMs + counted.value; }
      rows := rows + c;
    }
    assert events[..|events|] == events;
    var groups := SortGroups(byFrame, Table(Contributions(events)));
    summary := Report(|events|, forcedEvents, forcedMs, scheduledEvents, groups, 0);
    OneSummary(summary.Value(), events);
  }

  // ---- merging

  function GroupsOf(parts: seq<Summary>): seq<Group> {
    if parts == [] then [] else GroupsOf(parts[..|parts| - 1]) + parts[|parts| - 1].groups
  }

  function TotalsOf(parts: seq<Summary>): Summary {
    if parts == [] then Summary(0, 0, 0.0, 0, [], 0)
    else
      var t := TotalsOf(parts[..|parts| - 1]);
      var p := parts[|parts| - 1];
      Summary(t.events + p.events, t.forcedEvents + p.forcedEvents, t.forcedMs + p.forcedMs,
              t.scheduledEvents + p.scheduledEvents, [], 0)
  }

  function Min(a: nat, b: nat): nat { if a <= b then a else b }

  /** The first TOP_GROUPS of a ranking, with the number of groups left out. */
  ghost predicate TopOf(groups: seq<Group>, truncated: int, table: map<string, Group>) {
    exists all :: Ranking(all, table) && groups == all[..Min(TOP_GROUPS, |all|)] && truncated == |all| - |groups|
  }

  /** What mergeTraceSummaries answers for any non-empty list of summaries. */
  ghost predicate MergeOf(m: Summary, parts: seq<Summary>) {
    && TotalsOf(parts) == m.(groups := [], truncated := 0)
    && TopOf(m.groups, m.truncated, Table(GroupsOf(parts)))
  }

  lemma PartsStep(parts: seq<Summary>, i: nat)
    requires i < |parts|
    ensures GroupsOf(parts[..i + 1]) == GroupsOf(parts[..i]) + parts[i].groups
    ensures TotalsOf(parts[..i + 1]) ==
            var t, p := TotalsOf(parts[..i]), parts[i];
            Summary(t.events + p.events, t.forcedEvents + p.forcedEvents, t.forcedMs + p.forcedMs,
                    t.scheduledEvents + p.scheduledEvents, [], 0)
  {
    assert parts[..i + 1][..i] == parts[..i];
  }

  /** The inner loop of a merge: adds every group of one summary to the tallies. */
  method TallyAll(byFrame: map<string, GroupCell>, groups: array<Group>, ghost rows: seq<Group>)
    returns (updated: map<string, GroupCell>)
    requires Holds(byFrame, Table(rows))
    modifies byFrame.Values
    ensures Holds(updated, Table(rows + groups[..]))
    ensures fresh(updated.Values - byFrame.Values)
  {
    updated := byFrame;
    assert rows + groups[..0] == rows;
    for j := 0 to groups.Length
      invariant Holds(updated, Table(rows + groups[..j]))
      invariant fresh(updated.Values - byFrame.Values)
    {
      ghost var before := rows + groups[..j];
      updated := Tally(updated, groups[j], before);
      assert before + [groups[j]] == rows + groups[..j + 1];
    }
    assert groups[..groups.Length] == groups[..];
  }

  /** Cuts a ranking to the first TOP_GROUPS and counts what it leaves out. */
  method KeepTop(groups: array<Group>) returns (top: array<Group>, truncated: int)
    ensures top[..] == groups[..Min(TOP_GROUPS, groups.Length)]
    ensures truncated == groups.Length - top.Length
    ensures top == groups || fresh(top)
  {
    top, truncated := groups, 0;
    if groups.Length > TOP_GROUPS {
      truncated := groups.Length - TOP_GROUPS;
      top := new Group[TOP_GROUPS](i requires 0 <= i < groups.Length reads groups => groups[i]);
    }
  }

  /** The outer loop: every summary's totals and groups. */
  method AddUp(summaries: seq<Report>, ghost parts: seq<Summary>)
    returns (events: int, forcedEvents: int, forcedMs: real, scheduledEvents: int, byFrame: map<string, GroupCell>)
    requires |parts| == |summaries| && forall k :: 0 <= k < |summaries| ==> parts[k] == summaries[k].Value()
    ensures Summary(events, forcedEvents, forcedMs, scheduledEvents, [], 0) == TotalsOf(parts)
    ensures Holds(byFrame, Table(GroupsOf(parts)))
    ensures fresh(byFrame.Values)
  {
    events, forcedEvents, forcedMs, scheduledEvents, byFrame := 0, 0, 0.0, 0, map[];
    ghost var rows: seq<Group> := [];
    for i := 0 to |summaries|
      invariant Summary(events, forcedEvents, forcedMs, scheduledEvents, [], 0) == TotalsOf(parts[..i])
      invariant rows == GroupsOf(parts[..i])
      invariant Holds(byFrame, Table(rows))
      invariant fresh(byFrame.Values)
    {
      var summary := summaries[i];
      assert parts[i] == summary.Value();
      PartsStep(parts, i);
      events := events + summary.events;
      forcedEvents := forcedEvents + summary.forcedEvents;
      forcedMs := forcedMs + summary.forcedMs;
      scheduledEvents := scheduledEvents + summary.scheduledEvents;
      byFrame := TallyAll(byFrame, summary.groups, rows);
      rows := rows + parts[i].groups;
    }
    assert parts[..|summaries|] == parts;
  }

  /** Folds the repeats of a bench and keeps the top call sites. It changes no summary it
      is given, having no frame to write to, and shares no group slice with one. */
  method MergeTraceSummaries(summaries: seq<Report>) returns (merged: Option<Report>)
    ensures merged.None? <==> summaries == []
    ensures merged.Some? ==> merged.value.Value() == Merged(Values(summaries))
    ensures merged.Some? ==> fresh(merged.value.groups)
  {
    if |summaries| == 0 {
      return None;
    }
    ghost var parts := Values(summaries);
    var events, forcedEvents, forcedMs, scheduledEvents, byFrame := AddUp(summaries, parts);
    var groups := SortGroups(byFrame, Table(GroupsOf(parts)));
    var report := KeepTopOf(events, forcedEvents, forcedMs, scheduledEvents, groups, parts);
    assert Values(summaries) == parts;
    OneMerge(report.Value(), parts);
    merged := Some(report);
  }

  /** The merged report: the totals, and the top of the ranking. */
  method KeepTopOf(events: int, forcedEvents: int, forcedMs: real, scheduledEvents: int, groups: array<Group>,
                   ghost parts: seq<Summary>) returns (report: Report)
    requires Summary(events, forcedEvents, forcedMs, scheduledEvents, [], 0) == TotalsOf(parts)
    requires Ranking(groups[..], Table(GroupsOf(parts)))
    ensures MergeOf(report.Value(), parts)
    ensures report.groups == groups || fresh(report.groups)
  {
    var top, truncated := KeepTop(groups);
    assert TopOf(top[..], truncated, Table(GroupsOf(parts))) by {
      var all := groups[..];
      assert Ranking(all, Table(GroupsOf(parts))) && top[..] == all[..Min(TOP_GROUPS, |all|)];
    }
    report := Report(events, forcedEvents, forcedMs, scheduledEvents, top, truncated);
    assert report.Value() == TotalsOf(parts).(groups := top[..], truncated := truncated);
  }

  lemma {:induction false} MergedTotals(chunks: seq<seq<Event>>, parts: seq<Summary>)
    requires |chunks| == |parts|
    requires forall i :: 0 <= i < |parts| ==> SummaryOf(parts[i], chunks[i])
    ensures TotalsOf(parts).events == |Flatten(chunks)|
    ensures TotalsOf(parts).forcedEvents == |Contributions(Flatten(chunks))|
    ensures TotalsOf(parts).forcedMs == SumAll(Contributions(Flatten(chunks))).ms
    ensures TotalsOf(parts).scheduledEvents == CountScheduled(Flatten(chunks))
  {
    if parts != [] {
      var n := |parts| - 1;
      MergedTotals(chunks[..n], parts[..n]);
      ContributionsAppend(Flatten(chunks[..n]), chunks[n]);
      SumAllAppend(Contributions(Flatten(chunks[..n])), Contributions(chunks[n]));
    }
  }

  lemma {:induction false} MergedFrames(chunks: seq<seq<Event>>, parts: seq<Summary>)
    requires |chunks| == |parts|
    requires forall i :: 0 <= i < |parts| ==> SummaryOf(parts[i], chunks[i])
    ensures Frames(GroupsOf(parts)) == Frames(Contributions(Flatten(chunks)))
  {
    if parts != [] {
      var n := |parts| - 1;
      MergedFrames(chunks[..n], parts[..n]);
      ContributionsAppend(Flatten(chunks[..n]), chunks[n]);
      FramesAppend(GroupsOf(parts[..n]), parts[n].groups);
      FramesAppend(Contributions(Flatten(chunks[..n])), Contributions(chunks[n]));
    }
  }

  lemma MergedSumAtStep(before: seq<Group>, part: Summary, chunk: seq<Event>, events: seq<Event>, k: string)
    requires SummaryOf(part, chunk)
    requires SumAt(before, k) == SumAt(Contributions(events), k)
    ensures SumAt(before + part.groups, k) == SumAt(Contributions(events + chunk), k)
  {
    ContributionsAppend(events, chunk);
    SumAtAppend(before, part.groups, k);
    SumAtAppend(Contributions(events), Contributions(chunk), k);
    SumAtOfListing(part.groups, Contributions(chunk), k);
  }

  lemma {:induction false} MergedSumAt(chunks: seq<seq<Event>>, parts: seq<Summary>, k: string)
    requires |chunks| == |parts|
    requires forall i :: 0 <= i < |parts| ==> SummaryOf(parts[i], chunks[i])
    ensures SumAt(GroupsOf(parts), k) == SumAt(Contributions(Flatten(chunks)), k)
  {
    if parts != [] {
      var n := |parts| - 1;
      MergedSumAt(chunks[..n], parts[..n], k);
      MergedSumAtStep(GroupsOf(parts[..n]), parts[n], chunks[n], Flatten(chunks[..n]), k);
    }
  }

  lemma MergedTable(chunks: seq<seq<Event>>, parts: seq<Summary>)
    requires |chunks| == |parts|
    requires forall i :: 0 <= i < |parts| ==> SummaryOf(parts[i], chunks[i])
    ensures Table(GroupsOf(parts)) == Table(Contributions(Flatten(chunks)))
  {
    MergedFrames(chunks, parts);
    forall k ensures SumAt(GroupsOf(parts), k) == SumAt(Contributions(Flatten(chunks)), k) {
      MergedSumAt(chunks, parts, k);
    }
  }

  lemma CutOfRanking(all: seq<Group>, groups: seq<Group>, truncated: int, table: map<string, Group>)
    requires Ranking(all, table)
    requires TopOf(groups, truncated, table)
    ensures groups == all[..Min(TOP_GROUPS, |all|)]
    ensures truncated == |all| - Min(TOP_GROUPS, |all|)
    ensures |all| == |table.Keys|
  {
    var other: seq<Group> :| Ranking(other, table) && groups == other[..Min(TOP_GROUPS, |other|)] &&
                             truncated == |other| - |groups|;
    RankingIsUnique(all, other, table);
    FrameCount(all);
  }

  // ---- the laws, on what the methods answer

  ghost predicate Keyed(table: map<string, Group>) { forall k :: k in table ==> table[k].frame == k }

  lemma {:induction false} ListingExists(table: map<string, Group>)
    requires Keyed(table)
    ensures exists rows :: Lists(rows, table)
    decreases |table|
  {
    if table.Keys == {} {
      assert table == map[];
      assert Lists([], table);
    } else {
      var k :| k in table;
      var rest := table - {k};
      assert rest.Keys == table.Keys - {k};
      ListingExists(rest);
      var rows: seq<Group> :| Lists(rows, rest);
      ListOneMore(rows, rest, table, k);
    }
  }

  lemma ListOneMore(rows: seq<Group>, rest: map<string, Group>, table: map<string, Group>, k: string)
    requires Keyed(table) && k in table && rest == table - {k} && Lists(rows, rest)
    ensures Lists(rows + [table[k]], table)
  {
    FramesAppend(rows, [table[k]]);
    assert Frames([table[k]]) == {k} by { assert [table[k]][0].frame == k; }
    assert table.Keys == rest.Keys + {k};
    assert forall i :: 0 <= i < |rows| ==> rows[i].frame in Frames(rows);
  }

  lemma RankingExists(table: map<string, Group>)
    requires Keyed(table)
    ensures exists all :: Ranking(all, table)
  {
    ListingExists(table);
    var rows: seq<Group> :| Lists(rows, table);
    RanksAboveIsStrictWeakOrder();
    ListsSurvivesPermutation(rows, SortedCopy(rows, RanksAbove), table);
    assert Ranking(SortedCopy(rows, RanksAbove), table);
  }

  /** The one ranking of a table. */
  ghost function RankingOf(table: map<string, Group>): (all: seq<Group>)
    requires Keyed(table)
    ensures Ranking(all, table)
  {
    RankingExists(table);
    var all: seq<Group> :| Ranking(all, table);
    all
  }

  /** The summary of some events. */
  ghost function Summarised(events: seq<Event>): Summary {
    var rows := Contributions(events);
    Summary(|events|, |rows|, SumAll(rows).ms, CountScheduled(events), RankingOf(Table(rows)), 0)
  }

  ghost function Cut(s: Summary): Summary {
    var kept := Min(TOP_GROUPS, |s.groups|);
    s.(groups := s.groups[..kept], truncated := |s.groups| - kept)
  }

  /** The merge of some summaries. */
  ghost function Merged(parts: seq<Summary>): Summary {
    Cut(TotalsOf(parts).(groups := RankingOf(Table(GroupsOf(parts)))))
  }

  lemma MergedIs(parts: seq<Summary>)
    ensures MergeOf(Merged(parts), parts)
  {
    var all, m := RankingOf(Table(GroupsOf(parts))), Merged(parts);
    assert Ranking(all, Table(GroupsOf(parts))) && m.groups == all[..Min(TOP_GROUPS, |all|)];
    assert TopOf(m.groups, m.truncated, Table(GroupsOf(parts)));
  }

  lemma OneSummary(s: Summary, events: seq<Event>)
    ensures SummaryOf(s, events) <==> s == Summarised(events)
  {
    if SummaryOf(s, events) {
      RankingIsUnique(s.groups, Summarised(events).groups, Table(Contributions(events)));
    }
  }

  lemma OneMerge(m: Summary, parts: seq<Summary>)
    ensures MergeOf(m, parts) <==> m == Merged(parts)
  {
    MergedIs(parts);
    if MergeOf(m, parts) {
      var table := Table(GroupsOf(parts));
      var all: seq<Group> :| Ranking(all, table) && m.groups == all[..Min(TOP_GROUPS, |all|)] && m.truncated == |all| - |m.groups|;
      CutOfRanking(all, Merged(parts).groups, Merged(parts).truncated, table);
    }
  }

  ghost function Each(chunks: seq<seq<Event>>): (parts: seq<Summary>)
    ensures |parts| == |chunks| && forall i :: 0 <= i < |chunks| ==> parts[i] == Summarised(chunks[i])
  {
    seq(|chunks|, i requires 0 <= i < |chunks| => Summarised(chunks[i]))
  }

  lemma MergeAgrees(chunks: seq<seq<Event>>, parts: seq<Summary>, merged: Summary, whole: Summary)
    requires |chunks| == |parts|
    requires forall i :: 0 <= i < |parts| ==> SummaryOf(parts[i], chunks[i])
    requires MergeOf(merged, parts)
    requires SummaryOf(whole, Flatten(chunks))
    ensures merged == Cut(whole)
    ensures |whole.groups| == |Frames(Contributions(Flatten(chunks)))|
  {
    MergedTotals(chunks, parts);
    MergedTable(chunks, parts);
    var table := Table(Contributions(Flatten(chunks)));
    CutOfRanking(whole.groups, merged.groups, merged.truncated, table);
    assert table.Keys == Frames(Contributions(Flatten(chunks)));
  }

  /** Merging the summaries of repeats is summarising their concatenation and cutting it: the
      same totals, the same groups. */
  lemma MergeIsSummaryOfConcatenation(chunks: seq<seq<Event>>)
    ensures Merged(Each(chunks)) == Cut(Summarised(Flatten(chunks)))
  {
    MergedIs(Each(chunks));
    MergeAgrees(chunks, Each(chunks), Merged(Each(chunks)), Summarised(Flatten(chunks)));
  }

  /** What a merge leaves out is the number of distinct frames past 15. */
  lemma TruncatedIsTheRest(parts: seq<Summary>)
    ensures Merged(parts).truncated == |Frames(GroupsOf(parts))| - Min(TOP_GROUPS, |Frames(GroupsOf(parts))|)
  {
    var table := Table(GroupsOf(parts));
    FrameCount(RankingOf(table));
    assert table.Keys == Frames(GroupsOf(parts));
  }

  lemma {:induction false} FrameCount(rows: seq<Group>)
    requires DistinctFrames(rows)
    ensures |Frames(rows)| == |rows|
  {
    if rows != [] {
      var n := |rows| - 1;
      FrameCount(rows[..n]);
      assert rows == rows[..n] + [rows[n]];
      FramesExtend(rows[..n], rows[n]);
    }
  }

  lemma {:induction false} ContributionTotals(events: seq<Event>)
    ensures SumAll(Contributions(events)).count == |Contributions(events)|
    ensures SumAll(Contributions(events)).count == SumAll(Contributions(events)).style + SumAll(Contributions(events)).layout
  {
    if events != [] {
      var n := |events| - 1;
      ContributionTotals(events[..n]);
      SumAllAppend(Contributions(events[..n]), Contribution(events[n]));
      var c := Contribution(events[n]);
      if c != [] { assert c[..0] == []; assert SumAll(c) == Plus(SumAll([]), c[0]); }
    }
  }

  /** Every forced event is counted at exactly one call site, under exactly one pass. */
  lemma SummaryConserves(events: seq<Event>)
    ensures var s := Summarised(events);
            s.forcedEvents == SumAll(s.groups).count == SumAll(s.groups).style + SumAll(s.groups).layout &&
            s.forcedMs == SumAll(s.groups).ms
  {
    GroupingConserves(Summarised(events).groups, Contributions(events));
    ContributionTotals(events);
  }

  /** Every group the cut drops ranks below every group it keeps. */
  lemma CutKeepsTheTop(parts: seq<Summary>, frame: string)
    requires frame in Table(GroupsOf(parts))
    ensures var m, g := Merged(parts), Table(GroupsOf(parts))[frame];
            g in m.groups || (|m.groups| == TOP_GROUPS && forall i :: 0 <= i < |m.groups| ==> RanksAbove(m.groups[i], g))
  {
    var table := Table(GroupsOf(parts));
    var all, kept := RankingOf(table), Merged(parts).groups;
    assert frame in Frames(all);
    var j :| 0 <= j < |all| && all[j].frame == frame;
    assert all[j] == table[frame];
    assert kept == all[..Min(TOP_GROUPS, |all|)];
    if j < |kept| { assert kept[j] == all[j]; }
    RanksAboveIsTotalOnFrames(all);
  }
}
