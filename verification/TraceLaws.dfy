/** What the trace fold promises in plain numbers (cmd/ao-harness/bench_trace.go): which call
    site an event counts for, and which call sites a merge keeps. */
module TraceLaws {
  import opened Text
  import opened Decimal
  import opened Trace

  // ---- where an event counts

  /** A Layout or UpdateLayoutTree event with a stack counts once, as what it is, with its
      milliseconds, at the first frame of the stack; the frames below do not matter. */
  lemma CountsAtTheFirstFrame(dur: real, first: Frame, below: seq<Frame>)
    ensures Contribution(Event("Layout", dur, Decoded([first] + below))) == [Group(FormatFrame(first), 1, 0, 1, dur / 1000.0)]
    ensures Contribution(Event("UpdateLayoutTree", dur, Decoded([first] + below))) == [Group(FormatFrame(first), 1, 1, 0, dur / 1000.0)]
    ensures !Scheduled(Event("Layout", dur, Decoded([first] + below))) && !Scheduled(Event("UpdateLayoutTree", dur, Decoded([first] + below)))
  {
    assert ([first] + below)[0] == first;
  }

  /** Nothing else counts: not another event, and not one without a stack. */
  lemma NothingElseCounts(e: Event)
    requires (e.name != "Layout" && e.name != "UpdateLayoutTree") || e.args in {NoArgs, Malformed, Decoded([])}
    ensures Contribution(e) == []
    ensures Scheduled(e) <==> e.name == "Layout" || e.name == "UpdateLayoutTree"
  {
  }

  lemma FirstSeparates(a: string, b: string, x: string, y: string)
    requires '@' !in a && '@' !in b && a + "@" + x == b + "@" + y
    ensures a == b && x == y
  {
    SplitPrefix(a, '@', x);
    SplitPrefix(b, '@', y);
    var s := a + "@" + x;
    assert Split(s, '@')[0] == a == b;
    assert s[|a| + 1..] == x && s[|b| + 1..] == y;
  }

  lemma LastSeparates(a: string, b: string, x: string, y: string)
    requires ':' !in x && ':' !in y && a + ":" + x == b + ":" + y
    ensures a == b && x == y
  {
    var s, t := a + ":" + x, b + ":" + y;
    assert s[|a|] == ':' && t[|b|] == ':';
    assert forall k :: |a| < k < |s| ==> s[k] == x[k - |a| - 1];
    assert forall k :: |b| < k < |t| ==> t[k] == y[k - |b| - 1];
    assert |a| == |b|;
    assert s[..|a|] == a && t[..|b|] == b && s[|a| + 1..] == x && t[|b| + 1..] == y;
  }

  lemma FormatHasNoColon(n: int)
    ensures ':' !in Format(n)
  {
    DigitsAreNotSpace(Itoa(if n < 0 then -n else n));
  }

  lemma FormatInjective(a: int, b: int)
    requires Format(a) == Format(b)
    ensures a == b
  {
    assert IsDigit(Itoa(if a < 0 then -a else a)[0]) && IsDigit(Itoa(if b < 0 then -b else b)[0]);
    if a < 0 && b < 0 {
      assert Format(a)[1..] == Itoa(-a) && Format(b)[1..] == Itoa(-b);
      ItoaInjective(-a, -b);
    } else {
      assert a >= 0 && b >= 0;
      ItoaInjective(a, b);
    }
  }

  /** A named function of a script: its key names the function, the script and the place. */
  predicate Named(f: Frame) { TrimSpace(f.functionName) != "" && '@' !in f.functionName && f.url != "" }

  function Place(f: Frame): string { f.url + ":" + Format(f.line) }

  lemma Regroup(a: string, b: string, c: string, d: string)
    ensures a + b + c + d == a + (b + c + d)
  {
    assert a + b + c == a + (b + c);
    assert a + (b + c) + d == a + (b + c + d);
  }

  lemma KeyOfNamed(f: Frame)
    requires Named(f)
    ensures FormatFrame(f) == f.functionName + "@" + (Place(f) + ":" + Format(f.column))
  {
    var at, line, column := f.functionName + "@", ":" + Format(f.line), ":" + Format(f.column);
    Regroup(at, f.url, line, column);
    Regroup(at + f.url, ":", Format(f.line), "");
  }

  lemma NumberAfterColon(a: string, m: int, b: string, n: int)
    requires a + ":" + Format(m) == b + ":" + Format(n)
    ensures a == b && m == n
  {
    FormatHasNoColon(m);
    FormatHasNoColon(n);
    LastSeparates(a, b, Format(m), Format(n));
    FormatInjective(m, n);
  }

  /** Two call sites share a tally exactly when they are one: no part of a frame is lost in its
      key. */
  lemma KeysTellFramesApart(f: Frame, g: Frame)
    requires Named(f) && Named(g)
    ensures FormatFrame(f) == FormatFrame(g) <==> f == g
  {
    if FormatFrame(f) == FormatFrame(g) {
      KeyOfNamed(f);
      KeyOfNamed(g);
      FirstSeparates(f.functionName, g.functionName, Place(f) + ":" + Format(f.column), Place(g) + ":" + Format(g.column));
      NumberAfterColon(Place(f), f.column, Place(g), g.column);
      NumberAfterColon(f.url, f.line, g.url, g.line);
    }
  }

  lemma SomeNames()
    ensures TrimSpace("f") == "f" && TrimSpace(" ") == ""
  {
    TrimSpaceKeepsTokens("f");
    assert TrimLeft(" ") == TrimLeft(" "[1..]) && " "[1..] == "";
  }

  lemma SomeNumbers()
    ensures Format(1) == "1" && Format(2) == "2"
  {
  }

  /** The parts stand in this order, and a function without a name or a script still has a key. */
  lemma KeysReadAsWritten()
    ensures FormatFrame(Frame("f", "u", 1, 2)) == "f@u:1:2"
    ensures FormatFrame(Frame(" ", "u", 1, 2)) == "(anonymous)@u:1:2"
    ensures FormatFrame(Frame("f", "", 1, 2)) == "f"
  {
    SomeNames();
    SomeNumbers();
  }

  // ---- which call sites are kept

  /** More forced passes first; then more milliseconds; then the frame's name. */
  predicate Outranks(a: Group, b: Group) {
    || a.count > b.count
    || (a.count == b.count && a.ms > b.ms)
    || (a.count == b.count && a.ms == b.ms && Less(a.frame, b.frame))
  }

  /** A call site a merge drops is outranked by all of the fifteen it keeps. */
  lemma DroppedIsOutranked(parts: seq<Summary>, frame: string)
    requires frame in Table(GroupsOf(parts))
    ensures var kept, g := Merged(parts).groups, Table(GroupsOf(parts))[frame];
            g in kept || (|kept| == 15 && forall i :: 0 <= i < |kept| ==> Outranks(kept[i], g))
  {
    CutKeepsTheTop(parts, frame);
  }

  lemma RankedDown(groups: seq<Group>, table: map<string, Group>, i: nat, j: nat)
    requires Ranking(groups, table) && i < j < |groups|
    ensures Outranks(groups[i], groups[j])
  {
    RanksAboveIsTotalOnFrames(groups);
    assert !RanksAbove(groups[j], groups[i]);
  }

  /** A summary lists its call sites from the most forced down, and so does a merge. */
  lemma MostForcedFirst(events: seq<Event>, parts: seq<Summary>, i: nat, j: nat)
    ensures i < j < |Summarised(events).groups| ==> Outranks(Summarised(events).groups[i], Summarised(events).groups[j])
    ensures i < j < |Merged(parts).groups| ==> Outranks(Merged(parts).groups[i], Merged(parts).groups[j])
  {
    if i < j < |Summarised(events).groups| { RankedDown(Summarised(events).groups, Table(Contributions(events)), i, j); }
    var all := RankingOf(Table(GroupsOf(parts)));
    if i < j < |Merged(parts).groups| {
      assert Merged(parts).groups[i] == all[i] && Merged(parts).groups[j] == all[j];
      RankedDown(all, Table(GroupsOf(parts)), i, j);
    }
  }
}
