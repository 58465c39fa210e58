/** The shell probe's repeat-until-unchanged closure over /proc, and its agreement with the
    breadth-first walk (cmd/agent-overflow-windows/wsl_memory_watchdog_windows.go). */
module ProbeScript {
  import opened Text
  import opened Decimal
  import opened ProcStat
  import opened ProcTree
  import opened Sorting

  const MAX_MEMBERS: nat := 65536
  const MAX_TEXT: nat := 4194304

  // ---- membership by substring

  ghost predicate OccursAt(s: string, t: string, i: int) {
    0 <= i <= |s| - |t| && s[i..i + |t|] == t
  }

  /** The shell pattern *"t"*: t occurs somewhere in s. */
  predicate Contains(s: string, t: string) {
    |t| <= |s| && (s[..|t|] == t || (s != [] && Contains(s[1..], t)))
  }

  lemma {:induction false} ContainsIff(s: string, t: string)
    ensures Contains(s, t) <==> exists i :: OccursAt(s, t, i)
  {
    if s != [] {
      ContainsIff(s[1..], t);
      if i :| OccursAt(s[1..], t, i) {
        assert s[1..][i..i + |t|] == s[i + 1..i + 1 + |t|];
        assert OccursAt(s, t, i + 1);
      }
      if i :| OccursAt(s, t, i) && i > 0 {
        assert s[1..][i - 1..i - 1 + |t|] == s[i..i + |t|];
        assert OccursAt(s[1..], t, i - 1);
      }
    }
    assert |t| <= |s| && s[..|t|] == t <==> OccursAt(s, t, 0);
  }

  function Padded(tokens: seq<string>): string {
    if tokens == [] then " " else " " + tokens[0] + Padded(tokens[1..])
  }

  predicate IsToken(t: string) { t != [] && ' ' !in t }

  lemma {:induction false} PaddedIsJoin(tokens: seq<string>)
    requires tokens != []
    ensures " " + Join(tokens, ' ') + " " == Padded(tokens)
  {
    if |tokens| > 1 {
      PaddedIsJoin(tokens[1..]);
      assert Join(tokens, ' ') == tokens[0] + ([' '] + Join(tokens[1..], ' '));
      assert " " + Join(tokens, ' ') + " " == " " + tokens[0] + (" " + Join(tokens[1..], ' ') + " ");
    } else {
      assert Padded(tokens[1..]) == " ";
    }
  }

  /** A delimited token occurs at the front of a padded list exactly when it is its head. */
  lemma OccursAtFront(a: string, rest: string, t: string)
    requires IsToken(a) && IsToken(t) && rest != [] && rest[0] == ' '
    ensures OccursAt(" " + a + rest, " " + t + " ", 0) <==> a == t
  {
    var s, p := " " + a + rest, " " + t + " ";
    assert s[|a| + 1] == ' ' && p[|t| + 1] == ' ';
    assert forall k :: 0 <= k < |a| ==> s[k + 1] == a[k];
    assert forall k :: 0 <= k < |t| ==> p[k + 1] == t[k];
    if OccursAt(s, p, 0) {
      assert s[..|p|] == p;
      assert forall k :: 0 <= k < |p| ==> s[k] == p[k];
      assert |a| == |t|;
      assert a == s[1..|a| + 1] && t == p[1..|t| + 1];
    }
    if a == t {
      assert s[..|p|] == p;
    }
  }

  lemma OccursLater(a: string, rest: string, t: string, i: int)
    requires IsToken(a) && IsToken(t) && i > 0
    ensures OccursAt(" " + a + rest, " " + t + " ", i) <==> i > |a| && OccursAt(rest, " " + t + " ", i - |a| - 1)
  {
    var s, p := " " + a + rest, " " + t + " ";
    if i <= |a| {
      assert s[i] == a[i - 1];
      if i <= |s| - |p| { assert s[i..i + |p|][0] == s[i] && p[0] == ' '; }
    } else if i <= |s| - |p| {
      assert s[i..i + |p|] == rest[i - |a| - 1..i - |a| - 1 + |p|];
    }
  }

  lemma FoundFirstOrLater(a: string, rest: string, t: string)
    requires IsToken(a) && IsToken(t) && rest != [] && rest[0] == ' '
    ensures Contains(" " + a + rest, " " + t + " ") <==> a == t || Contains(rest, " " + t + " ")
  {
    var s, p := " " + a + rest, " " + t + " ";
    ContainsIff(s, p);
    ContainsIff(rest, p);
    OccursAtFront(a, rest, t);
    if i :| OccursAt(s, p, i) && i > 0 {
      OccursLater(a, rest, t, i);
      assert OccursAt(rest, p, i - |a| - 1);
    }
    if j :| OccursAt(rest, p, j) {
      OccursLater(a, rest, t, j + |a| + 1);
      assert OccursAt(s, p, j + |a| + 1);
    }
  }

  /** Searching a space-separated list for " token " is looking the token up in the list. */
  lemma {:induction false} SubstringIsMembership(tokens: seq<string>, t: string)
    requires IsToken(t) && forall i :: 0 <= i < |tokens| ==> IsToken(tokens[i])
    ensures Contains(Padded(tokens), " " + t + " ") <==> t in tokens
  {
    if tokens != [] {
      SubstringIsMembership(tokens[1..], t);
      FoundFirstOrLater(tokens[0], Padded(tokens[1..]), t);
      assert tokens == [tokens[0]] + tokens[1..];
    }
  }

  // ---- a fixed snapshot of /proc

  datatype Proc = Proc(pid: nat, parent: nat, startTime: nat, rss: nat, comm: string, fields: seq<string>)

  function Line(p: Proc): string { Render(p.pid, p.comm, p.fields) }

  function Lines(procs: seq<Proc>): (lines: seq<string>)
    ensures |lines| == |procs| && forall i :: 0 <= i < |procs| ==> lines[i] == Line(procs[i])
  {
    seq(|procs|, i requires 0 <= i < |procs| => Line(procs[i]))
  }

  /** An entry as the kernel prints it: words, with the numbers in their places. */
  predicate KernelWrote(p: Proc) {
    && 0 < p.pid <= MAX_INT64 && p.parent <= MAX_INT64 && p.startTime <= MAX_UINT64 && p.rss <= MAX_UINT64
    && |p.fields| > 21 && (forall i :: 0 <= i < |p.fields| ==> IsWord(p.fields[i]))
    && p.fields[1] == Itoa(p.parent) && p.fields[19] == Itoa(p.startTime) && p.fields[21] == Itoa(p.rss)
  }

  predicate Snapshot(procs: seq<Proc>) {
    && (forall i :: 0 <= i < |procs| ==> KernelWrote(procs[i]))
    && (forall i, j :: 0 <= i < j < |procs| ==> procs[i].pid != procs[j].pid)
  }

  function StatOf(p: Proc): Stat { Stat(p.pid, p.parent, Itoa(p.startTime), p.rss) }

  function Stats(procs: seq<Proc>): (stats: seq<Stat>)
    ensures |stats| == |procs| && forall i :: 0 <= i < |procs| ==> stats[i] == StatOf(procs[i])
  {
    seq(|procs|, i requires 0 <= i < |procs| => StatOf(procs[i]))
  }

  /** The table the breadth-first walk would read from the snapshot's lines. */
  function TableOf(procs: seq<Proc>): map<int, Stat> { ByPid(Stats(procs)) }

  lemma TableHas(procs: seq<Proc>, i: nat)
    requires Snapshot(procs) && i < |procs|
    ensures procs[i].pid in TableOf(procs) && TableOf(procs)[procs[i].pid] == StatOf(procs[i])
  {
    ByPidHas(Stats(procs), i);
  }

  lemma TableOnlyHas(procs: seq<Proc>, p: int)
    requires p in TableOf(procs)
    ensures exists i :: 0 <= i < |procs| && procs[i].pid == p
  {
    ByPidOnlyHas(Stats(procs), p);
    var i :| 0 <= i < |procs| && Stats(procs)[i].pid == p;
    assert procs[i].pid == p;
  }

  lemma TableEntries(procs: seq<Proc>)
    requires Snapshot(procs)
    ensures forall i :: 0 <= i < |procs| ==> procs[i].pid in TableOf(procs) && TableOf(procs)[procs[i].pid] == StatOf(procs[i])
    ensures forall p :: p in TableOf(procs) ==> exists i :: 0 <= i < |procs| && procs[i].pid == p
  {
    forall i | 0 <= i < |procs|
      ensures procs[i].pid in TableOf(procs) && TableOf(procs)[procs[i].pid] == StatOf(procs[i])
    {
      TableHas(procs, i);
    }
    forall p | p in TableOf(procs) ensures exists i :: 0 <= i < |procs| && procs[i].pid == p {
      TableOnlyHas(procs, p);
    }
  }

  lemma ParseOfLine(p: Proc)
    requires KernelWrote(p)
    ensures Parse(Line(p)) == Parsed(StatOf(p))
  {
    ParseUndoesRender(p.pid, p.comm, p.fields, p.parent, p.startTime, p.rss);
  }

  lemma LoadOfSnapshot(procs: seq<Proc>)
    requires Snapshot(procs)
    ensures Load(Lines(procs)) == Table(TableOf(procs))
  {
    var lines, stats := Lines(procs), Stats(procs);
    forall i | 0 <= i < |procs| ensures Parse(lines[i]) == Parsed(stats[i]) {
      ParseOfLine(procs[i]);
    }
    LoadOfParsed(lines, stats);
  }

  /** The words a shell sees after `rest=${line##*) }; set -- $rest`. */
  function ShellWords(line: string): seq<string> {
    var close := LastClose(line);
    Fields(if close < 0 then line else line[close + 2..])
  }

  lemma ShellReadsTheFields(p: Proc)
    requires KernelWrote(p)
    ensures ShellWords(Line(p)) == p.fields
  {
    var head := Itoa(p.pid) + " (" + p.comm;
    var tail := Join(p.fields, ' ');
    assert Line(p) == head + ") " + tail;
    JoinHasNoClose(p.fields);
    LastCloseIs(head, tail);
    assert Line(p)[|head| + 2..] == tail;
    FieldsOfJoin(p.fields);
  }

  // ---- the closure

  function Texts(members: seq<nat>): (texts: seq<string>)
    ensures |texts| == |members|
    ensures forall i :: 0 <= i < |members| ==> texts[i] == Itoa(members[i]) && IsToken(texts[i]) && NoSpace(texts[i])
  {
    seq(|members|, i requires 0 <= i < |members| =>
      assert IsToken(Itoa(members[i])) && NoSpace(Itoa(members[i])) by { DigitsAreNotSpace(Itoa(members[i])); }
      Itoa(members[i]))
  }

  /** case " $pids " in *" $n "*) */
  predicate Listed(pids: string, n: string) { Contains(" " + pids + " ", " " + n + " ") }

  lemma ListedIffMember(members: seq<nat>, n: nat)
    requires members != []
    ensures Listed(Join(Texts(members), ' '), Itoa(n)) <==> n in members
  {
    PaddedIsJoin(Texts(members));
    DigitsAreNotSpace(Itoa(n));
    SubstringIsMembership(Texts(members), Itoa(n));
    if n in members {
      var i :| 0 <= i < |members| && members[i] == n;
      assert Texts(members)[i] == Itoa(n);
    }
    if Itoa(n) in Texts(members) {
      var i :| 0 <= i < |members| && Texts(members)[i] == Itoa(n);
      ItoaInjective(members[i], n);
    }
  }

  lemma {:induction false} JoinAppend(parts: seq<string>, last: string)
    requires parts != []
    ensures Join(parts + [last], ' ') == Join(parts, ' ') + " " + last
  {
    var all := parts + [last];
    if |parts| == 1 {
      assert all[1..] == [last];
    } else {
      assert all[1..] == parts[1..] + [last];
      JoinAppend(parts[1..], last);
    }
  }

  lemma TextsAppend(members: seq<nat>, n: nat)
    requires members != []
    ensures Join(Texts(members + [n]), ' ') == Join(Texts(members), ' ') + " " + Itoa(n)
  {
    assert Texts(members + [n]) == Texts(members) + [Itoa(n)];
    JoinAppend(Texts(members), Itoa(n));
  }

  ghost predicate Distinct(members: seq<nat>) {
    forall i, j :: 0 <= i < j < |members| ==> members[i] != members[j]
  }

  /** A list of distinct processes under the target, the target first. */
  ghost predicate Grown(stats: map<int, Stat>, target: nat, members: seq<nat>) {
    && members != [] && members[0] == target && Distinct(members)
    && (forall m :: m in members ==> m in stats && InTree(stats, target, m))
  }

  lemma Grow(stats: map<int, Stat>, target: nat, members: seq<nat>, child: nat)
    requires Grown(stats, target, members)
    requires child in stats && child !in members && stats[child].parent >= 0 && stats[child].parent in members
    ensures Grown(stats, target, members + [child])
  {
    ChildInTree(stats, target, stats[child].parent, child);
    assert forall m :: m in members + [child] ==> m == child || m in members;
  }

  lemma {:induction false} GrownFits(members: seq<nat>, universe: set<int>)
    requires Distinct(members) && forall m :: m in members ==> m in universe
    ensures |members| <= |universe|
  {
    if members != [] {
      var last := members[|members| - 1];
      assert forall m :: m in members[..|members| - 1] ==> m in members && m != last;
      GrownFits(members[..|members| - 1], universe - {last});
    }
  }

  /** The scan has nothing to add for this entry. */
  predicate Settled(p: Proc, members: seq<nat>) {
    p.parent in members ==> p.pid in members
  }

  /** The pids text a list of members is kept as, and its count. */
  ghost predicate Kept(members: seq<nat>, pids: string, count: nat) {
    members != [] && pids == Join(Texts(members), ' ') && count == |members|
  }

  /** What the limits let the loop keep; the target alone is never measured. */
  predicate Fits(members: seq<nat>, pids: string) {
    |members| <= 1 || (|members| <= MAX_MEMBERS && |pids| <= MAX_TEXT)
  }

  /** How the script ends early. */
  datatype Exit = Unreadable | WrongExecutable | TooManyMembers | TooMuchText

  /** The case statement for one entry. */
  method Consider(procs: seq<Proc>, i: nat, ghost target: nat, ghost members0: seq<nat>, pids0: string, count0: nat)
    returns (exit: Option<Exit>, pids: string, count: nat, changed: bool, ghost members: seq<nat>)
    requires Snapshot(procs) && i < |procs|
    requires Grown(TableOf(procs), target, members0) && Kept(members0, pids0, count0) && Fits(members0, pids0)
    ensures Grown(TableOf(procs), target, members) && members0 <= members
    ensures exit.None? ==> Kept(members, pids, count) && Fits(members, pids) && Settled(procs[i], members)
    ensures exit.None? ==> (changed <==> members != members0)
    ensures exit == Some(TooManyMembers) ==> |members| > MAX_MEMBERS
    ensures exit == Some(TooMuchText) ==> |members| > 1 && |Join(Texts(members), ' ')| > MAX_TEXT
    ensures exit.Some? ==> exit.value.TooManyMembers? || exit.value.TooMuchText?
  {
    exit, pids, count, changed, members := None, pids0, count0, false, members0;
    ShellReadsTheFields(procs[i]);
    var parent := ShellWords(Line(procs[i]))[1];
    var child := Itoa(procs[i].pid);
    ListedIffMember(members0, procs[i].parent);
    ListedIffMember(members0, procs[i].pid);
    if Listed(pids0, parent) {
      if !Listed(pids0, child) {
        TableHas(procs, i);
        Grow(TableOf(procs), target, members0, procs[i].pid);
        TextsAppend(members0, procs[i].pid);
        members := members0 + [procs[i].pid];
        count := count0 + 1;
        if count > MAX_MEMBERS { exit := Some(TooManyMembers); return; }
        pids := pids0 + " " + child;
        if |pids| > MAX_TEXT { exit := Some(TooMuchText); return; }
        changed := true;
      }
    }
  }

  function Below(n: nat): (s: set<int>)
    ensures forall i :: i in s <==> 0 <= i < n
  {
    if n == 0 then {} else Below(n - 1) + {n - 1}
  }

  /** One pass over the entries, in any order. */
  method Scan(procs: seq<Proc>, ghost target: nat, ghost members0: seq<nat>, pids0: string, count0: nat)
    returns (exit: Option<Exit>, pids: string, count: nat, changed: bool, ghost members: seq<nat>)
    requires Snapshot(procs)
    requires Grown(TableOf(procs), target, members0) && Kept(members0, pids0, count0) && Fits(members0, pids0)
    ensures Grown(TableOf(procs), target, members) && members0 <= members
    ensures exit.None? ==> Kept(members, pids, count) && Fits(members, pids)
    ensures exit.None? && !changed ==> forall i :: 0 <= i < |procs| ==> Settled(procs[i], members)
    ensures exit.None? && changed ==> |members| > |members0|
    ensures exit == Some(TooManyMembers) ==> |members| > MAX_MEMBERS
    ensures exit == Some(TooMuchText) ==> |members| > 1 && |Join(Texts(members), ' ')| > MAX_TEXT
    ensures exit.Some? ==> exit.value.TooManyMembers? || exit.value.TooMuchText?
  {
    exit, pids, count, changed, members := None, pids0, count0, false, members0;
    var left := Below(|procs|);
    while left != {}
      invariant forall i :: i in left ==> 0 <= i < |procs|
      invariant exit.None?
      invariant Grown(TableOf(procs), target, members) && members0 <= members && Kept(members, pids, count) && Fits(members, pids)
      invariant changed ==> |members| > |members0|
      invariant !changed ==> members == members0
      invariant !changed ==> forall i :: 0 <= i < |procs| && i !in left ==> Settled(procs[i], members0)
      decreases left
    {
      HasMember(left);
      var i: int :| i in left;
      left := left - {i};
      var step;
      exit, pids, count, step, members := Consider(procs, i, target, members, pids, count);
      if exit.Some? { return; }
      changed := changed || step;
    }
  }

  lemma MembersFit(stats: map<int, Stat>, target: nat, members: seq<nat>)
    requires Grown(stats, target, members)
    ensures |members| <= |stats|
  {
    GrownFits(members, stats.Keys);
  }

  /** The fixpoint loop: it ends because every pass but the last adds a member, and it ends
      with exactly the processes under the target. */
  method Closure(procs: seq<Proc>, target: nat)
    returns (exit: Option<Exit>, pids: string, ghost members: seq<nat>)
    requires Snapshot(procs) && target in TableOf(procs)
    ensures Grown(TableOf(procs), target, members)
    ensures exit.None? ==> pids == Join(Texts(members), ' ') && Fits(members, pids)
    ensures exit.None? ==> forall m: int :: InTree(TableOf(procs), target, m) ==> m >= 0 && m in members
    ensures exit == Some(TooManyMembers) ==> |members| > MAX_MEMBERS
    ensures exit == Some(TooMuchText) ==> |members| > 1 && |Join(Texts(members), ' ')| > MAX_TEXT
    ensures exit.Some? ==> exit.value.TooManyMembers? || exit.value.TooMuchText?
  {
    pids := Itoa(target);
    var count, changed := 1, true;
    members := [target];
    exit := None;
    assert ReachesIn(TableOf(procs), target, target, 0);
    assert Texts([target]) == [Itoa(target)];
    while changed
      invariant exit.None? && Grown(TableOf(procs), target, members) && Kept(members, pids, count) && Fits(members, pids)
      invariant !changed ==> forall i :: 0 <= i < |procs| ==> Settled(procs[i], members)
      decreases |TableOf(procs)| - |members|, changed
    {
      MembersFit(TableOf(procs), target, members);
      exit, pids, count, changed, members := Scan(procs, target, members, pids, count);
      MembersFit(TableOf(procs), target, members);
      if exit.Some? { return; }
    }
    forall m: int | InTree(TableOf(procs), target, m) ensures m >= 0 && m in members {
      var n: nat :| ReachesIn(TableOf(procs), target, m, n);
      SettledReaches(procs, target, members, m, n);
    }
  }

  lemma {:induction false} SettledReaches(procs: seq<Proc>, target: nat, members: seq<nat>, m: int, n: nat)
    requires Snapshot(procs) && target in members && ReachesIn(TableOf(procs), target, m, n)
    requires forall i :: 0 <= i < |procs| ==> Settled(procs[i], members)
    ensures m >= 0 && m in members
    decreases n
  {
    if n > 0 {
      TableOnlyHas(procs, m);
      var i :| 0 <= i < |procs| && procs[i].pid == m;
      TableHas(procs, i);
      SettledReaches(procs, target, members, procs[i].parent, n - 1);
    }
  }

  // ---- the limits, told of the tree

  /** The length of a list of pids written out, each with a space after it. */
  function TextSize(pids: seq<int>): nat {
    if pids == [] then 0 else |Format(pids[0])| + 1 + TextSize(pids[1..])
  }

  /** A tree the script refuses. */
  predicate TooBig(pids: seq<int>) {
    |pids| > 1 && (|pids| > MAX_MEMBERS || TextSize(pids) > MAX_TEXT + 1)
  }

  lemma {:induction false} JoinSize(members: seq<nat>)
    requires members != []
    ensures |Join(Texts(members), ' ')| + 1 == TextSize(members)
  {
    if |members| > 1 {
      assert Texts(members)[1..] == Texts(members[1..]);
      JoinSize(members[1..]);
    }
  }

  lemma {:induction false} SizeWithout(pids: seq<int>, i: nat)
    requires i < |pids|
    ensures TextSize(pids) == TextSize(pids[..i] + pids[i + 1..]) + |Format(pids[i])| + 1
  {
    var rest := pids[..i] + pids[i + 1..];
    if i > 0 {
      assert rest[1..] == pids[1..][..i - 1] + pids[1..][i..];
      SizeWithout(pids[1..], i - 1);
    } else {
      assert rest == pids[1..];
    }
  }

  lemma InRest(a: seq<int>, b: seq<int>, i: nat)
    requires a != [] && i < |b| && b[i] == a[0]
    requires NoRepeats(a) && forall x :: x in a ==> x in b
    ensures forall x :: x in a[1..] ==> x in b[..i] + b[i + 1..]
  {
    forall x | x in a[1..] ensures x in b[..i] + b[i + 1..] {
      var k :| 0 <= k < |a[1..]| && a[1..][k] == x;
      assert a[k + 1] == x && a[0] != a[k + 1];
      assert a[k + 1] in a;
      assert x in b;
      assert b == b[..i] + [b[i]] + b[i + 1..];
    }
  }

  /** A list without repeats is no longer, and takes no more text, than one that holds it. */
  lemma {:induction false} SizeWithin(a: seq<int>, b: seq<int>)
    requires NoRepeats(a) && forall x :: x in a ==> x in b
    ensures |a| <= |b| && TextSize(a) <= TextSize(b)
    decreases |a|
  {
    if a != [] {
      assert a[0] in a;
      var i :| 0 <= i < |b| && b[i] == a[0];
      InRest(a, b, i);
      SizeWithout(b, i);
      forall j, k | 0 <= j < k < |a[1..]| ensures a[1..][j] != a[1..][k] { assert a[j + 1] != a[k + 1]; }
      SizeWithin(a[1..], b[..i] + b[i + 1..]);
    }
  }

  /** Members the loop has met are among the tree's. */
  lemma GrownWithin(stats: map<int, Stat>, target: nat, members: seq<nat>, out: seq<Stat>)
    requires Grown(stats, target, members) && Lists(stats, target, out)
    ensures |members| <= |out| && TextSize(members) <= TextSize(Pids(out))
  {
    SizeWithin(members, Pids(out));
  }

  lemma AllWithin(stats: map<int, Stat>, target: nat, members: seq<nat>, out: seq<Stat>)
    requires Lists(stats, target, out)
    requires forall m: int :: InTree(stats, target, m) ==> m >= 0 && m in members
    ensures |out| <= |members| && TextSize(Pids(out)) <= TextSize(members)
  {
    SizeWithin(Pids(out), members);
  }

  /** The loop ends on a limit exactly for a tree that is too big. */
  lemma LimitIff(stats: map<int, Stat>, target: nat, members: seq<nat>, exit: Option<Exit>, out: seq<Stat>)
    requires Grown(stats, target, members) && Lists(stats, target, out)
    requires exit.None? ==> Fits(members, Join(Texts(members), ' '))
    requires exit.None? ==> forall m: int :: InTree(stats, target, m) ==> m >= 0 && m in members
    requires exit == Some(TooManyMembers) ==> |members| > MAX_MEMBERS
    requires exit == Some(TooMuchText) ==> |members| > 1 && |Join(Texts(members), ' ')| > MAX_TEXT
    requires exit.Some? ==> exit.value.TooManyMembers? || exit.value.TooMuchText?
    ensures exit.Some? <==> TooBig(Pids(out))
    ensures exit == Some(TooManyMembers) ==> |out| > MAX_MEMBERS
    ensures exit == Some(TooMuchText) ==> TextSize(Pids(out)) > MAX_TEXT + 1
  {
    GrownWithin(stats, target, members, out);
    JoinSize(members);
    if exit.None? { AllWithin(stats, target, members, out); }
  }

  // ---- the sample

  function SumPages(stats: seq<Stat>): nat {
    if stats == [] then 0 else SumPages(stats[..|stats| - 1]) + stats[|stats| - 1].rssPages
  }

  lemma {:induction false} SumPagesWithout(stats: seq<Stat>, i: nat)
    requires i < |stats|
    ensures SumPages(stats) == SumPages(stats[..i] + stats[i + 1..]) + stats[i].rssPages
  {
    var n := |stats| - 1;
    var rest := stats[..i] + stats[i + 1..];
    if i < n {
      assert rest[..n - 1] == stats[..n][..i] + stats[..n][i + 1..];
      SumPagesWithout(stats[..n], i);
    } else {
      assert rest == stats[..n];
    }
  }

  lemma {:induction false} SumPagesOfPermutation(a: seq<Stat>, b: seq<Stat>)
    requires multiset(a) == multiset(b)
    ensures SumPages(a) == SumPages(b)
    decreases |a|
  {
    assert |a| == |multiset(a)| == |multiset(b)| == |b|;
    if a != [] {
      var i := RestsPermute(a, b);
      SumPagesWithout(b, i);
      SumPagesOfPermutation(a[..|a| - 1], b[..i] + b[i + 1..]);
    }
  }

  ghost function Rows(stats: map<int, Stat>, members: seq<nat>): (rows: seq<Stat>)
    requires forall m :: m in members ==> m in stats
    ensures |rows| == |members| && forall i :: 0 <= i < |members| ==> rows[i] == stats[members[i]]
  {
    seq(|members|, i requires 0 <= i < |members| => stats[members[i]])
  }

  datatype Sampled =
    | Printed(pid: nat, start: string, total: int)
    | Stopped(exit: Exit)

  /** The members the loop ends with are a listing of the tree. */
  lemma ClosureLists(procs: seq<Proc>, target: nat, members: seq<nat>)
    requires Snapshot(procs) && Grown(TableOf(procs), target, members)
    requires forall m: int :: InTree(TableOf(procs), target, m) ==> m >= 0 && m in members
    ensures Lists(TableOf(procs), target, Rows(TableOf(procs), members))
  {
    var stats := TableOf(procs);
    var rows := Rows(stats, members);
    forall i | 0 <= i < |members| ensures rows[i].pid == members[i] {
      assert members[i] in stats;
      TableOnlyHas(procs, members[i]);
      var j :| 0 <= j < |procs| && procs[j].pid == members[i];
      TableHas(procs, j);
    }
    forall p ensures p in Pids(rows) <==> InTree(stats, target, p) {
      if p in Pids(rows) {
        var i :| 0 <= i < |rows| && Pids(rows)[i] == p;
        assert members[i] in members;
      }
      if InTree(stats, target, p) {
        var i :| 0 <= i < |members| && members[i] == p;
        assert Pids(rows)[i] == p;
      }
    }
  }

  /** The resident pages the script reads for one member. */
  method PagesOf(procs: seq<Proc>, member: string, ghost m: nat) returns (pages: nat)
    requires Snapshot(procs) && m in TableOf(procs) && member == Itoa(m)
    ensures pages == TableOf(procs)[m].rssPages
  {
    TableOnlyHas(procs, m);
    var i :| 0 <= i < |procs| && Itoa(procs[i].pid) == member;
    ItoaInjective(procs[i].pid, m);
    TableHas(procs, i);
    ShellReadsTheFields(procs[i]);
    ValueOfItoa(procs[i].rss);
    var rssPages := ShellWords(Line(procs[i]))[21];
    assert rssPages != "" && AllDigits(rssPages);  // the numeric test the script makes here
    pages := Value(rssPages);
  }

  /** The summing loop, over the words of the pids text. */
  method Total(procs: seq<Proc>, words: seq<string>, ghost stats: map<int, Stat>, ghost members: seq<nat>,
               ghost rows: seq<Stat>, pageSize: nat) returns (total: int)
    requires Snapshot(procs) && stats == TableOf(procs)
    requires |words| == |members| == |rows|
    requires forall i :: 0 <= i < |members| ==> words[i] == Itoa(members[i])
    requires forall i :: 0 <= i < |members| ==> members[i] in stats && rows[i] == stats[members[i]]
    ensures total == pageSize * SumPages(rows)
  {
    total := 0;
    for k := 0 to |words|
      invariant total == pageSize * SumPages(rows[..k])
    {
      var pages := PagesOf(procs, words[k], members[k]);
      SumStep(rows, k, pageSize);
      total := total + pages * pageSize;
    }
    assert rows[..|words|] == rows;
  }

  lemma SumStep(rows: seq<Stat>, k: nat, pageSize: nat)
    requires k < |rows|
    ensures pageSize * SumPages(rows[..k + 1]) == pageSize * SumPages(rows[..k]) + rows[k].rssPages * pageSize
  {
    assert rows[..k + 1][..k] == rows[..k];
    Distribute(pageSize, SumPages(rows[..k]), rows[k].rssPages);
  }

  lemma Distribute(a: nat, b: nat, c: nat)
    ensures a * (b + c) == a * b + c * a
  {
  }

  /** Whether the loop ended on a limit tells of the whole tree, and which one of its size. */
  ghost predicate LimitTells(stats: map<int, Stat>, target: nat, exit: Option<Exit>) {
    forall out :: Lists(stats, target, out) ==>
      && (exit.Some? <==> TooBig(Pids(out)))
      && (exit == Some(TooManyMembers) ==> |out| > MAX_MEMBERS)
      && (exit == Some(TooMuchText) ==> TextSize(Pids(out)) > MAX_TEXT + 1)
  }

  /** The closure, and whether it stayed within the limits. */
  method BoundedClosure(procs: seq<Proc>, target: nat) returns (exit: Option<Exit>, pids: string, ghost members: seq<nat>)
    requires Snapshot(procs) && target in TableOf(procs)
    ensures LimitTells(TableOf(procs), target, exit)
    ensures exit.Some? ==> exit.value.TooManyMembers? || exit.value.TooMuchText?
    ensures Grown(TableOf(procs), target, members)
    ensures exit.None? ==> pids == Join(Texts(members), ' ')
    ensures exit.None? ==> Lists(TableOf(procs), target, Rows(TableOf(procs), members))
  {
    exit, pids, members := Closure(procs, target);
    forall out | Lists(TableOf(procs), target, out)
      ensures exit.Some? <==> TooBig(Pids(out))
      ensures exit == Some(TooManyMembers) ==> |out| > MAX_MEMBERS
      ensures exit == Some(TooMuchText) ==> TextSize(Pids(out)) > MAX_TEXT + 1
    {
      LimitIff(TableOf(procs), target, members, exit, out);
    }
    if exit.None? { ClosureLists(procs, target, members); }
  }

  /** The total, for the words of the members' text: of any listing of the tree. */
  method TreeTotal(procs: seq<Proc>, target: nat, pids: string, ghost members: seq<nat>, pageSize: nat) returns (total: int)
    requires Snapshot(procs) && Grown(TableOf(procs), target, members) && pids == Join(Texts(members), ' ')
    requires Lists(TableOf(procs), target, Rows(TableOf(procs), members))
    ensures forall out :: Lists(TableOf(procs), target, out) ==> total == pageSize * SumPages(out)
  {
    FieldsOfJoin(Texts(members));
    total := Total(procs, Fields(pids), TableOf(procs), members, Rows(TableOf(procs), members), pageSize);
    forall out | Lists(TableOf(procs), target, out) ensures total == pageSize * SumPages(out) {
      TreesAgree(TableOf(procs), target, out, Rows(TableOf(procs), members));
      SumPagesOfPermutation(out, Rows(TableOf(procs), members));
    }
  }

  /** sample(): on a fixed snapshot the script stops early exactly for a missing target, another
      executable, or a tree over its limits; otherwise it prints the target, its start time and
      page size times the resident pages of any listing of the tree, the breadth-first walk's
      among them. */
  method Sample(procs: seq<Proc>, target: nat, sameExecutable: bool, pageSize: nat)
    returns (r: Sampled, ghost members: seq<nat>)
    requires Snapshot(procs)
    ensures r == Stopped(Unreadable) <==> target !in TableOf(procs)
    ensures r == Stopped(WrongExecutable) <==> target in TableOf(procs) && !sameExecutable
    ensures target in TableOf(procs) && sameExecutable ==>
              LimitTells(TableOf(procs), target, if r.Stopped? then Some(r.exit) else None)
    ensures r.Printed? ==> target in TableOf(procs) && sameExecutable
    ensures r.Printed? ==> r.pid == target && r.start == TableOf(procs)[target].startTime
    ensures r.Printed? ==> forall out :: Lists(TableOf(procs), target, out) ==> r.total == pageSize * SumPages(out)
    ensures r.Printed? ==> Grown(TableOf(procs), target, members)
    ensures r.Printed? ==> Lists(TableOf(procs), target, Rows(TableOf(procs), members))
  {
    members := [];
    TableEntries(procs);
    if !(exists i :: 0 <= i < |procs| && procs[i].pid == target) {
      return Stopped(Unreadable), members;
    }
    var i :| 0 <= i < |procs| && procs[i].pid == target;
    ShellReadsTheFields(procs[i]);
    var start := ShellWords(Line(procs[i]))[19];
    if !sameExecutable {
      return Stopped(WrongExecutable), members;
    }
    var exit, pids;
    exit, pids, members := BoundedClosure(procs, target);
    if exit.Some? {
      return Stopped(exit.value), members;
    }
    var total := TreeTotal(procs, target, pids, members, pageSize);
    r := Printed(target, start, total);
  }

  /** Go's walk and the script agree on a snapshot: whatever the walk answers for the
      snapshot's lines, it is the same processes the script's loop ends with. */
  lemma WalkAndScriptAgree(procs: seq<Proc>, target: nat, maxProcesses: int, maxBytes: int,
                           out: seq<Stat>, members: seq<nat>)
    requires Snapshot(procs)
    requires Admit(Lines(procs), target, maxProcesses, maxBytes).Table?
    requires IsTree(Admit(Lines(procs), target, maxProcesses, maxBytes).stats, target, out)
    requires Grown(TableOf(procs), target, members)
    requires forall m: int :: InTree(TableOf(procs), target, m) ==> m >= 0 && m in members
    ensures multiset(out) == multiset(Rows(TableOf(procs), members))
  {
    AdmitOfSnapshot(procs, target, maxProcesses, maxBytes);
    ClosureLists(procs, target, members);
    TreesAgree(TableOf(procs), target, out, Rows(TableOf(procs), members));
  }

  lemma AdmitOfSnapshot(procs: seq<Proc>, target: nat, maxProcesses: int, maxBytes: int)
    requires Snapshot(procs) && Admit(Lines(procs), target, maxProcesses, maxBytes).Table?
    ensures Admit(Lines(procs), target, maxProcesses, maxBytes).stats == TableOf(procs)
  {
    LoadOfSnapshot(procs);
  }
}
