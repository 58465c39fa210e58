/** The backend's process tree: a breadth-first walk over a parent graph that may hold
    cycles (cmd/agent-overflow-windows/wsl_memory_watchdog_windows.go). */
module ProcTree {
  import opened Text
  import opened ProcStat

  datatype TreeError =
    | InvalidLimits
    | InputTooLarge
    | BadLine(error: StatError)
    | DuplicatePid(pid: int)
    | RootMissing

  datatype Loaded = Table(stats: map<int, Stat>) | LoadFailed(error: TreeError)

  datatype TreeResult = Tree(out: seq<Stat>) | TreeFailed(error: TreeError)

  /** One more line, unless something was wrong before it. */
  function AddLine(before: Loaded, line: string): (r: Loaded)
    ensures before.LoadFailed? ==> r == before
    ensures r.Table? ==> before.Table? && |r.stats| == |before.stats| + 1
    ensures r.Table? && (forall p :: p in before.stats ==> before.stats[p].pid == p > 0) ==>
              forall p :: p in r.stats ==> r.stats[p].pid == p > 0
  {
    if before.LoadFailed? then before
    else
      match Parse(line)
      case Rejected(error) => LoadFailed(BadLine(error))
      case Parsed(stat) =>
        if stat.pid in before.stats then LoadFailed(DuplicatePid(stat.pid))
        else Table(before.stats[stat.pid := stat])
  }

  /** The table a prefix of the lines fills, or the first thing wrong with it. */
  function Load(lines: seq<string>): (r: Loaded)
    ensures r.Table? ==> forall p :: p in r.stats ==> r.stats[p].pid == p > 0
    ensures r.Table? ==> |r.stats| == |lines|
  {
    if lines == [] then Table(map[]) else AddLine(Load(lines[..|lines| - 1]), lines[|lines| - 1])
  }

  /** What the checks before the walk let through. */
  function Admit(lines: seq<string>, root: int, maxProcesses: int, maxBytes: int): (r: Loaded)
    ensures r.Table? ==> root in r.stats && |r.stats| == |lines| <= maxProcesses
    ensures r.Table? ==> forall p :: p in r.stats ==> r.stats[p].pid == p > 0
  {
    if root <= 0 || maxProcesses <= 0 || maxBytes <= 0 then LoadFailed(InvalidLimits)
    else if |lines| > maxProcesses || |Join(lines, '\n')| > maxBytes then LoadFailed(InputTooLarge)
    else
      var r := Load(lines);
      if r.Table? && root !in r.stats then LoadFailed(RootMissing) else r
  }

  /** Following p's parents n times arrives at the root. */
  ghost predicate ReachesIn(stats: map<int, Stat>, root: int, p: int, n: nat)
    decreases n
  {
    p in stats && if n == 0 then p == root else ReachesIn(stats, root, stats[p].parent, n - 1)
  }

  ghost predicate InTree(stats: map<int, Stat>, root: int, p: int) {
    exists n: nat :: ReachesIn(stats, root, p, n)
  }

  function Pids(stats: seq<Stat>): (pids: seq<int>)
    ensures |pids| == |stats|
    ensures forall i :: 0 <= i < |stats| ==> pids[i] == stats[i].pid
  {
    seq(|stats|, i requires 0 <= i < |stats| => stats[i].pid)
  }

  ghost predicate NoRepeats(s: seq<int>) {
    forall i, j :: 0 <= i < j < |s| ==> s[i] != s[j]
  }

  /** Every entry but the first comes after its parent. */
  ghost predicate ParentsFirst(stats: map<int, Stat>, order: seq<int>) {
    forall i :: 0 < i < |order| ==> order[i] in stats && stats[order[i]].parent in order[..i]
  }

  ghost predicate Children(stats: map<int, Stat>, among: set<int>, children: map<int, seq<int>>) {
    && (forall q, c :: q in children && c in children[q] ==> c in among && c in stats && stats[c].parent == q)
    && (forall c :: c in among && c in stats ==> stats[c].parent in children && c in children[stats[c].parent])
  }

  function ChildrenOf(children: map<int, seq<int>>, p: int): seq<int> {
    if p in children then children[p] else []
  }

  lemma NoMember(s: set<int>)
    ensures (forall x :: x !in s) ==> s == {}
  {
    if forall x :: x !in s { assert s == {}; }
  }

  lemma HasMember(s: set<int>)
    requires s != {}
    ensures exists x :: x in s
  {
    NoMember(s);
  }

  /** Visits the table in an arbitrary order, as ranging over a map does. */
  method LinkChildren(stats: map<int, Stat>) returns (children: map<int, seq<int>>)
    ensures Children(stats, stats.Keys, children)
  {
    children := map[];
    var left := stats.Keys;
    while left != {}
      invariant left <= stats.Keys
      invariant forall q, c :: q in children && c in children[q] ==> c in stats && stats[c].parent == q
      invariant forall c :: c in stats && c !in left ==> stats[c].parent in children && c in children[stats[c].parent]
      decreases left
    {
      HasMember(left);
      var pid: int :| pid in left;
      var parent := stats[pid].parent;
      var siblings := ChildrenOf(children, parent) + [pid];
      assert pid in siblings;
      children := children[parent := siblings];
      left := left - {pid};
    }
  }

  /** What the walk has seen: emitted pids, then queued ones, in the order they were met. */
  ghost predicate Met(stats: map<int, Stat>, root: int, out: seq<int>, queue: seq<int>, seen: set<int>) {
    var order := out + queue;
    && order != [] && order[0] == root
    && NoRepeats(order)
    && (forall p :: p in seen <==> p in order)
    && AllInTree(stats, root, order)
    && ParentsFirst(stats, order)
  }

  ghost predicate AllInTree(stats: map<int, Stat>, root: int, order: seq<int>) {
    forall p :: p in order ==> p in stats && InTree(stats, root, p)
  }

  lemma ChildInTree(stats: map<int, Stat>, root: int, p: int, c: int)
    requires InTree(stats, root, p) && c in stats && stats[c].parent == p
    ensures InTree(stats, root, c)
  {
    var n: nat :| ReachesIn(stats, root, p, n);
    assert ReachesIn(stats, root, c, n + 1);
  }

  lemma AppendKeepsParentsFirst(stats: map<int, Stat>, order: seq<int>, c: int)
    requires ParentsFirst(stats, order) && c in stats && stats[c].parent in order
    ensures ParentsFirst(stats, order + [c])
  {
    var next := order + [c];
    forall i | 0 < i < |next| ensures next[i] in stats && stats[next[i]].parent in next[..i] {
      if i < |order| {
        assert next[..i] == order[..i] && next[i] == order[i];
      } else {
        assert next[..i] == order;
      }
    }
  }

  /** Queueing an unseen child of an emitted pid keeps everything met in order. */
  lemma MeetChild(stats: map<int, Stat>, root: int, out: seq<int>, queue: seq<int>, seen: set<int>, c: int)
    requires Met(stats, root, out, queue, seen)
    requires c in stats && c !in seen && stats[c].parent in out
    ensures Met(stats, root, out, queue + [c], seen + {c})
  {
    var order := out + queue;
    assert out + (queue + [c]) == order + [c];
    var k :| 0 <= k < |out| && out[k] == stats[c].parent;
    assert order[k] == stats[c].parent;
    assert AllInTree(stats, root, order + [c]) by {
      assert InTree(stats, root, stats[c].parent);
      ChildInTree(stats, root, stats[c].parent, c);
    }
    AppendKeepsParentsFirst(stats, order, c);
    AppendKeepsNoRepeats(order, c);
  }

  lemma AppendKeepsNoRepeats(order: seq<int>, c: int)
    requires NoRepeats(order) && c !in order
    ensures NoRepeats(order + [c])
  {
  }

  lemma {:induction false} AncestorsMet(stats: map<int, Stat>, root: int, out: seq<int>, p: int, n: nat)
    requires root in out && ReachesIn(stats, root, p, n)
    requires forall c :: c in stats && stats[c].parent in out ==> c in out
    ensures p in out
    decreases n
  {
    if n > 0 { AncestorsMet(stats, root, out, stats[p].parent, n - 1); }
  }

  lemma {:induction false} DistinctFit(order: seq<int>, universe: set<int>)
    requires NoRepeats(order) && forall i :: 0 <= i < |order| ==> order[i] in universe
    ensures |order| <= |universe|
  {
    if order != [] {
      var last := order[|order| - 1];
      DistinctFit(order[..|order| - 1], universe - {last});
    }
  }

  ghost predicate FromTable(stats: map<int, Stat>, out: seq<Stat>) {
    forall i :: 0 <= i < |out| ==> out[i].pid in stats && out[i] == stats[out[i].pid]
  }

  /** The children of everything emitted have been seen. */
  ghost predicate Closed(stats: map<int, Stat>, out: seq<int>, seen: set<int>) {
    forall c :: c in stats && stats[c].parent in out ==> c in seen
  }

  lemma CloseStep(stats: map<int, Stat>, children: map<int, seq<int>>, out: seq<int>, pid: int,
                  seen0: set<int>, seen: set<int>)
    requires Children(stats, stats.Keys, children) && Closed(stats, out, seen0)
    requires seen0 <= seen && forall c :: c in ChildrenOf(children, pid) ==> c in seen
    ensures Closed(stats, out + [pid], seen)
  {
  }

  /** Exactly the processes under the root, each once. */
  ghost predicate Lists(stats: map<int, Stat>, root: int, out: seq<Stat>) {
    && NoRepeats(Pids(out))
    && FromTable(stats, out)
    && (forall p :: p in Pids(out) <==> InTree(stats, root, p))
  }

  /** The tree in the order the walk emits it: the root first and every other entry after
      its parent. */
  ghost predicate IsTree(stats: map<int, Stat>, root: int, out: seq<Stat>) {
    && out != [] && out[0].pid == root
    && Lists(stats, root, out)
    && ParentsFirst(stats, Pids(out))
  }

  /** The inner loop: queues the children not seen before. */
  method QueueChildren(ghost stats: map<int, Stat>, ghost root: int, ghost out: seq<int>, queue0: seq<int>, seen0: set<int>, kids: seq<int>)
    returns (queue: seq<int>, seen: set<int>)
    requires Met(stats, root, out, queue0, seen0)
    requires forall c :: c in kids ==> c in stats && stats[c].parent in out
    ensures Met(stats, root, out, queue, seen)
    ensures seen0 <= seen && forall c :: c in kids ==> c in seen
  {
    queue, seen := queue0, seen0;
    for k := 0 to |kids|
      invariant Met(stats, root, out, queue, seen)
      invariant seen0 <= seen && forall i :: 0 <= i < k ==> kids[i] in seen
    {
      var child := kids[k];
      assert child in stats && stats[child].parent in out;
      if child !in seen {
        MeetChild(stats, root, out, queue, seen, child);
        seen := seen + {child};
        queue := queue + [child];
      }
    }
    forall c | c in kids ensures c in seen { var i :| 0 <= i < |kids| && kids[i] == c; }
  }

  /** collectWSLProcTree. Its error is exactly the first failed check; past the checks it
      always answers, so the process limit tested inside the loop never fires. */
  method CollectTree(lines: seq<string>, root: int, maxProcesses: int, maxBytes: int) returns (r: TreeResult)
    ensures r.TreeFailed? <==> Admit(lines, root, maxProcesses, maxBytes).LoadFailed?
    ensures r.TreeFailed? ==> r.error == Admit(lines, root, maxProcesses, maxBytes).error
    ensures r.Tree? ==> IsTree(Admit(lines, root, maxProcesses, maxBytes).stats, root, r.out)
  {
    if root <= 0 || maxProcesses <= 0 || maxBytes <= 0 {
      return TreeFailed(InvalidLimits);
    }
    if |lines| > maxProcesses || |Join(lines, '\n')| > maxBytes {
      return TreeFailed(InputTooLarge);
    }
    var loaded := LoadLines(lines);
    if loaded.LoadFailed? {
      return TreeFailed(loaded.error);
    }
    var byPid := loaded.stats;
    if root !in byPid {
      return TreeFailed(RootMissing);
    }
    var children := LinkChildren(byPid);
    var out := Walk(byPid, children, root, maxProcesses);
    r := Tree(out);
  }

  method LoadLines(lines: seq<string>) returns (loaded: Loaded)
    ensures loaded == Load(lines)
  {
    var byPid: map<int, Stat> := map[];
    for i := 0 to |lines|
      invariant Load(lines[..i]) == Table(byPid)
    {
      LoadStep(lines, i);
      loaded := LoadLine(byPid, lines[i]);
      if loaded.LoadFailed? {
        LoadStopsAtFirst(lines, i + 1);
        return;
      }
      byPid := loaded.stats;
    }
    assert lines[..|lines|] == lines;
    loaded := Table(byPid);
  }

  /** The loop's body: one line parsed into the table. */
  method LoadLine(byPid: map<int, Stat>, line: string) returns (loaded: Loaded)
    ensures loaded == AddLine(Table(byPid), line)
  {
    match Parse(line)
    case Rejected(error) => return LoadFailed(BadLine(error));
    case Parsed(stat) =>
      if stat.pid in byPid { return LoadFailed(DuplicatePid(stat.pid)); }
      return Table(byPid[stat.pid := stat]);
  }

  function ByPid(stats: seq<Stat>): map<int, Stat> {
    if stats == [] then map[] else ByPid(stats[..|stats| - 1])[stats[|stats| - 1].pid := stats[|stats| - 1]]
  }

  ghost predicate DistinctPids(stats: seq<Stat>) {
    forall i, j :: 0 <= i < j < |stats| ==> stats[i].pid != stats[j].pid
  }

  lemma {:induction false} ByPidHas(stats: seq<Stat>, i: nat)
    requires DistinctPids(stats) && i < |stats|
    ensures stats[i].pid in ByPid(stats) && ByPid(stats)[stats[i].pid] == stats[i]
  {
    if i < |stats| - 1 { ByPidHas(stats[..|stats| - 1], i); }
  }

  lemma {:induction false} ByPidOnlyHas(stats: seq<Stat>, p: int)
    requires p in ByPid(stats)
    ensures exists i :: 0 <= i < |stats| && stats[i].pid == p
  {
    var n := |stats| - 1;
    if stats[n].pid != p {
      ByPidOnlyHas(stats[..n], p);
      var i :| 0 <= i < n && stats[..n][i].pid == p;
      assert stats[i].pid == p;
    }
  }

  /** Lines that all parse, to stats with distinct pids, load as the table of those stats. */
  lemma {:induction false} LoadOfParsed(lines: seq<string>, stats: seq<Stat>)
    requires |lines| == |stats| && DistinctPids(stats)
    requires forall i :: 0 <= i < |lines| ==> Parse(lines[i]) == Parsed(stats[i])
    ensures Load(lines) == Table(ByPid(stats))
  {
    if lines != [] {
      var n := |lines| - 1;
      LoadOfParsed(lines[..n], stats[..n]);
      if stats[n].pid in ByPid(stats[..n]) { ByPidOnlyHas(stats[..n], stats[n].pid); }
    }
  }

  lemma LoadStep(lines: seq<string>, i: nat)
    requires i < |lines|
    ensures Load(lines[..i + 1]) == AddLine(Load(lines[..i]), lines[i])
  {
    assert lines[..i + 1][..i] == lines[..i];
  }

  lemma {:induction false} LoadStopsAtFirst(lines: seq<string>, k: nat)
    requires k <= |lines| && Load(lines[..k]).LoadFailed?
    ensures Load(lines) == Load(lines[..k])
    decreases |lines|
  {
    if k == |lines| {
      assert lines[..k] == lines;
    } else {
      assert lines[..|lines| - 1][..k] == lines[..k];
      LoadStopsAtFirst(lines[..|lines| - 1], k);
    }
  }

  lemma MoveHead(stats: map<int, Stat>, root: int, out: seq<int>, queue: seq<int>, seen: set<int>)
    requires queue != [] && Met(stats, root, out, queue, seen)
    ensures queue[0] in stats && Met(stats, root, out + [queue[0]], queue[1..], seen)
    ensures |out| + 1 <= |stats|
  {
    var order := out + queue;
    assert order == out + [queue[0]] + queue[1..];
    assert order[|out|] == queue[0];
    assert queue[0] in order;
    DistinctFit(order, stats.Keys);
  }

  lemma PidsAppend(out: seq<Stat>, s: Stat)
    ensures Pids(out + [s]) == Pids(out) + [s.pid]
  {
  }

  /** Emitting the head of the queue. */
  lemma Emit(stats: map<int, Stat>, root: int, out: seq<Stat>, queue: seq<int>, seen: set<int>)
    requires queue != [] && Met(stats, root, Pids(out), queue, seen) && FromTable(stats, out)
    requires forall p :: p in stats ==> stats[p].pid == p
    ensures queue[0] in stats && FromTable(stats, out + [stats[queue[0]]])
    ensures Pids(out + [stats[queue[0]]]) == Pids(out) + [queue[0]]
    ensures Met(stats, root, Pids(out) + [queue[0]], queue[1..], seen)
    ensures |out| + 1 <= |stats|
  {
    MoveHead(stats, root, Pids(out), queue, seen);
    var s := stats[queue[0]];
    assert s.pid == queue[0];
    PidsAppend(out, s);
  }

  lemma WalkDone(stats: map<int, Stat>, root: int, out: seq<Stat>, seen: set<int>)
    requires Met(stats, root, Pids(out), [], seen)
    requires FromTable(stats, out)
    requires Closed(stats, Pids(out), seen)
    ensures IsTree(stats, root, out)
  {
    var pids := Pids(out);
    assert pids + [] == pids;
    assert pids[0] == root;
    forall p | InTree(stats, root, p) ensures p in pids {
      var n: nat :| ReachesIn(stats, root, p, n);
      AncestorsMet(stats, root, pids, p, n);
    }
  }

  lemma KidsOf(stats: map<int, Stat>, children: map<int, seq<int>>, out: seq<int>, pid: int)
    requires Children(stats, stats.Keys, children)
    ensures forall c :: c in ChildrenOf(children, pid) ==> c in stats && stats[c].parent in out + [pid]
  {
  }

  ghost predicate WalkState(stats: map<int, Stat>, root: int, out: seq<Stat>, queue: seq<int>, seen: set<int>) {
    Met(stats, root, Pids(out), queue, seen) && FromTable(stats, out) && Closed(stats, Pids(out), seen)
  }

  /** One round of the walk: emits the head of the queue and queues its unseen children. */
  method Visit(byPid: map<int, Stat>, children: map<int, seq<int>>, root: int,
               out0: seq<Stat>, queue0: seq<int>, seen0: set<int>)
    returns (out: seq<Stat>, queue: seq<int>, seen: set<int>)
    requires Children(byPid, byPid.Keys, children)
    requires forall p :: p in byPid ==> byPid[p].pid == p
    requires queue0 != [] && WalkState(byPid, root, out0, queue0, seen0)
    ensures WalkState(byPid, root, out, queue, seen)
    ensures |out| == |out0| + 1 <= |byPid|
  {
    var pid := queue0[0];
    ghost var emitted := Pids(out0) + [pid];
    Emit(byPid, root, out0, queue0, seen0);
    KidsOf(byPid, children, Pids(out0), pid);
    out := out0 + [byPid[pid]];
    assert Pids(out) == emitted;
    queue, seen := QueueChildren(byPid, root, emitted, queue0[1..], seen0, ChildrenOf(children, pid));
    CloseStep(byPid, children, Pids(out0), pid, seen0, seen);
  }

  method Walk(byPid: map<int, Stat>, children: map<int, seq<int>>, root: int, maxProcesses: int) returns (out: seq<Stat>)
    requires Children(byPid, byPid.Keys, children) && root in byPid && |byPid| <= maxProcesses
    requires forall p :: p in byPid ==> byPid[p].pid == p
    ensures IsTree(byPid, root, out)
  {
    var queue := [root];
    var seen := {root};
    out := [];
    assert ReachesIn(byPid, root, root, 0);
    assert Pids(out) + queue == [root];
    while queue != []
      invariant WalkState(byPid, root, out, queue, seen)
      decreases |byPid| - |out|
    {
      out, queue, seen := Visit(byPid, children, root, out, queue, seen);
      assert |out| <= maxProcesses;  // the limit the source tests here
    }
    WalkDone(byPid, root, out, seen);
  }

  /** The answer is a set: two walks over the same table, whatever order the map was ranged
      over, emit the same processes. */
  lemma TreesAgree(stats: map<int, Stat>, root: int, a: seq<Stat>, b: seq<Stat>)
    requires Lists(stats, root, a) && Lists(stats, root, b)
    ensures multiset(a) == multiset(b)
  {
    forall s ensures multiset(a)[s] == multiset(b)[s] {
      OnceEach(a, s);
      OnceEach(b, s);
      assert s in a <==> s in b by {
        InBoth(stats, root, a, b, s);
        InBoth(stats, root, b, a, s);
      }
    }
  }

  lemma InBoth(stats: map<int, Stat>, root: int, a: seq<Stat>, b: seq<Stat>, s: Stat)
    requires Lists(stats, root, a) && Lists(stats, root, b)
    ensures s in a ==> s in b
  {
    if s in a {
      var i :| 0 <= i < |a| && a[i] == s;
      assert Pids(a)[i] == s.pid;
      assert s.pid in Pids(b);
      var j :| 0 <= j < |b| && Pids(b)[j] == s.pid;
      assert b[j] == s;
    }
  }

  lemma {:induction false} OnceEach(a: seq<Stat>, s: Stat)
    requires NoRepeats(Pids(a))
    ensures multiset(a)[s] == if s in a then 1 else 0
  {
    if a != [] {
      var n := |a| - 1;
      assert a == a[..n] + [a[n]];
      assert forall i, j :: 0 <= i < j < |a| ==> Pids(a)[i] != Pids(a)[j];
      assert NoRepeats(Pids(a[..n])) by {
        forall i, j | 0 <= i < j < n ensures Pids(a[..n])[i] != Pids(a[..n])[j] {
          assert Pids(a)[i] != Pids(a)[j];
        }
      }
      OnceEach(a[..n], s);
      assert a[n] !in a[..n] by {
        forall i | 0 <= i < n ensures a[i] != a[n] { assert Pids(a)[i] != Pids(a)[n]; }
      }
    }
  }

  // ---- what is admitted

  /** The line spells its entry. */
  predicate Says(line: string, stat: Stat) { Parse(line) == Parsed(stat) }

  ghost predicate Pairwise<A, B>(a: seq<A>, b: seq<B>, related: (A, B) -> bool) {
    |a| == |b| && forall i :: 0 <= i < |a| ==> related(a[i], b[i])
  }

  lemma PairwiseOneMore<A, B>(a: seq<A>, n: nat, b: seq<B>, last: B, related: (A, B) -> bool)
    requires |a| == n + 1 && Pairwise(a[..n], b, related) && related(a[n], last)
    ensures Pairwise(a, b + [last], related)
  {
    forall i | 0 <= i < n ensures related(a[i], b[i]) { assert a[..n][i] == a[i]; }
  }

  /** Every line spells its entry of stats, and no two have the same pid. */
  ghost predicate Spelled(lines: seq<string>, stats: seq<Stat>) {
    DistinctPids(stats) && Pairwise(lines, stats, Says)
  }

  lemma DistinctOneMore(stats: seq<Stat>, last: Stat)
    requires DistinctPids(stats) && last.pid !in ByPid(stats)
    ensures DistinctPids(stats + [last])
  {
    forall i | 0 <= i < |stats| ensures stats[i].pid != last.pid { ByPidHas(stats, i); }
  }

  lemma ByPidOneMore(stats: seq<Stat>, last: Stat)
    ensures ByPid(stats + [last]) == ByPid(stats)[last.pid := last]
  {
    assert (stats + [last])[..|stats|] == stats;
  }

  /** The list of entries a table of lines was filled from. */
  ghost predicate FilledFrom(lines: seq<string>, stats: seq<Stat>) {
    Spelled(lines, stats) && Load(lines) == Table(ByPid(stats))
  }

  lemma FilledOneMore(lines: seq<string>, n: nat, stats: seq<Stat>)
    requires |lines| == n + 1 && FilledFrom(lines[..n], stats) && Load(lines).Table?
    ensures Parse(lines[n]).Parsed? && FilledFrom(lines, stats + [Parse(lines[n]).stat])
  {
    assert Load(lines) == AddLine(Load(lines[..n]), lines[n]);
    var last := Parse(lines[n]).stat;
    DistinctOneMore(stats, last);
    PairwiseOneMore(lines, n, stats, last, Says);
    ByPidOneMore(stats, last);
  }

  lemma NothingFilled(lines: seq<string>)
    requires lines == []
    ensures FilledFrom(lines, [])
  {
  }

  lemma {:induction false} LoadedIsSpelled(lines: seq<string>) returns (stats: seq<Stat>)
    requires Load(lines).Table?
    ensures FilledFrom(lines, stats)
  {
    if lines == [] {
      NothingFilled(lines);
      stats := [];
    } else {
      var n := |lines| - 1;
      var earlier := LoadedIsSpelled(lines[..n]);
      FilledOneMore(lines, n, earlier);
      stats := earlier + [Parse(lines[n]).stat];
    }
  }

  /** The walk is reached exactly with positive limits, few and short enough lines, each of
      which parses, no pid twice, and the root among them; and what it walks is then the table
      of what the lines say. */
  lemma AdmittedIff(lines: seq<string>, root: int, maxProcesses: int, maxBytes: int, table: map<int, Stat>)
    ensures Admit(lines, root, maxProcesses, maxBytes) == Table(table) <==>
            && root > 0 && maxProcesses > 0 && maxBytes > 0
            && |lines| <= maxProcesses && |Join(lines, '\n')| <= maxBytes
            && root in table && exists stats :: Spelled(lines, stats) && ByPid(stats) == table
  {
    if Load(lines) == Table(table) { var stats := LoadedIsSpelled(lines); }
    if stats :| Spelled(lines, stats) && ByPid(stats) == table { LoadOfParsed(lines, stats); }
  }

  /** The first line that does not parse is what is reported. */
  lemma FirstBadLineIsReported(lines: seq<string>, k: nat)
    requires k < |lines| && Load(lines[..k]).Table? && Parse(lines[k]).Rejected?
    ensures Load(lines) == LoadFailed(BadLine(Parse(lines[k]).error))
  {
    LoadStep(lines, k);
    LoadStopsAtFirst(lines, k + 1);
  }

  lemma LoadedHas(lines: seq<string>, j: nat)
    requires j < |lines| && Load(lines).Table?
    ensures Parse(lines[j]).Parsed? && Parse(lines[j]).stat.pid in Load(lines).stats
  {
    var stats := LoadedIsSpelled(lines);
    assert Says(lines[j], stats[j]);
    ByPidHas(stats, j);
  }

  lemma RepeatFails(lines: seq<string>, k: nat, pid: int)
    requires k < |lines| && Load(lines[..k]).Table? && pid in Load(lines[..k]).stats
    requires Parse(lines[k]).Parsed? && Parse(lines[k]).stat.pid == pid
    ensures Load(lines) == LoadFailed(DuplicatePid(pid))
  {
    LoadStep(lines, k);
    LoadStopsAtFirst(lines, k + 1);
  }

  /** So is the first line that repeats a pid. */
  lemma FirstRepeatIsReported(lines: seq<string>, j: nat, k: nat)
    requires j < k < |lines| && Load(lines[..k]).Table? && Parse(lines[k]).Parsed?
    requires Parse(lines[j]).Parsed? && Parse(lines[j]).stat.pid == Parse(lines[k]).stat.pid
    ensures Load(lines) == LoadFailed(DuplicatePid(Parse(lines[k]).stat.pid))
  {
    LoadedHas(lines[..k], j);
    assert lines[..k][j] == lines[j];
    RepeatFails(lines, k, Parse(lines[k]).stat.pid);
  }

  /** Before any line is read, limits that are not positive come first, then too much input;
      a root that is missing comes last. */
  lemma ChecksInOrder(lines: seq<string>, root: int, maxProcesses: int, maxBytes: int)
    ensures root <= 0 || maxProcesses <= 0 || maxBytes <= 0 <==>
            Admit(lines, root, maxProcesses, maxBytes) == LoadFailed(InvalidLimits)
    ensures root > 0 && maxProcesses > 0 && maxBytes > 0 && (|lines| > maxProcesses || |Join(lines, '\n')| > maxBytes) <==>
            Admit(lines, root, maxProcesses, maxBytes) == LoadFailed(InputTooLarge)
  {
    LoadErrors(lines);
  }

  lemma {:induction false} LoadErrors(lines: seq<string>)
    ensures Load(lines).LoadFailed? ==> Load(lines).error.BadLine? || Load(lines).error.DuplicatePid?
  {
    if lines != [] { LoadErrors(lines[..|lines| - 1]); }
  }
}
