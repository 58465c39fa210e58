/** Reading a Linux /proc/<pid>/stat line whose command name may hold anything
    (cmd/agent-overflow-windows/wsl_memory_watchdog_windows.go). */
module ProcStat {
  import opened Text
  import opened Decimal

  datatype Stat = Stat(pid: int, parent: int, startTime: string, rssPages: nat)

  datatype StatError = MalformedLine | InvalidPid | ShortLine | InvalidParent | InvalidStartTime | InvalidRss

  datatype StatResult = Parsed(stat: Stat) | Rejected(error: StatError)

  /** strings.IndexByte: the first position of c, or -1. */
  function IndexOf(s: string, c: char): (i: int)
    ensures -1 <= i < |s|
    ensures i >= 0 ==> s[i] == c && c !in s[..i]
    ensures i < 0 ==> c !in s
  {
    if s == [] then -1
    else if s[0] == c then 0
    else
      var rest := IndexOf(s[1..], c);
      if rest < 0 then -1
      else assert s[..rest + 1] == [s[0]] + s[1..][..rest]; rest + 1
  }

  predicate ClosesAt(s: string, i: int) {
    0 <= i < |s| - 1 && s[i] == ')' && s[i + 1] == ' '
  }

  /** strings.LastIndex for ") ": the last place a command name can close, or -1. */
  function LastClose(s: string): (i: int)
    ensures i == -1 || ClosesAt(s, i)
    ensures forall j :: ClosesAt(s, j) ==> j <= i
  {
    if |s| < 2 then -1
    else if ClosesAt(s, |s| - 2) then |s| - 2
    else
      var i := LastClose(s[..|s| - 1]);
      assert forall j :: ClosesAt(s, j) ==> j == |s| - 2 || ClosesAt(s[..|s| - 1], j);
      i
  }

  /** The numeric half: what the fields after the command name say. */
  function FromFields(pid: int, fields: seq<string>): (r: StatResult)
    ensures r.Parsed? ==> r.stat.pid == pid && r.stat.parent >= 0
  {
    if |fields| <= 21 then Rejected(ShortLine)
    else
      var parent := Atoi(fields[1]);
      if parent.None? || parent.value < 0 then Rejected(InvalidParent)
      else if ParseUint(fields[19]).None? then Rejected(InvalidStartTime)
      else
        var rss := ParseUint(fields[21]);
        if rss.None? then Rejected(InvalidRss)
        else Parsed(Stat(pid, parent.value, fields[19], rss.value))
  }

  /** A line's three pieces: before its first space, up to its last closing delimiter, and
      after it. */
  datatype Pieces = Pieces(pid: string, name: string, tail: string)

  /** line is pid, a space, name, the closing delimiter and tail, which closes nothing. */
  ghost predicate Reads(line: string, p: Pieces) {
    line == p.pid + " " + p.name + ") " + p.tail && ' ' !in p.pid && forall k :: !ClosesAt(p.tail, k)
  }

  lemma CutAtDelimiters(line: string, i: nat, j: nat)
    requires i < j < |line| - 1 && line[i] == ' ' && ClosesAt(line, j)
    requires ' ' !in line[..i] && forall k :: ClosesAt(line, k) ==> k <= j
    ensures Reads(line, Pieces(line[..i], line[i + 1..j], line[j + 2..]))
  {
    var tail := line[j + 2..];
    assert line == line[..i] + [line[i]] + line[i + 1..j] + line[j..j + 2] + tail;
    assert line[j..j + 2] == ") ";
    forall k ensures !ClosesAt(tail, k) {
      assert ClosesAt(tail, k) ==> ClosesAt(line, j + 2 + k);
    }
  }

  function Cut(line: string): (r: Option<Pieces>)
    ensures r.Some? ==> r.value.pid != "" && Reads(line, r.value)
  {
    var firstSpace := IndexOf(line, ' ');
    var closeComm := LastClose(line);
    if firstSpace <= 0 || closeComm <= firstSpace then None
    else
      CutAtDelimiters(line, firstSpace, closeComm);
      Some(Pieces(line[..firstSpace], line[firstSpace + 1..closeComm], line[closeComm + 2..]))
  }

  /** parseWSLProcStat */
  function Parse(line: string): (r: StatResult)
    ensures r.Parsed? ==> r.stat.pid > 0 && r.stat.parent >= 0
  {
    var p := Cut(line);
    if p.None? then Rejected(MalformedLine)
    else
      var pid := Atoi(p.value.pid);
      if pid.None? || pid.value <= 0 then Rejected(InvalidPid)
      else FromFields(pid.value, Fields(p.value.tail))
  }

  /** The line the kernel writes: pid, the name in parentheses, then the fields. */
  function Render(pid: nat, comm: string, fields: seq<string>): string {
    Itoa(pid) + " (" + comm + ") " + Join(fields, ' ')
  }

  /** A field the kernel writes after the name: a word with no parenthesis in it. */
  predicate IsWord(s: string) { s != [] && NoSpace(s) && ')' !in s }

  lemma {:induction false} JoinHasNoClose(fields: seq<string>)
    requires forall i :: 0 <= i < |fields| ==> IsWord(fields[i])
    ensures ')' !in Join(fields, ' ')
  {
    if |fields| > 1 { JoinHasNoClose(fields[1..]); }
  }

  lemma FirstSpaceIs(pid: string, rest: string)
    requires ' ' !in pid
    ensures IndexOf(pid + " " + rest, ' ') == |pid|
  {
    var line := pid + " " + rest;
    assert line[|pid|] == ' ' && forall k :: 0 <= k < |pid| ==> line[k] == pid[k];
    assert forall k :: |pid| < k <= |line| ==> line[..k][|pid|] == ' ';
  }

  lemma LastCloseIs(head: string, tail: string)
    requires forall k :: !ClosesAt(tail, k)
    ensures LastClose(head + ") " + tail) == |head|
  {
    var line := head + ") " + tail;
    assert ClosesAt(line, |head|);
    forall j | |head| < j ensures !ClosesAt(line, j) {
      assert line[|head| + 1] == ' ';
      assert |head| + 2 <= j && ClosesAt(line, j) ==> ClosesAt(tail, j - |head| - 2);
    }
  }

  lemma ReadingsFirstSpace(line: string, p: Pieces)
    requires Reads(line, p)
    ensures IndexOf(line, ' ') == |p.pid| && line[..|p.pid|] == p.pid
  {
    var rest := p.name + ") " + p.tail;
    assert line == p.pid + " " + rest;
    FirstSpaceIs(p.pid, rest);
  }

  lemma ReadingsLastClose(line: string, p: Pieces)
    requires Reads(line, p)
    ensures var close := |p.pid| + 1 + |p.name|;
            LastClose(line) == close && line[|p.pid| + 1..close] == p.name && line[close + 2..] == p.tail
  {
    var head := p.pid + " " + p.name;
    assert line == head + ") " + p.tail;
    LastCloseIs(head, p.tail);
  }

  /** There is one way to read a line. */
  lemma CutIsTheReading(line: string, p: Pieces)
    requires Reads(line, p)
    ensures Cut(line) == if p.pid == "" then None else Some(p)
  {
    ReadingsFirstSpace(line, p);
    ReadingsLastClose(line, p);
  }

  lemma RenderReads(pid: nat, comm: string, fields: seq<string>)
    requires forall i :: 0 <= i < |fields| ==> IsWord(fields[i])
    ensures Reads(Render(pid, comm, fields), Pieces(Itoa(pid), "(" + comm, Join(fields, ' ')))
  {
    var tail := Join(fields, ' ');
    JoinHasNoClose(fields);
    DigitsAreNotSpace(Itoa(pid));
    assert Render(pid, comm, fields) == Itoa(pid) + " " + ("(" + comm) + ") " + tail;
  }

  /** A rendered line is read by its fields alone, whatever the command name holds:
      spaces, parentheses, even the closing delimiter itself. */
  lemma ParseOfRender(pid: nat, comm: string, fields: seq<string>)
    requires forall i :: 0 <= i < |fields| ==> IsWord(fields[i])
    ensures Parse(Render(pid, comm, fields)) ==
            if 0 < pid <= MAX_INT64 then FromFields(pid, fields) else Rejected(InvalidPid)
  {
    RenderReads(pid, comm, fields);
    CutIsTheReading(Render(pid, comm, fields), Pieces(Itoa(pid), "(" + comm, Join(fields, ' ')));
    AtoiOfItoa(pid);
    FieldsOfJoin(fields);
  }

  /** Parse undoes print: pid, parent, start time and resident pages come back. */
  lemma ParseUndoesRender(pid: nat, comm: string, fields: seq<string>, parent: nat, startTime: nat, rss: nat)
    requires 0 < pid <= MAX_INT64 && parent <= MAX_INT64 && startTime <= MAX_UINT64 && rss <= MAX_UINT64
    requires |fields| > 21 && forall i :: 0 <= i < |fields| ==> IsWord(fields[i])
    requires fields[1] == Itoa(parent) && fields[19] == Itoa(startTime) && fields[21] == Itoa(rss)
    ensures Parse(Render(pid, comm, fields)) == Parsed(Stat(pid, parent, Itoa(startTime), rss))
  {
    ParseOfRender(pid, comm, fields);
    AtoiOfItoa(parent);
    ParseUintOfItoa(startTime);
    ParseUintOfItoa(rss);
  }

  /** The pieces are read from the line, and they say stat: the pid is a positive number, and
      the fields are the rest. */
  ghost predicate Spells(line: string, stat: Stat, p: Pieces) {
    && Reads(line, p)
    && stat.pid > 0 && Atoi(p.pid) == Some(stat.pid) && FromFields(stat.pid, Fields(p.tail)) == Parsed(stat)
  }

  /** Whatever is accepted has the shape of a printed line: a positive pid, a space, anything,
      the last closing delimiter, and fields that say the rest. */
  lemma AcceptedShape(line: string)
    requires Parse(line).Parsed?
    ensures Cut(line).Some? && Spells(line, Parse(line).stat, Cut(line).value)
  {
  }

  lemma SpelledIsAccepted(line: string, stat: Stat, p: Pieces)
    requires Spells(line, stat, p)
    ensures Parse(line) == Parsed(stat)
  {
    CutIsTheReading(line, p);
  }

  /** A line is accepted exactly when it reads as a positive pid, a space, a name, its last
      closing delimiter and fields that are accepted, and then it says what they say. */
  lemma AcceptedIff(line: string, stat: Stat)
    ensures Parse(line) == Parsed(stat) <==> exists p :: Spells(line, stat, p)
  {
    if Parse(line) == Parsed(stat) { AcceptedShape(line); }
    if p :| Spells(line, stat, p) { SpelledIsAccepted(line, stat, p); }
  }

  /** Fields are accepted exactly when there are twenty-two and the four read are numbers in
      range. */
  lemma FieldsAcceptedIff(pid: int, fields: seq<string>, stat: Stat)
    ensures FromFields(pid, fields) == Parsed(stat) <==>
            && |fields| >= 22 && stat.pid == pid
            && Atoi(fields[1]) == Some(stat.parent) && stat.parent >= 0
            && ParseUint(fields[19]).Some? && stat.startTime == fields[19]
            && ParseUint(fields[21]) == Some(stat.rssPages)
  {
  }

  /** A line is malformed exactly when nothing but an empty pid can be read from it, and has a
      bad pid exactly when the pid it reads as is no positive number. */
  lemma MalformedIff(line: string)
    ensures Parse(line) == Rejected(MalformedLine) <==> forall p :: Reads(line, p) ==> p.pid == ""
    ensures Parse(line) == Rejected(InvalidPid) <==>
            exists p :: Reads(line, p) && p.pid != "" && (Atoi(p.pid).None? || Atoi(p.pid).value <= 0)
  {
    forall p | Reads(line, p) ensures Cut(line) == if p.pid == "" then None else Some(p) {
      CutIsTheReading(line, p);
    }
    if Cut(line).Some? { assert Reads(line, Cut(line).value); }
  }

  /** What is wrong with fields that are not accepted: too few, else the first of the parent,
      the start time and the resident pages that is no number in range. */
  lemma FieldsRejectedIff(pid: int, fields: seq<string>)
    ensures FromFields(pid, fields) == Rejected(ShortLine) <==> |fields| < 22
    ensures FromFields(pid, fields) == Rejected(InvalidParent) <==>
            |fields| >= 22 && forall n :: n >= 0 ==> Atoi(fields[1]) != Some(n)
    ensures FromFields(pid, fields) == Rejected(InvalidStartTime) <==>
            |fields| >= 22 && (exists n :: n >= 0 && Atoi(fields[1]) == Some(n)) && ParseUint(fields[19]).None?
    ensures FromFields(pid, fields) == Rejected(InvalidRss) <==>
            |fields| >= 22 && (exists n :: n >= 0 && Atoi(fields[1]) == Some(n)) && ParseUint(fields[19]).Some? &&
            ParseUint(fields[21]).None?
  {
    if |fields| >= 22 {
      var parent := Atoi(fields[1]);
      if parent.Some? { assert parent == Some(parent.value); }
    }
  }
}
