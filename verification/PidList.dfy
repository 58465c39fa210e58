/** A repeatable flag of process ids (main_entry.go). */
module PidList {
  import opened Text
  import opened Decimal

  /** strconv.Itoa of each pid, comma-separated. */
  function Printed(pids: seq<int>): string {
    Join(Texts(pids), ',')
  }

  function Texts(pids: seq<int>): (texts: seq<string>)
    ensures |texts| == |pids| && forall i :: 0 <= i < |pids| ==> texts[i] == Format(pids[i])
  {
    seq(|pids|, i requires 0 <= i < |pids| => Format(pids[i]))
  }

  /** A field that spells a process id. */
  function Pid(field: string): (r: Option<int>)
    ensures r.Some? ==> r.value > 0
  {
    var pid := Atoi(TrimSpace(field));
    if pid.None? || pid.value <= 0 then None else pid
  }

  /** The process ids of the fields before the first that spells none. */
  function Taken(fields: seq<string>): (pids: seq<int>)
    ensures |pids| <= |fields|
  {
    if fields == [] then []
    else
      var pid := Pid(fields[0]);
      if pid.None? then [] else [pid.value] + Taken(fields[1..])
  }

  lemma {:induction false} TakenAt(fields: seq<string>, k: nat)
    requires k <= |Taken(fields)|
    ensures k < |fields| ==> (Pid(fields[k]).None? <==> |Taken(fields)| == k)
    ensures k < |Taken(fields)| ==> Pid(fields[k]) == Some(Taken(fields)[k])
  {
    if fields != [] && Pid(fields[0]).Some? && k > 0 {
      TakenAt(fields[1..], k - 1);
    }
  }

  class List {
    var pids: seq<int>

    constructor ()
      ensures pids == []
    {
      pids := [];
    }

    method String() returns (s: string)
      ensures s == Printed(pids)
    {
      var fields := new string[|pids|](_ => "");
      for i := 0 to |pids|
        invariant fields[..i] == Texts(pids)[..i]
      {
        fields[i] := Format(pids[i]);
        assert fields[..i + 1] == fields[..i] + [Format(pids[i])];
        assert Texts(pids)[..i + 1] == Texts(pids)[..i] + [Texts(pids)[i]];
      }
      assert fields[..] == fields[..|pids|] && Texts(pids)[..|pids|] == Texts(pids);
      s := Join(fields[..], ',');
    }

    /** Appends the fields up to the first that is no process id; the call fails on that one,
        and what was appended before it stays. */
    method Set(value: string) returns (bad: Option<string>)
      modifies this
      ensures pids == old(pids) + Taken(Split(value, ','))
      ensures var fields := Split(value, ',');
              var n := |Taken(fields)|;
              bad == if n < |fields| then Some(fields[n]) else None
    {
      var fields := Split(value, ',');
      ghost var before, all := pids, Taken(fields);
      for k := 0 to |fields|
        invariant k <= |all| && pids == before + all[..k]
      {
        TakenAt(fields, k);
        var ok := Append(fields[k]);
        if !ok { return Some(fields[k]); }
        OneMore(before, all, k);
      }
      return None;
    }

    /** The loop's body: a field that spells a process id is appended. */
    method Append(field: string) returns (ok: bool)
      modifies this
      ensures ok <==> Pid(field).Some?
      ensures pids == if ok then old(pids) + [Pid(field).value] else old(pids)
    {
      var pid := ReadField(field);
      if pid.None? { return false; }
      pids := pids + [pid.value];
      return true;
    }
  }

  lemma OneMore(before: seq<int>, all: seq<int>, k: nat)
    requires k < |all|
    ensures before + all[..k] + [all[k]] == before + all[..k + 1]
  {
  }

  method ReadField(field: string) returns (r: Option<int>)
    ensures r == Pid(field)
  {
    var pid := Atoi(TrimSpace(field));
    if pid.None? || pid.value <= 0 { return None; }
    return pid;
  }

  lemma PidOfItoa(pid: int)
    requires 0 < pid
    ensures Pid(Format(pid)) == if pid <= MAX_INT64 then Some(pid) else None
    ensures ',' !in Format(pid)
  {
    var s := Itoa(pid);
    DigitsAreNotSpace(s);
    TrimSpaceKeepsTokens(s);
    AtoiOfItoa(pid);
  }

  /** Space around a pid does not matter; a number that is not positive is no pid. */
  lemma PidReads(n: int, left: string, right: string)
    requires AllSpace(left) && AllSpace(right)
    ensures 0 < n <= MAX_INT64 ==> Pid(left + Format(n) + right) == Some(n)
    ensures n <= 0 || n > MAX_INT64 ==> Pid(left + Format(n) + right) == None
  {
    var digits := Itoa(if n < 0 then -n else n);
    DigitsAreNotSpace(digits);
    assert NoSpace(Format(n));
    TrimSpaceDropsPadding(left, Format(n), right);
    if n >= 0 {
      AtoiOfItoa(n);
    } else {
      assert Format(n)[1..] == digits;
      ValueOfItoa(-n);
    }
  }

  /** Set undoes String: for every non-empty list of pids a 64-bit int can hold, the printed
      list is read back whole and in order. */
  lemma SetUndoesString(pids: seq<int>)
    requires pids != [] && forall i :: 0 <= i < |pids| ==> 0 < pids[i] <= MAX_INT64
    ensures Taken(Split(Printed(pids), ',')) == pids && |Split(Printed(pids), ',')| == |pids|
  {
    var texts := Texts(pids);
    forall i | 0 <= i < |pids| ensures ',' !in texts[i] && Pid(texts[i]) == Some(pids[i]) {
      PidOfItoa(pids[i]);
    }
    SplitJoin(texts, ',');
    AllTaken(texts, pids);
  }

  lemma {:induction false} AllTaken(fields: seq<string>, pids: seq<int>)
    requires |fields| == |pids| && forall i :: 0 <= i < |pids| ==> Pid(fields[i]) == Some(pids[i])
    ensures Taken(fields) == pids
  {
    if pids != [] { AllTaken(fields[1..], pids[1..]); }
  }

  /** The empty list is the exception: it prints as "", which no Set accepts. */
  lemma EmptyListIsRefused()
    ensures Printed([]) == "" && Taken(Split("", ',')) == [] && |Split("", ',')| == 1
  {
    assert Texts([]) == [];
    assert TrimSpace("") == "";
  }

  /** The round trip, on top of whatever a list holds. */
  method SetPrinted(from: List, to: List) returns (bad: Option<string>)
    requires from.pids != [] && forall i :: 0 <= i < |from.pids| ==> 0 < from.pids[i] <= MAX_INT64
    modifies to
    ensures bad == None && to.pids == old(to.pids) + old(from.pids)
  {
    var s := from.String();
    SetUndoesString(from.pids);
    bad := to.Set(s);
  }
}
