/** Overlapping launches from the launcher's window (cmd/agent-overflow-windows/main.go): the
    boot's own launch, picks and Retry presses, the recorded-backend check, the flag that
    keeps two launches apart, and the launch a failure page offers to run again. Each read,
    swap, record or launch is one step. */
module LaunchGuard {
  datatype Place =
    | Checking   // about to read whether a backend is recorded
    | Claiming   // past that check; about to take the flag
    | Taking     // a Retry holding the flag, about to take the offer
    | Launching  // in launchAndShow
    | Done

  datatype Kind = Boot | Pick | Retry

  datatype Thread = Thread(kind: Kind, place: Place)

  /** `launches` counts the launches begun, `beside` those begun while a backend was recorded;
      `offers` and `takes` the Retry offers made and taken. Bookkeeping only. */
  datatype State = State(recorded: bool, launching: bool, offered: bool, threads: map<nat, Thread>,
                         launches: nat, beside: nat, offers: nat, takes: nat)

  datatype Step =
    | Arrive(t: nat, retry: bool)
    | Check(t: nat)
    | Claim(t: nat)
    | Take(t: nat)
    | Record(t: nat, recorded: bool)
    | Finish(t: nat, offers: bool)

  /** The boot's launch, if a distro is chosen, never reads the record: it starts past the
      check. */
  function Initial(chosen: bool): State {
    State(false, false, false, if chosen then map[0 := Thread(Boot, Claiming)] else map[], 0, 0, 0, 0)
  }

  predicate At(s: State, t: nat, place: Place) { t in s.threads && s.threads[t].place == place }

  function To(s: State, t: nat, place: Place): State {
    if t in s.threads then s.(threads := s.threads[t := s.threads[t].(place := place)]) else s
  }

  /** Holds the launching flag. */
  predicate Holds(s: State, t: nat) { At(s, t, Taking) || At(s, t, Launching) }

  predicate Enabled(s: State, step: Step) {
    match step
    case Arrive(t, _) => t !in s.threads
    case Check(t) => At(s, t, Checking)
    case Claim(t) => At(s, t, Claiming)
    case Take(t) => At(s, t, Taking)
    case Record(t, _) => At(s, t, Launching)
    case Finish(t, _) => At(s, t, Launching)
  }

  /** A thread holding the flag begins its launch. */
  function Begin(s: State, t: nat): State {
    To(s.(launches := s.launches + 1, beside := s.beside + if s.recorded then 1 else 0), t, Launching)
  }

  function Next(s: State, step: Step): State
    requires Enabled(s, step)
  {
    match step
    case Arrive(t, retry) => s.(threads := s.threads[t := Thread(if retry then Retry else Pick, Checking)])
    case Check(t) => To(s, t, if s.recorded then Done else Claiming)
    case Claim(t) =>
      if s.launching then To(s, t, Done)
      else if s.threads[t].kind.Retry? then To(s.(launching := true), t, Taking)
      else Begin(s.(launching := true), t)
    case Take(t) =>
      if s.offered then Begin(s.(offered := false, takes := s.takes + 1), t)
      else To(s.(launching := false), t, Done)
    case Record(t, recorded) => s.(recorded := recorded)
    case Finish(t, offers) =>
      To(s.(launching := false, offered := s.offered || offers, offers := s.offers + if offers then 1 else 0), t, Done)
  }

  ghost predicate Leads(s: State, steps: seq<Step>, end: State)
    decreases steps
  {
    if steps == [] then s == end
    else Enabled(s, steps[0]) && Leads(Next(s, steps[0]), steps[1..], end)
  }

  // ---- one launch at a time, each offer taken once

  ghost predicate Inv(s: State) {
    && (forall t, u :: Holds(s, t) && Holds(s, u) ==> t == u)
    && (forall t :: Holds(s, t) ==> s.launching)
    && (s.launching ==> exists t :: Holds(s, t))
    && s.takes + (if s.offered then 1 else 0) <= s.offers
  }

  /** A step leaves the flag and its holder as they are, takes a free flag, or gives it up. */
  lemma OthersHold(s: State, step: Step, u: nat)
    requires Enabled(s, step) && u != step.t
    ensures Holds(Next(s, step), u) <==> Holds(s, u)
  {
  }

  lemma OwnHolds(s: State, step: Step)
    requires Inv(s) && Enabled(s, step)
    ensures Holds(Next(s, step), step.t) ==> Next(s, step).launching && (Holds(s, step.t) || !s.launching)
    ensures Next(s, step).launching && !Holds(Next(s, step), step.t) ==> s.launching && !Holds(s, step.t)
    ensures !Next(s, step).launching ==> Holds(s, step.t) || !s.launching
  {
    assert step.Take? || step.Record? || step.Finish? ==> Holds(s, step.t);
  }

  lemma StepKeeps(s: State, step: Step)
    requires Inv(s) && Enabled(s, step)
    ensures Inv(Next(s, step))
  {
    var next := Next(s, step);
    OwnHolds(s, step);
    forall t: nat, u: nat | Holds(next, t) && Holds(next, u) ensures t == u {
      if t != step.t { OthersHold(s, step, t); }
      if u != step.t { OthersHold(s, step, u); }
    }
    forall u: nat | Holds(next, u) ensures next.launching {
      if u != step.t { OthersHold(s, step, u); }
    }
    if next.launching && !Holds(next, step.t) {
      var h :| Holds(s, h);
      OthersHold(s, step, h);
      assert Holds(next, h);
    }
  }

  lemma {:induction false} RunKeeps(s: State, steps: seq<Step>, end: State)
    requires Inv(s) && Leads(s, steps, end)
    ensures Inv(end)
    decreases steps
  {
    if steps != [] {
      StepKeeps(s, steps[0]);
      RunKeeps(Next(s, steps[0]), steps[1..], end);
    }
  }

  /** Over every interleaving at most one launch runs at a time, exactly while the flag is
      set, and an offered Retry runs at most one. */
  lemma OneLaunchAtATime(chosen: bool, steps: seq<Step>, s: State)
    requires Leads(Initial(chosen), steps, s)
    ensures forall t, u :: At(s, t, Launching) && At(s, u, Launching) ==> t == u
    ensures s.launching <==> exists t :: Holds(s, t)
    ensures s.takes + (if s.offered then 1 else 0) <= s.offers
  {
    RunKeeps(Initial(chosen), steps, s);
    assert forall t :: At(s, t, Launching) ==> Holds(s, t);
  }

  /** A page's offer stands until a Retry takes it, and it is then gone. */
  lemma OffersStand(s: State, step: Step)
    requires Enabled(s, step)
    ensures Next(s, step).offered <==> (s.offered && !step.Take?) || (step.Finish? && step.offers)
  {
  }

  // ---- the recorded-backend check

  ghost predicate MoreCanBegin(s: State) {
    exists steps: seq<Step>, end: State :: Leads(s, steps, end) && end.beside > s.beside
  }

  /** The thread is past the check, and has a launch to begin: the boot's, a pick that read
      that nothing is recorded, or such a Retry with an offer standing. */
  predicate PastTheCheck(s: State, t: nat) { At(s, t, Claiming) && (s.threads[t].kind.Retry? ==> s.offered) }

  /** The thread can bring about another launch beside the recorded backend: it is past the
      check; or it is launching, and may forget its backend long enough for a pick to read
      that; or it is a Retry about to take an offer. */
  predicate MayLead(s: State, t: nat) {
    PastTheCheck(s, t) || At(s, t, Launching) || (At(s, t, Taking) && s.offered)
  }

  /** With a backend recorded, another launch can still begin beside a recorded backend exactly
      when some thread is past the check, launching, or about to take an offer. */
  lemma AnotherLaunchIff(chosen: bool, before: seq<Step>, s: State)
    requires Leads(Initial(chosen), before, s) && s.recorded
    ensures MoreCanBegin(s) <==> exists t :: MayLead(s, t)
  {
    RunKeeps(Initial(chosen), before, s);
    if t :| MayLead(s, t) {
      ThreadLeads(s, t);
    } else {
      assert forall t :: At(s, t, Claiming) ==> !MayLead(s, t);
      assert forall t :: At(s, t, Taking) ==> !MayLead(s, t);
      assert forall t :: !At(s, t, Launching) by { assert forall t :: At(s, t, Launching) ==> MayLead(s, t); }
      forall steps: seq<Step>, end: State | Leads(s, steps, end) ensures end.beside == s.beside {
        NobodyLaunches(s, steps, end);
      }
    }
  }

  /** One more step in front of a run. */
  lemma Then(s: State, step: Step, more: seq<Step>, end: State)
    requires Enabled(s, step) && Leads(Next(s, step), more, end)
    ensures Leads(s, [step] + more, end)
  {
    assert ([step] + more)[1..] == more;
  }

  lemma MoreThen(s: State, step: Step)
    requires Enabled(s, step) && Next(s, step).beside >= s.beside
    requires Next(s, step).beside > s.beside || MoreCanBegin(Next(s, step))
    ensures MoreCanBegin(s)
  {
    var next := Next(s, step);
    if next.beside > s.beside {
      Then(s, step, [], next);
    } else {
      var steps: seq<Step>, end: State :| Leads(next, steps, end) && end.beside > next.beside;
      Then(s, step, steps, end);
    }
  }

  lemma ThreadLeads(s: State, t: nat)
    requires Inv(s) && s.recorded && MayLead(s, t)
    ensures MoreCanBegin(s)
  {
    if At(s, t, Launching) {
      LauncherLetsAPickIn(s, t);
    } else if At(s, t, Taking) {
      MoreThen(s, Take(t));
    } else if s.launching {
      var h :| Holds(s, h);
      HolderMakesWay(s, h, t);
    } else {
      ThreadLaunches(s, t);
    }
  }

  lemma ThreadLaunches(s: State, t: nat)
    requires PastTheCheck(s, t) && s.recorded && !s.launching
    ensures MoreCanBegin(s)
  {
    if s.threads[t].kind.Retry? { MoreThen(Next(s, Claim(t)), Take(t)); }
    MoreThen(s, Claim(t));
  }

  /** A thread past the check gets its turn whatever the flag's holder is doing. */
  lemma HolderMakesWay(s: State, h: nat, t: nat)
    requires s.recorded && Holds(s, h) && PastTheCheck(s, t)
    ensures MoreCanBegin(s)
  {
    if At(s, h, Launching) {
      LauncherLetsAPickIn(s, h);
    } else {
      if !s.offered { ThreadLaunches(Next(s, Take(h)), t); }
      MoreThen(s, Take(h));
    }
  }

  lemma {:induction false} UnusedBelow(threads: map<nat, Thread>) returns (u: nat)
    ensures forall t :: t in threads ==> t < u
    decreases |threads|
  {
    if threads.Keys == {} {
      u := 0;
    } else {
      var k: nat :| k in threads;
      var rest := threads - {k};
      assert rest.Keys == threads.Keys - {k};
      var v := UnusedBelow(rest);
      u := if k < v then v else k + 1;
      assert forall t :: t in threads ==> t == k || t in rest;
    }
  }

  /** A launch that stops its backend and starts another leaves the record empty in between:
      a pick reads that, the launch records the other and ends, and the pick launches. */
  lemma LauncherLetsAPickIn(s: State, h: nat)
    requires s.recorded && At(s, h, Launching)
    ensures MoreCanBegin(s)
  {
    var u := UnusedBelow(s.threads);
    var s1 := Next(s, Record(h, false));
    var s2 := Next(s1, Arrive(u, false));
    var s3 := Next(s2, Check(u));
    var s4 := Next(s3, Record(h, true));
    var s5 := Next(s4, Finish(h, false));
    ThreadLaunches(s5, u);
    MoreThen(s4, Finish(h, false));
    MoreThen(s3, Record(h, true));
    MoreThen(s2, Check(u));
    MoreThen(s1, Arrive(u, false));
    MoreThen(s, Record(h, false));
  }

  /** Only Retries that will find no offer are past the check. */
  ghost predicate Harmless(s: State) {
    && s.recorded && (forall t :: At(s, t, Claiming) ==> s.threads[t].kind.Retry?)
    && ((exists t :: At(s, t, Claiming) || At(s, t, Taking)) ==> !s.offered)
    && (forall t :: !At(s, t, Launching))
  }

  lemma HarmlessStays(s: State, step: Step)
    requires Harmless(s) && Enabled(s, step)
    ensures Harmless(Next(s, step)) && Next(s, step).beside == s.beside
  {
    var next := Next(s, step);
    assert !step.Finish? && !step.Record?;
    if step.Take? { assert At(s, step.t, Taking); }
    if step.Claim? { assert At(s, step.t, Claiming); }
    forall u | At(next, u, Claiming) ensures At(s, u, Claiming) && next.threads[u].kind.Retry? {}
    forall u | At(next, u, Taking) ensures At(s, u, Claiming) || At(s, u, Taking) {}
    forall u ensures !At(next, u, Launching) { assert !At(s, u, Launching); }
  }

  lemma {:induction false} NobodyLaunches(s: State, steps: seq<Step>, end: State)
    requires Harmless(s) && Leads(s, steps, end)
    ensures end.beside == s.beside
    decreases steps
  {
    if steps != [] {
      HarmlessStays(s, steps[0]);
      NobodyLaunches(Next(s, steps[0]), steps[1..], end);
    }
  }

  /** "The launcher is single-shot" fails for two quick picks: the second reads that nothing
      is recorded, the first launches and is recorded, and the second takes the freed flag. */
  lemma SecondPickLaunchesToo()
    ensures exists steps, s :: Leads(Initial(false), steps, s) && s.launches == 2 && s.beside == 1 && s.launching
  {
    var s1 := Next(Initial(false), Arrive(1, false));
    var s2 := Next(s1, Arrive(2, false));
    var s3 := Next(s2, Check(1));
    var s4 := Next(s3, Check(2));
    FirstRecords(s4, 1, 2);
    var steps, s :| Leads(s4, steps, s) && s.launches == 2 && s.beside == 1 && s.launching;
    Then(s3, Check(2), steps, s);
    Then(s2, Check(1), [Check(2)] + steps, s);
    Then(s1, Arrive(2, false), [Check(1)] + ([Check(2)] + steps), s);
    Then(Initial(false), Arrive(1, false), [Arrive(2, false)] + ([Check(1)] + ([Check(2)] + steps)), s);
  }

  /** The same with the boot's launch second: it never reads the record at all. Like every run
      here this one is of calls to the bound methods; which page the window shows, and so
      what a person can press, is not part of it. */
  lemma BootLaunchesBesideAPick()
    ensures exists steps, s :: Leads(Initial(true), steps, s) && s.launches == 2 && s.beside == 1 && s.launching
  {
    var s0 := Initial(true);
    var s1 := Next(s0, Arrive(1, false));
    var s2 := Next(s1, Check(1));
    FirstRecords(s2, 1, 0);
    var steps, s :| Leads(s2, steps, s) && s.launches == 2 && s.beside == 1 && s.launching;
    Then(s1, Check(1), steps, s);
    Then(s0, Arrive(1, false), [Check(1)] + steps, s);
  }

  /** Of two threads past the check the first launches and is recorded, and the second takes
      the freed flag. */
  lemma FirstRecords(s: State, a: nat, b: nat)
    requires a != b && At(s, a, Claiming) && At(s, b, Claiming) && !s.threads[a].kind.Retry? && !s.threads[b].kind.Retry?
    requires !s.recorded && !s.launching && s.launches == 0 && s.beside == 0
    ensures exists steps, end :: Leads(s, steps, end) && end.launches == 2 && end.beside == 1 && end.launching
  {
    var s1 := Next(s, Claim(a));
    var s2 := Next(s1, Record(a, true));
    var s3 := Next(s2, Finish(a, false));
    var s4 := Next(s3, Claim(b));
    Then(s3, Claim(b), [], s4);
    Then(s2, Finish(a, false), [Claim(b)] + [], s4);
    Then(s1, Record(a, true), [Finish(a, false)] + ([Claim(b)] + []), s4);
    Then(s, Claim(a), [Record(a, true)] + ([Finish(a, false)] + ([Claim(b)] + [])), s4);
  }
}
