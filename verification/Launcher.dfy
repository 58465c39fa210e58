/** The Windows launcher's launch, probe, stop, migrate and relaunch sequence
    (cmd/agent-overflow-windows/main.go). What the world answers at each call is a value:
    a run is deterministic given its script, and every claim is over all scripts. */
module Launcher {
  import opened Text

  // ---- errors

  datatype Kind = LaunchFailed | Unreachable | Pending | Refused | Other

  /** An error, or errors wrapped or joined into one. */
  datatype Err = Bare(kind: Kind) | Wrapping(errs: seq<Err>)

  /** errors.Is and errors.As: the kind is somewhere in the tree. */
  predicate Carries(e: Err, kind: Kind) {
    match e
    case Bare(k) => k == kind
    case Wrapping(errs) => exists inner :: inner in errs && Carries(inner, kind)
  }

  lemma BareCarriesItself(kind: Kind, other: Kind)
    ensures Carries(Bare(kind), other) <==> kind == other
    ensures IsItself(Bare(kind), other) <==> kind == other
  {
  }

  /** A type assertion: the error itself, not one inside it. */
  predicate IsItself(e: Err, kind: Kind) { e == Bare(kind) }

  /** fmt.Errorf with %w, or errors.Join. */
  function Wrap(errs: seq<Err>): (e: Err)
    ensures forall kind :: Carries(e, kind) <==> exists inner :: inner in errs && Carries(inner, kind)
    ensures forall kind :: !IsItself(e, kind)
  {
    Wrapping(errs)
  }

  lemma WrapOne(a: Err, kind: Kind)
    ensures Carries(Wrap([a]), kind) <==> Carries(a, kind)
  {
    assert a in [a];
  }

  lemma WrapTwo(a: Err, b: Err, kind: Kind)
    ensures Carries(Wrap([a, b]), kind) <==> Carries(a, kind) || Carries(b, kind)
  {
    assert a in [a, b] && b in [a, b];
  }

  // ---- what the world answers

  datatype Spawn = Spawn(reserve: Option<Err>, profile: Option<Err>, launch: Option<Err>)

  predicate ComesUp(s: Spawn) { s.reserve.None? && s.profile.None? && s.launch.None? }

  /** The answers to one stop: the shutdown call, whether the backend then went unreachable,
      the job's own stop, whether its wrapper exited in time, and the reservation's release. */
  datatype Stop = Stop(shutdown: Option<Err>, gone: bool, job: Option<Err>, exited: bool, release: Option<Err>)

  /** A shutdown the backend did not refuse may still be running. */
  predicate Landed(shutdown: Option<Err>) { shutdown.None? || !Carries(shutdown.value, Refused) }

  predicate StopConfirms(s: Stop) {
    s.exited && s.job.None? && Landed(s.shutdown) && s.gone && s.release.None?
  }

  /** Only launchBackend makes launch failures and only the probe makes migration refusals. */
  predicate StopErrorsAreItsOwn(s: Stop) {
    && (s.job.None? || (!Carries(s.job.value, LaunchFailed) && !Carries(s.job.value, Pending)))
    && (s.release.None? || (!Carries(s.release.value, LaunchFailed) && !Carries(s.release.value, Pending)))
  }

  predicate ProbeErrorIsItsOwn(probe: Option<Err>) { probe.None? || !Carries(probe.value, LaunchFailed) }

  datatype Attempt = Attempt(first: Spawn, probe: Option<Err>, stop: Stop, again: Spawn, probeAgain: Option<Err>)

  predicate ErrorsAreTheirOwn(a: Attempt) {
    ProbeErrorIsItsOwn(a.probe) && ProbeErrorIsItsOwn(a.probeAgain) && StopErrorsAreItsOwn(a.stop)
  }

  /** The first backend came up unreachable and was retired, so a second one is started. */
  predicate Retries(a: Attempt) {
    ComesUp(a.first) && a.probe.Some? && Carries(a.probe.value, Unreachable) && StopConfirms(a.stop)
  }

  predicate Succeeds(a: Attempt) {
    (ComesUp(a.first) && a.probe.None?) || (Retries(a) && ComesUp(a.again) && a.probeAgain.None?)
  }

  /** A backend is left running behind an error. */
  predicate Strands(a: Attempt) {
    || (ComesUp(a.first) && a.probe.Some? && !StopConfirms(a.stop))
    || (Retries(a) && ComesUp(a.again) && a.probeAgain.Some?)
  }

  /** A reservation or profile error is neither. */
  predicate SpawnErrorsAreItsOwn(s: Spawn) {
    && (s.reserve.None? || (!Carries(s.reserve.value, LaunchFailed) && !Carries(s.reserve.value, Pending)))
    && (s.profile.None? || (!Carries(s.profile.value, LaunchFailed) && !Carries(s.profile.value, Pending)))
  }

  predicate SpawnsAreTheirOwn(a: Attempt) { SpawnErrorsAreItsOwn(a.first) && SpawnErrorsAreItsOwn(a.again) }

  /** A start itself failed. */
  predicate Dies(s: Spawn) { s.reserve.None? && s.profile.None? && s.launch.Some? }

  predicate StartDies(a: Attempt) { Dies(a.first) || (Retries(a) && Dies(a.again)) }

  /** The first backend refused to migrate, and is gone. */
  predicate Refuses(a: Attempt) { ComesUp(a.first) && a.probe == Some(Bare(Pending)) && StopConfirms(a.stop) }

  datatype Reconcile = Proceed | Resume(launch: bool) | TakenOver
  datatype FreshPath = Unresolved | Unmoved | Moved(install: Option<Err>)
  datatype Evidence = Written | WriteFailed(error: Err, stop: Stop)

  datatype Script = Script(
    reconcile: Reconcile, install: Option<Err>, cachedPath: bool, first: Attempt,
    path: FreshPath, second: Attempt, migrated: bool, third: Attempt, evidence: Evidence)

  /** The recorded path was stale, and the payload went to a fresh one. */
  predicate Relaunches(s: Script) { s.cachedPath && StartDies(s.first) && s.path == Moved(None) }

  function LastAttempt(s: Script): Attempt { if Relaunches(s) then s.second else s.first }

  predicate ReinstallFails(s: Script) { s.cachedPath && StartDies(s.first) && s.path.Moved? && s.path.install.Some? }

  predicate Proceeds(r: Reconcile) { r.Proceed? || (r.Resume? && r.launch) }

  /** The runs that end on the backend's page. */
  predicate Arrives(s: Script) {
    Launches(s) && !ReinstallFails(s) && Succeeds(FinalAttempt(s)) && s.evidence.Written?
  }

  /** A start begins once its reservation and profile are had. */
  predicate Tries(s: Spawn) { s.reserve.None? && s.profile.None? }

  /** The attempt's stop was called and did not confirm. */
  predicate StopFails(a: Attempt) { ComesUp(a.first) && a.probe.Some? && !StopConfirms(a.stop) }

  /** The attempt ends with its backend recorded: it came up and was not stopped. */
  predicate Leaves(a: Attempt) { (ComesUp(a.first) && a.probe.None?) || (Retries(a) && ComesUp(a.again)) }

  /** The launch gets as far as starting a backend. */
  predicate Launches(s: Script) { Proceeds(s.reconcile) && s.install.None? }

  /** The last attempt the script makes. */
  function FinalAttempt(s: Script): Attempt {
    if Refuses(LastAttempt(s)) && s.migrated then s.third else LastAttempt(s)
  }

  /** The launch starts or migrates something. */
  predicate BeginsWork(s: Script) { s.reconcile.Resume? || (Launches(s) && Tries(s.first.first)) }

  /** Some stop in the launch does not confirm, and leaves its backend behind. */
  predicate FailsAStop(s: Script) {
    && Launches(s)
    && (StopFails(FinalAttempt(s)) ||
        (Succeeds(FinalAttempt(s)) && s.evidence.WriteFailed? && !StopConfirms(s.evidence.stop)))
  }

  /** The launch ends with a backend recorded. */
  predicate Records(s: Script) {
    Launches(s) && Leaves(FinalAttempt(s)) && !(Succeeds(FinalAttempt(s)) && s.evidence.WriteFailed?)
  }

  predicate ScriptSpawnsAreTheirOwn(s: Script) {
    SpawnsAreTheirOwn(s.first) && SpawnsAreTheirOwn(s.second) && SpawnsAreTheirOwn(s.third)
  }

  predicate ScriptErrorsAreTheirOwn(s: Script) {
    ErrorsAreTheirOwn(s.first) && ErrorsAreTheirOwn(s.second) && ErrorsAreTheirOwn(s.third)
  }

  // ---- runs

  datatype Event =
    | Starting
    | Up(id: nat)
    | Retired(id: nat)
    | StopFailed(id: nat)
    | Migrating

  function After(running: set<nat>, e: Event): set<nat> {
    match e
    case Up(id) => running + {id}
    case Retired(id) => running - {id}
    case _ => running
  }

  /** Backends that came up and were not retired by a stop that returned nil. */
  function Unretired(run: seq<Event>): set<nat> {
    if run == [] then {} else After(Unretired(run[..|run| - 1]), run[|run| - 1])
  }

  /** No launch and no migration begins while a backend is unretired. */
  predicate Safe(run: seq<Event>) {
    run == [] ||
    (Safe(run[..|run| - 1]) &&
     (run[|run| - 1].Starting? || run[|run| - 1].Migrating? ==> Unretired(run[..|run| - 1]) == {}))
  }

  /** What Safe says of every moment of a run: whenever something begins, every backend that
      came up before has been retired since. */
  lemma {:induction false} SafeMeans(run: seq<Event>, i: nat, k: nat)
    requires Safe(run) && i < k < |run| && run[i].Up? && (run[k].Starting? || run[k].Migrating?)
    ensures exists j :: i < j < k && run[j] == Retired(run[i].id)
  {
    var n := |run| - 1;
    if k < n {
      SafeMeans(run[..n], i, k);
      var j :| i < j < k && run[..n][j] == Retired(run[..n][i].id);
      assert run[j] == Retired(run[i].id);
    } else {
      GoneMeansRetired(run[..n], i);
      var j :| i < j < n && run[..n][j] == Retired(run[..n][i].id);
      assert run[j] == Retired(run[i].id);
    }
  }

  lemma {:induction false} GoneMeansRetired(run: seq<Event>, i: nat)
    requires i < |run| && run[i].Up? && run[i].id !in Unretired(run)
    ensures exists j :: i < j < |run| && run[j] == Retired(run[i].id)
  {
    var n := |run| - 1;
    if run[n] == Retired(run[i].id) {
      assert i < n;
    } else {
      assert i < n && run[..n][i] == run[i];
      GoneMeansRetired(run[..n], i);
      var j :| i < j < n && run[..n][j] == Retired(run[i].id);
      assert run[j] == Retired(run[i].id);
    }
  }

  /** Something is launched or migrated in the run. */
  predicate Begins(run: seq<Event>) {
    run != [] && (run[|run| - 1].Starting? || run[|run| - 1].Migrating? || Begins(run[..|run| - 1]))
  }

  /** Every backend retired in the run has an id at or above base. */
  predicate RetiresFrom(run: seq<Event>, base: nat) {
    run == [] || (RetiresFrom(run[..|run| - 1], base) && (run[|run| - 1].Retired? ==> run[|run| - 1].id >= base))
  }

  function Starts(run: seq<Event>): nat {
    if run == [] then 0 else Starts(run[..|run| - 1]) + if run[|run| - 1].Starting? then 1 else 0
  }

  predicate SomeStopFailed(run: seq<Event>) {
    run != [] && (run[|run| - 1].StopFailed? || SomeStopFailed(run[..|run| - 1]))
  }

  lemma Next(run: seq<Event>, e: Event)
    ensures Unretired(run + [e]) == After(Unretired(run), e)
    ensures Starts(run + [e]) == Starts(run) + if e.Starting? then 1 else 0
    ensures SomeStopFailed(run + [e]) <==> SomeStopFailed(run) || e.StopFailed?
    ensures Safe(run + [e]) <==> Safe(run) && (e.Starting? || e.Migrating? ==> Unretired(run) == {})
    ensures forall base :: RetiresFrom(run + [e], base) <==> RetiresFrom(run, base) && (e.Retired? ==> e.id >= base)
  {
    assert (run + [e])[..|run|] == run;
  }

  lemma NextBegins(run: seq<Event>, e: Event)
    ensures Begins(run + [e]) <==> Begins(run) || e.Starting? || e.Migrating?
  {
    assert (run + [e])[..|run|] == run;
  }

  /** A launch that begins with nothing running adds its own events to the whole. */
  lemma {:induction false} AfterIdle(a: seq<Event>, b: seq<Event>)
    requires Unretired(a) == {}
    ensures Unretired(a + b) == Unretired(b)
    ensures Safe(a + b) <==> Safe(a) && Safe(b)
  {
    if b == [] {
      assert a + b == a;
    } else {
      assert (a + b)[..|a + b| - 1] == a + b[..|b| - 1];
      AfterIdle(a, b[..|b| - 1]);
    }
  }

  /** A backend no later launch retires stays, and makes whatever begins later unsafe. */
  lemma {:induction false} AfterStranding(a: seq<Event>, b: seq<Event>, id: nat, base: nat)
    requires id in Unretired(a) && id < base && RetiresFrom(b, base)
    ensures id in Unretired(a + b)
    ensures Safe(a) ==> (Safe(a + b) <==> !Begins(b))
  {
    if b == [] {
      assert a + b == a;
    } else {
      assert (a + b)[..|a + b| - 1] == a + b[..|b| - 1];
      AfterStranding(a, b[..|b| - 1], id, base);
    }
  }

  lemma {:induction false} Together(a: seq<Event>, b: seq<Event>)
    ensures SomeStopFailed(a + b) <==> SomeStopFailed(a) || SomeStopFailed(b)
    ensures Unretired(b) <= Unretired(a + b) <= Unretired(a) + Unretired(b)
    ensures Safe(a + b) ==> Safe(a)
  {
    if b == [] {
      assert a + b == a;
    } else {
      assert (a + b)[..|a + b| - 1] == a + b[..|b| - 1];
      Together(a, b[..|b| - 1]);
    }
  }

  datatype Launched = Backend(id: nat) | Failed(error: Err)

  datatype Shown =
    | BackendPage(id: nat)
    | Elsewhere                 // an update or a failed migration owns the window
    | PickerPage(error: Err)
    | FailurePage(unreachable: bool, error: Err)
    | EvidenceFailed(error: Err)
    | Busy

  class LauncherApp {
    var launcher: Option<nat>
    var launcherWait: Option<nat>
    var backendBootstrap: Option<nat>
    var next: nat
    ghost var run: seq<Event>     // since the current launch began
    ghost var before: seq<Event>  // in earlier launches
    ghost var base: nat           // the first id of the current launch

    constructor ()
      ensures launcher == None && launcherWait == None && backendBootstrap == None
      ensures run == [] && before == [] && Whole()
    {
      launcher, launcherWait, backendBootstrap, next, run, before, base := None, None, None, 0, [], [], 0;
    }

    /** The recorded backend is one the current launch started. */
    ghost predicate Mine()
      reads this
    {
      launcher.Some? && launcher.value >= base
    }

    /** The current launch deals only in backends of its own. */
    ghost predicate OwnIds()
      reads this
    {
      base <= next && RetiresFrom(run, base) && forall id :: id in Unretired(run) ==> base <= id < next
    }

    /** What the launcher field says of everything since the app started. */
    ghost predicate Whole()
      reads this
    {
      && (forall id :: id in Unretired(before + run) ==> id < next)
      && (launcher.Some? ==> launcher.value in Unretired(before + run))
      && (launcher.None? ==> (Unretired(before + run) != {} <==> SomeStopFailed(before + run)))
    }

    ghost method Record(e: Event)
      modifies this`run
      ensures run == old(run) + [e]
      ensures Unretired(run) == After(old(Unretired(run)), e)
      ensures Starts(run) == old(Starts(run)) + if e.Starting? then 1 else 0
      ensures SomeStopFailed(run) <==> old(SomeStopFailed(run)) || e.StopFailed?
      ensures Begins(run) <==> old(Begins(run)) || e.Starting? || e.Migrating?
      ensures Safe(run) <==> old(Safe(run)) && (e.Starting? || e.Migrating? ==> old(Unretired(run)) == {})
      ensures RetiresFrom(run, base) <==> old(RetiresFrom(run, base)) && (e.Retired? ==> e.id >= base)
    {
      Next(run, e);
      NextBegins(run, e);
      run := run + [e];
    }

    /** Starts a backend and records it as the live one. Every error once the start has begun
        carries the launch-failed class, and a start that failed leaves nothing running. */
    method LaunchBackend(s: Spawn) returns (r: Launched)
      requires Safe(run) && Unretired(run) == {} && OwnIds()
      modifies this`run, this`launcher, this`launcherWait, this`backendBootstrap, this`next
      ensures Safe(run) && OwnIds()
      ensures r.Backend? <==> ComesUp(s)
      ensures r.Backend? ==> Unretired(run) == {r.id} && launcher == Some(r.id) == launcherWait
      ensures r.Failed? ==> Unretired(run) == {} && launcher == old(launcher) && launcherWait == old(launcherWait)
      ensures r.Failed? && s.reserve.None? && s.profile.None? ==> Carries(r.error, LaunchFailed) && !IsItself(r.error, Pending)
      ensures s.reserve.Some? ==> r == Failed(s.reserve.value)
      ensures s.reserve.None? && s.profile.Some? ==> r == Failed(s.profile.value)
      ensures r.Failed? && (s.reserve.Some? || s.profile.Some?) ==> run == old(run)
      ensures Starts(run) == old(Starts(run)) + if s.reserve.None? && s.profile.None? then 1 else 0
      ensures Begins(run) <==> old(Begins(run)) || Tries(s)
      ensures SomeStopFailed(run) <==> old(SomeStopFailed(run))
      ensures backendBootstrap == old(backendBootstrap) && next >= old(next)
    {
      if s.reserve.Some? { return Failed(s.reserve.value); }
      if s.profile.Some? { return Failed(s.profile.value); }
      Record(Starting);
      if s.launch.Some? {
        WrapTwo(Bare(LaunchFailed), s.launch.value, LaunchFailed);
        return Failed(Wrap([Bare(LaunchFailed), s.launch.value]));
      }
      var id := ComeUp();
      return Backend(id);
    }

    /** A started backend comes up, and is recorded as the live one. */
    method ComeUp() returns (id: nat)
      requires Safe(run) && Unretired(run) == {} && OwnIds()
      modifies this`run, this`launcher, this`launcherWait, this`next
      ensures Safe(run) && OwnIds()
      ensures Unretired(run) == {id} && launcher == Some(id) == launcherWait && next >= old(next)
      ensures Starts(run) == old(Starts(run))
      ensures Begins(run) == old(Begins(run))
      ensures SomeStopFailed(run) == old(SomeStopFailed(run))
    {
      id := next;
      next := next + 1;
      Record(Up(id));
      launcher, launcherWait := Some(id), Some(id);
    }

    /** Tears a backend down. The live backend is forgotten first, whatever happens after;
        the stop returns nil exactly when the wrapper exited in time, the job stopped, and,
        if the backend had published itself, its shutdown was confirmed and its reservation
        released. */
    method StopLaunchedBackend(l: nat, published: bool, s: Stop) returns (error: Option<Err>)
      modifies this`run, this`launcher, this`launcherWait, this`backendBootstrap, this`next
      ensures run == old(run) + [if error.None? then Retired(l) else StopFailed(l)]
      ensures old(launcher) == Some(l) ==> launcher == None && launcherWait == None && backendBootstrap == None
      ensures old(launcher) != Some(l) ==>
                launcher == old(launcher) && launcherWait == old(launcherWait) && backendBootstrap == old(backendBootstrap)
      ensures error.None? <==>
                && (old(launcher) == Some(l) && old(launcherWait).Some? ==> s.exited)
                && s.job.None?
                && (published ==> Landed(s.shutdown) && s.gone && s.release.None?)
      ensures published && s.shutdown.Some? && Carries(s.shutdown.value, Refused) ==> error.Some?
      ensures s.exited && s.gone && s.job.None? && s.release.None? && s.shutdown.None? ==> error.None?
      ensures s.exited && s.gone && s.job.None? && s.release.None? && error.Some? && published ==>
                s.shutdown.Some? && Carries(s.shutdown.value, Refused)
      ensures error.Some? && StopErrorsAreItsOwn(s) ==> !Carries(error.value, LaunchFailed) && !Carries(error.value, Pending)
      ensures old(Safe(run)) ==> Safe(run)
      ensures base <= l && old(OwnIds()) ==> OwnIds()
      ensures Unretired(run) == if error.None? then old(Unretired(run)) - {l} else old(Unretired(run))
      ensures Starts(run) == old(Starts(run)) && next == old(next)
      ensures Begins(run) <==> old(Begins(run))
      ensures SomeStopFailed(run) <==> old(SomeStopFailed(run)) || error.Some?
    {
      var waitDone := None;
      if launcher == Some(l) {
        waitDone := launcherWait;
        launcher, launcherWait, backendBootstrap := None, None, None;
      }
      var backendGone := published && Landed(s.shutdown) && s.gone;
      if waitDone.Some? && !s.exited {
        error := Some(Bare(Other));
      } else if s.job.Some? {
        error := s.job;
      } else if !published {
        error := None;
      } else if backendGone {
        error := s.release;
      } else {
        error := Some(Bare(Other));
      }
      Record(if error.None? then Retired(l) else StopFailed(l));
    }

    /** Starts a backend and proves it reachable, starting a second one only after the first
        was unreachable and retired. An error of the launch-failed class, or a bare migration
        refusal, leaves nothing running (joined to a failed stop the refusal is inside the error,
        no longer the error itself); a backend is left running behind an error exactly
        when its stop failed or the second one failed its probe. */
    method LaunchAndProbe(a: Attempt) returns (r: Launched)
      requires Safe(run) && Unretired(run) == {} && !Mine() && !SomeStopFailed(run) && OwnIds()
      requires ErrorsAreTheirOwn(a)
      modifies this`run, this`launcher, this`launcherWait, this`backendBootstrap, this`next
      ensures Safe(run) && OwnIds()
      ensures r.Backend? <==> Succeeds(a)
      ensures r.Backend? ==> Unretired(run) == {r.id} && launcher == Some(r.id) && launcherWait.Some?
      ensures r.Failed? ==> (Unretired(run) != {} <==> Strands(a))
      ensures r.Failed? && (Carries(r.error, LaunchFailed) || IsItself(r.error, Pending)) ==> !Strands(a)
      ensures SpawnsAreTheirOwn(a) && r.Failed? ==>
                (Carries(r.error, LaunchFailed) <==> StartDies(a)) && (IsItself(r.error, Pending) <==> Refuses(a))
      ensures ComesUp(a.first) && a.probe == Some(Bare(Pending)) && !StopConfirms(a.stop) ==>
                r.Failed? && Carries(r.error, Pending) && !IsItself(r.error, Pending)
      ensures Tracked(this)
      ensures launcher.None? || Mine() || launcher == old(launcher)
      ensures a.first == Spawn(None, None, None) && a.probe.Some? && Carries(a.probe.value, Unreachable) &&
                StopConfirms(a.stop) && a.again == Spawn(None, None, None) && a.probeAgain.None? ==>
                r.Backend? && Starts(run) == old(Starts(run)) + 2
      ensures a.first == Spawn(None, None, None) && a.probe.Some? && !Carries(a.probe.value, Unreachable) ==>
                r.Failed? && Starts(run) == old(Starts(run)) + 1 && (r.error == Bare(Pending) ==> a.probe.value == Bare(Pending))
      ensures a.first.reserve.None? && a.first.profile.None? && a.first.launch.Some? ==>
                r.Failed? && Carries(r.error, LaunchFailed) && Unretired(run) == {}
      ensures a.first == Spawn(None, None, None) && a.probe.None? ==> r.Backend? && Starts(run) == old(Starts(run)) + 1
      ensures a.first == Spawn(None, None, None) && a.probe == Some(Bare(Pending)) && a.stop == Stop(None, true, None, true, None) ==>
                r == Failed(Bare(Pending))
      ensures Starts(run) <= old(Starts(run)) + if Retries(a) then 2 else 1
      ensures r.Failed? && IsItself(r.error, Pending) ==> Starts(run) <= old(Starts(run)) + 1 || !SpawnsAreTheirOwn(a)
      ensures Begins(run) <==> old(Begins(run)) || Tries(a.first)
      ensures SomeStopFailed(run) <==> StopFails(a)
      ensures Mine() <==> Leaves(a)
    {
      r := LaunchBackend(a.first);
      if r.Failed? || a.probe.None? { return; }
      BareCarriesItself(Pending, Unreachable);
      var first := r.id;
      var stopError := StopLaunchedBackend(first, true, a.stop);
      if !Carries(a.probe.value, Unreachable) {
        if stopError.Some? {
          WrapTwo(a.probe.value, stopError.value, LaunchFailed);
          WrapTwo(a.probe.value, stopError.value, Pending);
          return Failed(Wrap([a.probe.value, stopError.value]));
        }
        return Failed(a.probe.value);
      }
      if stopError.Some? { return Failed(stopError.value); }
      r := LaunchBackend(a.again);
      if r.Failed? || a.probeAgain.None? { return; }
      WrapOne(a.probeAgain.value, LaunchFailed);
      return Failed(Wrap([a.probeAgain.value]));
    }

    /** launchAndProbe, and once more at a reinstalled path when the recorded one was stale. */
    method LaunchAtPath(s: Script) returns (r: Launched, installError: Option<Err>)
      requires Safe(run) && Unretired(run) == {} && !Mine() && !SomeStopFailed(run) && OwnIds()
      requires ScriptErrorsAreTheirOwn(s)
      modifies this`run, this`launcher, this`launcherWait, this`backendBootstrap, this`next
      ensures Safe(run) && OwnIds()
      ensures r.Backend? ==> installError.None? && Unretired(run) == {r.id} && launcher == Some(r.id)
      ensures r.Failed? && IsItself(r.error, Pending) ==> Unretired(run) == {} && !Mine() && !SomeStopFailed(run)
      ensures ScriptSpawnsAreTheirOwn(s) ==>
                (installError.Some? <==> ReinstallFails(s)) &&
                (installError.None? ==>
                   (r.Backend? <==> Succeeds(LastAttempt(s))) &&
                   (r.Failed? && IsItself(r.error, Pending) <==> Refuses(LastAttempt(s))))
      ensures installError.Some? ==> r.Failed? && Unretired(run) == {} && !Mine() && !SomeStopFailed(run)
      ensures s.first.first.reserve.None? && s.first.first.profile.None? && s.first.first.launch.Some? &&
                s.cachedPath && s.path == Moved(None) && s.second.first == Spawn(None, None, None) && s.second.probe.None? ==>
                r.Backend? && installError.None?
      ensures !s.cachedPath || s.path.Unresolved? || s.path.Unmoved? ==> installError.None? && Starts(run) <= old(Starts(run)) + 2
      ensures !s.cachedPath && s.first.first == Spawn(None, None, None) ==>
                && (s.first.probe.None? ==> r.Backend?)
                && (s.first.probe == Some(Bare(Pending)) && s.first.stop == Stop(None, true, None, true, None) ==> r == Failed(Bare(Pending)))
                && (s.first.probe.Some? && s.first.probe.value != Bare(Pending) && !Carries(s.first.probe.value, Unreachable) ==>
                      r.Failed? && r.error != Bare(Pending))
      ensures Tracked(this)
      ensures launcher.None? || Mine() || launcher == old(launcher)
      ensures Starts(run) <= old(Starts(run)) + 4
      ensures r.Backend? ==> launcherWait.Some?
      ensures ScriptSpawnsAreTheirOwn(s) && r.Failed? && IsItself(r.error, Pending) ==> Starts(run) <= old(Starts(run)) + 3
      ensures ScriptSpawnsAreTheirOwn(s) ==>
                (Begins(run) <==> old(Begins(run)) || Tries(s.first.first)) &&
                (SomeStopFailed(run) <==> StopFails(LastAttempt(s))) && (Mine() <==> Leaves(LastAttempt(s)))
    {
      installError := None;
      r := LaunchAndProbe(s.first);
      if r.Failed? && s.cachedPath && Carries(r.error, LaunchFailed) {
        match s.path
        case Moved(install) =>
          if install.Some? { return r, install; }
          r := LaunchAndProbe(s.second);
        case _ =>
      }
    }

    /** The update's recovery, which may finish a migration before anything is launched. */
    method ReconcileUpdate(reconcile: Reconcile) returns (proceed: bool)
      requires Safe(run) && Unretired(run) == {} && !SomeStopFailed(run) && OwnIds()
      modifies this`run
      ensures Safe(run) && Unretired(run) == {} && !SomeStopFailed(run) && OwnIds()
      ensures Starts(run) == old(Starts(run))
      ensures Begins(run) <==> old(Begins(run)) || reconcile.Resume?
      ensures run == if reconcile.Resume? then old(run) + [Migrating] else old(run)
      ensures proceed <==> Proceeds(reconcile)
      ensures reconcile == Proceed || reconcile == Resume(true) ==> proceed
      ensures reconcile == TakenOver || reconcile == Resume(false) ==> !proceed
    {
      if reconcile.TakenOver? { return false; }
      if reconcile.Resume? {
        Record(Migrating);
        return reconcile.launch;
      }
      return true;
    }

    /** Migrates once the refusing backend is retired, then launches again. */
    method MigrateBeforeLaunch(migrated: bool, third: Attempt) returns (r: Option<Launched>)
      requires Safe(run) && Unretired(run) == {} && !Mine() && !SomeStopFailed(run) && OwnIds()
      requires ErrorsAreTheirOwn(third)
      modifies this`run, this`launcher, this`launcherWait, this`backendBootstrap, this`next
      ensures Safe(run) && OwnIds() && Tracked(this)
      ensures launcher.None? || Mine() || launcher == old(launcher)
      ensures r.None? <==> !migrated
      ensures migrated && third.first == Spawn(None, None, None) && third.probe.None? ==> r.Some? && r.value.Backend?
      ensures r.Some? ==> (r.value.Backend? <==> Succeeds(third))
      ensures r.None? ==> Unretired(run) == {}
      ensures r.Some? && r.value.Backend? ==> Unretired(run) == {r.value.id} && launcher == Some(r.value.id) && launcherWait.Some?
      ensures Starts(run) <= old(Starts(run)) + 2
      ensures Begins(run)
      ensures migrated ==> (SomeStopFailed(run) <==> StopFails(third)) && (Mine() <==> Leaves(third))
      ensures !migrated ==> !SomeStopFailed(run) && !Mine()
    {
      Record(Migrating);
      if !migrated { return None; }
      var again := LaunchAndProbe(third);
      return Some(again);
    }

    /** The launch at its path and, after a refusal, the migration and one more launch;
        None when the migration ends the launch. */
    method LaunchOrMigrate(s: Script) returns (r: Option<Launched>, installError: Option<Err>)
      requires Safe(run) && Unretired(run) == {} && !Mine() && !SomeStopFailed(run) && OwnIds()
      requires ScriptErrorsAreTheirOwn(s)
      modifies this`run, this`launcher, this`launcherWait, this`backendBootstrap, this`next
      ensures Safe(run) && OwnIds() && Tracked(this)
      ensures launcher.None? || Mine() || launcher == old(launcher)
      ensures r.Some? && r.value.Backend? ==>
                Unretired(run) == {r.value.id} && launcher == Some(r.value.id) && launcherWait.Some?
      ensures r.None? || installError.Some? ==> Unretired(run) == {}
      ensures !s.cachedPath && s.first.first == Spawn(None, None, None) ==>
                && (s.first.probe.None? ==> r.Some? && r.value.Backend?)
                && (s.first.probe == Some(Bare(Pending)) && s.first.stop == Stop(None, true, None, true, None) ==>
                      && (!s.migrated ==> r.None?)
                      && (s.migrated && s.third.first == Spawn(None, None, None) && s.third.probe.None? ==> r.Some? && r.value.Backend?))
                && (s.first.probe.Some? && s.first.probe.value != Bare(Pending) && !Carries(s.first.probe.value, Unreachable) ==>
                      r.Some? && r.value.Failed?)
      ensures Starts(run) <= old(Starts(run)) + 6
      ensures ScriptSpawnsAreTheirOwn(s) ==>
                && Starts(run) <= old(Starts(run)) + 5
                && (Begins(run) <==> old(Begins(run)) || Tries(s.first.first))
                && (SomeStopFailed(run) <==> StopFails(FinalAttempt(s)))
                && (Mine() <==> Leaves(FinalAttempt(s)))
                && (installError.Some? <==> ReinstallFails(s))
                && (installError.None? && r.Some? && r.value.Backend? <==> !ReinstallFails(s) && Succeeds(FinalAttempt(s)))
    {
      var first;
      first, installError := LaunchAtPath(s);
      r := Some(first);
      if installError.None? && first.Failed? && IsItself(first.error, Pending) {
        r := MigrateBeforeLaunch(s.migrated, s.third);
      }
    }

    /** The page a finished launch leaves in the window. */
    method Present(r: Launched, evidence: Evidence) returns (shown: Shown)
      requires Safe(run) && OwnIds() && Tracked(this)
      requires r.Backend? ==> Unretired(run) == {r.id} && launcher == Some(r.id) && launcherWait.Some?
      modifies this`run, this`launcher, this`launcherWait, this`backendBootstrap, this`next
      ensures Safe(run) && OwnIds() && Tracked(this) && Starts(run) == old(Starts(run))
      ensures launcher.None? || Mine() || launcher == old(launcher)
      ensures shown.FailurePage? <==> r.Failed?
      ensures shown.FailurePage? ==> shown.error == r.error && (shown.unreachable <==> Carries(shown.error, Unreachable))
      ensures shown.BackendPage? <==> r.Backend? && evidence.Written?
      ensures shown.BackendPage? ==> shown.id == r.id && Unretired(run) == {r.id} && launcher == backendBootstrap == Some(r.id)
      ensures shown.EvidenceFailed? <==> r.Backend? && evidence.WriteFailed?
      ensures shown.EvidenceFailed? ==> launcher.None?
      ensures Begins(run) <==> old(Begins(run))
      ensures SomeStopFailed(run) <==>
                old(SomeStopFailed(run)) || (r.Backend? && evidence.WriteFailed? && !StopConfirms(evidence.stop))
      ensures Mine() <==> old(Mine()) && !(r.Backend? && evidence.WriteFailed?)
    {
      if r.Failed? { return FailurePage(Carries(r.error, Unreachable), r.error); }
      backendBootstrap := Some(r.id);
      if evidence.WriteFailed? {
        var stopError := StopLaunchedBackend(r.id, true, evidence.stop);
        return EvidenceFailed(if stopError.Some? then Wrap([evidence.error, stopError.value]) else evidence.error);
      }
      return BackendPage(r.id);
    }

    /** One launch, from the update's reconciliation to the page the window shows, whatever
        was recorded before. Nothing begins in it while a backend it started is unretired.
        Afterwards the launcher field, which the next launch's guard reads, names the backend
        of this launch still running, and does not with one running exactly when a stop
        failed. */
    method LaunchAndShow(s: Script) returns (shown: Shown)
      requires (launcher.Some? ==> launcher.value < next) && ScriptErrorsAreTheirOwn(s)
      modifies this
      ensures Safe(run) && OwnIds() && before == old(before + run) && base == old(next)
      ensures Tracked(this)
      ensures launcher.None? || Mine() || launcher == old(launcher)
      ensures Starts(run) <= 6
      ensures ScriptSpawnsAreTheirOwn(s) ==>
                && Starts(run) <= 5
                && (Begins(run) <==> BeginsWork(s))
                && (SomeStopFailed(run) <==> FailsAStop(s))
                && (Mine() <==> Records(s))
      ensures shown.BackendPage? ==> Unretired(run) == {shown.id} && launcher == backendBootstrap == Some(shown.id)
      ensures shown.Elsewhere? || shown.PickerPage? ==> Unretired(run) == {}
      ensures shown.FailurePage? ==> (shown.unreachable <==> Carries(shown.error, Unreachable))
      ensures shown.EvidenceFailed? ==> launcher.None?
      ensures !shown.Busy?
      ensures s.reconcile == TakenOver ==> shown == Elsewhere && run == []
      ensures s.reconcile == Resume(false) ==> shown == Elsewhere && run == [Migrating]
      ensures s.reconcile == Proceed && s.install.Some? ==> shown == PickerPage(s.install.value) && run == []
      ensures ScriptSpawnsAreTheirOwn(s) ==> (shown.BackendPage? <==> Arrives(s))
    {
      before, run, base := before + run, [], next;
      var proceed := ReconcileUpdate(s.reconcile);
      if !proceed { return Elsewhere; }
      if s.install.Some? { return PickerPage(s.install.value); }
      var r, installError := LaunchOrMigrate(s);
      if installError.Some? { return PickerPage(installError.value); }
      if r.None? { return Elsewhere; }
      shown := Present(r.value, s.evidence);
    }

    /** The picker's choice, or a failure page's Retry: refused while a backend is recorded.
        The refusal is not enough once a stop has failed: the next launch that begins
        anything begins it beside the backend that stop left behind. */
    method PickDistro(s: Script) returns (shown: Shown)
      requires ScriptErrorsAreTheirOwn(s) && Whole()
      modifies this
      ensures Whole()
      ensures old(launcher.Some?) <==> shown.Busy?
      ensures shown.Busy? ==> run == old(run) && before == old(before) && launcher == old(launcher)
      ensures !shown.Busy? ==> Safe(run) && Tracked(this) && before == old(before + run)
      ensures ScriptSpawnsAreTheirOwn(s) && !shown.Busy? ==>
                && (launcher.Some? <==> Records(s))
                && (SomeStopFailed(before + run) <==> SomeStopFailed(before) || FailsAStop(s))
                && (Safe(before + run) <==> Safe(before) && !(SomeStopFailed(before) && BeginsWork(s)))
    {
      if launcher.Some? { return Busy; }
      shown := LaunchAndShow(s);
      Together(before, run);
      if Unretired(before) == {} {
        AfterIdle(before, run);
      } else {
        var id :| id in Unretired(before);
        AfterStranding(before, run, id, base);
      }
    }

    /** A life of the app: pick after pick, each with its own script. */
    method PickInTurn(scripts: seq<Script>)
      requires launcher.None? && before == [] && run == [] && Whole()
      requires forall i :: 0 <= i < |scripts| ==> ScriptErrorsAreTheirOwn(scripts[i]) && ScriptSpawnsAreTheirOwn(scripts[i])
      modifies this
      ensures launcher.Some? <==> Recorded(scripts)
      ensures SomeStopFailed(before + run) <==> Stranded(scripts)
      ensures Safe(before + run) <==> SafeLife(scripts)
    {
      assert before + run == [];
      for i := 0 to |scripts|
        invariant Whole()
        invariant launcher.Some? <==> Recorded(scripts[..i])
        invariant SomeStopFailed(before + run) <==> Stranded(scripts[..i])
        invariant Safe(before + run) <==> SafeLife(scripts[..i])
      {
        assert scripts[..i + 1][..i] == scripts[..i];
        var shown := PickDistro(scripts[i]);
      }
      assert scripts[..|scripts|] == scripts;
    }
  }

  // ---- lives, told from their scripts

  /** Some pick has ended with a backend recorded; every later one is refused. */
  predicate Recorded(scripts: seq<Script>) {
    scripts != [] && (Recorded(scripts[..|scripts| - 1]) || Records(scripts[|scripts| - 1]))
  }

  /** A stop of a pick that was not refused has failed. */
  predicate Stranded(scripts: seq<Script>) {
    scripts != [] &&
    var before := scripts[..|scripts| - 1];
    (Stranded(before) || (!Recorded(before) && FailsAStop(scripts[|scripts| - 1])))
  }

  predicate SafeLife(scripts: seq<Script>) {
    scripts == [] ||
    var before := scripts[..|scripts| - 1];
    (SafeLife(before) && !(!Recorded(before) && Stranded(before) && BeginsWork(scripts[|scripts| - 1])))
  }

  /** Pick j is let through, and begins something, after pick i left a backend behind. */
  predicate Collides(scripts: seq<Script>, i: int, j: int) {
    0 <= i < j < |scripts| && !Recorded(scripts[..j]) && FailsAStop(scripts[i]) && BeginsWork(scripts[j])
  }

  lemma {:induction false} RecordedIff(scripts: seq<Script>)
    ensures Recorded(scripts) <==> exists k :: 0 <= k < |scripts| && Records(scripts[k])
  {
    if scripts != [] {
      RecordedIff(scripts[..|scripts| - 1]);
      assert forall k :: 0 <= k < |scripts| - 1 ==> scripts[..|scripts| - 1][k] == scripts[k];
    }
  }

  lemma {:induction false} StrandedIff(scripts: seq<Script>)
    ensures Stranded(scripts) <==> exists i :: 0 <= i < |scripts| && !Recorded(scripts[..i]) && FailsAStop(scripts[i])
  {
    if scripts != [] {
      var n := |scripts| - 1;
      StrandedIff(scripts[..n]);
      assert forall k :: 0 <= k < n ==> scripts[..n][k] == scripts[k] && scripts[..n][..k] == scripts[..k];
    }
  }

  lemma {:induction false} NotRecordedBefore(scripts: seq<Script>, i: nat, j: nat)
    requires i <= j <= |scripts| && !Recorded(scripts[..j])
    ensures !Recorded(scripts[..i])
  {
    if i < j {
      assert scripts[..j][..j - 1] == scripts[..j - 1];
      NotRecordedBefore(scripts, i, j - 1);
    }
  }

  lemma CollidesEarlier(scripts: seq<Script>, n: nat, i: int, j: int)
    requires j < n <= |scripts|
    ensures Collides(scripts[..n], i, j) <==> Collides(scripts, i, j)
  {
    if 0 <= i < j { assert scripts[..n][..j] == scripts[..j]; }
  }

  lemma CollidesLast(scripts: seq<Script>)
    requires scripts != []
    ensures var n := |scripts| - 1;
            (exists i :: Collides(scripts, i, n)) <==>
            !Recorded(scripts[..n]) && Stranded(scripts[..n]) && BeginsWork(scripts[n])
  {
    var n := |scripts| - 1;
    var before := scripts[..n];
    StrandedIff(before);
    if i :| Collides(scripts, i, n) {
      NotRecordedBefore(scripts, i, n);
      assert before[..i] == scripts[..i] && before[i] == scripts[i];
    }
    if i :| 0 <= i < n && !Recorded(before[..i]) && FailsAStop(before[i]) {
      assert !Recorded(before) && BeginsWork(scripts[n]) ==> Collides(scripts, i, n);
    }
  }

  /** No life of picks one after another begins anything beside a backend it left behind,
      exactly if no pick that starts or migrates something comes, while nothing is recorded,
      after one whose stop failed. */
  lemma {:induction false} SafeLifeIff(scripts: seq<Script>)
    ensures SafeLife(scripts) <==> forall i, j :: !Collides(scripts, i, j)
  {
    if scripts != [] {
      var n := |scripts| - 1;
      SafeLifeIff(scripts[..n]);
      CollidesLast(scripts);
      forall i, j | j < n ensures Collides(scripts[..n], i, j) <==> Collides(scripts, i, j) {
        CollidesEarlier(scripts, n, i, j);
      }
      assert forall i, j :: Collides(scripts[..n], i, j) ==> j < n;
      assert forall i, j :: Collides(scripts, i, j) ==> j <= n;
    }
  }

  /** A pick whose evidence cannot be written and whose stop is not confirmed, which leaves the
      picker up, then a clean one. */
  function StrandThenPick(): seq<Script> {
    var up := Spawn(None, None, None);
    var lost := Stop(None, false, None, true, None);
    var fine := Attempt(up, None, lost, up, None);
    [Script(Proceed, None, false, fine, Unmoved, fine, true, fine, WriteFailed(Bare(Other), lost)),
     Script(Proceed, None, false, fine, Unmoved, fine, true, fine, Written)]
  }

  lemma StrandThenPickCollides()
    ensures Collides(StrandThenPick(), 0, 1) && !SafeLife(StrandThenPick())
  {
    var scripts := StrandThenPick();
    assert scripts[..1] == [scripts[0]] && scripts[..1][..0] == [];
    assert !Recorded(scripts[..1]);
    SafeLifeIff(scripts);
  }

  /** The same two picks, made: the second launch begins beside the first's backend. */
  method PickBesideAStrandedBackend() returns (app: LauncherApp)
    ensures fresh(app) && app.launcher.Some? && !Safe(app.before + app.run)
  {
    app := new LauncherApp();
    StrandThenPickCollides();
    RecordedIff(StrandThenPick());
    assert Records(StrandThenPick()[1]);
    app.PickInTurn(StrandThenPick());
  }

  /** The launcher field tells what this launch left running, short of a stop that failed. */
  ghost predicate Tracked(a: LauncherApp)
    reads a
  {
    if a.Mine() then Unretired(a.run) == {a.launcher.value} && !SomeStopFailed(a.run)
    else Unretired(a.run) != {} <==> SomeStopFailed(a.run)
  }
}
