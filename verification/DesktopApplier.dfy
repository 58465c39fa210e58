/** The desktop update helper: its work, and the Retry its failure page offers
    (main_update_apply.go). */
module DesktopApplier {
  import opened Text

  // ---- what the helper is told

  datatype RecordRead = Unreadable | NotThisUpdate | MigrationRecord | UpdateRecord

  datatype ApplyEnd = ApplyError | Unsettled | Settled

  datatype MigrationEnd = MigrationEnd(launch: bool, retry: bool)

  /** What a finished piece of work leads to. */
  datatype Outcome = Relaunch | OfferRetry | ShowPage

  function AfterApply(end: ApplyEnd): Outcome {
    if end.Settled? then Relaunch else ShowPage
  }

  function AfterMigration(end: MigrationEnd): Outcome {
    if end.launch then Relaunch else if end.retry then OfferRetry else ShowPage
  }

  /** How a piece of work ended, as the update package tells it. */
  datatype WorkEnd = OfApply(apply: ApplyEnd) | OfMigration(migration: MigrationEnd)

  function After(end: WorkEnd): Outcome {
    match end
    case OfApply(apply) => AfterApply(apply)
    case OfMigration(migration) => AfterMigration(migration)
  }

  /** The work a run does once it holds the lock, if any. */
  datatype Work = Applying | Migrating

  datatype Plan = NoWork | Needs(work: Work)

  function PlanOf(migrate: bool, record: RecordRead): Plan {
    if migrate || record.MigrationRecord? then Needs(Migrating)
    else if record.UpdateRecord? then Needs(Applying)
    else NoWork
  }

  datatype Event =
    | Locked(who: nat)
    | Began(who: nat, work: Work)
    | Finished(who: nat, end: WorkEnd)
    | Offered(who: nat)
    | Taken(who: nat)
    | Started(who: nat)
    | Quit(who: nat)
    | Page(who: nat)

  /** What to count in a log. */
  datatype Query =
    | ALock | AnOffer | ATake | AStart
    | WorkBy(who: nat) | EndBy(who: nat) | StartBy(who: nat)
    | LaunchedBy(who: nat)  // a settled apply, or a migration that ended in a launch
    | OfferableBy(who: nat) // a migration that ended in no launch and may be retried

  predicate Matches(q: Query, e: Event) {
    match q
    case ALock => e.Locked?
    case AnOffer => e.Offered?
    case ATake => e.Taken?
    case AStart => e.Started?
    case WorkBy(t) => e.Began? && e.who == t
    case EndBy(t) => (e.Quit? || e.Page?) && e.who == t
    case StartBy(t) => e == Started(t)
    case LaunchedBy(t) =>
      e == Finished(t, OfApply(Settled)) || (e.Finished? && e.who == t && e.end.OfMigration? && e.end.migration.launch)
    case OfferableBy(t) =>
      e.Finished? && e.who == t && e.end.OfMigration? && e.end.migration.retry && !e.end.migration.launch
  }

  function Count(log: seq<Event>, q: Query): nat {
    if log == [] then 0 else Count(log[..|log| - 1], q) + if Matches(q, log[|log| - 1]) then 1 else 0
  }

  lemma CountNext(log: seq<Event>, e: Event, q: Query)
    ensures Count(log + [e], q) == Count(log, q) + if Matches(q, e) then 1 else 0
  {
    assert (log + [e])[..|log|] == log;
  }

  lemma {:induction false} Counted(log: seq<Event>, q: Query)
    requires Count(log, q) > 0
    ensures exists j :: 0 <= j < |log| && Matches(q, log[j])
  {
    if !Matches(q, log[|log| - 1]) {
      Counted(log[..|log| - 1], q);
      var j :| 0 <= j < |log| - 1 && Matches(q, log[..|log| - 1][j]);
      assert Matches(q, log[j]);
    }
  }

  /** What must have happened before each event. */
  predicate Justified(before: seq<Event>, e: Event) {
    match e
    case Began(t, _) => Count(before, ALock) > 0 && Count(before, WorkBy(t)) == 0
    case Started(t) => Count(before, AStart) == 0 && Count(before, LaunchedBy(t)) > 0
    case Offered(t) => Count(before, AnOffer) == Count(before, ATake) && Count(before, OfferableBy(t)) > 0
    case Taken(_) => Count(before, AnOffer) == Count(before, ATake) + 1
    case Quit(t) => Count(before, EndBy(t)) == 0 && Count(before, StartBy(t)) > 0
    case Page(t) => Count(before, EndBy(t)) == 0
    case _ => true
  }

  predicate Lawful(log: seq<Event>) {
    log == [] || (Lawful(log[..|log| - 1]) && Justified(log[..|log| - 1], log[|log| - 1]))
  }

  lemma {:induction false} LawfulThroughout(log: seq<Event>, k: nat)
    requires Lawful(log) && k < |log|
    ensures Justified(log[..k], log[k])
  {
    if k < |log| - 1 {
      LawfulThroughout(log[..|log| - 1], k);
      assert log[..|log| - 1][..k] == log[..k];
    }
  }

  // ---- one thread's work

  /** What one piece of work does from its outcome on, in order. */
  function Rest(who: nat, outcome: Outcome, starts: bool): seq<Event> {
    match outcome
    case Relaunch => if starts then [Started(who), Quit(who)] else [Page(who)]
    case OfferRetry => [Offered(who), Page(who)]
    case ShowPage => [Page(who)]
  }

  function AfterWork(who: nat, end: WorkEnd, starts: bool): seq<Event> {
    [Finished(who, end)] + Rest(who, After(end), starts)
  }

  /** What a run does, in order. */
  function RunLog(who: nat, migrate: bool, record: RecordRead, acquired: bool, apply: ApplyEnd, end: MigrationEnd, starts: bool): seq<Event> {
    var plan := PlanOf(migrate, record);
    if plan.NoWork? || !acquired then [Page(who)]
    else [Locked(who), Began(who, plan.work)] + AfterWork(who, EndOf(plan.work, apply, end), starts)
  }

  function EndOf(work: Work, apply: ApplyEnd, end: MigrationEnd): WorkEnd {
    if work.Applying? then OfApply(apply) else OfMigration(end)
  }

  predicate RunOffers(migrate: bool, record: RecordRead, acquired: bool, end: MigrationEnd) {
    acquired && PlanOf(migrate, record) == Needs(Migrating) && AfterMigration(end).OfferRetry?
  }

  class Helper {
    var retryOffered: bool
    var lockHeld: bool
    ghost var log: seq<Event>

    constructor ()
      ensures !retryOffered && !lockHeld && log == []
    {
      retryOffered, lockHeld, log := false, false, [];
    }

    /** Starts the app and ends the helper, or shows why it could not. */
    method RelaunchApp(ghost who: nat, starts: bool)
      modifies this`log
      ensures log == old(log) + Rest(who, Relaunch, starts)
    {
      if !starts {
        log := log + [Page(who)];
        return;
      }
      log := log + [Started(who)] + [Quit(who)];
    }

    method FinishMigration(ghost who: nat, end: MigrationEnd, starts: bool)
      modifies this`log, this`retryOffered
      ensures log == old(log) + AfterWork(who, OfMigration(end), starts)
      ensures retryOffered == (old(retryOffered) || AfterMigration(end).OfferRetry?)
    {
      log := log + [Finished(who, OfMigration(end))];
      if end.launch {
        RelaunchApp(who, starts);
        return;
      }
      if end.retry {
        retryOffered := true;
        log := log + [Offered(who)];
      }
      log := log + [Page(who)];
    }

    /** A lock another backend holds ends the run on a page, with nothing begun. */
    method Lock(ghost who: nat, acquired: bool) returns (ok: bool)
      modifies this`lockHeld, this`log
      ensures ok == acquired
      ensures lockHeld == (acquired || old(lockHeld))
      ensures log == old(log) + [if acquired then Locked(who) else Page(who)]
    {
      if acquired {
        lockHeld, log := true, log + [Locked(who)];
        return true;
      }
      log := log + [Page(who)];
      return false;
    }

    /** The helper's run: every path ends in exactly one page or quit, and work begins only
        behind the lock. */
    method Run(ghost who: nat, migrate: bool, record: RecordRead, acquired: bool, apply: ApplyEnd, end: MigrationEnd, starts: bool)
      modifies this
      ensures log == old(log) + RunLog(who, migrate, record, acquired, apply, end, starts)
      ensures lockHeld == (old(lockHeld) || (acquired && PlanOf(migrate, record).Needs?))
      ensures retryOffered == (old(retryOffered) || RunOffers(migrate, record, acquired, end))
    {
      if migrate {
        LockAndMigrate(who, acquired, end, starts);
        return;
      }
      match record
      case Unreadable => log := log + [Page(who)];
      case NotThisUpdate => log := log + [Page(who)];
      case MigrationRecord => LockAndMigrate(who, acquired, end, starts);
      case UpdateRecord => LockAndApply(who, acquired, apply, starts);
    }

    /** The migration half, for the flag and for a recorded migration alike. */
    method LockAndMigrate(ghost who: nat, acquired: bool, end: MigrationEnd, starts: bool)
      modifies this
      ensures log == old(log) +
                if acquired then [Locked(who), Began(who, Migrating)] + AfterWork(who, OfMigration(end), starts) else [Page(who)]
      ensures lockHeld == (old(lockHeld) || acquired)
      ensures retryOffered == (old(retryOffered) || (acquired && AfterMigration(end).OfferRetry?))
    {
      var ok := Lock(who, acquired);
      if !ok { return; }
      log := log + [Began(who, Migrating)];
      FinishMigration(who, end, starts);
    }

    method LockAndApply(ghost who: nat, acquired: bool, apply: ApplyEnd, starts: bool)
      modifies this
      ensures log == old(log) +
                if acquired then [Locked(who), Began(who, Applying)] + AfterWork(who, OfApply(apply), starts) else [Page(who)]
      ensures lockHeld == (old(lockHeld) || acquired) && retryOffered == old(retryOffered)
    {
      var ok := Lock(who, acquired);
      if !ok { return; }
      log := log + [Began(who, Applying)] + [Finished(who, OfApply(apply))];
      match apply
      case ApplyError => log := log + [Page(who)];
      case Unsettled => log := log + [Page(who)];
      case Settled => RelaunchApp(who, starts);
    }

    /** A press of Retry: refused unless a page offered one, which it uses up. */
    method RetryMigration(ghost who: nat, end: MigrationEnd, starts: bool) returns (accepted: bool)
      modifies this
      ensures accepted == old(retryOffered)
      ensures !accepted ==> log == old(log) && !retryOffered
      ensures accepted ==> log == old(log) + [Taken(who), Began(who, Migrating)] + AfterWork(who, OfMigration(end), starts)
      ensures accepted ==> retryOffered == AfterMigration(end).OfferRetry?
      ensures lockHeld == old(lockHeld)
    {
      accepted := retryOffered;
      retryOffered := false;
      if !accepted { return; }
      log := log + [Taken(who)] + [Began(who, Migrating)];
      FinishMigration(who, end, starts);
    }
  }

  // ---- the helper's life: the run and any number of presses, interleaved

  /** Where a thread stands. Thread 0 is the run; every other one is a press. */
  datatype Place =
    | Reading                   // the run, before its record is read
    | Locking(work: Work)
    | Ready(work: Work)         // about to begin its work
    | Working(work: Work)
    | Leaving(outcome: Outcome) // its work has an outcome
    | Quitting                  // the app is started
    | Paging                    // the page is all that is left
    | Done
    | NotAccepted

  /** The thread may still offer a Retry or start the app. */
  predicate Active(p: Place) {
    p.Reading? || p.Locking? || p.Ready? || p.Working? || p.Leaving?
  }

  datatype State = State(offered: bool, locked: bool, threads: map<nat, Place>, log: seq<Event>)

  datatype Action =
    | ReadRecord(migrate: bool, record: RecordRead)
    | TryLock(acquired: bool)
    | Begin
    | EndApply(apply: ApplyEnd)
    | EndMigration(end: MigrationEnd)
    | StartApp(starts: bool)
    | Offer
    | GiveUp
    | Show

  function Initial(): State { State(false, false, map[0 := Reading], []) }

  /** What any step amounts to: one thread moves to a place, with at most one event. */
  datatype Change = Change(t: nat, place: Place, event: seq<Event>, offered: bool, locked: bool)

  function Changed(s: State, c: Change): State {
    State(c.offered, c.locked, s.threads[c.t := c.place], s.log + c.event)
  }

  /** A thread goes on to a place. */
  function Goes(s: State, t: nat, place: Place, event: seq<Event>): Change {
    Change(t, place, event, s.offered, s.locked)
  }

  /** One indivisible move of a thread. */
  predicate CanMove(s: State, t: nat, a: Action) {
    t in s.threads &&
    match a
    case ReadRecord(_, _) => s.threads[t].Reading?
    case TryLock(_) => s.threads[t].Locking?
    case Begin => s.threads[t].Ready?
    case EndApply(_) => s.threads[t] == Working(Applying)
    case EndMigration(_) => s.threads[t] == Working(Migrating)
    case StartApp(_) => s.threads[t] == Leaving(Relaunch)
    case Offer => s.threads[t] == Leaving(OfferRetry)
    case GiveUp => s.threads[t] == Leaving(ShowPage)
    case Show => s.threads[t].Quitting? || s.threads[t].Paging?
  }

  function ChangeOfMove(s: State, t: nat, a: Action): (c: Change)
    requires CanMove(s, t, a)
    ensures c.t == t && |c.event| <= 1
  {
    match a
    case ReadRecord(migrate, record) =>
      var plan := PlanOf(migrate, record);
      Goes(s, t, if plan.NoWork? then Paging else Locking(plan.work), [])
    case TryLock(acquired) =>
      if acquired then Change(t, Ready(s.threads[t].work), [Locked(t)], s.offered, true) else Goes(s, t, Paging, [])
    case Begin => Goes(s, t, Working(s.threads[t].work), [Began(t, s.threads[t].work)])
    case EndApply(apply) => Goes(s, t, Leaving(AfterApply(apply)), [Finished(t, OfApply(apply))])
    case EndMigration(end) => Goes(s, t, Leaving(AfterMigration(end)), [Finished(t, OfMigration(end))])
    case StartApp(starts) => if starts then Goes(s, t, Quitting, [Started(t)]) else Goes(s, t, Paging, [])
    case Offer => Change(t, Paging, [Offered(t)], true, s.locked)
    case GiveUp => Goes(s, t, Paging, [])
    case Show => Goes(s, t, Done, [if s.threads[t].Quitting? then Quit(t) else Page(t)])
  }

  function Move(s: State, t: nat, a: Action): State
    requires CanMove(s, t, a)
  {
    Changed(s, ChangeOfMove(s, t, a))
  }

  /** A new press: it takes the offer, or is refused. */
  function ChangeOfPress(s: State, t: nat): Change {
    if s.offered then Change(t, Ready(Migrating), [Taken(t)], false, s.locked) else Goes(s, t, NotAccepted, [])
  }

  function Press(s: State, t: nat): State { Changed(s, ChangeOfPress(s, t)) }

  datatype Step = Moves(t: nat, a: Action) | Presses(t: nat)

  predicate Enabled(s: State, step: Step) {
    match step
    case Moves(t, a) => CanMove(s, t, a)
    case Presses(t) => t !in s.threads
  }

  function ChangeOf(s: State, step: Step): (c: Change)
    requires Enabled(s, step)
    ensures c.t == step.t && |c.event| <= 1
  {
    match step
    case Moves(t, a) => ChangeOfMove(s, t, a)
    case Presses(t) => ChangeOfPress(s, t)
  }

  function Next(s: State, step: Step): State
    requires Enabled(s, step)
  {
    Changed(s, ChangeOf(s, step))
  }

  /** The state after some steps, in any interleaving the moves allow. */
  ghost predicate Reaches(steps: seq<Step>, s: State)
    decreases |steps|
  {
    if steps == [] then s == Initial()
    else
      var prefix, last := steps[..|steps| - 1], steps[|steps| - 1];
      exists before :: Reaches(prefix, before) && Enabled(before, last) && s == Next(before, last)
  }

  // ---- what every step keeps

  /** At most one thread may still offer or start, and none while an offer stands or once
      the app is started. */
  ghost predicate OneActive(s: State) {
    && (forall t, u :: IsActive(s, t) && IsActive(s, u) ==> t == u)
    && (s.offered || Count(s.log, AStart) > 0 ==> forall t :: !IsActive(s, t))
    && (s.offered ==> Count(s.log, AStart) == 0)
  }

  predicate IsActive(s: State, t: nat) { t in s.threads && Active(s.threads[t]) }

  predicate NeedsLock(p: Place) { p.Ready? || p.Working? || p.Leaving? }

  ghost predicate LockFirst(s: State) {
    && (s.locked <==> Count(s.log, ALock) > 0)
    && (s.offered ==> s.locked)
    && (forall t :: t in s.threads && NeedsLock(s.threads[t]) ==> s.locked)
  }

  ghost predicate OutcomesFirst(s: State) {
    && (forall t :: t in s.threads && s.threads[t] == Leaving(Relaunch) ==> Count(s.log, LaunchedBy(t)) > 0)
    && (forall t :: t in s.threads && s.threads[t] == Leaving(OfferRetry) ==> Count(s.log, OfferableBy(t)) > 0)
    && (forall t :: t in s.threads && s.threads[t] == Quitting ==> Count(s.log, StartBy(t)) > 0)
  }

  ghost predicate OffersBalance(s: State) {
    Count(s.log, AnOffer) == Count(s.log, ATake) + if s.offered then 1 else 0
  }

  predicate RunStands(s: State) { 0 in s.threads && !s.threads[0].NotAccepted? }

  predicate IsDone(s: State, t: nat) { t in s.threads && s.threads[t].Done? }

  ghost predicate EndsOnce(s: State) {
    forall t: nat :: Count(s.log, EndBy(t)) == if IsDone(s, t) then 1 else 0
  }

  predicate HasBegun(p: Place) { !p.Reading? && !p.Locking? && !p.Ready? && !p.NotAccepted? }

  predicate HasWorked(s: State, t: nat) { t in s.threads && HasBegun(s.threads[t]) }

  ghost predicate WorksOnce(s: State) {
    forall t: nat :: Count(s.log, WorkBy(t)) <= if HasWorked(s, t) then 1 else 0
  }

  ghost predicate Inv(s: State) {
    OneActive(s) && LockFirst(s) && OutcomesFirst(s) && OffersBalance(s) && RunStands(s) && EndsOnce(s) && WorksOnce(s) && Lawful(s.log)
  }

  lemma CountChanged(s: State, c: Change, q: Query)
    requires |c.event| <= 1
    ensures Count(s.log + c.event, q) == Count(s.log, q) + if c.event != [] && Matches(q, c.event[0]) then 1 else 0
  {
    if c.event == [] {
      assert s.log + c.event == s.log;
    } else {
      CountNext(s.log, c.event[0], q);
    }
  }

  /** Only an active thread offers or starts, and gives that up by it; only the taker of an
      offer becomes active. */
  predicate PassesTheTurn(s: State, c: Change) {
    && (Active(c.place) ==> IsActive(s, c.t) || (s.offered && !c.offered))
    && (Active(c.place) && c.offered ==> IsActive(s, c.t) && s.offered)
    && (c.offered && !s.offered ==> IsActive(s, c.t) && !Active(c.place))
    && (c.event != [] && c.event[0].Started? ==> IsActive(s, c.t) && !Active(c.place) && c.offered == s.offered)
  }

  lemma StepPassesTheTurn(s: State, step: Step)
    requires Enabled(s, step)
    ensures PassesTheTurn(s, ChangeOf(s, step))
  {
  }

  lemma ActiveAfter(s: State, c: Change, t: nat)
    ensures IsActive(Changed(s, c), t) <==> if t == c.t then Active(c.place) else IsActive(s, t)
  {
  }

  lemma StillAlone(s: State, c: Change, t: nat, u: nat)
    requires OneActive(s) && PassesTheTurn(s, c)
    requires IsActive(Changed(s, c), t) && IsActive(Changed(s, c), u)
    ensures t == u
  {
    ActiveAfter(s, c, t);
    ActiveAfter(s, c, u);
  }

  lemma StillQuiet(s: State, c: Change, t: nat)
    requires OneActive(s) && |c.event| <= 1 && PassesTheTurn(s, c)
    requires c.offered || Count(s.log + c.event, AStart) > 0
    ensures !IsActive(Changed(s, c), t)
  {
    ActiveAfter(s, c, t);
    CountChanged(s, c, AStart);
  }

  lemma ChangeKeepsOneActive(s: State, c: Change)
    requires OneActive(s) && |c.event| <= 1 && PassesTheTurn(s, c)
    ensures OneActive(Changed(s, c))
  {
    var next := Changed(s, c);
    forall t, u | IsActive(next, t) && IsActive(next, u) ensures t == u {
      StillAlone(s, c, t, u);
    }
    if c.offered || Count(next.log, AStart) > 0 {
      forall t: nat ensures !IsActive(next, t) {
        StillQuiet(s, c, t);
      }
    }
    CountChanged(s, c, AStart);
  }

  predicate KeepsTheLock(s: State, c: Change) {
    && (c.locked <==> s.locked || (c.event != [] && c.event[0].Locked?))
    && (NeedsLock(c.place) || c.offered ==>
          c.locked || s.offered || (c.t in s.threads && NeedsLock(s.threads[c.t])))
    && (c.place == Leaving(Relaunch) ==> c.event != [] && Matches(LaunchedBy(c.t), c.event[0]))
    && (c.place == Leaving(OfferRetry) ==> c.event != [] && Matches(OfferableBy(c.t), c.event[0]))
    && (c.place == Quitting ==> c.event == [Started(c.t)])
  }

  lemma StepKeepsTheLock(s: State, step: Step)
    requires Enabled(s, step)
    ensures KeepsTheLock(s, ChangeOf(s, step))
  {
  }

  lemma ChangeKeepsLockFirst(s: State, c: Change)
    requires LockFirst(s) && |c.event| <= 1 && KeepsTheLock(s, c)
    ensures LockFirst(Changed(s, c))
  {
    CountChanged(s, c, ALock);
  }

  lemma ChangeKeepsOutcomesFirst(s: State, c: Change)
    requires OutcomesFirst(s) && |c.event| <= 1 && KeepsTheLock(s, c)
    ensures OutcomesFirst(Changed(s, c))
  {
    var next := Changed(s, c);
    forall t | t in next.threads && next.threads[t] == Leaving(Relaunch) ensures Count(next.log, LaunchedBy(t)) > 0 {
      CountChanged(s, c, LaunchedBy(t));
    }
    forall t | t in next.threads && next.threads[t] == Leaving(OfferRetry) ensures Count(next.log, OfferableBy(t)) > 0 {
      CountChanged(s, c, OfferableBy(t));
    }
    forall t | t in next.threads && next.threads[t] == Quitting ensures Count(next.log, StartBy(t)) > 0 {
      CountChanged(s, c, StartBy(t));
    }
  }

  /** Only an offer puts one up, none standing, and only a press's taking takes it down. */
  predicate MovesTheOffer(s: State, c: Change) {
    if c.event != [] && c.event[0].Offered? then c.offered && !s.offered
    else if c.event != [] && c.event[0].Taken? then s.offered && !c.offered
    else c.offered == s.offered
  }

  lemma StepMovesTheOffer(s: State, step: Step)
    requires OneActive(s) && Enabled(s, step)
    ensures MovesTheOffer(s, ChangeOf(s, step))
  {
    assert IsActive(s, step.t) ==> !s.offered;
  }

  lemma ChangeKeepsBalance(s: State, c: Change)
    requires OffersBalance(s) && |c.event| <= 1 && MovesTheOffer(s, c)
    ensures OffersBalance(Changed(s, c))
  {
    CountChanged(s, c, AnOffer);
    CountChanged(s, c, ATake);
  }

  /** A thread is done by its one ending, and past its start by its one beginning. */
  predicate TellsOfItself(s: State, c: Change) {
    && (c.event != [] ==> c.event[0].who == c.t)
    && !IsDone(s, c.t)
    && (c.place.Done? <==> c.event != [] && (c.event[0].Quit? || c.event[0].Page?))
    && (RunStands(s) && c.t == 0 ==> !c.place.NotAccepted?)
  }

  predicate TellsItsWork(s: State, c: Change) {
    && (c.event != [] ==> c.event[0].who == c.t)
    && (c.event != [] && c.event[0].Began? ==> !HasWorked(s, c.t) && HasBegun(c.place))
    && (HasWorked(s, c.t) ==> HasBegun(c.place))
  }

  lemma StepTells(s: State, step: Step)
    requires Enabled(s, step)
    ensures TellsOfItself(s, ChangeOf(s, step))
  {
  }

  lemma StepTellsItsWork(s: State, step: Step)
    requires Enabled(s, step)
    ensures TellsItsWork(s, ChangeOf(s, step))
  {
  }

  lemma ChangeKeepsEndsOnce(s: State, c: Change)
    requires RunStands(s) && EndsOnce(s) && |c.event| <= 1 && TellsOfItself(s, c)
    ensures RunStands(Changed(s, c)) && EndsOnce(Changed(s, c))
  {
    forall t: nat
      ensures Count(s.log + c.event, EndBy(t)) ==
              if IsDone(Changed(s, c), t) then 1 else 0
    {
      assert IsDone(Changed(s, c), t) <==> if t == c.t then c.place.Done? else IsDone(s, t);
      CountChanged(s, c, EndBy(t));
    }
  }

  lemma ChangeKeepsWorksOnce(s: State, c: Change)
    requires WorksOnce(s) && |c.event| <= 1 && TellsItsWork(s, c)
    ensures WorksOnce(Changed(s, c))
  {
    forall t: nat
      ensures Count(s.log + c.event, WorkBy(t)) <=
              if HasWorked(Changed(s, c), t) then 1 else 0
    {
      assert HasWorked(Changed(s, c), t) <==> if t == c.t then HasBegun(c.place) else HasWorked(s, t);
      CountChanged(s, c, WorkBy(t));
    }
  }

  lemma StepKeepsLawful(s: State, step: Step)
    requires Inv(s) && Enabled(s, step)
    ensures Lawful(Next(s, step).log)
  {
    var c := ChangeOf(s, step);
    if c.event == [] {
      assert s.log + c.event == s.log;
    } else {
      assert (s.log + c.event)[..|s.log|] == s.log;
      StepIsJustified(s, step);
    }
  }

  lemma WorkIsJustified(s: State, t: nat, work: Work)
    requires LockFirst(s) && WorksOnce(s) && t in s.threads && s.threads[t] == Ready(work)
    ensures Justified(s.log, Began(t, work))
  {
    assert !HasWorked(s, t);
  }

  lemma StartIsJustified(s: State, t: nat)
    requires OneActive(s) && OutcomesFirst(s) && t in s.threads && s.threads[t] == Leaving(Relaunch)
    ensures Justified(s.log, Started(t))
  {
    assert IsActive(s, t);
  }

  lemma OfferIsJustified(s: State, t: nat)
    requires OneActive(s) && OffersBalance(s) && OutcomesFirst(s) && t in s.threads && s.threads[t] == Leaving(OfferRetry)
    ensures Justified(s.log, Offered(t))
  {
    assert IsActive(s, t);
  }

  lemma EndIsJustified(s: State, t: nat)
    requires EndsOnce(s) && OutcomesFirst(s) && t in s.threads && !s.threads[t].Done?
    ensures s.threads[t].Quitting? ==> Justified(s.log, Quit(t))
    ensures Justified(s.log, Page(t))
  {
    assert !IsDone(s, t);
  }

  lemma StepIsJustified(s: State, step: Step)
    requires Inv(s) && Enabled(s, step) && ChangeOf(s, step).event != []
    ensures Justified(s.log, ChangeOf(s, step).event[0])
  {
    match step
    case Presses(t) =>
    case Moves(t, a) =>
      match a
      case Begin => WorkIsJustified(s, t, s.threads[t].work);
      case StartApp(_) => StartIsJustified(s, t);
      case Offer => OfferIsJustified(s, t);
      case Show => EndIsJustified(s, t);
      case _ =>
  }

  lemma StepKeepsInv(s: State, step: Step)
    requires Inv(s) && Enabled(s, step)
    ensures Inv(Next(s, step))
  {
    var c := ChangeOf(s, step);
    StepPassesTheTurn(s, step);
    ChangeKeepsOneActive(s, c);
    StepKeepsTheLock(s, step);
    ChangeKeepsLockFirst(s, c);
    ChangeKeepsOutcomesFirst(s, c);
    StepMovesTheOffer(s, step);
    ChangeKeepsBalance(s, c);
    StepTells(s, step);
    StepTellsItsWork(s, step);
    ChangeKeepsEndsOnce(s, c);
    ChangeKeepsWorksOnce(s, c);
    StepKeepsLawful(s, step);
  }

  lemma {:induction false} ReachableInv(steps: seq<Step>, s: State)
    requires Reaches(steps, s)
    ensures Inv(s)
    decreases |steps|
  {
    if steps != [] {
      var prefix, step := steps[..|steps| - 1], steps[|steps| - 1];
      var before :| Reaches(prefix, before) && Enabled(before, step) && s == Next(before, step);
      ReachableInv(prefix, before);
      StepKeepsInv(before, step);
    }
  }

  // ---- the helper's whole life

  /** Every apply and every migration follows a lock taken. */
  lemma WorkFollowsTheLock(steps: seq<Step>, s: State, k: nat)
    requires Reaches(steps, s) && k < |s.log| && s.log[k].Began?
    ensures exists j :: 0 <= j < k && s.log[j].Locked?
  {
    ReachableInv(steps, s);
    LawfulThroughout(s.log, k);
    Counted(s.log[..k], ALock);
    var j :| 0 <= j < k && Matches(ALock, s.log[..k][j]);
    assert s.log[j].Locked?;
  }

  lemma CountedBefore(log: seq<Event>, k: nat, q: Query)
    requires k <= |log| && Count(log[..k], q) > 0
    ensures exists j :: 0 <= j < k && Matches(q, log[j])
  {
    Counted(log[..k], q);
    var j :| 0 <= j < k && Matches(q, log[..k][j]);
    assert log[..k][j] == log[j];
  }

  /** The app is started at most once, and only after an apply that settled or a migration
      that ended in a launch, in the same thread. */
  lemma StartedOnce(steps: seq<Step>, s: State, k: nat)
    requires Reaches(steps, s) && k < |s.log| && s.log[k].Started?
    ensures exists j :: 0 <= j < k && s.log[j].Finished? && s.log[j].who == s.log[k].who &&
              (s.log[j].end == OfApply(Settled) || (s.log[j].end.OfMigration? && s.log[j].end.migration.launch))
    ensures forall j :: 0 <= j < |s.log| && s.log[j].Started? ==> j == k
  {
    ReachableInv(steps, s);
    LawfulThroughout(s.log, k);
    CountedBefore(s.log, k, LaunchedBy(s.log[k].who));
    forall j | 0 <= j < |s.log| && s.log[j].Started? ensures j == k {
      OneStart(s.log, j, k);
    }
  }

  lemma OneStart(log: seq<Event>, j: nat, k: nat)
    requires Lawful(log) && j < |log| && k < |log| && log[j].Started? && log[k].Started?
    ensures j == k
  {
    LawfulThroughout(log, j);
    LawfulThroughout(log, k);
    if j < k { CountsUpTo(log, AStart, j, k); }
    if k < j { CountsUpTo(log, AStart, k, j); }
  }

  /** A Retry is offered only after a migration that ended in no launch and may be retried, in
      the same thread. */
  lemma OffersAreEarned(steps: seq<Step>, s: State, k: nat)
    requires Reaches(steps, s) && k < |s.log| && s.log[k].Offered?
    ensures exists j :: 0 <= j < k && s.log[j] == Finished(s.log[k].who, OfMigration(MigrationEnd(false, true)))
  {
    ReachableInv(steps, s);
    LawfulThroughout(s.log, k);
    CountedBefore(s.log, k, OfferableBy(s.log[k].who));
  }

  /** The helper quits only after starting the app, in the same thread. */
  lemma QuitsAreEarned(steps: seq<Step>, s: State, k: nat)
    requires Reaches(steps, s) && k < |s.log| && s.log[k].Quit?
    ensures exists j :: 0 <= j < k && s.log[j] == Started(s.log[k].who)
  {
    ReachableInv(steps, s);
    LawfulThroughout(s.log, k);
    CountedBefore(s.log, k, StartBy(s.log[k].who));
  }

  /** A run without work, or without the lock, event by event. */
  lemma IdleRunsInFull(who: nat, migrate: bool, record: RecordRead, apply: ApplyEnd, end: MigrationEnd, starts: bool)
    ensures RunLog(who, migrate, record, false, apply, end, starts) == [Page(who)]
    ensures RunLog(who, false, Unreadable, true, apply, end, starts) == [Page(who)]
    ensures RunLog(who, false, NotThisUpdate, true, apply, end, starts) == [Page(who)]
  {
  }

  /** An apply's run: the app is started, and the helper quits, exactly after a settled apply
      whose start works. */
  lemma ApplyRunsInFull(who: nat, apply: ApplyEnd, end: MigrationEnd, starts: bool)
    ensures RunLog(who, false, UpdateRecord, true, apply, end, starts) ==
            [Locked(who), Began(who, Applying), Finished(who, OfApply(apply))] +
            if apply == Settled && starts then [Started(who), Quit(who)] else [Page(who)]
  {
    assert [Locked(who), Began(who, Applying)] + [Finished(who, OfApply(apply))] ==
           [Locked(who), Began(who, Applying), Finished(who, OfApply(apply))];
  }

  /** A migration's run, by flag or by record: the same after a launch; a Retry with the page
      exactly when there was none and one may be tried. */
  lemma MigrationRunsInFull(who: nat, migrate: bool, record: RecordRead, apply: ApplyEnd, end: MigrationEnd, starts: bool)
    requires migrate || record == MigrationRecord
    ensures RunLog(who, migrate, record, true, apply, end, starts) ==
            [Locked(who), Began(who, Migrating), Finished(who, OfMigration(end))] +
            if end.launch then (if starts then [Started(who), Quit(who)] else [Page(who)])
            else if end.retry then [Offered(who), Page(who)]
            else [Page(who)]
  {
    assert [Locked(who), Began(who, Migrating)] + [Finished(who, OfMigration(end))] ==
           [Locked(who), Began(who, Migrating), Finished(who, OfMigration(end))];
  }

  lemma {:induction false} CountsUpTo(log: seq<Event>, q: Query, j: nat, k: nat)
    requires j < k <= |log| && Matches(q, log[j])
    ensures Count(log[..k], q) > 0
  {
    assert log[..k][..k - 1] == log[..k - 1];
    if j < k - 1 { CountsUpTo(log, q, j, k - 1); }
  }

  /** Every offer is taken at most once, and a press is accepted only on an offer: the offers
      are the acceptances, and one more while one stands. Every thread works at most once. */
  lemma EachOfferIsTakenOnce(steps: seq<Step>, s: State)
    requires Reaches(steps, s)
    ensures Count(s.log, AnOffer) == Count(s.log, ATake) + if s.offered then 1 else 0
    ensures forall t :: t in s.threads ==> Count(s.log, WorkBy(t)) <= 1
    ensures forall k :: 0 <= k < |s.log| && s.log[k].Taken? ==>
              Count(s.log[..k], AnOffer) == Count(s.log[..k], ATake) + 1
  {
    ReachableInv(steps, s);
    forall k | 0 <= k < |s.log| && s.log[k].Taken?
      ensures Count(s.log[..k], AnOffer) == Count(s.log[..k], ATake) + 1
    {
      LawfulThroughout(s.log, k);
    }
  }

  /** The run and every accepted press end in exactly one quit or page, a refused press in
      none; until then there is always a next move of its own. */
  lemma EndsExactlyOnce(steps: seq<Step>, s: State, t: nat)
    requires Reaches(steps, s) && t in s.threads
    ensures Count(s.log, EndBy(t)) == if s.threads[t].Done? then 1 else 0
    ensures RunStands(s)
    ensures !s.threads[t].Done? && !s.threads[t].NotAccepted? ==> exists a :: CanMove(s, t, a)
  {
    ReachableInv(steps, s);
    match s.threads[t]
    case Reading => assert CanMove(s, t, ReadRecord(true, Unreadable));
    case Locking(_) => assert CanMove(s, t, TryLock(true));
    case Ready(_) => assert CanMove(s, t, Begin);
    case Working(Applying) => assert CanMove(s, t, EndApply(Settled));
    case Working(Migrating) => assert CanMove(s, t, EndMigration(MigrationEnd(true, false)));
    case Leaving(Relaunch) => assert CanMove(s, t, StartApp(true));
    case Leaving(OfferRetry) => assert CanMove(s, t, Offer);
    case Leaving(ShowPage) => assert CanMove(s, t, GiveUp);
    case Quitting => assert CanMove(s, t, Show);
    case Paging => assert CanMove(s, t, Show);
    case Done =>
    case NotAccepted =>
  }

  function Rank(p: Place): nat {
    match p
    case Reading => 6
    case Locking(_) => 5
    case Ready(_) => 4
    case Working(_) => 3
    case Leaving(_) => 2
    case Quitting => 1
    case Paging => 1
    case Done => 0
    case NotAccepted => 0
  }

  /** A thread is done within six moves of its own, whatever the others do between them. */
  lemma MovesRunOut(s: State, step: Step, t: nat)
    requires Enabled(s, step) && t in s.threads
    ensures t in Next(s, step).threads
    ensures Rank(Next(s, step).threads[t]) + (if step.Moves? && step.t == t then 1 else 0) <= Rank(s.threads[t]) <= 6
  {
  }

  // ---- the methods are threads of the protocol

  /** The state a thread's moves lead to when no other thread moves. */
  function Alone(s: State, t: nat, actions: seq<Action>): Option<State>
    decreases |actions|
  {
    if actions == [] then Some(s)
    else if CanMove(s, t, actions[0]) then Alone(Move(s, t, actions[0]), t, actions[1..])
    else None
  }

  lemma AloneGoesOn(s: State, t: nat, a: Action, rest: seq<Action>)
    requires CanMove(s, t, a)
    ensures Alone(s, t, [a] + rest) == Alone(Move(s, t, a), t, rest)
  {
    assert ([a] + rest)[1..] == rest;
  }

  /** A thread alone is done, with these events of its own. */
  function DoneWith(s: State, t: nat, events: seq<Event>, offered: bool, locked: bool): State {
    State(offered, locked, s.threads[t := Done], s.log + events)
  }

  function Leaves(outcome: Outcome, starts: bool): Action {
    match outcome
    case Relaunch => StartApp(starts)
    case OfferRetry => Offer
    case ShowPage => GiveUp
  }

  /** A thread left alone from its outcome on logs what the methods log. */
  lemma LeavingLogsTheRest(s: State, t: nat, outcome: Outcome, starts: bool)
    requires t in s.threads && s.threads[t] == Leaving(outcome)
    ensures Alone(s, t, [Leaves(outcome, starts)] + [Show]) ==
            Some(DoneWith(s, t, Rest(t, outcome, starts), s.offered || outcome.OfferRetry?, s.locked))
  {
    var left := Move(s, t, Leaves(outcome, starts));
    AloneGoesOn(s, t, Leaves(outcome, starts), [Show]);
    AloneGoesOn(left, t, Show, []);
    assert [Show] + [] == [Show];
    assert Move(left, t, Show).log == s.log + Rest(t, outcome, starts);
    assert Move(left, t, Show).threads == s.threads[t := Done];
  }

  function WorkActions(work: Work, apply: ApplyEnd, end: MigrationEnd, starts: bool): seq<Action> {
    [Begin] + ([if work.Applying? then EndApply(apply) else EndMigration(end)] +
               ([Leaves(After(EndOf(work, apply, end)), starts)] + [Show]))
  }

  /** Left alone from its start on, a thread's work and what follows log what the methods log. */
  lemma WorkAlone(s: State, t: nat, work: Work, apply: ApplyEnd, end: MigrationEnd, starts: bool)
    requires t in s.threads && s.threads[t] == Ready(work)
    ensures var outcome := After(EndOf(work, apply, end));
            Alone(s, t, WorkActions(work, apply, end, starts)) ==
            Some(DoneWith(s, t, [Began(t, work)] + AfterWork(t, EndOf(work, apply, end), starts), s.offered || outcome.OfferRetry?, s.locked))
  {
    var outcome := After(EndOf(work, apply, end));
    var finish := if work.Applying? then EndApply(apply) else EndMigration(end);
    var leave := [Leaves(outcome, starts)] + [Show];
    AloneGoesOn(s, t, Begin, [finish] + leave);
    var s1 := Move(s, t, Begin);
    AloneGoesOn(s1, t, finish, leave);
    var s2 := Move(s1, t, finish);
    LeavingLogsTheRest(s2, t, outcome, starts);
    assert s2.log + Rest(t, outcome, starts) == s.log + ([Began(t, work)] + AfterWork(t, EndOf(work, apply, end), starts));
    assert s2.threads[t := Done] == s.threads[t := Done];
  }

  /** An accepted press left alone does what RetryMigration does. */
  lemma PressLogsTheRetry(s: State, t: nat, apply: ApplyEnd, end: MigrationEnd, starts: bool)
    requires t !in s.threads && s.offered
    ensures var outcome := AfterMigration(end);
            Alone(Press(s, t), t, WorkActions(Migrating, apply, end, starts)) ==
            Some(DoneWith(s, t, [Taken(t), Began(t, Migrating)] + AfterWork(t, OfMigration(end), starts), outcome.OfferRetry?, s.locked))
  {
    var rest := AfterWork(t, OfMigration(end), starts);
    WorkAlone(Press(s, t), t, Migrating, apply, end, starts);
    assert s.log + [Taken(t)] + ([Began(t, Migrating)] + rest) == s.log + ([Taken(t), Began(t, Migrating)] + rest);
    assert Press(s, t).threads[t := Done] == s.threads[t := Done];
  }

  function LockActions(work: Work, acquired: bool, apply: ApplyEnd, end: MigrationEnd, starts: bool): seq<Action> {
    [TryLock(acquired)] + if acquired then WorkActions(work, apply, end, starts) else [Show]
  }

  lemma LockAlone(s: State, t: nat, work: Work, acquired: bool, apply: ApplyEnd, end: MigrationEnd, starts: bool)
    requires t in s.threads && s.threads[t] == Locking(work)
    ensures var outcome := After(EndOf(work, apply, end));
            Alone(s, t, LockActions(work, acquired, apply, end, starts)) ==
            Some(if acquired then
                   DoneWith(s, t, [Locked(t), Began(t, work)] + AfterWork(t, EndOf(work, apply, end), starts), s.offered || outcome.OfferRetry?, true)
                 else DoneWith(s, t, [Page(t)], s.offered, s.locked))
  {
    var locked := Move(s, t, TryLock(acquired));
    AloneGoesOn(s, t, TryLock(acquired), if acquired then WorkActions(work, apply, end, starts) else [Show]);
    if acquired {
      var rest := AfterWork(t, EndOf(work, apply, end), starts);
      WorkAlone(locked, t, work, apply, end, starts);
      assert s.log + [Locked(t)] + ([Began(t, work)] + rest) == s.log + ([Locked(t), Began(t, work)] + rest);
      assert locked.threads[t := Done] == s.threads[t := Done];
    } else {
      assert [Show] + [] == [Show];
      AloneGoesOn(locked, t, Show, []);
      assert Move(locked, t, Show) == DoneWith(s, t, [Page(t)], s.offered, s.locked);
    }
  }

  function RunActions(migrate: bool, record: RecordRead, acquired: bool, apply: ApplyEnd, end: MigrationEnd, starts: bool): seq<Action> {
    var plan := PlanOf(migrate, record);
    [ReadRecord(migrate, record)] +
    if plan.NoWork? then [Show] else LockActions(plan.work, acquired, apply, end, starts)
  }

  /** The run left alone does what Helper.Run does, on every path. */
  lemma RunLogsTheRun(migrate: bool, record: RecordRead, acquired: bool, apply: ApplyEnd, end: MigrationEnd, starts: bool)
    ensures Alone(Initial(), 0, RunActions(migrate, record, acquired, apply, end, starts)) ==
            Some(DoneWith(Initial(), 0, RunLog(0, migrate, record, acquired, apply, end, starts),
                          RunOffers(migrate, record, acquired, end), acquired && PlanOf(migrate, record).Needs?))
  {
    var plan := PlanOf(migrate, record);
    var read := Move(Initial(), 0, ReadRecord(migrate, record));
    if plan.NoWork? {
      AloneGoesOn(Initial(), 0, ReadRecord(migrate, record), [Show]);
      assert [Show] + [] == [Show];
      AloneGoesOn(read, 0, Show, []);
      assert Move(read, 0, Show) == DoneWith(Initial(), 0, [Page(0)], false, false);
    } else {
      AloneGoesOn(Initial(), 0, ReadRecord(migrate, record), LockActions(plan.work, acquired, apply, end, starts));
      LockAlone(read, 0, plan.work, acquired, apply, end, starts);
      assert read.threads[0 := Done] == Initial().threads[0 := Done] && read.log == Initial().log;
    }
  }
}
