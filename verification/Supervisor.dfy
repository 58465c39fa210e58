/** The backend's end of the supervisor channel (main_serve_supervisor.go): the request
    slot, the one-way "outcome unknown" latch and the answer routing, as the mutex sees
    them. SupervisorProtocol interleaves these sections. */
module Supervisor {
  import opened Text

  type Id = int

  datatype Answer = Accepted(updateId: string) | Refused(reason: string)

  datatype Cause = SendFailed | NoAnswer | NoReceipt | ChannelClosed

  datatype Verdict = Admitted | OutcomeUnknown(cause: Cause) | AlreadyWaiting

  /** The fields the mutex guards. `restart` counts closes of a channel that panics when
      closed twice, and is absent on an unsupervised host. */
  datatype Slot = Slot(pending: Option<Id>, uncertain: Option<Cause>, restart: Option<nat>)

  /** RequestUpdate's section: the latch first, then the single slot. */
  function Admit(s: Slot, id: Id): (r: (Slot, Verdict)) {
    if s.uncertain.Some? then (s, OutcomeUnknown(s.uncertain.value))
    else if s.pending.Some? then (s, AlreadyWaiting)
    else (s.(pending := Some(id)), Admitted)
  }

  /** deliver's section: whoever waits is taken out of the slot. */
  function Take(s: Slot): (r: (Slot, Option<Id>)) {
    (s.(pending := None), s.pending)
  }

  /** failPending's section: latch the first cause, close restart with it, take the waiter. */
  function Latch(s: Slot, cause: Cause): (r: (Slot, Cause, Option<Id>)) {
    var latched :=
      if s.uncertain.Some? then s
      else s.(uncertain := Some(cause), restart := if s.restart.Some? then Some(s.restart.value + 1) else None);
    (latched.(pending := None), latched.uncertain.value, s.pending)
  }

  datatype Reply = Message(answer: Answer) | Failed(cause: Cause)

  /** A reply channel with room for one value. */
  class ReplyChannel {
    const id: Id
    var buffered: seq<Reply>

    constructor (id: Id)
      ensures this.id == id && buffered == []
    {
      this.id, buffered := id, [];
    }

    /** A send that finds the buffer full would block its sender. */
    method Put(r: Reply)
      requires buffered == []
      modifies this
      ensures buffered == [r]
    {
      buffered := [r];
    }
  }

  class ServeSupervisor {
    var pending: ReplyChannel?
    var uncertain: Option<Cause>
    const hasRestart: bool
    var restartClosed: bool
    var committedClosed: bool

    function View(): Slot
      reads this
    {
      Slot(if pending == null then None else Some(pending.id), uncertain,
           if hasRestart then Some(if restartClosed then 1 else 0) else None)
    }

    /** The latch and the restart channel move together, and an empty slot after the latch
        stays empty; a waiting channel still has its room. */
    ghost predicate Valid()
      reads this, pending
    {
      && (restartClosed <==> (hasRestart && uncertain.Some?))
      && (uncertain.Some? ==> pending == null)
      && (pending != null ==> pending.buffered == [])
    }

    constructor (hasRestart: bool)
      ensures Valid() && pending == null && uncertain.None? && !committedClosed
      ensures this.hasRestart == hasRestart
    {
      pending, uncertain, restartClosed, committedClosed := null, None, false, false;
      this.hasRestart := hasRestart;
    }

    /** The locked section of RequestUpdate. */
    method BeginRequest(answer: ReplyChannel) returns (verdict: Verdict)
      requires Valid() && answer.buffered == []
      modifies this`pending
      ensures Valid()
      ensures (View(), verdict) == Admit(old(View()), answer.id)
      ensures verdict.Admitted? ==> pending == answer
      ensures !verdict.Admitted? ==> pending == old(pending)
    {
      if uncertain.Some? {
        return OutcomeUnknown(uncertain.value);
      }
      if pending != null {
        return AlreadyWaiting;
      }
      pending := answer;
      verdict := Admitted;
    }

    /** deliver: the waiter, if any, gets exactly this answer; the slot is free again. */
    method Deliver(answer: Answer)
      requires Valid()
      modifies this`pending, pending
      ensures Valid()
      ensures View() == Take(old(View())).0
      ensures old(pending) != null ==> old(pending).buffered == [Message(answer)]
    {
      var waiter := pending;
      pending := null;
      if waiter != null {
        waiter.Put(Message(answer));
      }
    }

    /** failPending: the latch keeps its first cause, restart is closed on that first call
        only, and the waiter, if any, gets the latched failure. */
    method FailPending(cause: Cause) returns (failure: Cause)
      requires Valid()
      modifies this`pending, this`uncertain, this`restartClosed, pending
      ensures Valid()
      ensures (View(), failure) == (Latch(old(View()), cause).0, Latch(old(View()), cause).1)
      ensures old(pending) != null ==> old(pending).buffered == [Failed(failure)]
    {
      if uncertain.None? {
        uncertain := Some(cause);
        if hasRestart {
          assert !restartClosed;  // closing a closed channel panics
          restartClosed := true;
        }
      }
      failure := uncertain.value;
      var waiter := pending;
      pending := null;
      if waiter != null {
        waiter.Put(Failed(failure));
      }
    }

    /** closeCommitted: idempotent, and nothing reopens it. */
    method CloseCommitted()
      modifies this`committedClosed
      ensures committedClosed
    {
      if !committedClosed {
        committedClosed := true;
      }
    }
  }
}
