/** Every interleaving of requesters, the one reader and answer timeouts over the shared
    reply slot (main_serve_supervisor.go). A section under the mutex is one step; so is a
    send on the wire, a receive, and the put into a waiter's channel that follows a
    section. The supervisor answers each request at most once and in order. */
module SupervisorProtocol {
  import opened Text
  import opened Supervisor

  /** An answer on the wire. `request` is the index of the request it answers: the frame
      does not carry it and no step of the backend reads it. */
  datatype Frame = Frame(answer: Answer, request: nat)

  datatype Boxed = Answered(frame: Frame) | FailedReply(cause: Cause)

  datatype Result =
    | Started(updateId: string, request: nat)
    | Declined(reason: string, request: nat)
    | Unknown(cause: Cause)
    | Busy

  /** Where a RequestUpdate call stands. */
  datatype Pc =
    | Sending                                            // admitted, nothing sent yet
    | Waiting                                            // sent, in the select
    | Failing(cause: Cause)                              // about to lock in failPending
    | Handing(failure: Cause, waiter: Option<Id>)        // unlocked, about to fail the waiter it took
    | Returned(result: Result)

  /** Who may still put into a call's channel. Bookkeeping: no step's choice depends on it. */
  datatype Token = NeverAdmitted | InSlot | WithReader | WithCaller(id: Id) | Spent

  /** A RequestUpdate call: its position, its channel with room for one value, its token. */
  datatype Call = Call(pc: Pc, box: Option<Boxed>, token: Token)

  datatype Reader =
    | Receiving
    | Delivering(frame: Frame)                           // about to lock in deliver
    | HandingAnswer(frame: Frame, waiter: Option<Id>)
    | Closing                                            // saw a waiter, about to lock in failPending
    | HandingFailure(failure: Cause, waiter: Option<Id>)
    | Stopped

  /** The moment the outcome became unknown: how many requests had been sent, and the
      admitted caller that had yet to send, if there was one. */
  datatype Latched = Latched(before: nat, unsent: Option<Id>)

  /** `sent` is every request that reached the supervisor, `answered` how many of them it is
      past. */
  datatype State = State(
    slot: Slot,
    calls: map<Id, Call>,
    reader: Reader,
    inbox: seq<Frame>,
    sent: seq<Id>,
    answered: nat,
    latch: Option<Latched>)

  datatype Step =
    | Begin(id: Id)
    | Send(id: Id)
    | SendError(id: Id, reached: bool)
    | Receive(id: Id)
    | Timeout(id: Id)
    | Fail(id: Id)
    | HandFailure(id: Id)
    | AnswerRequest(request: nat, answer: Answer)
    | ReadFrame
    | Deliver
    | HandAnswer
    | ReadError
    | ReaderFail
    | ReaderHandFailure

  function Init(supervised: bool): State {
    State(Slot(None, None, if supervised then Some(0) else None), map[], Receiving, [], [], 0, None)
  }

  predicate IsSending(s: State, id: Id) {
    id in s.calls && s.calls[id].pc.Sending?
  }

  function Move(s: State, id: Id, pc: Pc): State {
    if id in s.calls then s.(calls := s.calls[id := s.calls[id].(pc := pc)]) else s
  }

  function Pass(s: State, waiter: Option<Id>, token: Token): State {
    if waiter.Some? && waiter.value in s.calls then
      s.(calls := s.calls[waiter.value := s.calls[waiter.value].(token := token)])
    else s
  }

  /** A put into the waiter's channel; it blocks when the channel is full. */
  function Put(s: State, waiter: Option<Id>, value: Boxed): Option<State> {
    if waiter.None? || waiter.value !in s.calls then Some(s)
    else if s.calls[waiter.value].box.Some? then None
    else Some(s.(calls := s.calls[waiter.value := s.calls[waiter.value].(box := Some(value), token := Spent)]))
  }

  /** Latches the slot and, on the first call, records the moment. */
  function LatchNow(s: State, cause: Cause): State {
    s.(slot := Latch(s.slot, cause).0,
       latch := if s.slot.uncertain.Some? then s.latch
                else Some(Latched(|s.sent|, if s.slot.pending.Some? && IsSending(s, s.slot.pending.value)
                                            then s.slot.pending else None)))
  }

  /** What a caller does with the value it received. */
  function Conclude(reply: Boxed): Pc {
    match reply
    case FailedReply(cause) => Returned(Unknown(cause))
    case Answered(Frame(Refused(reason), k)) =>
      Returned(Declined(if reason == "" then "the supervisor refused it" else reason, k))
    case Answered(Frame(Accepted(update), k)) =>
      if update == "" then Failing(NoReceipt) else Returned(Started(update, k))
  }

  /** The state after a step, or None when the step cannot happen. */
  function Apply(s: State, step: Step): Option<State> {
    match step
    case Begin(id) =>
      if id in s.calls then None
      else
        var (slot, verdict) := Admit(s.slot, id);
        var call := match verdict
          case Admitted => Call(Sending, None, InSlot)
          case OutcomeUnknown(cause) => Call(Returned(Unknown(cause)), None, NeverAdmitted)
          case AlreadyWaiting => Call(Returned(Busy), None, NeverAdmitted);
        Some(s.(slot := slot, calls := s.calls[id := call]))
    case Send(id) =>
      if IsSending(s, id) then Some(Move(s.(sent := s.sent + [id]), id, Waiting)) else None
    case SendError(id, reached) =>
      if IsSending(s, id) then
        Some(Move(s.(sent := if reached then s.sent + [id] else s.sent), id, Failing(SendFailed)))
      else None
    case Receive(id) =>
      if id in s.calls && s.calls[id].pc.Waiting? && s.calls[id].box.Some? then
        Some(s.(calls := s.calls[id := s.calls[id].(box := None, pc := Conclude(s.calls[id].box.value))]))
      else None
    case Timeout(id) =>
      if id in s.calls && s.calls[id].pc.Waiting? then Some(Move(s, id, Failing(NoAnswer))) else None
    case Fail(id) =>
      if id in s.calls && s.calls[id].pc.Failing? then
        var (_, failure, waiter) := Latch(s.slot, s.calls[id].pc.cause);
        Some(Move(Pass(LatchNow(s, s.calls[id].pc.cause), waiter, WithCaller(id)), id, Handing(failure, waiter)))
      else None
    case HandFailure(id) =>
      if id in s.calls && s.calls[id].pc.Handing? then
        var Handing(failure, waiter) := s.calls[id].pc;
        var after := Put(s, waiter, FailedReply(failure));
        if after.None? then None else Some(Move(after.value, id, Returned(Unknown(failure))))
      else None
    case AnswerRequest(k, answer) =>
      if s.answered <= k < |s.sent| then
        Some(s.(inbox := s.inbox + [Frame(answer, k)], answered := k + 1))
      else None
    case ReadFrame =>
      if s.reader.Receiving? && s.inbox != [] then
        Some(s.(reader := Delivering(s.inbox[0]), inbox := s.inbox[1..]))
      else None
    case Deliver =>
      if s.reader.Delivering? then
        var (slot, waiter) := Take(s.slot);
        Some(Pass(s.(slot := slot, reader := HandingAnswer(s.reader.frame, waiter)), waiter, WithReader))
      else None
    case HandAnswer =>
      if s.reader.HandingAnswer? then
        var after := Put(s, s.reader.waiter, Answered(s.reader.frame));
        if after.None? then None else Some(after.value.(reader := Receiving))
      else None
    case ReadError =>
      if s.reader.Receiving? then
        Some(s.(reader := if s.slot.pending.Some? then Closing else Stopped))
      else None
    case ReaderFail =>
      if s.reader.Closing? then
        var (_, failure, waiter) := Latch(s.slot, ChannelClosed);
        Some(Pass(LatchNow(s, ChannelClosed).(reader := HandingFailure(failure, waiter)), waiter, WithReader))
      else None
    case ReaderHandFailure =>
      if s.reader.HandingFailure? then
        var after := Put(s, s.reader.waiter, FailedReply(s.reader.failure));
        if after.None? then None else Some(after.value.(reader := Stopped))
      else None
  }

  /** The steps lead from s to end. */
  ghost predicate Leads(s: State, steps: seq<Step>, end: State)
    decreases steps
  {
    if steps == [] then s == end
    else Apply(s, steps[0]).Some? && Leads(Apply(s, steps[0]).value, steps[1..], end)
  }

  ghost predicate Reachable(s: State) {
    exists supervised: bool, steps: seq<Step> :: Leads(Init(supervised), steps, s)
  }

  // ---- the invariant

  /** The waiter a thread has taken out of the slot and not yet put into. */
  function HeldBy(pc: Pc): Option<Id> {
    if pc.Handing? then pc.waiter else None
  }

  function HeldByReader(r: Reader): Option<Id> {
    if r.HandingAnswer? || r.HandingFailure? then r.waiter else None
  }

  predicate HasToken(s: State, w: Id, token: Token) {
    w in s.calls && s.calls[w].token == token
  }

  /** Answers on the way from the supervisor to the locked section of deliver. */
  function InFlight(s: State): seq<Frame> {
    if s.reader.Delivering? then [s.reader.frame] + s.inbox else s.inbox
  }

  /** The latch is one-way, empties the slot for good and closes restart once. */
  ghost predicate SlotOk(s: State) {
    && (s.slot.uncertain.Some? <==> s.latch.Some?)
    && (s.slot.uncertain.Some? ==> s.slot.pending.None?)
    && (s.slot.restart.Some? ==> s.slot.restart.value == if s.slot.uncertain.Some? then 1 else 0)
    && (s.slot.pending.Some? ==> HasToken(s, s.slot.pending.value, InSlot))
  }

  ghost predicate ReaderOk(s: State) {
    && (s.reader.HandingFailure? ==> s.slot.uncertain.Some?)
    && (HeldByReader(s.reader).Some? ==> HasToken(s, HeldByReader(s.reader).value, WithReader))
    && (s.reader.HandingAnswer? && s.reader.waiter.Some? ==> IsFor(s, s.reader.frame, s.reader.waiter.value))
  }

  /** While the outcome is known at most one request is open: unanswered, or with its answer
      under way. Its caller holds the slot. */
  ghost predicate WireOk(s: State) {
    && s.answered <= |s.sent|
    && (forall i :: 0 <= i < |InFlight(s)| ==> InFlight(s)[i].request < s.answered)
    && (s.slot.uncertain.None? ==>
          var open := |InFlight(s)| + |s.sent| - s.answered;
          && open <= 1
          && (open == 1 ==> s.sent != [] && s.slot.pending == Some(s.sent[|s.sent| - 1]))
          && (|InFlight(s)| == 1 ==> InFlight(s)[0].request == |s.sent| - 1))
    && (s.latch.Some? ==> s.latch.value.before <= |s.sent|)
    && (forall k :: 0 <= k < |s.sent| ==> s.sent[k] in s.calls && !s.calls[s.sent[k]].pc.Sending?)
  }

  predicate IsFor(s: State, frame: Frame, w: Id) {
    frame.request < |s.sent| && s.sent[frame.request] == w
  }

  /** What holds of one call whatever the others do. */
  ghost predicate CallOk(s: State, w: Id, c: Call) {
    && (c.box.Some? ==> c.token == Spent)
    && (c.token == WithReader ==> HeldByReader(s.reader) == Some(w))
    && (HeldBy(c.pc).Some? ==> HasToken(s, HeldBy(c.pc).value, WithCaller(w)))
    && (c.pc.Sending? ==> if s.slot.uncertain.None? then s.slot.pending == Some(w)
                          else s.latch == Some(Latched(|s.sent|, Some(w))))
    && (c.pc.Handing? ==> s.slot.uncertain.Some?)
    && (c.pc.Returned? && c.pc.result.Unknown? ==> s.slot.uncertain.Some?)
    && (c.box.Some? && c.box.value.FailedReply? ==> s.slot.uncertain.Some?)
    && (c.box.Some? && c.box.value.Answered? ==> IsFor(s, c.box.value.frame, w))
    && (c.pc.Returned? && c.pc.result.Started? ==> c.pc.result.request < |s.sent| && s.sent[c.pc.result.request] == w)
    && (c.pc.Returned? && c.pc.result.Declined? ==> c.pc.result.request < |s.sent| && s.sent[c.pc.result.request] == w)
  }

  /** Requests sent since the latch: at most one, by the caller recorded there, and no
      answer is under way to that caller. */
  ghost predicate LateOk(s: State) {
    s.latch.Some? ==>
      && |s.sent| <= s.latch.value.before + (if s.latch.value.unsent.Some? then 1 else 0)
      && (s.latch.value.unsent.Some? ==>
            var w := s.latch.value.unsent.value;
            && w in s.calls
            && (|s.sent| == s.latch.value.before + 1 ==> s.sent[s.latch.value.before] == w)
            && (s.calls[w].token.WithReader? ==> !s.reader.HandingAnswer?)
            && s.calls[w].token != InSlot && s.calls[w].token != NeverAdmitted
            && (s.calls[w].box.Some? ==> s.calls[w].box.value.FailedReply?)
            && (s.calls[w].pc.Returned? ==> s.calls[w].pc.result.Unknown?))
  }

  ghost predicate SharedOk(s: State) {
    SlotOk(s) && ReaderOk(s) && WireOk(s) && LateOk(s)
  }

  ghost predicate Inv(s: State) {
    && SharedOk(s)
    && (forall w :: w in s.calls ==> CallOk(s, w, s.calls[w]))
  }
}
