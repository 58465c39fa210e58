/** When the outcome of an update request becomes unknown, and what a caller is told otherwise
    (main_serve_supervisor.go). */
module SupervisorCalm {
  import opened Text
  import opened Supervisor
  import opened SupervisorProtocol

  // ---- what a caller is told

  /** A call that finds the outcome unknown is told so at once, one that finds another waiting
      is told that, and neither takes the slot. */
  lemma BeginTells(s: State, id: Id)
    requires id !in s.calls
    ensures var begun := Apply(s, Begin(id)).value;
            if s.slot.uncertain.Some? then begun.calls[id].pc == Returned(Unknown(s.slot.uncertain.value)) && begun.slot == s.slot
            else if s.slot.pending.Some? then begun.calls[id].pc == Returned(Busy) && begun.slot == s.slot
            else begun.calls[id].pc == Sending && begun.slot.pending == Some(id)
  {
  }

  /** A waiting caller is told what its channel holds: the receipt, the supervisor's own reason
      for a refusal if it gave one, or that the outcome is unknown; only an acceptance without a receipt makes
      it fail. */
  lemma ReceiveTells(s: State, id: Id)
    requires id in s.calls && s.calls[id].pc.Waiting?
    ensures s.calls[id].box.None? ==> Apply(s, Receive(id)).None?
    ensures forall update, k :: s.calls[id].box == Some(Answered(Frame(Accepted(update), k))) && update != "" ==>
              Apply(s, Receive(id)).value.calls[id].pc == Returned(Started(update, k))
    ensures forall k :: s.calls[id].box == Some(Answered(Frame(Accepted(""), k))) ==>
              Apply(s, Receive(id)).value.calls[id].pc == Failing(NoReceipt)
    ensures forall reason, k :: s.calls[id].box == Some(Answered(Frame(Refused(reason), k))) && reason != "" ==>
              Apply(s, Receive(id)).value.calls[id].pc == Returned(Declined(reason, k))
    ensures forall k :: s.calls[id].box == Some(Answered(Frame(Refused(""), k))) ==>
              Apply(s, Receive(id)).value.calls[id].pc == Returned(Declined("the supervisor refused it", k))
    ensures forall cause :: s.calls[id].box == Some(FailedReply(cause)) ==>
              Apply(s, Receive(id)).value.calls[id].pc == Returned(Unknown(cause))
  {
  }

  // ---- when the outcome becomes unknown

  predicate HasReceipt(f: Frame) { f.answer != Accepted("") }

  /** Nothing goes wrong: no send fails, no answer is late, the channel holds, and every
      acceptance carries its receipt. */
  predicate IsCalm(step: Step) {
    !step.SendError? && !step.Timeout? && !step.ReadError? && (step.AnswerRequest? ==> step.answer != Accepted(""))
  }

  predicate CalmReader(r: Reader) {
    match r
    case Receiving => true
    case Delivering(f) => HasReceipt(f)
    case HandingAnswer(f, _) => HasReceipt(f)
    case _ => false
  }

  predicate CalmCall(c: Call) {
    !c.pc.Failing? && !c.pc.Handing? && (c.pc.Returned? ==> !c.pc.result.Unknown?) &&
    (c.box.Some? ==> c.box.value.Answered? && HasReceipt(c.box.value.frame))
  }

  ghost predicate Calm(s: State) {
    && s.slot.uncertain.None? && s.latch.None? && s.slot.restart in {None, Some(0)}
    && CalmReader(s.reader)
    && (forall i :: 0 <= i < |s.inbox| ==> HasReceipt(s.inbox[i]))
    && (forall id :: id in s.calls ==> CalmCall(s.calls[id]))
  }

  lemma CalmStays(s: State, step: Step, s': State)
    requires Calm(s) && IsCalm(step) && Apply(s, step) == Some(s')
    ensures Calm(s')
  {
    assert forall id :: id in s.calls ==> CalmCall(s.calls[id]);
  }

  lemma {:induction false} CalmThroughout(s: State, steps: seq<Step>, end: State)
    requires Calm(s) && Leads(s, steps, end) && forall i :: 0 <= i < |steps| ==> IsCalm(steps[i])
    ensures Calm(end)
    decreases steps
  {
    if steps != [] {
      CalmStays(s, steps[0], Apply(s, steps[0]).value);
      CalmThroughout(Apply(s, steps[0]).value, steps[1..], end);
    }
  }

  /** The outcome becomes unknown only by a failed send, a late answer, a broken channel or an
      acceptance without a receipt: without those, whatever the interleaving and whatever is
      refused, nothing latches, restart stays open and every caller that returns is told
      which of the supervisor's answers it got. */
  lemma OnlyTroubleLatches(supervised: bool, steps: seq<Step>, end: State)
    requires Leads(Init(supervised), steps, end) && forall i :: 0 <= i < |steps| ==> IsCalm(steps[i])
    ensures end.slot.uncertain.None? && end.slot.restart in {None, Some(0)}
    ensures forall id :: id in end.calls && end.calls[id].pc.Returned? ==> !end.calls[id].pc.result.Unknown?
  {
    CalmThroughout(Init(supervised), steps, end);
  }

  // ---- and exactly when

  /** A send that fails, a wait that ends without an answer, a channel that breaks under a
      waiting request, an acceptance without a receipt. */
  predicate IsTrouble(s: State, step: Step) {
    match step
    case SendError(_, _) => true
    case Timeout(_) => true
    case ReadError => s.slot.pending.Some?
    case Receive(id) =>
      id in s.calls && s.calls[id].box.Some? && s.calls[id].box.value.Answered? &&
      s.calls[id].box.value.frame.answer == Accepted("")
    case _ => false
  }

  ghost predicate HasTrouble(s: State, steps: seq<Step>)
    decreases steps
  {
    steps != [] && (IsTrouble(s, steps[0]) || (Apply(s, steps[0]).Some? && HasTrouble(Apply(s, steps[0]).value, steps[1..])))
  }

  /** The outcome is unknown, or some thread is on its way to say so. */
  ghost predicate Doubtful(s: State) {
    s.slot.uncertain.Some? || s.reader.Closing? || exists id :: id in s.calls && s.calls[id].pc.Failing?
  }

  lemma DoubtAfter(s: State, step: Step, s': State)
    requires Apply(s, step) == Some(s')
    ensures Doubtful(s') <==> Doubtful(s) || IsTrouble(s, step)
  {
    if Doubtful(s) && !s'.slot.uncertain.Some? && !s'.reader.Closing? {
      var id :| id in s.calls && s.calls[id].pc.Failing?;
      assert step != Fail(id) && s'.calls[id].pc.Failing?;
    }
    if IsTrouble(s, step) && (step.SendError? || step.Timeout? || step.Receive?) {
      assert s'.calls[step.id].pc.Failing?;
    }
    if Doubtful(s') && !s'.slot.uncertain.Some? && !s'.reader.Closing? {
      var id :| id in s'.calls && s'.calls[id].pc.Failing?;
      assert id in s.calls;
    }
  }

  /** In every run trouble has happened exactly when the outcome is unknown or some thread is
      about to make it so. */
  lemma {:induction false} TroubleIff(s: State, steps: seq<Step>, end: State)
    requires Leads(s, steps, end)
    ensures Doubtful(end) <==> Doubtful(s) || HasTrouble(s, steps)
    decreases steps
  {
    if steps != [] {
      DoubtAfter(s, steps[0], Apply(s, steps[0]).value);
      TroubleIff(Apply(s, steps[0]).value, steps[1..], end);
    }
  }

  /** So in a run from the start that has come to rest, every call returned and the reader not
      on its way, the outcome is unknown exactly if there was trouble. */
  lemma RestsUnknownIff(supervised: bool, steps: seq<Step>, end: State)
    requires Leads(Init(supervised), steps, end) && !end.reader.Closing?
    requires forall id :: id in end.calls ==> end.calls[id].pc.Returned?
    ensures end.slot.uncertain.Some? <==> HasTrouble(Init(supervised), steps)
  {
    TroubleIff(Init(supervised), steps, end);
  }

  // ---- what trouble does

  /** The first cause stays the cause. */
  function CauseAfter(s: State, cause: Cause): Cause {
    if s.slot.uncertain.Some? then s.slot.uncertain.value else cause
  }

  /** A caller that saw trouble settles the outcome in two more steps of its own: the first
      cause seen is latched, the slot is empty, restart is closed, and it returns that cause.
      Whoever was waiting gets it too. */
  lemma TroubleSettles(s: State, id: Id, cause: Cause)
    requires Inv(s) && id in s.calls && s.calls[id].pc == Failing(cause)
    ensures var s1 := Apply(s, Fail(id));
            && s1.Some? && s1.value.slot.uncertain == Some(CauseAfter(s, cause)) && s1.value.slot.pending.None?
            && (s.slot.restart.Some? ==> s1.value.slot.restart == Some(1))
            && var s2 := Apply(s1.value, HandFailure(id));
               && s2.Some? && s2.value.calls[id].pc == Returned(Unknown(CauseAfter(s, cause)))
               && (s.slot.pending.Some? ==>
                     s2.value.calls[s.slot.pending.value].box == Some(FailedReply(CauseAfter(s, cause))))
  {
    assert CallOk(s, id, s.calls[id]);
    if s.slot.pending.Some? { assert CallOk(s, s.slot.pending.value, s.calls[s.slot.pending.value]); }
  }

  /** And the cause says what the trouble was. */
  lemma TroubleNamed(s: State, id: Id, reached: bool)
    requires id in s.calls
    ensures s.calls[id].pc.Sending? ==>
              Apply(s, SendError(id, reached)).Some? && Apply(s, SendError(id, reached)).value.calls[id].pc == Failing(SendFailed)
    ensures s.calls[id].pc.Waiting? ==>
              Apply(s, Timeout(id)).Some? && Apply(s, Timeout(id)).value.calls[id].pc == Failing(NoAnswer)
  {
  }

  /** A channel that breaks under a waiting request tells its caller so, and stops the reader;
      one that breaks with nobody waiting only stops it. */
  lemma BreakTells(s: State)
    requires Inv(s) && s.reader.Receiving?
    ensures s.slot.pending.None? ==> Apply(s, ReadError) == Some(s.(reader := Stopped))
    ensures s.slot.pending.Some? ==>
              exists end: State :: Leads(s, [ReadError, ReaderFail, ReaderHandFailure], end) &&
                end.reader.Stopped? && end.slot.uncertain == Some(ChannelClosed) && s.slot.pending.value in end.calls &&
                end.calls[s.slot.pending.value].box == Some(FailedReply(ChannelClosed))
  {
    if s.slot.pending.Some? {
      var w := s.slot.pending.value;
      assert CallOk(s, w, s.calls[w]);
      var s1 := Apply(s, ReadError).value;
      var s2 := Apply(s1, ReaderFail).value;
      var s3 := Apply(s2, ReaderHandFailure).value;
      var steps := [ReadError, ReaderFail, ReaderHandFailure];
      assert steps[1..] == [ReaderFail, ReaderHandFailure];
      assert steps[1..][1..] == [ReaderHandFailure];
      assert Leads(s3, [], s3);
      assert Leads(s2, [ReaderHandFailure], s3);
      assert Leads(s1, [ReaderFail, ReaderHandFailure], s3);
      assert Leads(s, steps, s3);
    }
  }
}
