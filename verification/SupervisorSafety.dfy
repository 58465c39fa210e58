/** What holds of the update requests over every run (main_serve_supervisor.go). */
module SupervisorSafety {
  import opened Text
  import opened Supervisor
  import opened SupervisorProtocol
  import opened SupervisorSteps

  /** Every step of every thread keeps the invariant. */
  lemma StepKeeps(s: State, step: Step, s': State)
    requires Inv(s) && Apply(s, step) == Some(s')
    ensures Inv(s')
  {
    StepKeepsShared(s, step, s');
    forall w | w in s'.calls ensures CallOk(s', w, s'.calls[w]) {
      StepKeepsCall(s, step, s', w);
    }
  }

  lemma {:induction false} RunKeeps(s: State, steps: seq<Step>, end: State)
    requires Inv(s) && Leads(s, steps, end)
    ensures Inv(end)
    decreases steps
  {
    if steps != [] {
      StepKeeps(s, steps[0], Apply(s, steps[0]).value);
      RunKeeps(Apply(s, steps[0]).value, steps[1..], end);
    }
  }

  lemma ReachableInv(s: State)
    requires Reachable(s)
    ensures Inv(s)
  {
    var supervised: bool, steps: seq<Step> :| Leads(Init(supervised), steps, s);
    InitInv(supervised);
    RunKeeps(Init(supervised), steps, s);
  }

  // ---- safety

  /** Over every interleaving, the answer a caller returns with is the answer to the request
      that caller sent. */
  lemma AnswersAreTheCallersOwn(s: State, id: Id, k: nat)
    requires Reachable(s) && id in s.calls && s.calls[id].pc.Returned?
    requires s.calls[id].pc.result.Started? || s.calls[id].pc.result.Declined?
    requires s.calls[id].pc.result.request == k
    ensures k < |s.sent| && s.sent[k] == id
  {
    ReachableInv(s);
    assert CallOk(s, id, s.calls[id]);
  }

  /** A put finds the waiter's channel empty and never used: no sender blocks, and each
      waiter gets at most one value. */
  lemma PutsNeverBlock(s: State)
    requires Reachable(s)
    ensures forall id :: id in s.calls && s.calls[id].pc.Handing? ==>
              Apply(s, HandFailure(id)).Some? && FreshWaiter(s, HeldBy(s.calls[id].pc))
    ensures s.reader.HandingAnswer? ==> Apply(s, HandAnswer).Some?
    ensures s.reader.HandingFailure? ==> Apply(s, ReaderHandFailure).Some?
    ensures FreshWaiter(s, HeldByReader(s.reader))
  {
    ReachableInv(s);
    forall id | id in s.calls && s.calls[id].pc.Handing?
      ensures Apply(s, HandFailure(id)).Some? && FreshWaiter(s, HeldBy(s.calls[id].pc))
    {
      assert CallOk(s, id, s.calls[id]);
      var w := HeldBy(s.calls[id].pc);
      if w.Some? { assert CallOk(s, w.value, s.calls[w.value]); }
    }
    var w := HeldByReader(s.reader);
    if w.Some? { assert CallOk(s, w.value, s.calls[w.value]); }
  }

  predicate FreshWaiter(s: State, w: Option<Id>) {
    w.Some? ==> w.value in s.calls && s.calls[w.value].box.None? && s.calls[w.value].token != Spent
  }

  /** restart is closed exactly once, exactly when the outcome is unknown. */
  lemma RestartClosesWithTheLatch(s: State)
    requires Reachable(s)
    ensures s.slot.restart.Some? ==> s.slot.restart.value == if s.slot.uncertain.Some? then 1 else 0
  {
    ReachableInv(s);
  }

  lemma LatchStays(s: State, step: Step, s': State)
    requires s.slot.uncertain.Some? && Apply(s, step) == Some(s')
    ensures s'.slot.uncertain == s.slot.uncertain && s'.latch == s.latch
    ensures forall id :: IsSending(s', id) ==> IsSending(s, id)
    ensures |s'.sent| > |s.sent| ==> (step.Send? || step.SendError?) && IsSending(s, step.id)
  {
  }

  /** The latch is never lifted and never changes its cause, and no call is admitted after it. */
  lemma {:induction false} LatchIsForever(s: State, steps: seq<Step>, end: State)
    requires s.slot.uncertain.Some? && Leads(s, steps, end)
    ensures end.slot.uncertain == s.slot.uncertain && end.latch == s.latch
    ensures forall id :: IsSending(end, id) ==> IsSending(s, id)
    decreases steps
  {
    if steps != [] {
      LatchStays(s, steps[0], Apply(s, steps[0]).value);
      LatchIsForever(Apply(s, steps[0]).value, steps[1..], end);
    }
  }

  /** Once the outcome is unknown at most one more request goes out, and only from the
      caller that had taken the slot before the latch and not yet sent. That caller learns
      only that the outcome is unknown. */
  lemma LateSendIsTheHolders(s: State)
    requires Reachable(s) && s.latch.Some?
    ensures |s.sent| <= s.latch.value.before + 1
    ensures |s.sent| > s.latch.value.before ==>
              s.latch.value.unsent == Some(s.sent[s.latch.value.before])
    ensures s.latch.value.unsent.Some? && s.latch.value.unsent.value in s.calls &&
            s.calls[s.latch.value.unsent.value].pc.Returned? ==>
              s.calls[s.latch.value.unsent.value].pc.result.Unknown?
  {
    ReachableInv(s);
  }

  ghost predicate MoreCanBeSent(s: State) {
    exists steps: seq<Step>, end: State :: Leads(s, steps, end) && |end.sent| > |s.sent|
  }

  /** Exactly when a request can still go out after the outcome became unknown: a caller
      admitted before the latch has not sent yet. */
  lemma SendsAfterTheLatchIff(s: State)
    requires s.slot.uncertain.Some?
    ensures MoreCanBeSent(s) <==> exists id :: IsSending(s, id)
  {
    if MoreCanBeSent(s) {
      var steps: seq<Step>, end: State :| Leads(s, steps, end) && |end.sent| > |s.sent|;
      SomeoneWasSending(s, steps, end);
    }
    if id :| IsSending(s, id) {
      var end := Apply(s, Send(id)).value;
      assert [Send(id)][1..] == [];
      assert Leads(end, [], end);
      assert Leads(s, [Send(id)], end) && |end.sent| > |s.sent|;
    }
  }

  lemma {:induction false} SomeoneWasSending(s: State, steps: seq<Step>, end: State)
    requires s.slot.uncertain.Some? && Leads(s, steps, end) && |end.sent| > |s.sent|
    ensures exists id :: IsSending(s, id)
    decreases steps
  {
    var s' := Apply(s, steps[0]).value;
    LatchStays(s, steps[0], s');
    if |s'.sent| <= |s.sent| {
      SomeoneWasSending(s', steps[1..], end);
      var id :| IsSending(s', id);
      assert IsSending(s, id);
    }
  }

  /** The stronger reading, that nothing is sent once the outcome is unknown, fails: the
      channel breaks between a caller's section and its send. */
  lemma SendAfterLatchHappens()
    ensures exists s: State :: Reachable(s) && s.latch.Some? && |s.sent| > s.latch.value.before
  {
    var s0 := Init(true);
    var s1 := Apply(s0, Begin(7)).value;
    var s2 := Apply(s1, ReadError).value;
    var s3 := Apply(s2, ReaderFail).value;
    var s4 := Apply(s3, Send(7)).value;
    var steps := [Begin(7), ReadError, ReaderFail, Send(7)];
    assert steps[1..] == [ReadError, ReaderFail, Send(7)];
    assert steps[1..][1..] == [ReaderFail, Send(7)];
    assert steps[1..][1..][1..] == [Send(7)];
    assert Leads(s4, [], s4);
    assert Leads(s3, [Send(7)], s4);
    assert Leads(s2, [ReaderFail, Send(7)], s4);
    assert Leads(s1, [ReadError, ReaderFail, Send(7)], s4);
    assert Leads(s0, steps, s4);
  }

  /** Nothing in a frame says which request it answers: whoever holds the slot gets it. So the
      supervisor answering a request twice would misdirect the second answer. */
  lemma SlotHolderGetsWhateverArrives(s: State, w: Id, f: Frame)
    requires s.slot.pending == Some(w) && w in s.calls && s.calls[w].pc.Waiting? && s.calls[w].box.None?
    requires s.reader.Receiving? && s.inbox == [f]
    ensures exists end: State :: Leads(s, [ReadFrame, Deliver, HandAnswer, Receive(w)], end) && w in end.calls &&
              end.calls[w].pc ==
                match f.answer
                case Refused(reason) => Returned(Declined(if reason == "" then "the supervisor refused it" else reason, f.request))
                case Accepted(update) => if update != "" then Returned(Started(update, f.request)) else Failing(NoReceipt)
  {
    var s1 := Apply(s, ReadFrame).value;
    var s2 := Apply(s1, Deliver).value;
    var s3 := Apply(s2, HandAnswer).value;
    var s4 := Apply(s3, Receive(w)).value;
    var steps := [ReadFrame, Deliver, HandAnswer, Receive(w)];
    assert steps[1..] == [Deliver, HandAnswer, Receive(w)];
    assert steps[1..][1..] == [HandAnswer, Receive(w)];
    assert steps[1..][1..][1..] == [Receive(w)];
    assert Leads(s4, [], s4);
    assert Leads(s3, [Receive(w)], s4);
    assert Leads(s2, [HandAnswer, Receive(w)], s4);
    assert Leads(s1, [Deliver, HandAnswer, Receive(w)], s4);
    assert Leads(s, steps, s4);
  }
}
