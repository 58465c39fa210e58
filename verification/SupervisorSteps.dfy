/** Every step of every thread keeps the invariant of the update requests
    (main_serve_supervisor.go): the shared fields step by step, and each call's own part. */
module SupervisorSteps {
  import opened Text
  import opened Supervisor
  import opened SupervisorProtocol

  lemma InitInv(supervised: bool)
    ensures Inv(Init(supervised))
  {
  }

  lemma BeginKeeps(s: State, id: Id, s': State)
    requires Inv(s) && Apply(s, Begin(id)) == Some(s')
    ensures Inv(s')
  {
    assert InFlight(s') == InFlight(s);
  }

  lemma SendKeeps(s: State, id: Id, s': State)
    requires Inv(s) && Apply(s, Send(id)) == Some(s')
    ensures Inv(s')
  {
    assert InFlight(s') == InFlight(s);
  }

  lemma SendErrorShared(s: State, id: Id, reached: bool, s': State)
    requires Inv(s) && Apply(s, SendError(id, reached)) == Some(s')
    ensures SharedOk(s')
  {
    assert InFlight(s') == InFlight(s);
  }

  lemma SendErrorCall(s: State, id: Id, reached: bool, s': State, w: Id)
    requires Inv(s) && Apply(s, SendError(id, reached)) == Some(s') && w in s'.calls
    ensures CallOk(s', w, s'.calls[w])
  {
    assert CallOk(s, w, s.calls[w]);
  }

  lemma ReceiveShared(s: State, id: Id, s': State)
    requires Inv(s) && Apply(s, Receive(id)) == Some(s')
    ensures SharedOk(s')
  {
    assert InFlight(s') == InFlight(s);
  }

  lemma ReceiveCall(s: State, id: Id, s': State, w: Id)
    requires Inv(s) && Apply(s, Receive(id)) == Some(s') && w in s'.calls
    ensures CallOk(s', w, s'.calls[w])
  {
    assert CallOk(s, w, s.calls[w]);
  }

  lemma TimeoutShared(s: State, id: Id, s': State)
    requires Inv(s) && Apply(s, Timeout(id)) == Some(s')
    ensures SharedOk(s')
  {
    assert InFlight(s') == InFlight(s);
  }

  lemma TimeoutCall(s: State, id: Id, s': State, w: Id)
    requires Inv(s) && Apply(s, Timeout(id)) == Some(s') && w in s'.calls
    ensures CallOk(s', w, s'.calls[w])
  {
    assert CallOk(s, w, s.calls[w]);
  }

  lemma FailShared(s: State, id: Id, s': State)
    requires Inv(s) && Apply(s, Fail(id)) == Some(s')
    ensures SharedOk(s')
  {
    assert InFlight(s') == InFlight(s);
    assert CallOk(s, id, s.calls[id]);
  }

  lemma FailCall(s: State, id: Id, s': State, w: Id)
    requires Inv(s) && Apply(s, Fail(id)) == Some(s') && w in s'.calls
    ensures CallOk(s', w, s'.calls[w])
  {
    assert CallOk(s, w, s.calls[w]);
    assert CallOk(s, id, s.calls[id]);
  }

  lemma HandFailureWire(s: State, id: Id, s': State)
    requires Inv(s) && Apply(s, HandFailure(id)) == Some(s')
    ensures WireOk(s')
  {
    assert InFlight(s') == InFlight(s);
    assert CallOk(s, id, s.calls[id]);
  }

  lemma HandFailureShared(s: State, id: Id, s': State)
    requires Inv(s) && Apply(s, HandFailure(id)) == Some(s')
    ensures SharedOk(s')
  {
    HandFailureWire(s, id, s');
    assert CallOk(s, id, s.calls[id]);
  }

  lemma HandFailureCall(s: State, id: Id, s': State, w: Id)
    requires Inv(s) && Apply(s, HandFailure(id)) == Some(s') && w in s'.calls
    ensures CallOk(s', w, s'.calls[w])
  {
    assert CallOk(s, w, s.calls[w]);
    assert CallOk(s, id, s.calls[id]);
    var held := HeldBy(s'.calls[w].pc);
    if held.Some? {
      assert s'.calls[w].pc == s.calls[w].pc && HasToken(s, held.value, WithCaller(w));
    }
  }

  lemma AnswerShared(s: State, k: nat, answer: Answer, s': State)
    requires Inv(s) && Apply(s, AnswerRequest(k, answer)) == Some(s')
    ensures SharedOk(s')
  {
    assert InFlight(s') == InFlight(s) + [Frame(answer, k)];
  }

  lemma AnswerCall(s: State, k: nat, answer: Answer, s': State, w: Id)
    requires Inv(s) && Apply(s, AnswerRequest(k, answer)) == Some(s') && w in s'.calls
    ensures CallOk(s', w, s'.calls[w])
  {
    assert CallOk(s, w, s.calls[w]);
  }

  lemma ReadFrameKeeps(s: State, s': State)
    requires Inv(s) && Apply(s, ReadFrame) == Some(s')
    ensures Inv(s')
  {
    assert InFlight(s') == InFlight(s);
  }

  lemma DeliverTakesOneFrame(s: State, s': State)
    requires Apply(s, Deliver) == Some(s')
    ensures |InFlight(s)| == |InFlight(s')| + 1
    ensures forall i :: 0 <= i < |InFlight(s')| ==> InFlight(s')[i] == InFlight(s)[i + 1]
  {
    assert InFlight(s) == [s.reader.frame] + InFlight(s');
  }

  lemma DeliverWire(s: State, s': State)
    requires SharedOk(s) && Apply(s, Deliver) == Some(s')
    ensures WireOk(s')
  {
    DeliverTakesOneFrame(s, s');
    forall k | 0 <= k < |s'.sent| ensures s'.sent[k] in s'.calls && !s'.calls[s'.sent[k]].pc.Sending? {
      assert s.sent[k] in s.calls && !s.calls[s.sent[k]].pc.Sending?;
    }
  }

  lemma DeliverShared(s: State, s': State)
    requires Inv(s) && Apply(s, Deliver) == Some(s')
    ensures SharedOk(s')
  {
    DeliverWire(s, s');
  }

  lemma DeliverCall(s: State, s': State, w: Id)
    requires Inv(s) && Apply(s, Deliver) == Some(s') && w in s'.calls
    ensures CallOk(s', w, s'.calls[w])
  {
    assert CallOk(s, w, s.calls[w]);
  }

  lemma HandAnswerShared(s: State, s': State)
    requires Inv(s) && Apply(s, HandAnswer) == Some(s')
    ensures SharedOk(s')
  {
    assert InFlight(s') == InFlight(s);
  }

  lemma HandAnswerCall(s: State, s': State, w: Id)
    requires Inv(s) && Apply(s, HandAnswer) == Some(s') && w in s'.calls
    ensures CallOk(s', w, s'.calls[w])
  {
    assert CallOk(s, w, s.calls[w]);
  }

  lemma ReaderHandFailureKeeps(s: State, s': State)
    requires Inv(s) && Apply(s, ReaderHandFailure) == Some(s')
    ensures Inv(s')
  {
    assert InFlight(s') == InFlight(s);
  }

  lemma ReaderFailShared(s: State, s': State)
    requires Inv(s) && Apply(s, ReaderFail) == Some(s')
    ensures SharedOk(s')
  {
    assert InFlight(s') == InFlight(s);
  }

  lemma ReaderFailCall(s: State, s': State, w: Id)
    requires Inv(s) && Apply(s, ReaderFail) == Some(s') && w in s'.calls
    ensures CallOk(s', w, s'.calls[w])
  {
    assert CallOk(s, w, s.calls[w]);
  }

  lemma ReadErrorKeeps(s: State, s': State)
    requires Inv(s) && Apply(s, ReadError) == Some(s')
    ensures Inv(s')
  {
    assert InFlight(s') == InFlight(s);
  }

  lemma StepKeepsShared(s: State, step: Step, s': State)
    requires Inv(s) && Apply(s, step) == Some(s')
    ensures SharedOk(s')
  {
    match step
    case Begin(id) => BeginKeeps(s, id, s');
    case Send(id) => SendKeeps(s, id, s');
    case SendError(id, reached) => SendErrorShared(s, id, reached, s');
    case Receive(id) => ReceiveShared(s, id, s');
    case Timeout(id) => TimeoutShared(s, id, s');
    case Fail(id) => FailShared(s, id, s');
    case HandFailure(id) => HandFailureShared(s, id, s');
    case AnswerRequest(k, answer) => AnswerShared(s, k, answer, s');
    case ReadFrame => ReadFrameKeeps(s, s');
    case Deliver => DeliverShared(s, s');
    case HandAnswer => HandAnswerShared(s, s');
    case ReadError => ReadErrorKeeps(s, s');
    case ReaderFail => ReaderFailShared(s, s');
    case ReaderHandFailure => ReaderHandFailureKeeps(s, s');
  }

  lemma StepKeepsCall(s: State, step: Step, s': State, w: Id)
    requires Inv(s) && Apply(s, step) == Some(s') && w in s'.calls
    ensures CallOk(s', w, s'.calls[w])
  {
    match step
    case Begin(id) => BeginKeeps(s, id, s');
    case Send(id) => SendKeeps(s, id, s');
    case SendError(id, reached) => SendErrorCall(s, id, reached, s', w);
    case Receive(id) => ReceiveCall(s, id, s', w);
    case Timeout(id) => TimeoutCall(s, id, s', w);
    case Fail(id) => FailCall(s, id, s', w);
    case HandFailure(id) => HandFailureCall(s, id, s', w);
    case AnswerRequest(k, answer) => AnswerCall(s, k, answer, s', w);
    case ReadFrame => ReadFrameKeeps(s, s');
    case Deliver => DeliverCall(s, s', w);
    case HandAnswer => HandAnswerCall(s, s', w);
    case ReadError => ReadErrorKeeps(s, s');
    case ReaderFail => ReaderFailCall(s, s', w);
    case ReaderHandFailure => ReaderHandFailureKeeps(s, s');
  }
}
