/** Progress of the update requests (main_serve_supervisor.go): every call can always go on
    by itself, and returns within four steps of its own. */
module SupervisorProgress {
  import opened Text
  import opened Supervisor
  import opened SupervisorProtocol
  import opened SupervisorSafety

  /** Own moves a call still has before it returns, at most. */
  function Rank(pc: Pc): nat {
    match pc
    case Sending => 4
    case Waiting => 3
    case Failing(_) => 2
    case Handing(_, _) => 1
    case Returned(_) => 0
  }

  /** The call's own steps; every other one is another thread's. */
  predicate IsOwn(step: Step, id: Id) {
    match step
    case Send(i) => i == id
    case SendError(i, _) => i == id
    case Receive(i) => i == id
    case Timeout(i) => i == id
    case Fail(i) => i == id
    case HandFailure(i) => i == id
    case _ => false
  }

  /** A step of its own that a call can always take: it never has to wait for an answer. */
  function OwnStep(pc: Pc, id: Id): (step: Step)
    ensures IsOwn(step, id)
  {
    match pc
    case Sending => Send(id)
    case Waiting => Timeout(id)
    case Failing(_) => Fail(id)
    case _ => HandFailure(id)
  }

  /** No call is ever stuck: until it returns it has a step of its own, whatever the
      supervisor, the reader and the other calls do. */
  lemma EveryCallCanMove(s: State, id: Id)
    requires Reachable(s) && id in s.calls && !s.calls[id].pc.Returned?
    ensures Apply(s, OwnStep(s.calls[id].pc, id)).Some?
  {
    PutsNeverBlock(s);
  }

  lemma PcAfter(s: State, step: Step, id: Id, s': State)
    requires Apply(s, step) == Some(s') && id in s.calls
    ensures id in s'.calls
    ensures Rank(s'.calls[id].pc) + (if IsOwn(step, id) then 1 else 0) <= Rank(s.calls[id].pc)
  {
  }

  function OwnSteps(steps: seq<Step>, id: Id): nat {
    if steps == [] then 0 else (if IsOwn(steps[0], id) then 1 else 0) + OwnSteps(steps[1..], id)
  }

  /** And it returns within four steps of its own, however they interleave with the others. */
  lemma {:induction false} CallsReturnInFour(s: State, steps: seq<Step>, end: State, id: Id)
    requires Leads(s, steps, end) && id in s.calls
    ensures id in end.calls
    ensures OwnSteps(steps, id) + Rank(end.calls[id].pc) <= Rank(s.calls[id].pc) <= 4
    decreases steps
  {
    if steps != [] {
      PcAfter(s, steps[0], id, Apply(s, steps[0]).value);
      CallsReturnInFour(Apply(s, steps[0]).value, steps[1..], end, id);
    }
  }
}
