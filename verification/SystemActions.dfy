/**
  System-action requests: any number of control sessions, a dispatch queue of
  capacity one, one serialized service loop, a commit cell and a one-shot reply
  per request. Every atomic access is its own step, so a run is an arbitrary
  interleaving; timeouts fire whenever the scheduler likes.
*/
module SystemActions {
  import opened CommitCell
  import opened Wrappers

  const QUEUE_CAPACITY := 1

  datatype Outcome =
    | Accepted | WorkerUnavailable | Backpressure | ServiceUnavailable | WriteFailed
    | ExecutionFailed | Unsupported | ReplyDropped | TimedOut | CancelledReply

  /** Where the requesting session stands in `await_system_action_dispatch`. */
  datatype Requester =
    | Waiting             // inside the reply timeout
    | TimeoutFired        // the timeout elapsed; cancel not yet attempted
    | CancelFailed        // cancel lost the race; the cell not yet re-read
    | AwaitingCommitted   // waiting for the reply of a committed action
    | Done(outcome: Outcome)
    | LastArm             // the final `Err(_) => Cancelled` arm
    | Abandoned           // the session task was dropped

  datatype Reply = Empty | Sent(outcome: Outcome) | SenderDropped

  datatype Service =
    | Idle
    | Received(id: nat)
    | ToRun(id: nat)
    | Ran(id: nat, outcome: Outcome)
    | Stopping            // the loop was left; the receiver still exists
    | Stopped

  /** `runs` counts how often the service handed the action to its executor. */
  datatype Request = Request(requestId: nat, commit: Commit, requester: Requester, reply: Reply, runs: nat)

  datatype State = State(requests: seq<Request>, queue: seq<nat>, service: Service)

  datatype Step =
    | Submit(requestId: nat)
    | PollReply(id: nat)
    | FireTimeout(id: nat)
    | TryCancel(id: nat)
    | ReadCell(id: nat)
    | Abandon(id: nat)
    | Receive
    | CommitOrReject
    | Execute(outcome: Outcome)
    | SendReply
    | LeaveLoop
    | DropReceiver

  const INITIAL := State([], [], Idle)

  predicate ExecutorOutcome(o: Outcome) {
    o in {Accepted, WorkerUnavailable, WriteFailed, ExecutionFailed, Unsupported}
  }

  /** The outcomes that tell the requester its action was not executed. */
  predicate NotExecuted(o: Outcome) {
    o in {TimedOut, Backpressure, ServiceUnavailable, CancelledReply, ReplyDropped}
  }

  function WithRequest(s: State, id: nat, r: Request): State
    requires id < |s.requests|
  {
    s.(requests := s.requests[id := r])
  }

  function OnSubmit(s: State, requestId: nat): State {
    var created := Request(requestId, Pending, Waiting, Empty, 0);
    if s.service.Stopped? then
      s.(requests := s.requests + [created.(requester := Done(ServiceUnavailable), reply := SenderDropped)])
    else if |s.queue| >= QUEUE_CAPACITY then
      s.(requests := s.requests + [created.(requester := Done(Backpressure), reply := SenderDropped)])
    else
      s.(requests := s.requests + [created], queue := s.queue + [|s.requests|])
  }

  /** The requester's own moves; a move that is not enabled changes nothing. */
  function RequesterMove(r: Request, step: Step): Request {
    match step
    case PollReply(_) =>
      if !r.requester.Waiting? && !r.requester.AwaitingCommitted? then r else
      if r.reply.Sent? then r.(requester := Done(r.reply.outcome))
      else if r.reply.SenderDropped? then r.(requester := Done(ReplyDropped))
      else r
    case FireTimeout(_) =>
      if r.requester.Waiting? then r.(requester := TimeoutFired) else r
    case TryCancel(_) =>
      if !r.requester.TimeoutFired? then r else
      var (cell, won) := Exchange(r.commit, Cancelled);
      r.(commit := cell, requester := if won then Done(TimedOut) else CancelFailed)
    case ReadCell(_) =>
      if !r.requester.CancelFailed? then r
      else r.(requester := if r.commit.Committed? then AwaitingCommitted else LastArm)
    case Abandon(_) =>
      if r.requester.Done? || r.requester.LastArm? then r else r.(requester := Abandoned)
    case _ => r
  }

  function OnCommitOrReject(s: State): State {
    if !s.service.Received? || s.service.id >= |s.requests| then s else
    var id := s.service.id;
    var r := s.requests[id];
    if r.requestId == 0 || !Exchange(r.commit, Committed).1 then
      WithRequest(s, id, r.(reply := Sent(CancelledReply))).(service := Idle)
    else
      WithRequest(s, id, r.(commit := Exchange(r.commit, Committed).0)).(service := ToRun(id))
  }

  function OnExecute(s: State, outcome: Outcome): State {
    if !s.service.ToRun? || s.service.id >= |s.requests| || !ExecutorOutcome(outcome) then s else
    var id := s.service.id;
    var r := s.requests[id];
    WithRequest(s, id, r.(runs := r.runs + 1)).(service := Ran(id, outcome))
  }

  function OnSendReply(s: State): State {
    if !s.service.Ran? || s.service.id >= |s.requests| then s else
    var id := s.service.id;
    WithRequest(s, id, s.requests[id].(reply := Sent(s.service.outcome))).(service := Idle)
  }

  /** Dropping the receiver drops the reply sender of every dispatch still queued. */
  function OnDropReceiver(s: State): State {
    if !s.service.Stopping? then s else
    State(seq(|s.requests|, i requires 0 <= i < |s.requests| =>
            if i in s.queue then s.requests[i].(reply := SenderDropped) else s.requests[i]),
          [], Stopped)
  }

  function Next(s: State, step: Step): State {
    match step
    case Submit(requestId) => OnSubmit(s, requestId)
    case Receive =>
      if s.service.Idle? && s.queue != [] then s.(queue := s.queue[1..], service := Received(s.queue[0])) else s
    case CommitOrReject => OnCommitOrReject(s)
    case Execute(outcome) => OnExecute(s, outcome)
    case SendReply => OnSendReply(s)
    case LeaveLoop => if s.service.Idle? then s.(service := Stopping) else s
    case DropReceiver => OnDropReceiver(s)
    case _ => if step.id < |s.requests| then WithRequest(s, step.id, RequesterMove(s.requests[step.id], step)) else s
  }

  function Run(s: State, steps: seq<Step>): State {
    Fold(Next, s, steps)
  }

  // -------------------------------------------------------------- invariant

  /** The dispatch is still somewhere the service could pick it up or is working on it. */
  predicate InService(s: State, id: nat) {
    id in s.queue || (s.service.Received? && s.service.id == id)
      || (s.service.ToRun? && s.service.id == id) || (s.service.Ran? && s.service.id == id)
  }

  /** How far the service got with this dispatch, in terms of the request alone. */
  ghost predicate ServiceSide(s: State, id: nat)
    requires id < |s.requests|
  {
    var r := s.requests[id];
    && (r.commit.Committed? ==> r.requestId != 0)
    && ((id in s.queue || s.service == Received(id)) ==> r.runs == 0 && r.reply.Empty? && !r.commit.Committed?)
    && (s.service == ToRun(id) ==> r.runs == 0 && r.reply.Empty? && r.commit.Committed?)
    && (s.service.Ran? && s.service.id == id ==>
          r.runs == 1 && r.reply.Empty? && r.commit.Committed? && ExecutorOutcome(s.service.outcome))
    && (!InService(s, id) ==>
          || (r.reply.SenderDropped? && r.runs == 0 && !r.commit.Committed?)
          || (r.reply == Sent(CancelledReply) && r.runs == 0 && !r.commit.Committed?)
          || (r.reply.Sent? && ExecutorOutcome(r.reply.outcome) && r.runs == 1 && r.commit.Committed?))
  }

  ghost predicate RequesterSide(s: State, id: nat)
    requires id < |s.requests|
  {
    var r := s.requests[id];
    && (r.commit.Cancelled? <==> r.requester == Done(TimedOut))
    && (r.requester.CancelFailed? || r.requester.AwaitingCommitted? ==> r.commit.Committed?)
    && !r.requester.LastArm?
    && (r.requester.Done? ==>
          || r.requester.outcome == TimedOut
          || (r.requester.outcome in {Backpressure, ServiceUnavailable} && !InService(s, id) && r.reply.SenderDropped?)
          || (r.requester.outcome == ReplyDropped && r.reply.SenderDropped?)
          || r.reply == Sent(r.requester.outcome))
  }

  ghost predicate Inv(s: State) {
    && (forall id :: 0 <= id < |s.requests| ==> ServiceSide(s, id) && RequesterSide(s, id))
    && (forall id :: id in s.queue ==> id < |s.requests|)
    && |s.queue| <= QUEUE_CAPACITY
    && (s.service.Received? || s.service.ToRun? || s.service.Ran? ==>
          s.service.id < |s.requests| && s.service.id !in s.queue)
    && (s.service.Stopped? ==> s.queue == [])
  }

  lemma InvSubmit(s: State, requestId: nat)
    requires Inv(s)
    ensures Inv(OnSubmit(s, requestId))
  {
    var t := OnSubmit(s, requestId);
    forall id | 0 <= id < |t.requests| ensures ServiceSide(t, id) && RequesterSide(t, id) {
      if id < |s.requests| { assert ServiceSide(s, id) && RequesterSide(s, id); }
    }
  }

  lemma InvRequester(s: State, id: nat, step: Step)
    requires Inv(s) && id < |s.requests|
    ensures Inv(WithRequest(s, id, RequesterMove(s.requests[id], step)))
  {
    var t := WithRequest(s, id, RequesterMove(s.requests[id], step));
    forall i | 0 <= i < |t.requests| ensures ServiceSide(t, i) && RequesterSide(t, i) {
      assert ServiceSide(s, i) && RequesterSide(s, i);
    }
  }

  lemma InvCommitOrReject(s: State)
    requires Inv(s)
    ensures Inv(OnCommitOrReject(s))
  {
    var t := OnCommitOrReject(s);
    forall id | 0 <= id < |t.requests| ensures ServiceSide(t, id) && RequesterSide(t, id) {
      assert ServiceSide(s, id) && RequesterSide(s, id);
    }
  }

  lemma InvExecute(s: State, outcome: Outcome)
    requires Inv(s)
    ensures Inv(OnExecute(s, outcome)) && Inv(OnSendReply(s))
  {
    var t, u := OnExecute(s, outcome), OnSendReply(s);
    forall id | 0 <= id < |s.requests|
      ensures ServiceSide(t, id) && RequesterSide(t, id) && ServiceSide(u, id) && RequesterSide(u, id)
    {
      assert ServiceSide(s, id) && RequesterSide(s, id);
    }
  }

  lemma InvQueue(s: State)
    requires Inv(s)
    ensures Inv(Next(s, Receive)) && Inv(Next(s, LeaveLoop)) && Inv(OnDropReceiver(s))
  {
    assert s.queue != [] ==> s.queue[0] in s.queue && s.queue[1..] == [];
    var t, u, v := Next(s, Receive), Next(s, LeaveLoop), OnDropReceiver(s);
    forall id | 0 <= id < |s.requests| ensures ServiceSide(t, id) && RequesterSide(t, id) {
      assert ServiceSide(s, id) && RequesterSide(s, id);
    }
    forall id | 0 <= id < |s.requests| ensures ServiceSide(u, id) && RequesterSide(u, id) {
      assert ServiceSide(s, id) && RequesterSide(s, id);
    }
    forall id | 0 <= id < |s.requests| ensures ServiceSide(v, id) && RequesterSide(v, id) {
      assert ServiceSide(s, id) && RequesterSide(s, id);
    }
  }

  lemma InvNext(s: State, step: Step)
    requires Inv(s)
    ensures Inv(Next(s, step))
  {
    match step
    case Submit(requestId) => InvSubmit(s, requestId);
    case Receive => InvQueue(s);
    case CommitOrReject => InvCommitOrReject(s);
    case Execute(outcome) => InvExecute(s, outcome);
    case SendReply => InvExecute(s, Accepted);
    case LeaveLoop => InvQueue(s);
    case DropReceiver => InvQueue(s);
    case _ => if step.id < |s.requests| { InvRequester(s, step.id, step); }
  }

  lemma {:induction false} InvRun(s: State, steps: seq<Step>)
    requires Inv(s)
    ensures Inv(Run(s, steps))
    decreases |steps|
  {
    if steps != [] {
      InvNext(s, steps[0]);
      InvRun(Next(s, steps[0]), steps[1..]);
    }
  }

  /** A requester's outcome is final. */
  lemma {:induction false} DoneIsFinal(s: State, steps: seq<Step>, id: nat)
    requires id < |s.requests| && s.requests[id].requester.Done?
    ensures id < |Run(s, steps).requests|
    ensures Run(s, steps).requests[id].requester == s.requests[id].requester
    decreases |steps|
  {
    if steps != [] {
      DoneIsFinal(Next(s, steps[0]), steps[1..], id);
    }
  }

  // ------------------------------------------------------------- properties

  /** In every interleaving each dispatched action is executed at most once, and only if it was committed. */
  lemma {:induction false} ExecutedAtMostOnce(steps: seq<Step>, id: nat)
    requires id < |Run(INITIAL, steps).requests|
    ensures var r := Run(INITIAL, steps).requests[id];
      && r.runs <= 1
      && (r.runs == 1 ==> r.commit.Committed? && r.requestId != 0)
  {
    InvRun(INITIAL, steps);
    assert ServiceSide(Run(INITIAL, steps), id);
  }

  /** A requester told that nothing was executed can rely on it in every continuation. */
  lemma {:induction false} RefusalIsFinal(steps: seq<Step>, more: seq<Step>, id: nat)
    requires id < |Run(INITIAL, steps).requests|
    requires var q := Run(INITIAL, steps).requests[id].requester; q.Done? && NotExecuted(q.outcome)
    ensures id < |Run(INITIAL, steps + more).requests|
    ensures Run(INITIAL, steps + more).requests[id].runs == 0
  {
    var s, t := Run(INITIAL, steps), Run(INITIAL, steps + more);
    FoldAppend(Next, INITIAL, steps, more);
    DoneIsFinal(s, more, id);
    InvRun(INITIAL, steps + more);
    assert ServiceSide(t, id) && RequesterSide(t, id);
  }

  /** Once a committed action's reply is sent, it is the only outcome its requester can end with. */
  lemma {:induction false} ReplyIsTheOutcome(steps: seq<Step>, more: seq<Step>, id: nat)
    requires id < |Run(INITIAL, steps).requests|
    requires var r := Run(INITIAL, steps).requests[id]; r.commit.Committed? && r.reply.Sent?
    requires id < |Run(INITIAL, steps + more).requests|
    requires Run(INITIAL, steps + more).requests[id].requester.Done?
    ensures Run(INITIAL, steps + more).requests[id].requester.outcome == Run(INITIAL, steps).requests[id].reply.outcome
    ensures Run(INITIAL, steps + more).requests[id].runs == 1
  {
    var s, t := Run(INITIAL, steps), Run(INITIAL, steps + more);
    FoldAppend(Next, INITIAL, steps, more);
    InvRun(INITIAL, steps);
    InvRun(INITIAL, steps + more);
    CommittedReplyStays(s, more, id);
    assert ServiceSide(t, id) && RequesterSide(t, id);
  }

  lemma {:induction false} CommittedReplyStays(s: State, steps: seq<Step>, id: nat)
    requires Inv(s) && id < |s.requests| && s.requests[id].commit.Committed? && s.requests[id].reply.Sent?
    ensures id < |Run(s, steps).requests|
    ensures var r := Run(s, steps).requests[id]; r.commit.Committed? && r.reply == s.requests[id].reply
    decreases |steps|
  {
    if steps != [] {
      assert ServiceSide(s, id);
      InvNext(s, steps[0]);
      CommittedReplyStays(Next(s, steps[0]), steps[1..], id);
    }
  }

  /** An outcome reported by the executor reaches the requester only after exactly one execution. */
  lemma {:induction false} ExecutorOutcomeIsTrue(steps: seq<Step>, id: nat)
    requires id < |Run(INITIAL, steps).requests|
    requires var q := Run(INITIAL, steps).requests[id].requester; q.Done? && ExecutorOutcome(q.outcome)
    ensures Run(INITIAL, steps).requests[id].runs == 1
    ensures Run(INITIAL, steps).requests[id].commit.Committed?
  {
    InvRun(INITIAL, steps);
    assert ServiceSide(Run(INITIAL, steps), id) && RequesterSide(Run(INITIAL, steps), id);
  }

  /** The final `Err(_) => Cancelled` arm of the wait is dead code. */
  lemma {:induction false} LastArmUnreachable(steps: seq<Step>, id: nat)
    requires id < |Run(INITIAL, steps).requests|
    ensures !Run(INITIAL, steps).requests[id].requester.LastArm?
  {
    InvRun(INITIAL, steps);
    assert RequesterSide(Run(INITIAL, steps), id);
  }

  /** No reply is lost: with the service between dispatches and the queue empty, every waiting requester can finish. */
  lemma {:induction false} NoLostReply(steps: seq<Step>, id: nat)
    requires var s := Run(INITIAL, steps);
      id < |s.requests| && s.queue == [] && (s.service.Idle? || s.service.Stopping? || s.service.Stopped?)
    ensures !Run(INITIAL, steps).requests[id].reply.Empty?
    ensures id < |Run(INITIAL, steps + [PollReply(id)]).requests|
    ensures var q := Run(INITIAL, steps).requests[id].requester;
      q.Waiting? || q.AwaitingCommitted? ==> Run(INITIAL, steps + [PollReply(id)]).requests[id].requester.Done?
  {
    var s := Run(INITIAL, steps);
    InvRun(INITIAL, steps);
    assert ServiceSide(s, id);
    FoldAppend(Next, INITIAL, steps, [PollReply(id)]);
    assert [PollReply(id)][1..] == [];
  }

  // ------------------------------------------- the outcome of its own execution

  /** The state before step `n` of a run from the start. */
  function At(steps: seq<Step>, n: nat): State
    requires n <= |steps|
  {
    Run(INITIAL, steps[..n])
  }

  /** Step `j` is the executor returning `outcome` for request `id`. */
  predicate ExecutedAt(steps: seq<Step>, j: nat, id: nat, outcome: Outcome) {
    j < |steps| && steps[j] == Execute(outcome) && ExecutorOutcome(outcome) && At(steps, j).service == ToRun(id)
  }

  /** The only execution of `id` in the run is step `j`. */
  ghost predicate OnlyExecution(steps: seq<Step>, j: nat, id: nat, outcome: Outcome) {
    && ExecutedAt(steps, j, id, outcome)
    && forall i, o :: ExecutedAt(steps, i, id, o) ==> i == j
  }

  ghost predicate NeverExecuted(steps: seq<Step>, id: nat) {
    forall i, o :: !ExecutedAt(steps, i, id, o)
  }

  /** What the service and the reply hold of an execution's outcome. */
  predicate Carries(s: State, id: nat, outcome: Outcome)
    requires id < |s.requests|
  {
    && (s.service.Ran? && s.service.id == id ==> s.service.outcome == outcome)
    && (s.requests[id].reply.Sent? ==> s.requests[id].reply.outcome == outcome)
  }

  lemma CarriedOn(s: State, step: Step, id: nat, outcome: Outcome)
    requires Inv(s) && id < |s.requests| && s.requests[id].runs == 1 && Carries(s, id, outcome)
    ensures Carries(Next(s, step), id, outcome)
  {
    assert ServiceSide(s, id);
  }

  lemma PrefixExecutions(before: seq<Step>, step: Step, j: nat, id: nat, outcome: Outcome)
    ensures j < |before| ==> (ExecutedAt(before + [step], j, id, outcome) <==> ExecutedAt(before, j, id, outcome))
    ensures ExecutedAt(before + [step], |before|, id, outcome) <==>
      step == Execute(outcome) && ExecutorOutcome(outcome) && Run(INITIAL, before).service == ToRun(id)
  {
    if j < |before| {
      assert (before + [step])[..j] == before[..j];
    }
    assert (before + [step])[..|before|] == before;
  }

  /** Over every run, the count, the service and the reply all speak of the one execution step, if there is one. */
  lemma {:induction false} ExecutionHistory(steps: seq<Step>, id: nat) returns (j: nat)
    ensures var s := Run(INITIAL, steps);
      && (id >= |s.requests| || s.requests[id].runs == 0 ==> NeverExecuted(steps, id))
      && (id < |s.requests| && s.requests[id].runs != 0 ==>
            && j < |steps| && steps[j].Execute?
            && OnlyExecution(steps, j, id, steps[j].outcome) && Carries(s, id, steps[j].outcome))
  {
    j := 0;
    if steps != [] {
      var before, step := steps[..|steps| - 1], steps[|steps| - 1];
      var s := Run(INITIAL, before);
      assert steps == before + [step];
      FoldAppend(Next, INITIAL, before, [step]);
      assert [step][1..] == [];
      InvRun(INITIAL, before);
      InvRun(INITIAL, steps);
      forall i: nat, o ensures i < |before| ==> (ExecutedAt(steps, i, id, o) <==> ExecutedAt(before, i, id, o))
        ensures ExecutedAt(steps, |before|, id, o) <==>
          step == Execute(o) && ExecutorOutcome(o) && s.service == ToRun(id)
      {
        PrefixExecutions(before, step, i, id, o);
      }
      j := ExecutionHistory(before, id);
      HistoryStep(s, step, id);
      if id < |s.requests| && s.requests[id].runs == 0 && Next(s, step).requests[id].runs != 0 {
        j := |before|;
      } else if id < |s.requests| && s.requests[id].runs != 0 {
        CarriedOn(s, step, id, before[j].outcome);
      }
    }
  }

  lemma HistoryStep(s: State, step: Step, id: nat)
    requires Inv(s)
    ensures id >= |s.requests| ==> s.service != ToRun(id)
    ensures id >= |s.requests| && id < |Next(s, step).requests| ==> Next(s, step).requests[id].runs == 0
    ensures id < |s.requests| ==> s.requests[id].runs <= 1 && (s.service == ToRun(id) ==> s.requests[id].runs == 0)
    ensures id < |s.requests| ==>
      var t := Next(s, step);
      && id < |t.requests|
      && (t.requests[id].runs == s.requests[id].runs <==>
            !(step.Execute? && ExecutorOutcome(step.outcome) && s.service == ToRun(id)))
      && (step.Execute? && ExecutorOutcome(step.outcome) && s.service == ToRun(id) ==>
            t.requests[id].runs == 1 && Carries(t, id, step.outcome))
  {
    if id < |s.requests| {
      assert ServiceSide(s, id);
    }
  }

  /**
    A committed request is answered with what the executor returned for it: the
    reply's outcome is that of the one step that executed the request.
  */
  lemma {:induction false} ReplyIsItsExecution(steps: seq<Step>, id: nat) returns (j: nat)
    requires id < |Run(INITIAL, steps).requests|
    requires var r := Run(INITIAL, steps).requests[id]; r.commit.Committed? && r.reply.Sent?
    ensures OnlyExecution(steps, j, id, Run(INITIAL, steps).requests[id].reply.outcome)
  {
    InvRun(INITIAL, steps);
    assert ServiceSide(Run(INITIAL, steps), id);
    j := ExecutionHistory(steps, id);
  }

  /** A requester that ends with an executor outcome got the outcome of its own execution. */
  lemma {:induction false} OutcomeIsItsExecution(steps: seq<Step>, id: nat) returns (j: nat)
    requires id < |Run(INITIAL, steps).requests|
    requires var q := Run(INITIAL, steps).requests[id].requester; q.Done? && ExecutorOutcome(q.outcome)
    ensures OnlyExecution(steps, j, id, Run(INITIAL, steps).requests[id].requester.outcome)
  {
    InvRun(INITIAL, steps);
    assert ServiceSide(Run(INITIAL, steps), id) && RequesterSide(Run(INITIAL, steps), id);
    j := ReplyIsItsExecution(steps, id);
  }

  // ------------------------------------------------------------------ service

  /**
    A received request is committed exactly if it has an identifier and its
    requester has not timed out; otherwise it is answered as cancelled, unrun.
  */
  lemma {:induction false} CommitsExactly(steps: seq<Step>)
    requires Run(INITIAL, steps).service.Received?
    ensures var s := Run(INITIAL, steps);
      var id, t := s.service.id, Next(s, CommitOrReject);
      && id < |s.requests| == |t.requests|
      && (t.service == ToRun(id) <==> s.requests[id].requestId != 0 && s.requests[id].requester != Done(TimedOut))
      && (t.service != ToRun(id) ==> t.service == Idle && t.requests[id].reply == Sent(CancelledReply))
  {
    InvRun(INITIAL, steps);
    var s := Run(INITIAL, steps);
    assert ServiceSide(s, s.service.id) && RequesterSide(s, s.service.id);
  }

  /** A submission is queued exactly if the service runs and the queue is empty; else it is refused at once, by name. */
  lemma {:induction false} SubmitsExactly(steps: seq<Step>, requestId: nat)
    ensures var s := Run(INITIAL, steps);
      var id, t := |s.requests|, Next(s, Submit(requestId));
      && t.requests[..id] == s.requests && |t.requests| == id + 1 && t.service == s.service
      && (if s.service != Stopped && s.queue == []
          then t.queue == [id] && t.requests[id].requester == Waiting && t.requests[id].reply == Empty
          else t.queue == s.queue &&
               t.requests[id].requester == Done(if s.service == Stopped then ServiceUnavailable else Backpressure))
      && t.requests[id].requestId == requestId && t.requests[id].commit == Pending && t.requests[id].runs == 0
  {
    InvRun(INITIAL, steps);
  }

  /** One request from its submission to its answer, with nothing in between. */
  function Served(requestId: nat, id: nat, outcome: Outcome): seq<Step> {
    [Submit(requestId), Receive, CommitOrReject, Execute(outcome), SendReply, PollReply(id)]
  }

  /** The service moves for a request that waits alone in the queue. */
  lemma ServiceMoves(requests: seq<Request>, r: Request, outcome: Outcome)
    requires r.requestId != 0 && r.commit.Pending? && ExecutorOutcome(outcome)
    ensures var id := |requests|;
      var committed := requests + [r.(commit := Committed)];
      var ran := requests + [r.(commit := Committed, runs := r.runs + 1)];
      && Next(State(requests + [r], [id], Idle), Receive) == State(requests + [r], [], Received(id))
      && Next(State(requests + [r], [], Received(id)), CommitOrReject) == State(committed, [], ToRun(id))
      && Next(State(committed, [], ToRun(id)), Execute(outcome)) == State(ran, [], Ran(id, outcome))
      && Next(State(ran, [], Ran(id, outcome)), SendReply)
         == State(requests + [r.(commit := Committed, runs := r.runs + 1, reply := Sent(outcome))], [], Idle)
  {
  }

  lemma {:induction false} ServedRun(s: State, requestId: nat, outcome: Outcome)
    requires s.service.Idle? && s.queue == [] && requestId != 0 && ExecutorOutcome(outcome)
    ensures Run(s, Served(requestId, |s.requests|, outcome)) ==
      State(s.requests + [Request(requestId, Committed, Done(outcome), Sent(outcome), 1)], [], Idle)
  {
    var id := |s.requests|;
    var a := Served(requestId, id, outcome);
    var r := Request(requestId, Pending, Waiting, Empty, 0);
    ServiceMoves(s.requests, r, outcome);
    var s1 := State(s.requests + [r], [id], Idle);
    var s2 := State(s.requests + [r], [], Received(id));
    var s3 := State(s.requests + [r.(commit := Committed)], [], ToRun(id));
    var s4 := State(s.requests + [r.(commit := Committed, runs := 1)], [], Ran(id, outcome));
    var s5 := State(s.requests + [r.(commit := Committed, runs := 1, reply := Sent(outcome))], [], Idle);
    var s6 := State(s.requests + [Request(requestId, Committed, Done(outcome), Sent(outcome), 1)], [], Idle);
    assert Next(s, a[0]) == s1 && Next(s5, a[5]) == s6;
    FoldTrace(Next, [s, s1, s2, s3, s4, s5, s6], a);
  }

  /** From every reachable state at rest a new request can be served, and it ends with whatever the executor returns. */
  lemma {:induction false} RestServes(steps: seq<Step>, requestId: nat, outcome: Outcome)
    requires Run(INITIAL, steps).service.Idle? && Run(INITIAL, steps).queue == []
    requires requestId != 0 && ExecutorOutcome(outcome)
    ensures var s := Run(INITIAL, steps);
      Run(INITIAL, steps + Served(requestId, |s.requests|, outcome)) ==
        State(s.requests + [Request(requestId, Committed, Done(outcome), Sent(outcome), 1)], [], Idle)
  {
    FoldAppend(Next, INITIAL, steps, Served(requestId, |Run(INITIAL, steps).requests|, outcome));
    ServedRun(Run(INITIAL, steps), requestId, outcome);
  }
}
