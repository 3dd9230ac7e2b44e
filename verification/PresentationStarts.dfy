/**
  Protected presentation starts in the service loop: one multicast and one
  unicast slot, filled by a committed dispatch that reached the Worker and
  emptied by the Worker's result, a key clear, a Worker change or an abandoned
  requester. Worker processes come and go between any two steps.
*/
module PresentationStarts {
  import opened Wrappers

  const MAX_GENERATION := 0xFFFF_FFFF_FFFF_FFFF

  datatype Kind = Multicast | Unicast

  datatype KeyBinding = KeyBinding(controlSession: nat, requestId: nat, presentation: nat, stream: nat, epoch: nat)

  datatype Start = Start(controlSession: nat, requestId: nat, presentation: nat, stream: nat)

  datatype Pending = Pending(ticket: nat, process: nat, session: nat, generation: nat, start: Start, key: KeyBinding)

  /** A Worker's answer to a start; every field is the Worker's own claim. */
  datatype StartResult = StartResult(process: nat, session: nat, start: Start, started: bool)

  datatype Worker = Worker(process: nat, session: nat, running: bool)

  datatype Answer = Ok | KeyCleared | WorkerExited | WorkerRejected | WorkerBusy | StartCancelled
                  | WorkerUnavailable | WorkerRestarted

  /** `answers` lists what was sent to each requester, oldest first; a dispatch's ticket is its arrival number. */
  datatype State = State(
    multicast: Option<Pending>, unicast: Option<Pending>,
    worker: Option<Worker>, generation: nat, tickets: nat, closed: set<nat>, answers: seq<(nat, Answer)>)

  datatype Step =
    | ClearKey(key: KeyBinding)
    | CloseReceiver(ticket: nat)
    | DropAbandoned(kind: Kind)
    | CheckExited(kind: Kind)
    | Deliver(kind: Kind, result: StartResult)
    | Dispatch(kind: Kind, start: Start, key: KeyBinding, committed: bool, written: bool)
    | WorkerStops                                    // exits, or is stopped with its session
    | WorkerRemoved
    | Launch(worker: Option<Worker>)                 // a launch attempt, with its result
    | PollEvent                                      // the poll reported a Worker change

  const INITIAL := State(None, None, None, 0, 0, {}, [])

  function Slot(s: State, kind: Kind): Option<Pending> {
    if kind.Multicast? then s.multicast else s.unicast
  }

  function Emptied(s: State, kind: Kind): State {
    if kind.Multicast? then s.(multicast := None) else s.(unicast := None)
  }

  function Filled(s: State, kind: Kind, p: Pending): State {
    if kind.Multicast? then s.(multicast := Some(p)) else s.(unicast := Some(p))
  }

  function Send(s: State, ticket: nat, answer: Answer): State {
    s.(answers := s.answers + [(ticket, answer)])
  }

  /** Take the pending start of a slot and answer it. */
  function Finish(s: State, kind: Kind, answer: Answer): State {
    if Slot(s, kind).None? then s else Send(Emptied(s, kind), Slot(s, kind).value.ticket, answer)
  }

  predicate IsRunningWorker(s: State, process: nat, session: nat) {
    s.worker == Some(Worker(process, session, true))
  }

  predicate MatchesResult(p: Pending, r: StartResult) {
    r.process == p.process && r.session == p.session && r.start == p.start
  }

  function ClearSlot(s: State, kind: Kind, key: KeyBinding): State {
    if Slot(s, kind).Some? && Slot(s, kind).value.key == key then Finish(s, kind, KeyCleared) else s
  }

  function OnDeliver(s: State, kind: Kind, r: StartResult): State {
    if Slot(s, kind).None? || !MatchesResult(Slot(s, kind).value, r) then s else
    var p := Slot(s, kind).value;
    if !IsRunningWorker(s, p.process, p.session) || s.generation != p.generation then Finish(s, kind, WorkerExited)
    else Finish(s, kind, if r.started then Ok else WorkerRejected)
  }

  function OnDispatch(s: State, kind: Kind, start: Start, key: KeyBinding, committed: bool, written: bool): State {
    var ticket := s.tickets;
    var t := s.(tickets := ticket + 1);
    if s.multicast.Some? || s.unicast.Some? then Send(t, ticket, WorkerBusy)
    else if !committed then Send(t, ticket, StartCancelled)
    else if s.worker.None? || !s.worker.value.running || !written then Send(t, ticket, WorkerUnavailable)
    else Filled(t, kind, Pending(ticket, s.worker.value.process, s.worker.value.session, s.generation, start, key))
  }

  function NextGeneration(generation: nat): nat {
    if generation >= MAX_GENERATION then generation else generation + 1
  }

  function Next(s: State, step: Step): State {
    match step
    case ClearKey(key) => ClearSlot(ClearSlot(s, Multicast, key), Unicast, key)
    case CloseReceiver(ticket) => s.(closed := s.closed + {ticket})
    case DropAbandoned(kind) =>
      if Slot(s, kind).Some? && Slot(s, kind).value.ticket in s.closed then Emptied(s, kind) else s
    case CheckExited(kind) =>
      if Slot(s, kind).Some? && !IsRunningWorker(s, Slot(s, kind).value.process, Slot(s, kind).value.session)
      then Finish(s, kind, WorkerExited) else s
    case Deliver(kind, result) => OnDeliver(s, kind, result)
    case Dispatch(kind, start, key, committed, written) => OnDispatch(s, kind, start, key, committed, written)
    case WorkerStops => if s.worker.Some? then s.(worker := Some(s.worker.value.(running := false))) else s
    case WorkerRemoved => s.(worker := None)
    case Launch(worker) => s.(worker := worker, generation := NextGeneration(s.generation))
    case PollEvent => Finish(Finish(s, Multicast, WorkerRestarted), Unicast, WorkerRestarted)
  }

  /** The state after the first `n` steps. */
  function At(steps: seq<Step>, n: nat): State
    requires n <= |steps|
  {
    if n == 0 then INITIAL else Next(At(steps, n - 1), steps[n - 1])
  }

  // --------------------------------------------------------------- one slot

  ghost predicate Inv(s: State) {
    && !(s.multicast.Some? && s.unicast.Some?)
    && (forall kind :: Slot(s, kind).Some? ==> Open(s, Slot(s, kind).value.ticket))
    && (forall i :: 0 <= i < |s.answers| ==> s.answers[i].0 < s.tickets)
    && (forall i, j :: 0 <= i < j < |s.answers| ==> s.answers[i].0 != s.answers[j].0)
  }

  ghost predicate Open(s: State, ticket: nat) {
    ticket < s.tickets && forall i :: 0 <= i < |s.answers| ==> s.answers[i].0 != ticket
  }

  lemma FinishKeepsInv(s: State, kind: Kind, answer: Answer)
    requires Inv(s)
    ensures Inv(Finish(s, kind, answer))
  {
  }

  lemma DispatchKeepsInv(s: State, kind: Kind, start: Start, key: KeyBinding, committed: bool, written: bool)
    requires Inv(s)
    ensures Inv(OnDispatch(s, kind, start, key, committed, written))
  {
    var t := OnDispatch(s, kind, start, key, committed, written);
    forall k | Slot(t, k).Some? ensures Open(t, Slot(t, k).value.ticket) {
      assert Slot(s, k).Some? ==> Open(s, Slot(s, k).value.ticket);
    }
  }

  /** Steps that answer nobody and fill no slot. */
  lemma QuietStepKeepsInv(s: State, t: State)
    requires Inv(s) && t.answers == s.answers && t.tickets == s.tickets
    requires forall kind :: Slot(t, kind).None? || Slot(t, kind) == Slot(s, kind)
    ensures Inv(t)
  {
    assert Slot(t, Multicast).None? || t.multicast == s.multicast;
    assert Slot(t, Unicast).None? || t.unicast == s.unicast;
    forall kind | Slot(t, kind).Some? ensures Open(t, Slot(t, kind).value.ticket) {
      assert Open(s, Slot(s, kind).value.ticket);
    }
  }

  lemma InvNext(s: State, step: Step)
    requires Inv(s)
    ensures Inv(Next(s, step))
  {
    match step
    case ClearKey(key) =>
      FinishKeepsInv(s, Multicast, KeyCleared);
      FinishKeepsInv(ClearSlot(s, Multicast, key), Unicast, KeyCleared);
    case CheckExited(kind) => FinishKeepsInv(s, kind, WorkerExited);
    case Deliver(kind, result) =>
      FinishKeepsInv(s, kind, WorkerExited);
      FinishKeepsInv(s, kind, if result.started then Ok else WorkerRejected);
    case PollEvent =>
      FinishKeepsInv(s, Multicast, WorkerRestarted);
      FinishKeepsInv(Finish(s, Multicast, WorkerRestarted), Unicast, WorkerRestarted);
    case Dispatch(kind, start, key, committed, written) => DispatchKeepsInv(s, kind, start, key, committed, written);
    case _ => QuietStepKeepsInv(s, Next(s, step));
  }

  lemma {:induction false} InvAt(steps: seq<Step>, n: nat)
    requires n <= |steps|
    ensures Inv(At(steps, n))
  {
    if n > 0 {
      InvAt(steps, n - 1);
      InvNext(At(steps, n - 1), steps[n - 1]);
    }
  }

  /** In every reachable state at most one slot is occupied and no dispatch has been answered twice. */
  lemma {:induction false} OneStartAtATime(steps: seq<Step>)
    ensures var s := At(steps, |steps|);
      && (s.multicast.None? || s.unicast.None?)
      && (forall i, j :: 0 <= i < j < |s.answers| ==> s.answers[i].0 != s.answers[j].0)
  {
    InvAt(steps, |steps|);
  }

  // ------------------------------------------------------ what each answer means

  /** The slot's pending start is that of dispatch `ticket`. */
  predicate PendingIn(s: State, kind: Kind, ticket: nat) {
    Slot(s, kind).Some? && Slot(s, kind).value.ticket == ticket
  }

  /** A Worker's result for the pending start arrives, from the Worker and generation it was dispatched to. */
  predicate Reports(s: State, step: Step, kind: Kind, started: bool) {
    && Slot(s, kind).Some?
    && var p := Slot(s, kind).value;
    && step == Deliver(kind, StartResult(p.process, p.session, p.start, started))
    && s.worker == Some(Worker(p.process, p.session, true)) && s.generation == p.generation
  }

  /** The Worker the pending start was dispatched to is seen to be gone: on a late result, or by the check itself. */
  predicate SeenGone(s: State, step: Step, kind: Kind) {
    && Slot(s, kind).Some?
    && var p := Slot(s, kind).value;
    var gone := s.worker != Some(Worker(p.process, p.session, true));
    || (gone && step == CheckExited(kind))
    || ((gone || s.generation != p.generation) && step.Deliver? && step.kind == kind
        && step.result == StartResult(p.process, p.session, p.start, step.result.started))
  }

  /** Why a step answers a pending start. */
  predicate Ends(s: State, step: Step, kind: Kind, answer: Answer) {
    match answer
    case Ok => Reports(s, step, kind, true)
    case WorkerRejected => Reports(s, step, kind, false)
    case WorkerExited => SeenGone(s, step, kind)
    case KeyCleared => Slot(s, kind).Some? && step == ClearKey(Slot(s, kind).value.key)
    case WorkerRestarted => Slot(s, kind).Some? && step == PollEvent
    case _ => false
  }

  /** Why a step refuses a new dispatch. */
  predicate Refuses(s: State, step: Step, answer: Answer) {
    && step.Dispatch?
    && match answer
       case WorkerBusy => s.multicast.Some? || s.unicast.Some?
       case StartCancelled => s.multicast.None? && s.unicast.None? && !step.committed
       case WorkerUnavailable =>
         && s.multicast.None? && s.unicast.None? && step.committed
         && (s.worker.None? || !s.worker.value.running || !step.written)
       case _ => false
  }

  ghost predicate Because(s: State, step: Step, ticket: nat, answer: Answer) {
    || (exists kind :: PendingIn(s, kind, ticket) && Ends(s, step, kind, answer))
    || (ticket == s.tickets && Refuses(s, step, answer))
  }

  predicate NewlyAnswered(s: State, t: State, ticket: nat, answer: Answer) {
    (ticket, answer) in t.answers && (ticket, answer) !in s.answers
  }

  lemma {:induction false} AnsweredBecause(s: State, step: Step, ticket: nat, answer: Answer)
    requires Inv(s) && NewlyAnswered(s, Next(s, step), ticket, answer)
    ensures Because(s, step, ticket, answer)
  {
    if step.Dispatch? {
      assert ticket == s.tickets;
    } else if PendingIn(s, Multicast, ticket) {
      assert Ends(s, step, Multicast, answer);
    } else {
      assert PendingIn(s, Unicast, ticket) && Ends(s, step, Unicast, answer);
    }
  }

  lemma {:induction false} CauseAnswers(s: State, step: Step, ticket: nat, answer: Answer)
    requires Inv(s) && Because(s, step, ticket, answer)
    ensures NewlyAnswered(s, Next(s, step), ticket, answer)
  {
    var t := Next(s, step);
    assert t.answers == s.answers + [(ticket, answer)] by {
      if !(ticket == s.tickets && Refuses(s, step, answer)) {
        var kind :| PendingIn(s, kind, ticket) && Ends(s, step, kind, answer);
        assert s.multicast.None? || s.unicast.None?;
      }
    }
    assert t.answers[|s.answers|] == (ticket, answer);
    assert forall kind :: Slot(s, kind).Some? ==> Open(s, Slot(s, kind).value.ticket);
  }

  /** In every run a requester gets an answer exactly when and exactly because its own cause occurs. */
  lemma {:induction false} AnswersExactly(steps: seq<Step>, n: nat, ticket: nat, answer: Answer)
    requires n < |steps|
    ensures NewlyAnswered(At(steps, n), At(steps, n + 1), ticket, answer) <==>
      Because(At(steps, n), steps[n], ticket, answer)
  {
    InvAt(steps, n);
    assert At(steps, n + 1) == Next(At(steps, n), steps[n]);
    if Because(At(steps, n), steps[n], ticket, answer) {
      CauseAnswers(At(steps, n), steps[n], ticket, answer);
    }
    if NewlyAnswered(At(steps, n), Next(At(steps, n), steps[n]), ticket, answer) {
      AnsweredBecause(At(steps, n), steps[n], ticket, answer);
    }
  }

  ghost predicate Answered(s: State, ticket: nat) {
    exists i :: 0 <= i < |s.answers| && s.answers[i].0 == ticket
  }

  /** The dispatch has its answer, is pending, or its requester is gone. */
  ghost predicate Accounted(s: State, ticket: nat) {
    Answered(s, ticket) || PendingIn(s, Multicast, ticket) || PendingIn(s, Unicast, ticket) || ticket in s.closed
  }

  lemma AnsweredStays(s: State, t: State, ticket: nat)
    requires s.answers <= t.answers && Answered(s, ticket)
    ensures Answered(t, ticket)
  {
    var i :| 0 <= i < |s.answers| && s.answers[i].0 == ticket;
    assert t.answers[i] == s.answers[i];
  }

  lemma LastIsAnswered(t: State, ticket: nat)
    requires t.answers != [] && t.answers[|t.answers| - 1].0 == ticket
    ensures Answered(t, ticket)
  {
  }

  lemma {:induction false} AccountedStep(s: State, step: Step, ticket: nat)
    requires Inv(s) && ticket < Next(s, step).tickets && (ticket < s.tickets ==> Accounted(s, ticket))
    ensures Accounted(Next(s, step), ticket)
  {
    var t := Next(s, step);
    assert s.answers <= t.answers;
    if ticket < s.tickets && Answered(s, ticket) {
      AnsweredStays(s, t, ticket);
    } else if t.answers != [] && t.answers[|t.answers| - 1].0 == ticket {
      LastIsAnswered(t, ticket);
    } else {
      assert s.multicast.None? || s.unicast.None?;
    }
  }

  /** No dispatch is forgotten: over every run each is answered, pending, or abandoned by its requester. */
  lemma {:induction false} NoneForgotten(steps: seq<Step>, n: nat, ticket: nat)
    requires n <= |steps| && ticket < At(steps, n).tickets
    ensures Accounted(At(steps, n), ticket)
  {
    if n > 0 {
      InvAt(steps, n - 1);
      if ticket < At(steps, n - 1).tickets {
        NoneForgotten(steps, n - 1, ticket);
      }
      AccountedStep(At(steps, n - 1), steps[n - 1], ticket);
    }
  }

  // ----------------------------------------------------- where an Ok comes from

  /** Step `j` is the dispatch that filled `kind` with `p`; it stayed there, and no step since has cleared its key. */
  ghost predicate FilledBy(steps: seq<Step>, n: nat, kind: Kind, p: Pending, j: nat)
    requires n <= |steps|
  {
    && j < n
    && steps[j] == Dispatch(kind, p.start, p.key, true, true)
    && At(steps, j).tickets == p.ticket
    && At(steps, j).worker == Some(Worker(p.process, p.session, true))
    && At(steps, j).generation == p.generation
    && (forall m :: j < m < n ==> steps[m] != ClearKey(p.key))
    && (forall m :: j < m <= n ==> Slot(At(steps, m), kind) == Some(p))
  }

  lemma {:induction false} SlotHasADispatch(steps: seq<Step>, n: nat, kind: Kind)
    requires n <= |steps| && Slot(At(steps, n), kind).Some?
    ensures exists j :: FilledBy(steps, n, kind, Slot(At(steps, n), kind).value, j)
  {
    if n > 0 {
      var before := At(steps, n - 1);
      var p := Slot(At(steps, n), kind).value;
      InvAt(steps, n - 1);
      SlotStep(before, steps[n - 1], kind, p);
      if Slot(before, kind) == Some(p) {
        SlotHasADispatch(steps, n - 1, kind);
        var j :| FilledBy(steps, n - 1, kind, p, j);
        assert FilledBy(steps, n, kind, p, j);
      } else {
        assert FilledBy(steps, n, kind, p, n - 1);
      }
    }
  }

  /** A slot's content is kept by a step that does not clear its key, or put there by a dispatch. */
  lemma SlotStep(s: State, step: Step, kind: Kind, p: Pending)
    requires Inv(s) && Slot(Next(s, step), kind) == Some(p)
    ensures Slot(s, kind) == Some(p) ==> step != ClearKey(p.key)
    ensures Slot(s, kind) != Some(p) ==>
      && step == Dispatch(kind, p.start, p.key, true, true) && s.tickets == p.ticket
      && s.worker == Some(Worker(p.process, p.session, true)) && s.generation == p.generation
  {
  }

  /**
    A start is answered Ok only by a Started result that repeats the process,
    session, control session, request, presentation and stream of its own
    committed dispatch, while that same Worker runs under the generation it was
    dispatched to and the start's key has not been cleared since.
  */
  lemma {:induction false} OkComesFromAMatchingResult(steps: seq<Step>, n: nat, ticket: nat)
    requires n < |steps|
    requires (ticket, Ok) in At(steps, n + 1).answers && (ticket, Ok) !in At(steps, n).answers
    ensures exists kind, p, j :: FilledBy(steps, n, kind, p, j) && p.ticket == ticket
              && steps[n] == Deliver(kind, StartResult(p.process, p.session, p.start, true))
              && IsRunningWorker(At(steps, n), p.process, p.session) && At(steps, n).generation == p.generation
  {
    var s := At(steps, n);
    var step := steps[n];
    OnlyDeliverAnswersOk(s, step, ticket);
    var p := Slot(s, step.kind).value;
    SlotHasADispatch(steps, n, step.kind);
    var j :| FilledBy(steps, n, step.kind, p, j);
  }

  lemma OnlyDeliverAnswersOk(s: State, step: Step, ticket: nat)
    requires (ticket, Ok) in Next(s, step).answers && (ticket, Ok) !in s.answers
    ensures step.Deliver? && Slot(s, step.kind).Some? && Slot(s, step.kind).value.ticket == ticket
    ensures var p := Slot(s, step.kind).value;
      && step.result == StartResult(p.process, p.session, p.start, true)
      && IsRunningWorker(s, p.process, p.session) && s.generation == p.generation
  {
  }

  // ------------------------------------------------- the write a result answers

  /** Step `j` wrote to a Worker the start that `r` repeats; a Worker's result for it has these fields. */
  ghost predicate WrittenFor(steps: seq<Step>, n: nat, kind: Kind, r: StartResult, j: nat)
    requires n <= |steps|
  {
    && j < n
    && steps[j].Dispatch? && steps[j].kind == kind && steps[j].start == r.start
    && steps[j].committed && steps[j].written
    && At(steps, j).multicast.None? && At(steps, j).unicast.None?
    && At(steps, j).worker == Some(Worker(r.process, r.session, true))
  }

  lemma TicketsStep(s: State, step: Step)
    ensures s.tickets <= Next(s, step).tickets
    ensures step.Dispatch? ==> s.tickets < Next(s, step).tickets
  {
  }

  lemma {:induction false} TicketsRise(steps: seq<Step>, i: nat, j: nat)
    requires i <= j <= |steps|
    ensures At(steps, i).tickets <= At(steps, j).tickets
  {
    if i < j {
      TicketsRise(steps, i, j - 1);
      TicketsStep(At(steps, j - 1), steps[j - 1]);
    }
  }

  lemma {:induction false} EarlierTicketDiffers(steps: seq<Step>, i: nat, j: nat)
    requires i < |steps| && steps[i].Dispatch? && j <= |steps|
    ensures i < j ==> At(steps, i).tickets < At(steps, j).tickets
  {
    if i < j {
      TicketsStep(At(steps, i), steps[i]);
      TicketsRise(steps, i + 1, j);
    }
  }

  /**
    The Ok that a Worker's answer to write `origin` brings goes to the requester
    of that write exactly when no equal start was written to that Worker since.
  */
  lemma {:induction false} OkIsForItsOwnWrite(steps: seq<Step>, n: nat, ticket: nat, origin: nat)
    requires n < |steps|
    requires (ticket, Ok) in At(steps, n + 1).answers && (ticket, Ok) !in At(steps, n).answers
    requires steps[n].Deliver? && WrittenFor(steps, n, steps[n].kind, steps[n].result, origin)
    ensures At(steps, origin).tickets == ticket <==>
      forall i :: origin < i < n ==> !WrittenFor(steps, n, steps[n].kind, steps[n].result, i)
  {
    OnlyDeliverAnswersOk(At(steps, n), steps[n], ticket);
    var kind, r := steps[n].kind, steps[n].result;
    var p := Slot(At(steps, n), kind).value;
    SlotHasADispatch(steps, n, kind);
    var j :| FilledBy(steps, n, kind, p, j);
    OwnWriteIsTheLast(steps, n, kind, p, j, r);
    EarlierTicketDiffers(steps, origin, j);
  }

  lemma OwnWriteIsTheLast(steps: seq<Step>, n: nat, kind: Kind, p: Pending, j: nat, r: StartResult)
    requires n <= |steps| && FilledBy(steps, n, kind, p, j) && MatchesResult(p, r)
    ensures WrittenFor(steps, n, kind, r, j)
    ensures forall i :: j < i < n ==> !WrittenFor(steps, n, kind, r, i)
  {
    InvAt(steps, j);
    assert At(steps, j + 1) == Next(At(steps, j), steps[j]) && Slot(At(steps, j + 1), kind) == Some(p);
    assert Slot(At(steps, j), kind) != Some(p);
    forall i | j < i < n ensures !WrittenFor(steps, n, kind, r, i) {
      assert Slot(At(steps, i), kind) == Some(p);
    }
  }

  /** A start, the clear of its key, the same start under the key's next epoch, and the result of the first. */
  function LateResult(kind: Kind, st: Start, worker: Worker): seq<Step> {
    var key := KeyBinding(st.controlSession, st.requestId, st.presentation, st.stream, 1);
    [Launch(Some(worker)), Dispatch(kind, st, key, true, true), ClearKey(key),
     Dispatch(kind, st, key.(epoch := 2), true, true),
     Deliver(kind, StartResult(worker.process, worker.session, st, true))]
  }

  /** The first requester is told that its key was cleared, and the Worker's answer to its write confirms the second. */
  lemma {:induction false} LateResultConfirmsALaterStart(kind: Kind, st: Start, worker: Worker)
    requires worker.running
    ensures var steps := LateResult(kind, st, worker);
      && WrittenFor(steps, 4, kind, steps[4].result, 1) && At(steps, 1).tickets == 0
      && At(steps, 4).answers == [(0, KeyCleared)] && At(steps, 5).answers == [(0, KeyCleared), (1, Ok)]
  {
    var steps := LateResult(kind, st, worker);
    assert At(steps, 1) == INITIAL.(worker := Some(worker), generation := 1);
    var p := Pending(0, worker.process, worker.session, 1, st, steps[1].key);
    assert At(steps, 2) == Filled(At(steps, 1).(tickets := 1), kind, p);
    assert At(steps, 3) == At(steps, 1).(tickets := 1, answers := [(0, KeyCleared)]);
    var q := p.(ticket := 1, key := steps[3].key);
    assert At(steps, 4) == Filled(At(steps, 3).(tickets := 2), kind, q);
  }

  ghost function Generations(steps: seq<Step>): seq<nat> {
    seq(|steps| + 1, n requires 0 <= n <= |steps| => At(steps, n).generation)
  }

  /** A generation never drops, and below saturation every launch raises it. */
  ghost predicate Rises(generations: seq<nat>, steps: seq<Step>, m: int)
    requires |generations| == |steps| + 1 && 0 <= m < |steps|
  {
    && generations[m] <= generations[m + 1]
    && (generations[m] == generations[m + 1] < MAX_GENERATION ==> !steps[m].Launch?)
  }

  lemma GenerationStep(s: State, step: Step)
    ensures Next(s, step).generation == if step.Launch? then NextGeneration(s.generation) else s.generation
  {
  }

  /** The generation counts the launches, up to the greatest 64-bit number and never past it. */
  lemma {:induction false} GenerationCountsLaunches(steps: seq<Step>, n: nat)
    requires n <= |steps|
    ensures At(steps, n).generation == Min(Launches(steps, n), MAX_GENERATION)
  {
    if n > 0 {
      GenerationCountsLaunches(steps, n - 1);
      GenerationStep(At(steps, n - 1), steps[n - 1]);
    }
  }

  function Launches(steps: seq<Step>, n: nat): nat
    requires n <= |steps|
  {
    if n == 0 then 0 else Launches(steps, n - 1) + if steps[n - 1].Launch? then 1 else 0
  }

  lemma {:induction false} GenerationRises(steps: seq<Step>, m: nat)
    requires m < |steps|
    ensures Rises(Generations(steps), steps, m)
  {
    GenerationStep(At(steps, m), steps[m]);
    assert Generations(steps)[m] == At(steps, m).generation;
    assert Generations(steps)[m + 1] == At(steps, m + 1).generation;
  }

  lemma {:induction false} EqualMeansNoLaunch(generations: seq<nat>, steps: seq<Step>, j: nat, n: nat)
    requires |generations| == |steps| + 1 && j <= n <= |steps|
    requires forall m :: 0 <= m < |steps| ==> Rises(generations, steps, m)
    ensures generations[j] <= generations[n]
    ensures generations[j] == generations[n] < MAX_GENERATION ==> forall m :: j <= m < n ==> !steps[m].Launch?
    decreases n
  {
    if j < n {
      EqualMeansNoLaunch(generations, steps, j, n - 1);
      assert Rises(generations, steps, n - 1);
    }
  }

  /** An unchanged generation below saturation means that no Worker was launched in between. */
  lemma {:induction false} SameGenerationMeansNoLaunch(steps: seq<Step>, j: nat, n: nat)
    requires j <= n <= |steps|
    ensures At(steps, j).generation <= At(steps, n).generation
    ensures At(steps, j).generation == At(steps, n).generation < MAX_GENERATION ==>
              forall m :: j <= m < n ==> !steps[m].Launch?
  {
    var generations := Generations(steps);
    forall m | 0 <= m < |steps| ensures Rises(generations, steps, m) {
      GenerationRises(steps, m);
    }
    EqualMeansNoLaunch(generations, steps, j, n);
    assert generations[j] == At(steps, j).generation && generations[n] == At(steps, n).generation;
  }

  // -------------------------------------------------------------- key clears

  /** A key clear empties a slot exactly when it names the pending start's own binding, and answers it once. */
  lemma {:induction false} ClearCancelsExactBindingOnly(steps: seq<Step>, n: nat, kind: Kind)
    requires n < |steps| && steps[n].ClearKey? && Slot(At(steps, n), kind).Some?
    ensures var p := Slot(At(steps, n), kind).value;
      if p.key == steps[n].key
      then At(steps, n + 1) == Send(Emptied(At(steps, n), kind), p.ticket, KeyCleared)
      else At(steps, n + 1) == At(steps, n)
  {
    InvAt(steps, n);
    assert At(steps, n + 1) == Next(At(steps, n), steps[n]);
  }
}
