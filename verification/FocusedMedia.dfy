/**
  Focused-media reconciliation in the service loop: the desired start and
  profile, the session they are associated with, the released-session floor,
  the bounded retries, and what the current Worker plays as a result. Timer
  expiry, pipe writes and the Worker's own failures are inputs of each step.
*/
module FocusedMedia {
  import opened Wrappers

  const MAX_ATTEMPTS := 4
  const MAX_U8 := 255

  datatype Start = Start(stream: nat, destination: nat, profile: nat)

  /**
    `playing` is the Worker's side: the stream it has open once it has handled
    everything written to its pipe. `startSession` is history: the session
    whose dispatch set the desired start.
  */
  datatype State = State(
    start: Option<Start>, profile: Option<nat>, session: Option<nat>,
    startWorker: Option<nat>, profileWorker: Option<nat>, clearPending: bool, floor: nat,
    startAttempts: nat, profileAttempts: nat, clearAttempts: nat,
    worker: Option<nat>, playing: Option<Start>, startSession: nat)

  /** `opens`: the Worker can open the stream; `cleared`: the clear after a lost commit is written. */
  datatype Step =
    | ObserveFloor(released: nat)
    | StartDispatch(control: nat, start: Start, written: bool, opens: bool, committed: bool, cleared: bool)
    | ReconfigureDispatch(control: nat, profile: nat)
    | FeedbackDispatch(control: nat, stream: nat)
    | Restore(due: bool, written: bool, opens: bool)
    | ClearProfile(due: bool, written: bool)
    | ApplyProfile(due: bool, written: bool)
    | WorkerChange(worker: Option<nat>)        // a process ends or is launched; identifiers may recur
    | WorkerRunning                            // the poll reported a freshly running Worker
    | StreamFails                              // the Worker drops its stream by itself

  const INITIAL := State(None, None, None, None, None, false, 0, 0, 0, 0, None, None, 0)

  function SaturatingAdd(attempts: nat): nat {
    if attempts >= MAX_U8 then MAX_U8 else attempts + 1
  }

  predicate ReleaseInvalidates(released: nat, desired: Option<nat>) {
    desired.Some? && desired.value <= released
  }

  predicate ReconfigureIsStale(control: nat, floor: nat, desired: Option<nat>) {
    control <= floor || (desired.Some? && control < desired.value)
  }

  predicate FeedbackIsStale(control: nat, stream: nat, floor: nat, desired: Option<nat>, start: Option<Start>) {
    control <= floor || desired != Some(control) || start.None? || start.value.stream != stream
  }

  function OnFloor(s: State, released: nat): State {
    if released <= s.floor then s
    else if !ReleaseInvalidates(released, s.session) then s.(floor := released)
    else s.(floor := released, start := None, profile := None, session := None, startWorker := None,
            profileWorker := None, clearPending := true, startAttempts := 0, profileAttempts := 0, clearAttempts := 0)
  }

  /** The dispatch is not stale and its start reaches the current Worker's pipe. */
  predicate StartDelivered(s: State, step: Step) {
    step.StartDispatch? && step.control > s.floor && s.worker.Some? && step.written
  }

  /** It also wins its commit and becomes the desired start. */
  predicate StartAccepted(s: State, step: Step) {
    StartDelivered(s, step) && step.committed
  }

  function Opened(start: Start, opens: bool): Option<Start> {
    if opens then Some(start) else None
  }

  function OnStart(s: State, step: Step): State
    requires step.StartDispatch?
  {
    if !StartDelivered(s, step) then s
    else if !step.committed then s.(playing := if step.cleared then None else Opened(step.start, step.opens))
    else s.(start := Some(step.start), profile := None, session := Some(step.control), startWorker := s.worker,
            profileWorker := None, clearPending := false, startAttempts := 0, profileAttempts := 0, clearAttempts := 0,
            playing := Opened(step.start, step.opens), startSession := step.control)
  }

  predicate ReconfigureAccepted(s: State, step: Step) {
    step.ReconfigureDispatch? && !ReconfigureIsStale(step.control, s.floor, s.session)
  }

  /** A feedback message is written to the current Worker's pipe. */
  predicate Forwards(s: State, step: Step) {
    && step.FeedbackDispatch?
    && !FeedbackIsStale(step.control, step.stream, s.floor, s.session, s.start)
    && s.worker.Some? && s.startWorker == s.worker
  }

  /** The desired start is sent again, because the current Worker is not the one marked for it. */
  predicate SendsRestore(s: State, step: Step) {
    step.Restore? && step.due && !s.clearPending && s.start.Some? && s.worker.Some? && s.startWorker != s.worker
  }

  function OnRestore(s: State, written: bool, opens: bool): State
    requires s.start.Some?
  {
    if written then
      s.(startWorker := s.worker, profileWorker := None, startAttempts := 0, playing := Opened(s.start.value, opens))
    else
      var attempts := SaturatingAdd(s.startAttempts);
      s.(startAttempts := attempts, startWorker := if attempts >= MAX_ATTEMPTS then s.worker else None)
  }

  predicate SendsClear(s: State, step: Step) {
    step.ClearProfile? && step.due && s.clearPending && s.worker.Some?
  }

  function OnClear(s: State, due: bool, written: bool): State {
    if !s.clearPending then s
    else if s.worker.None? then s.(clearPending := false)
    else if !due then s
    else if written then s.(clearPending := false, clearAttempts := 0, playing := None)
    else var attempts := SaturatingAdd(s.clearAttempts);
         s.(clearAttempts := attempts, clearPending := attempts < MAX_ATTEMPTS)
  }

  function OnApply(s: State, due: bool, written: bool): State {
    if s.clearPending || s.profile.None? || s.worker.None? || s.startWorker != s.worker
       || s.profileWorker == s.worker || !due then s
    else if written then s.(profileWorker := s.worker, profileAttempts := 0)
    else var attempts := SaturatingAdd(s.profileAttempts);
         s.(profileAttempts := attempts, profileWorker := if attempts >= MAX_ATTEMPTS then s.worker else None)
  }

  function Next(s: State, step: Step): State {
    match step
    case ObserveFloor(released) => OnFloor(s, released)
    case StartDispatch(_, _, _, _, _, _) => OnStart(s, step)
    case ReconfigureDispatch(control, profile) =>
      if !ReconfigureAccepted(s, step) then s else
      s.(profile := Some(profile), session := Some(control), profileWorker := None, clearPending := false,
         profileAttempts := 0, clearAttempts := 0)
    case FeedbackDispatch(_, _) => s
    case Restore(_, written, opens) => if SendsRestore(s, step) then OnRestore(s, written, opens) else s
    case ClearProfile(due, written) => OnClear(s, due, written)
    case ApplyProfile(due, written) => OnApply(s, due, written)
    case WorkerChange(worker) => s.(worker := worker, playing := None)
    case WorkerRunning => s.(profileWorker := None, profileAttempts := 0, clearAttempts := 0)
    case StreamFails => s.(playing := None)
  }

  /** The state after the first `n` steps. */
  function At(steps: seq<Step>, n: nat): State
    requires n <= |steps|
  {
    if n == 0 then INITIAL else Next(At(steps, n - 1), steps[n - 1])
  }

  // ----------------------------------------------------- association invariant

  ghost predicate Inv(s: State) {
    && (s.start.Some? || s.profile.Some? ==> s.session.Some?)
    && (s.session.Some? ==> s.session.value > s.floor)
    && (s.start.Some? ==> s.startSession <= s.session.value)
    && (s.clearPending ==> s.start.None?)
    && (s.start.None? ==> s.startWorker.None?)
  }

  lemma InvNext(s: State, step: Step)
    requires Inv(s)
    ensures Inv(Next(s, step))
  {
  }

  lemma {:induction false} InvAt(steps: seq<Step>, n: nat)
    requires n <= |steps|
    ensures Inv(At(steps, n))
  {
    if n > 0 {
      InvAt(steps, n - 1);
      InvNext(At(steps, n - 1), steps[n - 1]);
    }
  }

  /** A desired start or profile always has a session above the highest released one seen so far. */
  lemma {:induction false} DesiredIsAboveTheFloor(steps: seq<Step>, n: nat, m: nat)
    requires m <= n <= |steps|
    ensures var s := At(steps, n);
      s.start.Some? || s.profile.Some? ==> s.session.Some? && s.session.value > At(steps, m).floor
  {
    InvAt(steps, n);
    FloorNeverDrops(steps, m, n);
  }

  lemma {:induction false} FloorNeverDrops(steps: seq<Step>, m: nat, n: nat)
    requires m <= n <= |steps|
    ensures At(steps, m).floor <= At(steps, n).floor
  {
    if m < n {
      FloorNeverDrops(steps, m, n - 1);
      FloorStep(At(steps, n - 1), steps[n - 1]);
    }
  }

  lemma FloorStep(s: State, step: Step)
    ensures s.floor <= Next(s, step).floor
  {
  }

  /** The greatest release observed in the first `n` steps. */
  function GreatestRelease(steps: seq<Step>, n: nat): nat
    requires n <= |steps|
  {
    if n == 0 then 0 else
    var before := GreatestRelease(steps, n - 1);
    if steps[n - 1].ObserveFloor? && steps[n - 1].released > before then steps[n - 1].released else before
  }

  /** The floor is the greatest release observed, whatever each of them ended. */
  lemma {:induction false} FloorIsTheGreatestRelease(steps: seq<Step>, n: nat)
    requires n <= |steps|
    ensures At(steps, n).floor == GreatestRelease(steps, n)
  {
    if n > 0 {
      FloorIsTheGreatestRelease(steps, n - 1);
      FloorMoves(At(steps, n - 1), steps[n - 1]);
    }
  }

  lemma FloorMoves(s: State, step: Step)
    ensures Next(s, step).floor == if step.ObserveFloor? && step.released > s.floor then step.released else s.floor
  {
  }

  /** The three retry counters fit in eight bits. */
  lemma {:induction false} AttemptsFit(steps: seq<Step>, n: nat)
    requires n <= |steps|
    ensures At(steps, n).startAttempts <= MAX_U8 && At(steps, n).profileAttempts <= MAX_U8
    ensures At(steps, n).clearAttempts <= MAX_U8
  {
    if n > 0 {
      AttemptsFit(steps, n - 1);
    }
  }

  // ------------------------------------------------------ what the Worker plays

  /** The Service believes the current Worker has the desired start. */
  predicate Marked(s: State) {
    s.start.Some? && s.worker.Some? && s.startWorker == s.worker
  }

  predicate Plays(s: State) {
    s.start.Some? && s.playing == s.start
  }

  /** The step decides anew what the current Worker plays. */
  predicate Touches(s: State, step: Step) {
    || StartDelivered(s, step) || (SendsRestore(s, step) && step.written) || (SendsClear(s, step) && step.written)
    || step.WorkerChange? || step.StreamFails?
  }

  /**
    The step leaves the Worker playing what is then desired: an accepted start
    or a restore that the Worker can open, or a start that lost its commit but
    repeats the desired one and whose clear was not written.
  */
  predicate Establishes(s: State, step: Step) {
    || (StartDelivered(s, step) && step.opens && (step.committed || (!step.cleared && s.start == Some(step.start))))
    || (SendsRestore(s, step) && step.written && step.opens)
  }

  /** The last step that touched the Worker's stream established the desired start. */
  ghost predicate Established(steps: seq<Step>, n: nat)
    requires n <= |steps|
  {
    exists j :: EstablishedAt(steps, j, n)
  }

  ghost predicate EstablishedAt(steps: seq<Step>, j: int, n: nat)
    requires n <= |steps|
  {
    && 0 <= j < n && Establishes(At(steps, j), steps[j])
    && forall m :: j < m < n ==> !Touches(At(steps, m), steps[m])
  }

  lemma PlaysStep(s: State, step: Step)
    requires Inv(s) && Next(s, step).start.Some?
    ensures Plays(Next(s, step)) <==> Establishes(s, step) || (Plays(s) && !Touches(s, step))
    ensures !Touches(s, step) ==> Next(s, step).start == s.start
  {
  }

  /**
    Over every run: the Worker plays the desired start if and only if the last
    step that touched its stream established it.
  */
  lemma {:induction false} PlaysExactly(steps: seq<Step>, n: nat)
    requires n <= |steps| && At(steps, n).start.Some?
    ensures Plays(At(steps, n)) <==> Established(steps, n)
  {
    if n > 0 {
      var s, step := At(steps, n - 1), steps[n - 1];
      InvAt(steps, n - 1);
      PlaysStep(s, step);
      if Establishes(s, step) {
        assert EstablishedAt(steps, n - 1, n);
      } else if !Touches(s, step) {
        PlaysExactly(steps, n - 1);
        EstablishedLater(steps, n);
      } else {
        NotEstablished(steps, n);
      }
    }
  }

  lemma {:induction false} EstablishedLater(steps: seq<Step>, n: nat)
    requires 0 < n <= |steps| && !Touches(At(steps, n - 1), steps[n - 1]) &&
      !Establishes(At(steps, n - 1), steps[n - 1])
    ensures Established(steps, n) <==> Established(steps, n - 1)
  {
    if Established(steps, n - 1) {
      var j :| EstablishedAt(steps, j, n - 1);
      assert EstablishedAt(steps, j, n);
    }
    if Established(steps, n) {
      var j :| EstablishedAt(steps, j, n);
      assert EstablishedAt(steps, j, n - 1);
    }
  }

  lemma {:induction false} NotEstablished(steps: seq<Step>, n: nat)
    requires 0 < n <= |steps| && Touches(At(steps, n - 1), steps[n - 1]) && !Establishes(At(steps, n - 1), steps[n - 1])
    ensures !Established(steps, n)
  {
    forall j ensures !EstablishedAt(steps, j, n) {
      assert 0 <= j < n - 1 ==> Touches(At(steps, n - 1), steps[n - 1]);
    }
  }

  /** A mark set by delivery stays true while no start loses its commit, no process changes and no stream fails. */
  lemma {:induction false} MarkHolds(steps: seq<Step>, j: nat, n: nat)
    requires j < n <= |steps|
    requires StartAccepted(At(steps, j), steps[j]) || (SendsRestore(At(steps, j), steps[j]) && steps[j].written)
    requires steps[j].opens
    requires forall m :: j < m < n ==> Quiet(At(steps, m), steps[m])
    ensures At(steps, n).start.Some? ==> Marked(At(steps, n)) && Plays(At(steps, n))
    decreases n
  {
    InvAt(steps, n - 1);
    if j + 1 < n {
      MarkHolds(steps, j, n - 1);
      assert Quiet(At(steps, n - 1), steps[n - 1]);
      QuietStep(At(steps, n - 1), steps[n - 1]);
    }
  }

  /** Nothing happens to the Worker's stream but accepted starts it can open. */
  predicate Quiet(s: State, step: Step) {
    && !step.WorkerChange? && !step.StreamFails?
    && (StartDelivered(s, step) ==> step.committed && step.opens)
  }

  lemma QuietStep(s: State, step: Step)
    requires Inv(s) && Quiet(s, step) && (s.start.Some? ==> Marked(s) && Plays(s))
    ensures Next(s, step).start.Some? ==> Marked(Next(s, step)) && Plays(Next(s, step))
  {
  }

  /**
    A start that is written but loses its commit replaces the Worker's stream
    and is then cleared: the earlier start stays desired and marked, and the
    Worker plays nothing.
  */
  lemma LostCommitSilencesTheWorker(a: Start, b: Start)
    ensures var steps := [WorkerChange(Some(10)), StartDispatch(1, a, true, true, true, true),
                          StartDispatch(1, b, true, true, false, true)];
      var s := At(steps, 3);
      s.start == Some(a) && Marked(s) && s.playing == None
  {
    var steps := [WorkerChange(Some(10)), StartDispatch(1, a, true, true, true, true),
                  StartDispatch(1, b, true, true, false, true)];
    assert At(steps, 1) == INITIAL.(worker := Some(10));
    assert At(steps, 2) == Next(At(steps, 1), steps[1]);
    assert At(steps, 3) == Next(At(steps, 2), steps[2]);
  }

  /** Four failed restores mark a Worker that was never given the start. */
  lemma AbandonedRestoreMarksASilentWorker(a: Start)
    ensures var failed := Restore(true, false, true);
      var steps := [WorkerChange(Some(10)), StartDispatch(1, a, true, true, true, true), WorkerChange(Some(11)),
                    failed, failed, failed, failed];
      var s := At(steps, 7);
      s.start == Some(a) && Marked(s) && s.worker == Some(11) && s.playing == None
  {
    var failed := Restore(true, false, true);
    var steps := [WorkerChange(Some(10)), StartDispatch(1, a, true, true, true, true), WorkerChange(Some(11)),
                  failed, failed, failed, failed];
    var s3 := INITIAL.(start := Some(a), session := Some(1), startWorker := Some(10), worker := Some(11),
      startSession := 1);
    assert At(steps, 1) == INITIAL.(worker := Some(10));
    assert At(steps, 3) == s3;
    assert At(steps, 4) == s3.(startAttempts := 1, startWorker := None);
    assert At(steps, 5) == s3.(startAttempts := 2, startWorker := None);
    assert At(steps, 6) == s3.(startAttempts := 3, startWorker := None);
    assert At(steps, 7) == s3.(startAttempts := 4, startWorker := Some(11));
  }

  /** The silence is never noticed: until the process changes or another start is delivered, no restore is sent. */
  lemma {:induction false} SilenceIsNeverRepaired(steps: seq<Step>, j: nat, n: nat)
    requires j <= n <= |steps| && Marked(At(steps, j)) && !Plays(At(steps, j))
    requires forall m :: j <= m < n ==> !steps[m].WorkerChange? && !StartDelivered(At(steps, m), steps[m])
    ensures At(steps, n).start.Some? ==> Marked(At(steps, n)) && !Plays(At(steps, n))
    ensures j < n ==> !SendsRestore(At(steps, n - 1), steps[n - 1])
    decreases n
  {
    if j < n {
      SilenceIsNeverRepaired(steps, j, n - 1);
      InvAt(steps, n - 1);
      SilentStep(At(steps, n - 1), steps[n - 1]);
    }
  }

  lemma SilentStep(s: State, step: Step)
    requires Inv(s) && (s.start.Some? ==> Marked(s) && !Plays(s))
    requires !step.WorkerChange? && !StartDelivered(s, step)
    ensures !SendsRestore(s, step)
    ensures Next(s, step).start.Some? ==> Marked(Next(s, step)) && !Plays(Next(s, step))
  {
  }

  /**
    Feedback is forwarded only for the associated session, above every floor
    seen so far, and for the desired stream; the Worker it reaches has that
    stream open if and only if the last touch established it.
  */
  lemma {:induction false} FeedbackIsBound(steps: seq<Step>, n: nat, m: nat)
    requires m <= n < |steps| && Forwards(At(steps, n), steps[n])
    ensures var s := At(steps, n);
      && s.session == Some(steps[n].control) && steps[n].control > At(steps, m).floor
      && Marked(s) && s.start.value.stream == steps[n].stream
      && (s.playing == s.start <==> Established(steps, n))
  {
    FloorNeverDrops(steps, m, n);
    PlaysExactly(steps, n);
  }

  /** It is forwarded in every such case: for the associated session and the desired stream, to the marked Worker. */
  lemma {:induction false} FeedbackExactly(steps: seq<Step>, n: nat)
    requires n < |steps|
    ensures var s := At(steps, n);
      Forwards(s, steps[n]) <==>
        && steps[n].FeedbackDispatch? && s.session == Some(steps[n].control)
        && s.start.Some? && s.start.value.stream == steps[n].stream
        && s.worker.Some? && s.startWorker == s.worker
  {
    InvAt(steps, n);
  }

  // ----------------------------------------------------------- bounded restores

  /** How many restores steps `j..n` sent. */
  function Restores(steps: seq<Step>, j: nat, n: nat): nat
    requires j <= n <= |steps|
    decreases n
  {
    if j == n then 0
    else Restores(steps, j, n - 1) + if SendsRestore(At(steps, n - 1), steps[n - 1]) then 1 else 0
  }

  /** The restores that may still be sent while the Worker stays the same. */
  function Budget(s: State): nat {
    if s.start.None? || s.startWorker == s.worker then 0
    else if s.startAttempts >= MAX_ATTEMPTS then 1 else MAX_ATTEMPTS - s.startAttempts
  }

  /** While one Worker stays current, at most four restores are sent, whatever else is dispatched meanwhile. */
  lemma {:induction false} AtMostFourRestores(steps: seq<Step>, j: nat, n: nat)
    requires j <= n <= |steps|
    requires forall m :: j <= m < n ==> !steps[m].WorkerChange?
    ensures Restores(steps, j, n) + Budget(At(steps, n)) <= Budget(At(steps, j))
    ensures At(steps, n).worker == At(steps, j).worker
    ensures Restores(steps, j, n) <= MAX_ATTEMPTS
    decreases n
  {
    if j < n {
      AtMostFourRestores(steps, j, n - 1);
      BudgetStep(At(steps, n - 1), steps[n - 1]);
    }
  }

  /** Each restore sent uses up budget, and nothing but a Worker change brings any back. */
  lemma BudgetStep(s: State, step: Step)
    requires !step.WorkerChange?
    ensures Next(s, step).worker == s.worker
    ensures Budget(Next(s, step)) + (if SendsRestore(s, step) then 1 else 0) <= Budget(s)
  {
  }

  /** Restores sent to one process identifier over the whole run. */
  function RestoresTo(steps: seq<Step>, process: nat, n: nat): nat
    requires n <= |steps|
  {
    if n == 0 then 0
    else RestoresTo(steps, process, n - 1)
         + if SendsRestore(At(steps, n - 1), steps[n - 1]) && At(steps, n - 1).worker == Some(process) then 1 else 0
  }

  /** How often a process with this identifier became the current Worker. */
  function Arrivals(steps: seq<Step>, process: nat, n: nat): nat
    requires n <= |steps|
  {
    if n == 0 then 0
    else Arrivals(steps, process, n - 1) + if steps[n - 1] == WorkerChange(Some(process)) then 1 else 0
  }

  function BudgetOf(s: State, process: nat): nat {
    if s.worker == Some(process) then Budget(s) else 0
  }

  /** Over a whole run, one identifier is sent at most four restores for each time it arrived. */
  lemma {:induction false} FourRestoresForEachArrival(steps: seq<Step>, process: nat, n: nat)
    requires n <= |steps|
    ensures RestoresTo(steps, process, n) + BudgetOf(At(steps, n), process) <= MAX_ATTEMPTS * Arrivals(steps,
      process, n)
  {
    if n > 0 {
      FourRestoresForEachArrival(steps, process, n - 1);
      if !steps[n - 1].WorkerChange? {
        BudgetStep(At(steps, n - 1), steps[n - 1]);
      }
    }
  }

  /** The desired start is pending for process 10, which has just arrived with the full budget. */
  function JustArrived(): State {
    INITIAL.(start := Some(Start(7, 1, 1)), session := Some(1), startSession := 1, startWorker := Some(11),
      worker := Some(10))
  }

  /** One arrival: four failed restores to process 10, then process 11 takes over and is restored. */
  function Visit(): seq<Step> {
    [Restore(true, false, true), Restore(true, false, true), Restore(true, false, true), Restore(true, false, true),
     WorkerChange(Some(11)), Restore(true, true, true), WorkerChange(Some(10))]
  }

  /** A run in which process 10 has arrived k + 1 times, with k visits of four failed restores behind it. */
  lemma {:induction false} Visits(k: nat) returns (steps: seq<Step>)
    ensures At(steps, |steps|) == JustArrived()
    ensures Arrivals(steps, 10, |steps|) == k + 1
    ensures RestoresTo(steps, 10, |steps|) == MAX_ATTEMPTS * k
  {
    if k == 0 {
      steps := [WorkerChange(Some(11)), StartDispatch(1, Start(7, 1, 1), true, true, true, true),
        WorkerChange(Some(10))];
      assert At(steps, 1) == INITIAL.(worker := Some(11));
      assert At(steps, 2) == JustArrived().(worker := Some(11), playing := Some(Start(7, 1, 1)));
      assert RestoresTo(steps, 10, 2) == 0 && Arrivals(steps, 10, 2) == 0;
    } else {
      var shorter := Visits(k - 1);
      steps := shorter + Visit();
      PrefixAgrees(shorter, Visit(), 10, |shorter|);
      VisitCounts(steps, |shorter|);
    }
  }

  /** The factor is attained: for every k there is a run with k arrivals of one identifier and 4k restores to it. */
  lemma {:induction false} FactorIsAttained(k: nat) returns (steps: seq<Step>, n: nat)
    ensures n <= |steps| && Arrivals(steps, 10, n) == k && RestoresTo(steps, 10, n) == MAX_ATTEMPTS * k
  {
    if k == 0 {
      steps, n := [], 0;
    } else {
      var shorter := Visits(k - 1);
      steps, n := shorter + Visit(), |shorter| + 4;
      PrefixAgrees(shorter, Visit(), 10, |shorter|);
      VisitCounts(steps, |shorter|);
    }
  }

  lemma {:induction false} VisitCounts(steps: seq<Step>, n: nat)
    requires |steps| == n + 7 && steps[n..] == Visit() && At(steps, n) == JustArrived()
    ensures Arrivals(steps, 10, n + 4) == Arrivals(steps, 10, n)
    ensures RestoresTo(steps, 10, n + 4) == RestoresTo(steps, 10, n) + MAX_ATTEMPTS
    ensures At(steps, n + 7) == JustArrived()
    ensures Arrivals(steps, 10, n + 7) == Arrivals(steps, 10, n) + 1
    ensures RestoresTo(steps, 10, n + 7) == RestoresTo(steps, 10, n) + MAX_ATTEMPTS
  {
    var s := JustArrived();
    assert forall i :: 0 <= i < 7 ==> steps[n + i] == steps[n..][i];
    assert At(steps, n + 1) == s.(startAttempts := 1, startWorker := None);
    assert At(steps, n + 2) == s.(startAttempts := 2, startWorker := None);
    assert RestoresTo(steps, 10, n + 2) == RestoresTo(steps, 10, n) + 2 &&
      Arrivals(steps, 10, n + 2) == Arrivals(steps, 10, n);
    assert At(steps, n + 3) == s.(startAttempts := 3, startWorker := None);
    assert At(steps, n + 4) == s.(startAttempts := 4, startWorker := Some(10));
    assert RestoresTo(steps, 10, n + 4) == RestoresTo(steps, 10, n) + 4 &&
      Arrivals(steps, 10, n + 4) == Arrivals(steps, 10, n);
    assert At(steps, n + 5) == s.(startAttempts := 4, startWorker := Some(10), worker := Some(11));
    assert At(steps, n + 6) == s.(worker := Some(11), playing := s.start);
    assert RestoresTo(steps, 10, n + 6) == RestoresTo(steps, 10, n) + 4 &&
      Arrivals(steps, 10, n + 6) == Arrivals(steps, 10, n);
  }

  lemma {:induction false} PrefixAgrees(steps: seq<Step>, more: seq<Step>, process: nat, n: nat)
    requires n <= |steps|
    ensures At(steps + more, n) == At(steps, n)
    ensures RestoresTo(steps + more, process, n) == RestoresTo(steps, process, n)
    ensures Arrivals(steps + more, process, n) == Arrivals(steps, process, n)
  {
    if n > 0 {
      PrefixAgrees(steps, more, process, n - 1);
      assert (steps + more)[n - 1] == steps[n - 1];
    }
  }

  // -------------------------------------------------------------- the profile

  /** A reconfigure of the associated session or a later one, above the floor. */
  predicate Reconfigures(s: State, step: Step) {
    && step.ReconfigureDispatch? && step.control > s.floor
    && (s.session.Some? ==> step.control >= s.session.value)
  }

  /** The associated session is released. */
  predicate Releases(s: State, step: Step) {
    step.ObserveFloor? && step.released > s.floor && s.session.Some? && s.session.value <= step.released
  }

  /** Step `j` reconfigured to this profile, and since then there was no reconfigure, accepted start or release. */
  ghost predicate ProfileSetAt(steps: seq<Step>, j: int, n: nat, profile: nat)
    requires n <= |steps|
  {
    && 0 <= j < n && Reconfigures(At(steps, j), steps[j]) && steps[j].profile == profile
    && forall m :: j < m < n ==> !ChangesProfile(At(steps, m), steps[m])
  }

  ghost predicate ProfileSet(steps: seq<Step>, n: nat, profile: nat)
    requires n <= |steps|
  {
    exists j :: ProfileSetAt(steps, j, n, profile)
  }

  predicate ChangesProfile(s: State, step: Step) {
    Reconfigures(s, step) || StartAccepted(s, step) || Releases(s, step)
  }

  lemma ProfileStep(s: State, step: Step)
    ensures Reconfigures(s, step) ==>
      Next(s, step).profile == Some(step.profile) && Next(s, step).session == Some(step.control)
    ensures StartAccepted(s, step) || Releases(s, step) ==> Next(s, step).profile.None?
    ensures !ChangesProfile(s, step) ==> Next(s, step).profile == s.profile && Next(s, step).session == s.session
  {
  }

  lemma {:induction false} ProfileKept(steps: seq<Step>, j: int, n: nat, profile: nat)
    requires 0 < n <= |steps| && !ChangesProfile(At(steps, n - 1), steps[n - 1])
    ensures ProfileSetAt(steps, j, n, profile) <==> ProfileSetAt(steps, j, n - 1, profile)
  {
  }

  lemma {:induction false} ProfileReplaced(steps: seq<Step>, j: int, n: nat, profile: nat)
    requires 0 < n <= |steps| && ChangesProfile(At(steps, n - 1), steps[n - 1])
    ensures ProfileSetAt(steps, j, n, profile) <==>
      j == n - 1 && Reconfigures(At(steps, n - 1), steps[n - 1]) && steps[n - 1].profile == profile
  {
    if 0 <= j < n - 1 {
      var m := n - 1;
      assert ChangesProfile(At(steps, m), steps[m]);
    }
  }

  /** The desired profile is that of the last accepted reconfigure, unless an accepted start or a release followed. */
  lemma {:induction false} DesiredProfileExactly(steps: seq<Step>, n: nat, profile: nat)
    requires n <= |steps|
    ensures At(steps, n).profile == Some(profile) <==> ProfileSet(steps, n, profile)
  {
    if n > 0 {
      var s, step := At(steps, n - 1), steps[n - 1];
      ProfileStep(s, step);
      if ChangesProfile(s, step) {
        ProfileReplaced(steps, n - 1, n, profile);
        forall j ensures ProfileSetAt(steps, j, n, profile) ==> j == n - 1 {
          ProfileReplaced(steps, j, n, profile);
        }
      } else {
        DesiredProfileExactly(steps, n - 1, profile);
        if ProfileSet(steps, n, profile) {
          var j :| ProfileSetAt(steps, j, n, profile);
          ProfileKept(steps, j, n, profile);
        }
        if ProfileSet(steps, n - 1, profile) {
          var j :| ProfileSetAt(steps, j, n - 1, profile);
          ProfileKept(steps, j, n, profile);
        }
      }
    }
  }

  /** It belongs to the session associated since that reconfigure. */
  lemma {:induction false} ProfileIsOfTheSession(steps: seq<Step>, j: int, n: nat, profile: nat)
    requires n <= |steps| && ProfileSetAt(steps, j, n, profile)
    ensures At(steps, n).session == Some(steps[j].control)
  {
    var s, step := At(steps, n - 1), steps[n - 1];
    ProfileStep(s, step);
    if j < n - 1 {
      ProfileKept(steps, j, n, profile);
      ProfileIsOfTheSession(steps, j, n - 1, profile);
    }
  }

  /** The desired profile is written to the Worker that is marked for the desired start but not yet for the profile. */
  predicate SendsProfile(s: State, step: Step) {
    && step.ApplyProfile? && step.due && !s.clearPending && s.profile.Some?
    && s.worker.Some? && s.startWorker == s.worker && s.profileWorker != s.worker
  }

  /** How many profile writes steps `j..n` made. */
  function ProfileWrites(steps: seq<Step>, j: nat, n: nat): nat
    requires j <= n <= |steps|
    decreases n
  {
    if j == n then 0
    else ProfileWrites(steps, j, n - 1) + if SendsProfile(At(steps, n - 1), steps[n - 1]) then 1 else 0
  }

  /** The profile writes that may still be made until something renews them. */
  function ProfileBudget(s: State): nat {
    if s.profile.None? || s.profileWorker == s.worker then 0
    else if s.profileAttempts >= MAX_ATTEMPTS then 1 else MAX_ATTEMPTS - s.profileAttempts
  }

  /** A new profile, a restored start or a new Worker calls for the profile to be written again. */
  predicate Renews(s: State, step: Step) {
    Reconfigures(s, step) || (SendsRestore(s, step) && step.written) || step.WorkerChange? || step.WorkerRunning?
  }

  lemma ProfileBudgetStep(s: State, step: Step)
    requires !Renews(s, step)
    ensures ProfileBudget(Next(s, step)) + (if SendsProfile(s, step) then 1 else 0) <= ProfileBudget(s)
    ensures SendsProfile(s, step) && step.written ==> ProfileBudget(Next(s, step)) == 0
    ensures step.ApplyProfile? && !SendsProfile(s, step) ==> Next(s, step) == s
  {
  }

  /** At most four profile writes are made between two steps that call for one. */
  lemma {:induction false} AtMostFourProfileWrites(steps: seq<Step>, j: nat, n: nat)
    requires j <= n <= |steps| && forall m :: j <= m < n ==> !Renews(At(steps, m), steps[m])
    ensures ProfileWrites(steps, j, n) + ProfileBudget(At(steps, n)) <= ProfileBudget(At(steps, j)) <= MAX_ATTEMPTS
    decreases n
  {
    if j < n {
      AtMostFourProfileWrites(steps, j, n - 1);
      ProfileBudgetStep(At(steps, n - 1), steps[n - 1]);
    }
  }

  /** A profile that was written is not written again until something calls for it. */
  lemma {:induction false} WrittenProfileIsNotRepeated(steps: seq<Step>, j: nat, n: nat)
    requires j < n <= |steps| && SendsProfile(At(steps, j), steps[j]) && steps[j].written
    requires forall m :: j < m < n ==> !Renews(At(steps, m), steps[m])
    ensures ProfileWrites(steps, j + 1, n) == 0
  {
    ProfileBudgetStep(At(steps, j), steps[j]);
    AtMostFourProfileWrites(steps, j + 1, n);
  }

  /** A reconfigure, a restored start and a newly running Worker do call for the desired profile to be written. */
  lemma RenewalCallsForTheProfile(s: State, step: Step)
    requires Reconfigures(s, step) || (SendsRestore(s, step) && step.written) || step.WorkerRunning?
    ensures var t := Next(s, step);
      t.profile.Some? && t.worker.Some? ==>
        ProfileBudget(t) > 0 && (!step.Restore? ==> ProfileBudget(t) == MAX_ATTEMPTS)
  {
  }

  /** An accepted start and a release leave nothing of what was desired before. */
  lemma {:induction false} NothingIsCarriedOver(steps: seq<Step>, n: nat)
    requires n < |steps|
    ensures var s, t := At(steps, n), At(steps, n + 1);
      var blank := INITIAL.(floor := t.floor, worker := s.worker);
      && (StartAccepted(s, steps[n]) ==>
            t == blank.(start := Some(steps[n].start), session := Some(steps[n].control), startWorker := s.worker,
                        playing := Opened(steps[n].start, steps[n].opens), startSession := steps[n].control))
      && (Releases(s, steps[n]) ==>
            t == blank.(clearPending := true, playing := s.playing, startSession := s.startSession))
  {
  }

  /** As long as budget is left, a due write is made: a called-for profile is not passed over. */
  lemma {:induction false} CalledForProfileIsSent(steps: seq<Step>, n: nat)
    requires n < |steps| && steps[n].ApplyProfile? && steps[n].due
    requires Marked(At(steps, n)) && ProfileBudget(At(steps, n)) > 0
    ensures SendsProfile(At(steps, n), steps[n])
    ensures var t := At(steps, n + 1);
      if steps[n].written then t.profileWorker == t.worker && t.profileAttempts == 0
      else t.profileAttempts == At(steps, n).profileAttempts + 1 || t.profileWorker == t.worker
  {
    InvAt(steps, n);
  }

  // ---------------------------------------------------------- clearing a stream

  function Clears(steps: seq<Step>, j: nat, n: nat): nat
    requires j <= n <= |steps|
    decreases n
  {
    if j == n then 0 else Clears(steps, j, n - 1) + if SendsClear(At(steps, n - 1), steps[n - 1]) then 1 else 0
  }

  function ClearBudget(s: State): nat {
    if !s.clearPending then 0 else if s.clearAttempts >= MAX_ATTEMPTS then 1 else MAX_ATTEMPTS - s.clearAttempts
  }

  lemma ClearBudgetStep(s: State, step: Step)
    requires Inv(s) && !Releases(s, step) && !step.WorkerRunning?
    ensures ClearBudget(Next(s, step)) + (if SendsClear(s, step) then 1 else 0) <= ClearBudget(s)
    ensures SendsClear(s, step) && step.written ==>
      Next(s, step) == s.(clearPending := false, clearAttempts := 0, playing := None)
  {
  }

  /** A release is followed by at most four clears, until the next release or newly running Worker. */
  lemma {:induction false} AtMostFourClears(steps: seq<Step>, j: nat, n: nat)
    requires j <= n <= |steps|
    requires forall m :: j <= m < n ==> !Releases(At(steps, m), steps[m]) && !steps[m].WorkerRunning?
    ensures Clears(steps, j, n) + ClearBudget(At(steps, n)) <= ClearBudget(At(steps, j)) <= MAX_ATTEMPTS
    decreases n
  {
    if j < n {
      AtMostFourClears(steps, j, n - 1);
      InvAt(steps, n - 1);
      ClearBudgetStep(At(steps, n - 1), steps[n - 1]);
    }
  }
}
