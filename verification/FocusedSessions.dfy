/**
  Focused media end to end: control sessions that share one owner token, their
  start dispatches with commit cells, the three queues, and the service loop
  that drains them phase by phase and reconciles the Worker (FocusedMedia).
*/
module FocusedSessions {
  import opened Wrappers
  import opened CommitCell
  import opened FocusedMedia
  import SessionIds

  /**
    Where a session task stands: a refused offer still has to give up the token,
    a leaving one to publish its number.
  */
  datatype Session = Idle | Waiting(on: nat) | Refused | Releasing | Ended

  datatype Dispatch = Dispatch(control: nat, start: Start, commit: Commit, reply: Option<bool>)

  /** The part of the loop body that comes next. */
  datatype Phase = Top | Starting | Reconfiguring | Forwarding | Restoring | Clearing | Applying | Events

  /**
    The last three fields are history: the sessions one of whose starts was
    accepted, those that gave up the token since their last accepted start, and
    those that published a release.
  */
  datatype System = System(
    loop: State, phase: Phase, owner: nat, released: nat, nextSession: nat, sessions: map<nat, Session>,
    bound: set<nat>, dispatches: seq<Dispatch>, starts: seq<nat>, reconfigures: seq<(nat, nat)>,
    feedback: seq<(nat, nat)>, accepted: set<nat>, gaveUp: set<nat>, published: set<nat>)

  const NOBODY := System(FocusedMedia.INITIAL, Top, 0, 0, 1, map[], {}, [], [], [], [], {}, {}, {})

  /** Moves of the sessions, then moves of the loop; `queued` is false for a full queue or a refused destination. */
  datatype Move =
    | Connect
    | Offer(session: nat, start: Start, queued: bool)
    | FireTimeout(session: nat)
    | TakeReply(session: nat)
    | GiveUp(session: nat)
    | SendReconfigure(session: nat, profile: nat)
    | SendFeedback(session: nat, stream: nat)
    | Leave(session: nat)
    | PublishRelease(session: nat)
    | LoadFloor
    | TakeStart(written: bool, opens: bool, cleared: bool)
    | TakeReconfigure
    | TakeFeedback
    | TryRestore(due: bool, written: bool, opens: bool)
    | TryClear(due: bool, written: bool)
    | TryApply(due: bool, written: bool)
    | ChangeWorker(worker: Option<nat>)
    | ReportRunning
    | Pass                                      // an empty queue, or the end of the iteration
    | FailStream                                // the Worker's own failure, at any time

  function Is(s: System, id: nat, session: Session): bool {
    id in s.sessions && s.sessions[id] == session
  }

  function With(s: System, id: nat, session: Session): System {
    s.(sessions := s.sessions[id := session])
  }

  function OnOffer(s: System, id: nat, start: Start, queued: bool): System {
    if !Is(s, id, Idle) || (s.owner != 0 && s.owner != id) then s
    else if !queued then With(s, id, Refused).(owner := id)
    else With(s, id, Waiting(|s.dispatches|)).(
           owner := id, dispatches := s.dispatches + [Dispatch(id, start, Pending, None)],
           starts := s.starts + [|s.dispatches|])
  }

  function OnTimeout(s: System, id: nat): System {
    if id !in s.sessions || !s.sessions[id].Waiting? || s.sessions[id].on >= |s.dispatches| then s else
    var d := s.sessions[id].on;
    var (cell, won) := Exchange(s.dispatches[d].commit, Cancelled);
    if won then With(s, id, Refused).(dispatches := s.dispatches[d := s.dispatches[d].(commit := cell)]) else s
  }

  function OnTakeReply(s: System, id: nat): System {
    if id !in s.sessions || !s.sessions[id].Waiting? || s.sessions[id].on >= |s.dispatches| then s else
    match s.dispatches[s.sessions[id].on].reply
    case None => s
    case Some(ok) =>
      if ok then With(s, id, Idle).(bound := s.bound + {id}, gaveUp := s.gaveUp - {id}) else With(s, id, Refused)
  }

  function OnGiveUp(s: System, id: nat): System {
    if !Is(s, id, Refused) then s
    else With(s, id, Idle).(owner := if s.owner == id then 0 else s.owner, gaveUp := s.gaveUp + {id})
  }

  /** Leaving releases the token, and only a session that still held it publishes its number. */
  function OnLeave(s: System, id: nat): System {
    if !Is(s, id, Idle) then s
    else if s.owner == id then With(s, id, Releasing).(owner := 0) else With(s, id, Ended)
  }

  function OnPublish(s: System, id: nat): System {
    if !Is(s, id, Releasing) then s
    else With(s, id, Ended).(released := if s.released < id then id else s.released, published := s.published + {id})
  }

  /** The loop's own move, if the phase allows one. */
  function LoopStep(s: System, m: Move): Option<Step> {
    match m
    case LoadFloor => if s.phase.Top? then Some(ObserveFloor(s.released)) else None
    case TakeStart(written, opens, cleared) =>
      if !s.phase.Starting? || s.starts == [] || s.starts[0] >= |s.dispatches| then None else
      var d := s.dispatches[s.starts[0]];
      Some(StartDispatch(d.control, d.start, written, opens, d.commit.Pending?, cleared))
    case TakeReconfigure =>
      if !s.phase.Reconfiguring? || s.reconfigures == [] then None
      else Some(ReconfigureDispatch(s.reconfigures[0].0, s.reconfigures[0].1))
    case TakeFeedback =>
      if !s.phase.Forwarding? || s.feedback == [] then None
      else Some(FeedbackDispatch(s.feedback[0].0, s.feedback[0].1))
    case TryRestore(due, written, opens) => if s.phase.Restoring? then Some(Restore(due, written, opens)) else None
    case TryClear(due, written) => if s.phase.Clearing? then Some(ClearProfile(due, written)) else None
    case TryApply(due, written) => if s.phase.Applying? then Some(ApplyProfile(due, written)) else None
    case ChangeWorker(worker) => if s.phase.Events? then Some(WorkerChange(worker)) else None
    case ReportRunning => if s.phase.Events? then Some(WorkerRunning) else None
    case FailStream => Some(StreamFails)
    case _ => None
  }

  /** The dispatch after the loop has handled it: a delivered start tries to commit, and every one is answered. */
  function Answered(s: State, d: Dispatch, step: Step): Dispatch {
    d.(commit := if StartDelivered(s, step) then Exchange(d.commit, Committed).0 else d.commit,
       reply := Some(StartAccepted(s, step)))
  }

  /** The rest of the system after the loop made `step`. */
  function OnLoop(s: System, m: Move, step: Step): System
    requires LoopStep(s, m) == Some(step)
  {
    var t := s.(loop := Next(s.loop, step));
    match m
    case LoadFloor => t.(phase := Starting)
    case TakeStart(_, _, _) =>
      var d := s.starts[0];
      t.(starts := s.starts[1..], dispatches := s.dispatches[d := Answered(s.loop, s.dispatches[d], step)],
         accepted := s.accepted + if StartAccepted(s.loop, step) then {s.dispatches[d].control} else {})
    case TakeReconfigure => t.(reconfigures := s.reconfigures[1..])
    case TakeFeedback => t.(feedback := s.feedback[1..])
    case TryRestore(_, _, _) => t.(phase := Clearing)
    case TryClear(_, _) => t.(phase := Applying)
    case TryApply(_, _) => t.(phase := Events)
    case _ => t
  }

  function OnPass(s: System): System {
    match s.phase
    case Starting => if s.starts == [] then s.(phase := Reconfiguring) else s
    case Reconfiguring => if s.reconfigures == [] then s.(phase := Forwarding) else s
    case Forwarding => if s.feedback == [] then s.(phase := Restoring) else s
    case Events => s.(phase := Top)
    case _ => s
  }

  function Moved(s: System, m: Move): System {
    match m
    case Connect =>
      if s.nextSession >= SessionIds.WORD then s
      else With(s, s.nextSession, Idle).(nextSession := s.nextSession + 1)
    case Offer(id, start, queued) => OnOffer(s, id, start, queued)
    case FireTimeout(id) => OnTimeout(s, id)
    case TakeReply(id) => OnTakeReply(s, id)
    case GiveUp(id) => OnGiveUp(s, id)
    case SendReconfigure(id, profile) =>
      if Is(s, id, Idle) && s.owner == id &&
        id in s.bound then s.(reconfigures := s.reconfigures + [(id, profile)]) else s
    case SendFeedback(id, stream) =>
      if Is(s, id, Idle) && s.owner == id then s.(feedback := s.feedback + [(id, stream)]) else s
    case Leave(id) => OnLeave(s, id)
    case PublishRelease(id) => OnPublish(s, id)
    case Pass => OnPass(s)
    case _ => if LoopStep(s, m).Some? then OnLoop(s, m, LoopStep(s, m).value) else s
  }

  function After(moves: seq<Move>): System {
    if moves == [] then NOBODY else Moved(After(moves[..|moves| - 1]), moves[|moves| - 1])
  }

  // ---------------------------------------------------------- the loop's run

  /** The loop's own steps in a run of the system. */
  function Trace(moves: seq<Move>): seq<Step> {
    if moves == [] then [] else
    var before := moves[..|moves| - 1];
    var step := LoopStep(After(before), moves[|moves| - 1]);
    if step.Some? then Trace(before) + [step.value] else Trace(before)
  }

  lemma MovedLoop(s: System, m: Move)
    ensures Moved(s, m).loop == if LoopStep(s, m).Some? then Next(s.loop, LoopStep(s, m).value) else s.loop
  {
  }

  /** Every run of the system is a run of the loop, so everything proved of all loop runs holds here. */
  lemma {:induction false} LoopIsARun(moves: seq<Move>)
    ensures After(moves).loop == At(Trace(moves), |Trace(moves)|)
  {
    if moves != [] {
      var before, m := moves[..|moves| - 1], moves[|moves| - 1];
      LoopIsARun(before);
      MovedLoop(After(before), m);
      var step := LoopStep(After(before), m);
      if step.Some? {
        var trace := Trace(before);
        PrefixAgrees(trace, [step.value], 0, |trace|);
        assert Trace(moves) == trace + [step.value] && (trace + [step.value])[|trace|] == step.value;
      }
    }
  }

  // -------------------------------------------------------------- invariant

  ghost predicate SessionOk(s: System, id: nat)
    requires id in s.sessions
  {
    && 0 < id < s.nextSession
    && (s.sessions[id].Waiting? ==> s.owner == id && OnDispatch(s, id, s.sessions[id].on))
    && (s.sessions[id].Refused? ==> s.owner == id)
    && (s.sessions[id].Releasing? || s.sessions[id].Ended? ==> s.owner != id)
    && TokenOk(s, id)
  }

  /** A start of the session was accepted, and the session gave up the token on no offer since. */
  predicate Keeps(s: System, id: nat) {
    id in s.bound && id !in s.gaveUp
  }

  /** An idle session holds the token exactly if it keeps it, and only such a session publishes when it leaves. */
  ghost predicate TokenOk(s: System, id: nat)
    requires id in s.sessions
  {
    match s.sessions[id]
    case Idle => (s.owner == id <==> Keeps(s, id)) && id !in s.published
    case Releasing => Keeps(s, id) && id !in s.published
    case Ended => id in s.published <==> Keeps(s, id)
    case _ => id !in s.published
  }

  predicate OnDispatch(s: System, id: nat, d: nat) {
    d < |s.dispatches| && s.dispatches[d].control == id && !s.dispatches[d].commit.Cancelled?
  }

  /** An uncancelled, unanswered dispatch still has its session waiting for it. */
  ghost predicate DispatchOk(s: System, d: nat)
    requires d < |s.dispatches|
  {
    && (s.dispatches[d].commit.Pending? && s.dispatches[d].reply.None? ==> Is(s, s.dispatches[d].control, Waiting(d)))
    && (s.dispatches[d].reply == Some(true) ==>
          s.dispatches[d].control in s.accepted && s.dispatches[d].commit.Committed?)
  }

  predicate QueuedOk(s: System, d: nat) {
    d < |s.dispatches| && s.dispatches[d].reply.None?
  }

  predicate NoRepeats(queue: seq<nat>) {
    forall i, j :: 0 <= i < j < |queue| ==> queue[i] != queue[j]
  }

  ghost predicate HistoryOk(s: System) {
    && s.bound <= s.accepted
    && (forall i :: 0 <= i < |s.reconfigures| ==> s.reconfigures[i].0 in s.accepted)
    && (s.loop.session.Some? ==> s.loop.session.value in s.accepted)
    && (s.loop.start.Some? ==> s.loop.startSession in s.accepted)
  }

  /** The session of an accepted start has taken the answer, or waits with the answer ready. */
  ghost predicate AcceptedOk(s: System, id: nat) {
    && id in s.sessions
    && (id in s.bound || (s.sessions[id].Waiting? && Granted(s, s.sessions[id].on)))
  }

  predicate Granted(s: System, d: nat) {
    d < |s.dispatches| && s.dispatches[d].reply == Some(true)
  }

  /** The release floor is the greatest published session. */
  ghost predicate ReleasedOk(s: System) {
    && (s.released == 0 || s.released in s.published)
    && (forall p :: p in s.published ==> p <= s.released && p in s.sessions)
  }

  ghost predicate Inv(s: System) {
    && 0 < s.nextSession <= SessionIds.WORD
    && (forall id :: id in s.sessions ==> SessionOk(s, id))
    && (forall d :: 0 <= d < |s.dispatches| ==> DispatchOk(s, d))
    && (forall i :: 0 <= i < |s.starts| ==> QueuedOk(s, s.starts[i]))
    && (forall id :: id in s.accepted ==> AcceptedOk(s, id))
    && NoRepeats(s.starts) && HistoryOk(s) && ReleasedOk(s) && (s.owner == 0 || s.owner in s.sessions)
    && FocusedMedia.Inv(s.loop)
  }

  lemma InvOffer(s: System, id: nat, start: Start, queued: bool)
    requires Inv(s)
    ensures Inv(OnOffer(s, id, start, queued))
  {
    var t := OnOffer(s, id, start, queued);
    forall i | i in t.accepted ensures AcceptedOk(t, i) {
      assert i in s.accepted ==> AcceptedOk(s, i);
    }
    forall i | i in t.sessions ensures SessionOk(t, i) {
      assert SessionOk(s, i);
    }
    forall d | 0 <= d < |t.dispatches| ensures DispatchOk(t, d) {
      assert d < |s.dispatches| ==> DispatchOk(s, d);
    }
    forall i | 0 <= i < |t.starts| ensures QueuedOk(t, t.starts[i]) {
      assert i < |s.starts| ==> QueuedOk(s, s.starts[i]);
    }
  }

  lemma InvTimeout(s: System, id: nat)
    requires Inv(s)
    ensures Inv(OnTimeout(s, id))
  {
    var t := OnTimeout(s, id);
    if id in s.sessions && s.sessions[id].Waiting? {
      assert SessionOk(s, id) && DispatchOk(s, s.sessions[id].on);
    }
    forall i | i in t.accepted ensures AcceptedOk(t, i) {
      assert AcceptedOk(s, i) && SessionOk(s, i);
    }
    forall i | i in t.sessions ensures SessionOk(t, i) {
      assert SessionOk(s, i);
    }
    forall d | 0 <= d < |t.dispatches| ensures DispatchOk(t, d) {
      assert DispatchOk(s, d);
    }
    forall i | 0 <= i < |t.starts| ensures QueuedOk(t, t.starts[i]) {
      assert QueuedOk(s, s.starts[i]);
    }
  }

  lemma InvTakeReply(s: System, id: nat)
    requires Inv(s)
    ensures Inv(OnTakeReply(s, id))
  {
    var t := OnTakeReply(s, id);
    if id in s.sessions && s.sessions[id].Waiting? {
      assert SessionOk(s, id);
      assert DispatchOk(s, s.sessions[id].on);
    }
    forall i | i in t.accepted ensures AcceptedOk(t, i) {
      assert i in s.accepted ==> AcceptedOk(s, i);
    }
    forall i | i in t.sessions ensures SessionOk(t, i) {
      assert SessionOk(s, i);
    }
    SameDispatches(s, t, id);
  }

  /** A session other than the waiting ones changes; the dispatches and the start queue stay. */
  lemma SameDispatches(s: System, t: System, id: nat)
    requires Inv(s) && t.dispatches == s.dispatches && t.starts == s.starts && t.accepted == s.accepted
    requires forall i :: i != id && i in s.sessions ==> Is(t, i, s.sessions[i])
    requires id in s.sessions && s.sessions[id].Waiting? ==>
      Is(t, id, s.sessions[id]) || DispatchAnswered(s, s.sessions[id].on)
    ensures forall d :: 0 <= d < |t.dispatches| ==> DispatchOk(t, d)
    ensures forall i :: 0 <= i < |t.starts| ==> QueuedOk(t, t.starts[i])
  {
    forall d | 0 <= d < |t.dispatches| ensures DispatchOk(t, d) {
      assert DispatchOk(s, d);
    }
    forall i | 0 <= i < |t.starts| ensures QueuedOk(t, t.starts[i]) {
      assert QueuedOk(s, s.starts[i]);
    }
  }

  predicate DispatchAnswered(s: System, d: nat) {
    d < |s.dispatches| && s.dispatches[d].reply.Some?
  }

  lemma InvGiveUp(s: System, id: nat)
    requires Inv(s)
    ensures Inv(OnGiveUp(s, id))
  {
    var t := OnGiveUp(s, id);
    forall i | i in t.accepted ensures AcceptedOk(t, i) {
      assert AcceptedOk(s, i);
    }
    forall i | i in t.sessions ensures SessionOk(t, i) {
      assert SessionOk(s, i);
    }
    SameDispatches(s, t, id);
  }

  lemma InvLeave(s: System, id: nat)
    requires Inv(s)
    ensures Inv(OnLeave(s, id))
  {
    var t := OnLeave(s, id);
    forall i | i in t.accepted ensures AcceptedOk(t, i) {
      assert AcceptedOk(s, i);
    }
    forall i | i in t.sessions ensures SessionOk(t, i) {
      assert SessionOk(s, i);
    }
    SameDispatches(s, t, id);
  }

  lemma InvPublish(s: System, id: nat)
    requires Inv(s)
    ensures Inv(OnPublish(s, id))
  {
    var t := OnPublish(s, id);
    forall i | i in t.accepted ensures AcceptedOk(t, i) {
      assert AcceptedOk(s, i);
    }
    forall i | i in t.sessions ensures SessionOk(t, i) {
      assert SessionOk(s, i);
    }
    SameDispatches(s, t, id);
  }

  lemma InvConnect(s: System)
    requires Inv(s)
    ensures Inv(Moved(s, Connect))
  {
    var t := Moved(s, Connect);
    assert forall i :: i in s.sessions ==> SessionOk(s, i) && i < s.nextSession;
    forall i | i in t.accepted ensures AcceptedOk(t, i) {
      assert i in s.accepted ==> AcceptedOk(s, i);
    }
    forall i | i in t.sessions ensures SessionOk(t, i) {
      assert i in s.sessions ==> SessionOk(s, i);
    }
    SameDispatches(s, t, s.nextSession);
  }

  /** The parts of the invariant that speak of neither the loop's variables nor its two other queues. */
  lemma SameSessions(s: System, t: System)
    requires Inv(s)
    requires t == s.(loop := t.loop, phase := t.phase, reconfigures := t.reconfigures, feedback := t.feedback)
    requires HistoryOk(t) && FocusedMedia.Inv(t.loop)
    ensures Inv(t)
  {
    forall i | i in t.accepted ensures AcceptedOk(t, i) {
      assert AcceptedOk(s, i);
    }
    forall i | i in t.sessions ensures SessionOk(t, i) {
      assert SessionOk(s, i);
    }
    SameDispatches(s, t, 0);
  }

  lemma InvQueues(s: System, m: Move)
    requires Inv(s) && (m.SendReconfigure? || m.SendFeedback? || m.Pass?)
    ensures Inv(Moved(s, m))
  {
    SameSessions(s, Moved(s, m));
  }

  lemma InvTakeStart(s: System, m: Move, step: Step)
    requires Inv(s) && m.TakeStart? && LoopStep(s, m) == Some(step)
    ensures Inv(OnLoop(s, m, step))
  {
    var t, d := OnLoop(s, m, step), s.starts[0];
    FocusedMedia.InvNext(s.loop, step);
    assert QueuedOk(s, d) && DispatchOk(s, d);
    forall i | i in t.accepted ensures AcceptedOk(t, i) {
      assert i in s.accepted ==> AcceptedOk(s, i);
    }
    forall i | i in t.sessions ensures SessionOk(t, i) {
      assert SessionOk(s, i);
    }
    forall e | 0 <= e < |t.dispatches| ensures DispatchOk(t, e) {
      assert DispatchOk(s, e);
    }
    forall i | 0 <= i < |t.starts| ensures QueuedOk(t, t.starts[i]) {
      assert QueuedOk(s, s.starts[i + 1]) && s.starts[0] != s.starts[i + 1];
    }
  }

  lemma InvLoop(s: System, m: Move, step: Step)
    requires Inv(s) && !m.TakeStart? && LoopStep(s, m) == Some(step)
    ensures Inv(OnLoop(s, m, step))
  {
    FocusedMedia.InvNext(s.loop, step);
    SameSessions(s, OnLoop(s, m, step));
  }

  lemma InvMoved(s: System, m: Move)
    requires Inv(s)
    ensures Inv(Moved(s, m))
  {
    var step := LoopStep(s, m);
    if step.Some? {
      if m.TakeStart? {
        InvTakeStart(s, m, step.value);
      } else {
        InvLoop(s, m, step.value);
      }
    } else {
      match m
      case Connect => InvConnect(s);
      case Offer(id, start, queued) => InvOffer(s, id, start, queued);
      case FireTimeout(id) => InvTimeout(s, id);
      case TakeReply(id) => InvTakeReply(s, id);
      case GiveUp(id) => InvGiveUp(s, id);
      case Leave(id) => InvLeave(s, id);
      case PublishRelease(id) => InvPublish(s, id);
      case SendReconfigure(_, _) => InvQueues(s, m);
      case SendFeedback(_, _) => InvQueues(s, m);
      case Pass => InvQueues(s, m);
      case _ =>
    }
  }

  lemma {:induction false} InvAfter(moves: seq<Move>)
    ensures Inv(After(moves))
  {
    if moves != [] {
      InvAfter(moves[..|moves| - 1]);
      InvMoved(After(moves[..|moves| - 1]), moves[|moves| - 1]);
    }
  }

  // ---------------------------------------------------------------- theorems

  /** Of all start dispatches at most one can still be committed, and its session holds the owner token. */
  lemma {:induction false} OneLiveStart(moves: seq<Move>, d: nat, e: nat)
    requires d < |After(moves).dispatches| && Live(After(moves).dispatches[d])
    requires e < |After(moves).dispatches| && Live(After(moves).dispatches[e])
    ensures d == e && After(moves).owner == After(moves).dispatches[d].control
  {
    var s := After(moves);
    InvAfter(moves);
    assert DispatchOk(s, d) && DispatchOk(s, e);
    assert SessionOk(s, s.dispatches[d].control) && SessionOk(s, s.dispatches[e].control);
  }

  predicate Live(d: Dispatch) {
    d.commit.Pending? && d.reply.None?
  }

  /** A session that left or is leaving never holds the token, and a waiting one always does. */
  lemma {:induction false} OwnerIsPresent(moves: seq<Move>, id: nat)
    requires id in After(moves).sessions
    ensures var s := After(moves);
      && (s.sessions[id].Waiting? ==> s.owner == id)
      && (s.sessions[id].Releasing? || s.sessions[id].Ended? ==> s.owner != id)
  {
    InvAfter(moves);
    assert SessionOk(After(moves), id);
  }

  /** The desired start was dispatched by a session other than the associated one. */
  predicate Mixed(s: State) {
    s.start.Some? && s.session != Some(s.startSession)
  }

  lemma MixingStep(s: State, step: Step)
    requires FocusedMedia.Inv(s) && !Mixed(s)
    ensures Mixed(Next(s, step)) <==> step.ReconfigureDispatch? && s.start.Some? && step.control > s.startSession
  {
  }

  lemma OnlyTakenReconfigures(s: System, m: Move)
    ensures LoopStep(s, m).Some? && LoopStep(s, m).value.ReconfigureDispatch? <==>
      m.TakeReconfigure? && s.phase.Reconfiguring? && s.reconfigures != []
  {
  }

  lemma MixingIn(s: System, m: Move)
    requires FocusedMedia.Inv(s.loop) && !Mixed(s.loop)
    ensures Mixed(Moved(s, m).loop) <==>
      && m.TakeReconfigure? && s.phase.Reconfiguring? && s.reconfigures != []
      && s.loop.start.Some? && s.reconfigures[0].0 > s.loop.startSession
  {
    MovedLoop(s, m);
    OnlyTakenReconfigures(s, m);
    if LoopStep(s, m).Some? {
      MixingStep(s.loop, LoopStep(s, m).value);
    }
  }

  /**
    A move separates the desired start from the associated session exactly when
    the loop takes a queued reconfigure of a session above the one that started.
  */
  lemma {:induction false} MixingMove(moves: seq<Move>, m: Move)
    requires !Mixed(After(moves).loop)
    ensures var s := After(moves);
      Mixed(Moved(s, m).loop) <==>
        && m.TakeReconfigure? && s.phase.Reconfiguring? && s.reconfigures != []
        && s.loop.start.Some? && s.reconfigures[0].0 > s.loop.startSession
  {
    InvAfter(moves);
    MixingIn(After(moves), m);
  }

  /** Both sessions of a separated start had a start accepted, and the associated one has the greater number. */
  lemma {:induction false} SeparatedSessionsBothStarted(moves: seq<Move>)
    requires Mixed(After(moves).loop)
    ensures var s := After(moves);
      && s.loop.startSession in s.accepted && s.loop.session.Some? && s.loop.session.value in s.accepted
      && s.loop.startSession < s.loop.session.value
  {
    InvAfter(moves);
  }

  /**
    A leaving session goes on to publish a release exactly if a start of it was
    accepted and none of its offers was refused since.
  */
  lemma {:induction false} LeavingReleases(moves: seq<Move>, id: nat)
    requires Is(After(moves), id, Idle)
    ensures var s := After(moves); Is(Moved(s, Leave(id)), id, if Keeps(s, id) then Releasing else Ended)
  {
    InvAfter(moves);
    assert SessionOk(After(moves), id);
  }

  /**
    A reconfigure or feedback of a session is queued exactly while the session
    is idle, a start of it was accepted, and it gave up the token on no refused
    offer since.
  */
  lemma {:induction false} SendsExactly(moves: seq<Move>, id: nat, value: nat)
    ensures var s := After(moves);
      var may := Is(s, id, Idle) && Keeps(s, id);
      && Moved(s, SendReconfigure(id, value)).reconfigures ==
         s.reconfigures + (if may then [(id, value)] else [])
      && Moved(s, SendFeedback(id, value)).feedback == s.feedback + (if may then [(id, value)] else [])
  {
    var s := After(moves);
    InvAfter(moves);
    if id in s.sessions {
      assert SessionOk(s, id);
    }
  }

  /** Of the sessions with an accepted start that have ended, exactly those that gave up the token published nothing. */
  lemma {:induction false} EndedSessionPublished(moves: seq<Move>, id: nat)
    requires Is(After(moves), id, Ended) && id in After(moves).accepted
    ensures id in After(moves).published <==> id !in After(moves).gaveUp
  {
    InvAfter(moves);
    assert SessionOk(After(moves), id) && AcceptedOk(After(moves), id);
  }

  /** The loop ends the desired start exactly when the floor it reads is new and covers the associated session. */
  lemma {:induction false} ReleaseEndsTheStart(moves: seq<Move>)
    requires After(moves).phase.Top? && After(moves).loop.start.Some?
    ensures var s := After(moves);
      && s.loop.session.Some?
      && (Moved(s, LoadFloor).loop.start.None? <==> s.released > s.loop.floor && s.loop.session.value <= s.released)
  {
    InvAfter(moves);
  }

  predicate LeftWithTheToken(s: System, id: nat) {
    Is(s, id, Ended) && Keeps(s, id)
  }

  /** The release floor is the greatest session that left with the token. */
  lemma {:induction false} FloorReaches(s: System, id: nat)
    requires Inv(s) && 0 < id
    ensures id <= s.released <==> exists p :: id <= p && LeftWithTheToken(s, p)
  {
    forall p | p in s.sessions ensures p in s.published <==> LeftWithTheToken(s, p) {
      assert SessionOk(s, p);
    }
    assert s.released in s.published ==> LeftWithTheToken(s, s.released);
  }

  /** A session after the starting one reaches the associated one and left with the token. */
  ghost predicate LaterRelease(s: System)
    requires s.loop.session.Some?
  {
    exists p :: s.loop.startSession < p && s.loop.session.value <= p && LeftWithTheToken(s, p)
  }

  lemma {:induction false} FloorCoversExactly(s: System)
    requires Inv(s) && s.loop.start.Some? && Is(s, s.loop.startSession, Ended)
    ensures s.loop.floor < s.loop.session.value
    ensures s.loop.session.value <= s.released <==>
      (!Mixed(s.loop) && s.loop.startSession !in s.gaveUp) || LaterRelease(s)
  {
    FloorReaches(s, s.loop.session.value);
    assert AcceptedOk(s, s.loop.startSession);
  }

  /**
    The start of an ended session ends exactly if that session is still the
    associated one and had not given up the token, or if a later session that
    reaches the associated one left with the token.
  */
  lemma {:induction false} StartOfAnEndedSession(moves: seq<Move>)
    requires After(moves).phase.Top? && After(moves).loop.start.Some?
    requires Is(After(moves), After(moves).loop.startSession, Ended)
    ensures var s := After(moves);
      && s.loop.session.Some?
      && (Moved(s, LoadFloor).loop.start.None? <==>
            (!Mixed(s.loop) && s.loop.startSession !in s.gaveUp) || LaterRelease(s))
  {
    InvAfter(moves);
    ReleaseEndsTheStart(moves);
    FloorCoversExactly(After(moves));
  }

  // ------------------------------------- a start that outlives its session

  /** A set of states that every move stays in. */
  ghost predicate Closed(reach: System -> bool) {
    forall s, m :: reach(s) ==> reach(Moved(s, m))
  }

  lemma Make(reach: System -> bool, s: System, m: Move) returns (t: System)
    requires Closed(reach) && reach(s)
    ensures t == Moved(s, m) && reach(t)
  {
    t := Moved(s, m);
  }

  ghost function AfterSomeRun(): System -> bool {
    s => exists moves :: After(moves) == s
  }

  lemma {:induction false} RunsAreClosed()
    ensures Closed(AfterSomeRun()) && AfterSomeRun()(NOBODY)
  {
    assert After([]) == NOBODY;
    forall s, m | AfterSomeRun()(s) ensures AfterSomeRun()(Moved(s, m)) {
      var moves :| After(moves) == s;
      assert (moves + [m])[..|moves|] == moves;
      assert After(moves + [m]) == Moved(s, m);
    }
  }

  /** The rest of an iteration in which nothing more is queued, pending or due. */
  lemma {:induction false} RestOfIteration(reach: System -> bool, s: System) returns (t: System)
    requires Closed(reach) && reach(s) && s.phase.Reconfiguring? && s.reconfigures == [] && s.feedback == [] &&
      !s.loop.clearPending
    ensures reach(t) && t == s.(phase := Events)
  {
    t := Make(reach, s, Pass);
    assert t == s.(phase := Forwarding);
    t := Make(reach, t, Pass);
    assert t == s.(phase := Restoring);
    t := Make(reach, t, TryRestore(false, false, false));
    assert t == s.(phase := Clearing);
    t := Make(reach, t, TryClear(false, false));
    assert t == s.(phase := Applying);
    t := Make(reach, t, TryApply(false, false));
  }

  const WITH_WORKER := NOBODY.(loop := FocusedMedia.INITIAL.(worker := Some(10)))

  /** One iteration with nothing to do, in which Worker 10 comes up. */
  lemma {:induction false} WorkerComesUp(reach: System -> bool)
    requires Closed(reach) && reach(NOBODY)
    ensures reach(WITH_WORKER)
  {
    var s := Make(reach, NOBODY, LoadFloor);
    s := Make(reach, s, Pass);
    assert s == NOBODY.(phase := Reconfiguring);
    s := RestOfIteration(reach, s);
    s := Make(reach, s, ChangeWorker(Some(10)));
    s := Make(reach, s, Pass);
  }

  /**
    Session 2 has an accepted start and a queued reconfigure, and lost the token
    with a second start that timed out.
  */
  function SecondStartTimedOut(a: Start, b: Start): System {
    System(
      FocusedMedia.INITIAL.(worker := Some(10), start := Some(a), session := Some(2), startWorker := Some(10),
        playing := Some(a), startSession := 2),
      Starting, 0, 0, 3, map[1 := Idle, 2 := Idle], {2},
      [Dispatch(2, a, Committed, Some(true)), Dispatch(2, b, Cancelled, None)], [1], [(2, 5)], [], {2}, {2}, {})
  }

  /** The loop accepts the only start ever dispatched. */
  lemma AcceptsTheFirst(s: System, id: nat, a: Start)
    requires s.phase.Starting? && s.starts == [0] && s.dispatches == [Dispatch(id, a, Pending, None)] && id > 0
    requires s.loop == WITH_WORKER.loop
    ensures Moved(s, TakeStart(true, true, true)) ==
      s.(loop := s.loop.(start := Some(a), session := Some(id), startWorker := Some(10), playing := Some(a),
                         startSession := id),
         dispatches := [Dispatch(id, a, Committed, Some(true))], starts := [], accepted := s.accepted + {id})
  {
  }

  lemma {:induction false} FirstStartIsAccepted(reach: System -> bool, a: Start, b: Start) returns (s: System)
    requires Closed(reach) && reach(NOBODY)
    ensures var end := SecondStartTimedOut(a, b);
      s == end.(owner := 2, sessions := map[1 := Idle, 2 := Waiting(0)], bound := {}, gaveUp := {},
        dispatches := [end.dispatches[0]], starts := [], reconfigures := [])
    ensures reach(s)
  {
    WorkerComesUp(reach);
    s := Make(reach, WITH_WORKER, Connect);
    s := Make(reach, s, Connect);
    assert s == WITH_WORKER.(nextSession := 3, sessions := map[1 := Idle, 2 := Idle]);
    s := Make(reach, s, Offer(2, a, true));
    assert s == WITH_WORKER.(owner := 2, nextSession := 3, sessions := map[1 := Idle, 2 := Waiting(0)],
      dispatches := [Dispatch(2, a, Pending, None)], starts := [0]);
    s := Make(reach, s, LoadFloor);
    assert s == WITH_WORKER.(phase := Starting, owner := 2, nextSession := 3,
      sessions := map[1 := Idle, 2 := Waiting(0)],
      dispatches := [Dispatch(2, a, Pending, None)], starts := [0]);
    AcceptsTheFirst(s, 2, a);
    s := Make(reach, s, TakeStart(true, true, true));
  }

  lemma {:induction false} SecondStartTimesOut(reach: System -> bool, a: Start, b: Start)
    requires Closed(reach) && reach(NOBODY)
    ensures reach(SecondStartTimedOut(a, b))
  {
    var end := SecondStartTimedOut(a, b);
    var s := FirstStartIsAccepted(reach, a, b);
    s := Make(reach, s, TakeReply(2));
    assert s == end.(owner := 2, gaveUp := {}, dispatches := [end.dispatches[0]], starts := [], reconfigures := []);
    s := Make(reach, s, SendReconfigure(2, 5));
    assert s == end.(owner := 2, gaveUp := {}, dispatches := [end.dispatches[0]], starts := []);
    s := Make(reach, s, Offer(2, b, true));
    assert s == end.(owner := 2, gaveUp := {}, sessions := map[1 := Idle, 2 := Waiting(1)],
      dispatches := [end.dispatches[0], Dispatch(2, b, Pending, None)]);
    s := Make(reach, s, FireTimeout(2));
    assert s == end.(owner := 2, gaveUp := {}, sessions := map[1 := Idle, 2 := Refused]);
    s := Make(reach, s, GiveUp(2));
    assert s == end;
  }

  /** The silenced Worker of FocusedMedia is reachable: a second start of the same session, timed out while queued. */
  lemma {:induction false} SilencedWorkerIsReachable(a: Start, b: Start) returns (moves: seq<Move>)
    ensures var s := After(moves); s.loop.start == Some(a) && Marked(s.loop) && s.loop.playing == None
  {
    RunsAreClosed();
    SecondStartTimesOut(AfterSomeRun(), a, b);
    var s := Make(AfterSomeRun(), SecondStartTimedOut(a, b), TakeStart(true, true, true));
    moves :| After(moves) == s;
  }

  /** Session 1 has its start accepted while the reconfigure of session 2 is still queued. */
  lemma {:induction false} OlderSessionStarts(reach: System -> bool, a: Start, b: Start, c: Start) returns (s: System)
    requires Closed(reach) && reach(NOBODY)
    ensures reach(s) && s.phase.Starting? && s.starts == [] && s.reconfigures == [(2, 5)] && s.feedback == []
    ensures s.owner == 1 && s.released == 0 && s.sessions == map[1 := Idle, 2 := Idle]
    ensures s.loop == FocusedMedia.INITIAL.(worker := Some(10), start := Some(c), session := Some(1),
      startWorker := Some(10), playing := Some(c), startSession := 1)
  {
    SecondStartTimesOut(reach, a, b);
    var from := SecondStartTimedOut(a, b);
    s := Make(reach, from, Offer(1, c, true));
    s := Make(reach, s, TakeStart(true, true, true));
    assert s == from.(loop := from.loop.(playing := None), owner := 1, sessions := map[1 := Waiting(2), 2 := Idle],
      dispatches := [from.dispatches[0], Dispatch(2, b, Cancelled, Some(false)), Dispatch(1, c, Pending, None)],
        starts := [2]);
    s := Make(reach, s, TakeStart(true, true, true));
    s := Make(reach, s, TakeReply(1));
  }

  lemma {:induction false} ReleaseIsObserved(reach: System -> bool, a: Start, b: Start, c: Start) returns (s: System)
    requires Closed(reach) && reach(NOBODY)
    ensures reach(s) && Is(s, 1, Ended) && s.owner == 0 && s.loop.floor == 1
    ensures s.loop.start == Some(c) && s.loop.startSession == 1 && s.loop.session == Some(2) &&
      s.loop.playing == Some(c)
  {
    s := OlderSessionStarts(reach, a, b, c);
    var from := s;
    s := Make(reach, s, Pass);
    s := Make(reach, s, TakeReconfigure);
    var mixed := from.loop.(profile := Some(5), session := Some(2));
    assert s == from.(loop := mixed, phase := Reconfiguring, reconfigures := []);
    s := RestOfIteration(reach, s);
    s := Make(reach, s, Pass);
    s := Make(reach, s, Leave(1));
    assert s == from.(loop := mixed, phase := Top, reconfigures := [], owner := 0,
      sessions := map[1 := Releasing, 2 := Idle]);
    s := Make(reach, s, PublishRelease(1));
    assert s == from.(loop := mixed, phase := Top, reconfigures := [], owner := 0, released := 1,
      published := from.published + {1}, sessions := map[1 := Ended, 2 := Idle]);
    s := Make(reach, s, LoadFloor);
  }

  /** The start of session 1 was accepted, and no other session ever came. */
  function OnlyStart(a: Start): System {
    WITH_WORKER.(
      loop := WITH_WORKER.loop.(start := Some(a), session := Some(1), startWorker := Some(10), playing := Some(a),
        startSession := 1),
      phase := Starting, owner := 1, nextSession := 2, sessions := map[1 := Idle], bound := {1},
      dispatches := [Dispatch(1, a, Committed, Some(true))], accepted := {1})
  }

  lemma {:induction false} OnlyStartIsAccepted(reach: System -> bool, a: Start)
    requires Closed(reach) && reach(NOBODY)
    ensures reach(OnlyStart(a))
  {
    WorkerComesUp(reach);
    var s := Make(reach, WITH_WORKER, Connect);
    s := Make(reach, s, Offer(1, a, true));
    assert s == WITH_WORKER.(owner := 1, nextSession := 2, sessions := map[1 := Waiting(0)],
      dispatches := [Dispatch(1, a, Pending, None)], starts := [0]);
    s := Make(reach, s, LoadFloor);
    AcceptsTheFirst(s, 1, a);
    s := Make(reach, s, TakeStart(true, true, true));
    assert s == OnlyStart(a).(sessions := map[1 := Waiting(0)], bound := {});
    s := Make(reach, s, TakeReply(1));
    assert s == OnlyStart(a);
  }

  /** A second offer is refused and gives up the token, so the session leaves without a release. */
  lemma {:induction false} RefusedOfferLeavesTheStart(reach: System -> bool, a: Start, b: Start) returns (s: System)
    requires Closed(reach) && reach(NOBODY)
    ensures reach(s) && s == OnlyStart(a).(owner := 0, sessions := map[1 := Ended], gaveUp := {1})
  {
    OnlyStartIsAccepted(reach, a);
    s := Make(reach, OnlyStart(a), Offer(1, b, false));
    assert s == OnlyStart(a).(sessions := map[1 := Refused]);
    s := Make(reach, s, GiveUp(1));
    assert s == OnlyStart(a).(owner := 0, gaveUp := {1});
    s := Make(reach, s, Leave(1));
  }

  /** An unseparated start is still desired and played although its session has ended, without a release. */
  lemma {:induction false} UnseparatedStartCanOutliveItsSession(a: Start, b: Start) returns (moves: seq<Move>)
    ensures var s := After(moves);
      && Is(s, 1, Ended) && s.owner == 0 && s.released == 0 && !Mixed(s.loop)
      && s.loop.start == Some(a) && s.loop.startSession == 1 && s.loop.session == Some(1) && s.loop.playing == Some(a)
  {
    RunsAreClosed();
    var s := RefusedOfferLeavesTheStart(AfterSomeRun(), a, b);
    moves :| After(moves) == s;
  }

  /**
    A reachable state in which the start of session 1 is still desired and
    played although that session has ended and its release was observed.
  */
  lemma {:induction false} StartCanOutliveItsSession(a: Start, b: Start, c: Start) returns (moves: seq<Move>)
    ensures var s := After(moves);
      && Is(s, 1, Ended) && s.owner == 0 && s.loop.floor == 1
      && s.loop.start == Some(c) && s.loop.startSession == 1 && s.loop.session == Some(2) && s.loop.playing == Some(c)
  {
    RunsAreClosed();
    var s := ReleaseIsObserved(AfterSomeRun(), a, b, c);
    moves :| After(moves) == s;
  }
}
