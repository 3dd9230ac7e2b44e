/**
  The Teacher's unicast fallback: a plan prepares attach and detach actions,
  the video runtime applies them one by one, and a failure undoes the applied
  ones by their inverses in reverse order. Which runtime calls fail is an input.
*/
module FallbackTransaction {
  import opened Wrappers

  datatype Target = Target(receiver: nat, destination: nat, presentation: nat, stream: nat, profile: nat, epoch: nat)

  datatype Binding = Binding(slot: nat, target: Target)

  datatype Action = Attach(binding: Binding) | Detach(binding: Binding) | RequestKeyframe(after: nat)

  /** The part of a binding the runtime keeps and compares; profile and receiver are not in it. */
  datatype Endpoint = Endpoint(slot: nat, presentation: nat, stream: nat, epoch: nat, destination: nat)

  function EndpointOf(b: Binding): Endpoint {
    Endpoint(b.slot, b.target.presentation, b.target.stream, b.target.epoch, b.target.destination)
  }

  function Inverse(action: Action): Option<Action> {
    match action
    case Attach(b) => Some(Detach(b))
    case Detach(b) => Some(Attach(b))
    case RequestKeyframe(_) => None
  }

  // ---------------------------------------------------------------- runtime

  /** What the runtime has attached, by slot. */
  type Attached = map<nat, Endpoint>

  datatype Applied = Changed | Unchanged | Failed

  /** The runtime's fixed sender configuration, and which of its calls succeed. */
  datatype Env = Env(accepts: Endpoint -> bool, io: nat -> bool, undo: nat -> bool)

  /** `ok`: the attach or detach itself succeeds. Stale, occupied and misconfigured actions are refused. */
  function Apply(a: Attached, action: Action, accepts: Endpoint -> bool, ok: bool): (Attached, Applied) {
    match action
    case Attach(b) =>
      var e := EndpointOf(b);
      if !accepts(e) then (a, Failed)
      else if e.slot !in a then (if ok then (a[e.slot := e], Changed) else (a, Failed))
      else (a, if a[e.slot] == e then Unchanged else Failed)
    case Detach(b) =>
      var e := EndpointOf(b);
      if !accepts(e) then (a, Failed)
      else if e.slot !in a then (a, Unchanged)
      else if a[e.slot] != e then (a, Failed)
      else if ok then (a - {e.slot}, Changed) else (a, Failed)
    case RequestKeyframe(_) => (a, if ok then Changed else Failed)
  }

  class VideoRuntime {
    var attached: Attached
    const accepts: Endpoint -> bool

    constructor (accepts: Endpoint -> bool)
      ensures attached == map[] && this.accepts == accepts
    {
      attached := map[];
      this.accepts := accepts;
    }

    method ApplyDirective(action: Action, ok: bool) returns (r: Applied)
      modifies this
      ensures (attached, r) == Apply(old(attached), action, accepts, ok)
    {
      if action.RequestKeyframe? {
        return if ok then Changed else Failed;
      }
      var e := EndpointOf(action.binding);
      if !accepts(e) {
        return Failed;
      }
      if e.slot in attached && attached[e.slot] != e {
        return Failed;
      }
      if (e.slot in attached) == action.Attach? {
        return Unchanged;
      }
      if !ok {
        return Failed;
      }
      if action.Attach? {
        attached := attached[e.slot := e];
      } else {
        attached := attached - {e.slot};
      }
      return Changed;
    }
  }

  // ------------------------------------------------------------ transaction

  datatype Outcome =
    | Committed(changed: nat)
    | RuntimeFailed
    | RollbackFailed
    | RollbackDidNotChangeState
    | UnexpectedPreparedAction

  /** Undo from the newest; `k` counts the undo calls made so far. */
  function Rollback(a: Attached, undo: seq<Action>, k: nat, env: Env): (Attached, Option<Outcome>)
    decreases |undo|
  {
    if undo == [] then (a, None) else
    var (next, r) := Apply(a, undo[|undo| - 1], env.accepts, env.undo(k));
    if r.Failed? then (next, Some(RollbackFailed))
    else if r.Unchanged? then (next, Some(RollbackDidNotChangeState))
    else Rollback(next, undo[..|undo| - 1], k + 1, env)
  }

  /** The action loop from its `k`-th action on, with the inverses collected so far. */
  function Transact(a: Attached, actions: seq<Action>, undo: seq<Action>, k: nat, env: Env): (Attached, Outcome)
    decreases |actions|
  {
    if actions == [] then (a, Committed(|undo|))
    else if Inverse(actions[0]).None? then (a, UnexpectedPreparedAction)
    else
      var (next, r) := Apply(a, actions[0], env.accepts, env.io(k));
      match r
      case Changed => Transact(next, actions[1..], undo + [Inverse(actions[0]).value], k + 1, env)
      case Unchanged => Transact(next, actions[1..], undo, k + 1, env)
      case Failed =>
        var (restored, failure) := Rollback(next, undo, 0, env);
        (restored, if failure.Some? then failure.value else RuntimeFailed)
  }

  method RollbackApplied(runtime: VideoRuntime, undo: seq<Action>, env: Env) returns (failure: Option<Outcome>)
    requires runtime.accepts == env.accepts
    modifies runtime
    ensures (runtime.attached, failure) == Rollback(old(runtime.attached), undo, 0, env)
  {
    var i, k := |undo|, 0;
    assert undo[..i] == undo;
    while i > 0
      invariant 0 <= i <= |undo| && k == |undo| - i
      invariant Rollback(runtime.attached, undo[..i], k, env) == Rollback(old(runtime.attached), undo, 0, env)
    {
      i := i - 1;
      assert undo[..i + 1][..i] == undo[..i];
      var changed := runtime.ApplyDirective(undo[i], env.undo(k));
      k := k + 1;
      if changed.Failed? {
        return Some(RollbackFailed);
      }
      if changed.Unchanged? {
        return Some(RollbackDidNotChangeState);
      }
    }
    return None;
  }

  method ApplyActions(runtime: VideoRuntime, actions: seq<Action>, env: Env) returns (outcome: Outcome)
    requires runtime.accepts == env.accepts
    modifies runtime
    ensures (runtime.attached, outcome) == Transact(old(runtime.attached), actions, [], 0, env)
  {
    var undo := [];
    for k := 0 to |actions|
      invariant Transact(runtime.attached, actions[k..], undo, k, env)
             == Transact(old(runtime.attached), actions, [], 0, env)
    {
      assert actions[k..][1..] == actions[k + 1..];
      var inverse := Inverse(actions[k]);
      if inverse.None? {
        return UnexpectedPreparedAction;
      }
      var r := runtime.ApplyDirective(actions[k], env.io(k));
      match r {
        case Changed => undo := undo + [inverse.value];
        case Unchanged =>
        case Failed =>
          var failure := RollbackApplied(runtime, undo, env);
          return if failure.Some? then failure.value else RuntimeFailed;
      }
    }
    return Committed(|undo|);
  }

  // ----------------------------------------------------------------- theory

  /** Undoing the list, newest first and without failures, changes the state at every step and ends in `original`. */
  ghost predicate LeadsBack(a: Attached, undo: seq<Action>, original: Attached, accepts: Endpoint -> bool)
    decreases |undo|
  {
    if undo == [] then a == original else
    var (next, r) := Apply(a, undo[|undo| - 1], accepts, true);
    !undo[|undo| - 1].RequestKeyframe? && r.Changed? && LeadsBack(next, undo[..|undo| - 1], original, accepts)
  }

  /** A changing action is undone by its inverse, exactly. */
  lemma InverseUndoes(a: Attached, action: Action, accepts: Endpoint -> bool, ok: bool)
    requires Inverse(action).Some? && Apply(a, action, accepts, ok).1.Changed?
    ensures Apply(Apply(a, action, accepts, ok).0, Inverse(action).value, accepts, true) == (a, Changed)
  {
    var e := EndpointOf(action.binding);
    if action.Attach? {
      assert a[e.slot := e] - {e.slot} == a;
    } else {
      assert (a - {e.slot})[e.slot := e] == a;
    }
  }

  ghost predicate UndoSucceeds(env: Env) {
    forall j :: env.undo(j)
  }

  /** Every undo call that succeeds restores one step; a failing one is the only way to stop short. */
  lemma {:induction false} RollbackRestores(a: Attached, undo: seq<Action>, k: nat, env: Env, original: Attached)
    requires LeadsBack(a, undo, original, env.accepts)
    ensures var (restored, failure) := Rollback(a, undo, k, env);
      && (failure.None? ==> restored == original)
      && (failure.Some? ==> failure == Some(RollbackFailed) && !UndoSucceeds(env))
    decreases |undo|
  {
    if undo != [] && env.undo(k) {
      var (next, r) := Apply(a, undo[|undo| - 1], env.accepts, true);
      RollbackRestores(next, undo[..|undo| - 1], k + 1, env, original);
    }
  }

  /** The state and the count a failure-free application of the whole list produces. */
  function ApplyAll(a: Attached, actions: seq<Action>, accepts: Endpoint -> bool): (Attached, nat)
    decreases |actions|
  {
    if actions == [] then (a, 0) else
    var (next, r) := Apply(a, actions[0], accepts, true);
    var (last, changed) := ApplyAll(next, actions[1..], accepts);
    (last, changed + if r.Changed? then 1 else 0)
  }

  /** With no call failing, no action of the list is refused. */
  predicate NoneRefused(a: Attached, actions: seq<Action>, accepts: Endpoint -> bool)
    decreases |actions|
  {
    actions == [] ||
    var (next, r) := Apply(a, actions[0], accepts, true);
    !r.Failed? && NoneRefused(next, actions[1..], accepts)
  }

  predicate AllInvertible(actions: seq<Action>) {
    forall i :: 0 <= i < |actions| ==> Inverse(actions[i]).Some?
  }

  /** The loop ends with everything applied, with everything undone, or with a failing undo call; nothing else. */
  ghost predicate AllOrNothing(
      a: Attached, actions: seq<Action>, done: nat, env: Env, original: Attached, end: (Attached, Outcome))
  {
    match end.1
    case Committed(changed) =>
      && NoneRefused(a, actions, env.accepts)
      && end.0 == ApplyAll(a, actions, env.accepts).0
      && changed == done + ApplyAll(a, actions, env.accepts).1
    case RuntimeFailed => end.0 == original
    case RollbackFailed => !UndoSucceeds(env)
    case RollbackDidNotChangeState => false
    case UnexpectedPreparedAction => !AllInvertible(actions)
  }

  lemma {:induction false} TransactIsAllOrNothing(
      a: Attached, actions: seq<Action>, undo: seq<Action>, k: nat, env: Env, original: Attached)
    requires LeadsBack(a, undo, original, env.accepts)
    ensures AllOrNothing(a, actions, |undo|, env, original, Transact(a, actions, undo, k, env))
    decreases |actions|
  {
    if actions != [] && Inverse(actions[0]).Some? {
      var (next, r) := Apply(a, actions[0], env.accepts, env.io(k));
      if r.Failed? {
        RollbackRestores(next, undo, 0, env, original);
        var (restored, failure) := Rollback(next, undo, 0, env);
        assert Transact(a, actions, undo, k, env) == (restored, if failure.Some? then failure.value else RuntimeFailed);
      } else {
        OkIsReproducible(a, actions[0], env.accepts, env.io(k));
        var longer := if r.Changed? then undo + [Inverse(actions[0]).value] else undo;
        assert LeadsBack(next, longer, original, env.accepts) by {
          if r.Changed? {
            InverseUndoes(a, actions[0], env.accepts, env.io(k));
            assert longer[..|longer| - 1] == undo;
          }
        }
        assert Transact(a, actions, undo, k, env) == Transact(next, actions[1..], longer, k + 1, env);
        TransactIsAllOrNothing(next, actions[1..], longer, k + 1, env, original);
        assert forall i :: 0 <= i < |actions[1..]| ==> actions[1..][i] == actions[i + 1];
        assert AllInvertible(actions) ==> AllInvertible(actions[1..]);
      }
    }
  }

  ghost predicate CallsSucceed(env: Env) {
    forall j :: env.io(j)
  }

  /** With working calls the loop commits exactly if every action has an inverse and none is refused. */
  lemma {:induction false} CommitsExactly(a: Attached, actions: seq<Action>, undo: seq<Action>, k: nat, env: Env)
    requires CallsSucceed(env)
    ensures Transact(a, actions, undo, k, env).1.Committed? <==>
      AllInvertible(actions) && NoneRefused(a, actions, env.accepts)
    decreases |actions|
  {
    if actions != [] && Inverse(actions[0]).Some? {
      var (next, applied) := Apply(a, actions[0], env.accepts, true);
      assert forall i :: 0 < i < |actions| ==> actions[i] == actions[1..][i - 1];
      assert AllInvertible(actions) <==> AllInvertible(actions[1..]);
      if applied.Failed? {
        RollbackOutcome(next, undo, 0, env);
      } else {
        var longer := if applied.Changed? then undo + [Inverse(actions[0]).value] else undo;
        assert Transact(a, actions, undo, k, env) == Transact(next, actions[1..], longer, k + 1, env);
        CommitsExactly(next, actions[1..], longer, k + 1, env);
      }
    }
  }

  lemma {:induction false} RollbackOutcome(a: Attached, undo: seq<Action>, k: nat, env: Env)
    ensures Rollback(a, undo, k, env).1.Some? ==> !Rollback(a, undo, k, env).1.value.Committed?
    decreases |undo|
  {
    if undo != [] {
      RollbackOutcome(Apply(a, undo[|undo| - 1], env.accepts, env.undo(k)).0, undo[..|undo| - 1], k + 1, env);
    }
  }

  /** A call that did not fail does what it does when nothing fails. */
  lemma OkIsReproducible(a: Attached, action: Action, accepts: Endpoint -> bool, ok: bool)
    requires !Apply(a, action, accepts, ok).1.Failed?
    ensures Apply(a, action, accepts, ok) == Apply(a, action, accepts, true)
  {
  }

  /** An action without an inverse stops the loop without undoing what was already applied. */
  lemma {:induction false} KeyframeLeavesAResidue(b: Binding, after: nat, env: Env)
    requires env.accepts(EndpointOf(b)) && env.io(0)
    ensures Transact(map[], [Attach(b), RequestKeyframe(after)], [], 0, env)
         == (map[b.slot := EndpointOf(b)], UnexpectedPreparedAction)
  {
  }

  // ------------------------------------------------------------------- plan

  const MAX_U64 := 0xFFFF_FFFF_FFFF_FFFF

  datatype Plan = Plan(targets: map<nat, Binding>, maxReceivers: nat, nextSlot: nat, revision: nat)

  datatype PlanError = InvalidRuntimeSlot | ReceiverLimitReached | RuntimeSlotExhausted | PlanChanged

  datatype Prepared = Prepared(revision: nat, target: Target, actions: seq<Action>) | Rejected(error: PlanError)

  function Prepare(p: Plan, target: Target): Prepared {
    if target.receiver in p.targets then
      var previous := p.targets[target.receiver];
      if previous.target == target then Prepared(p.revision, target, [])
      else if previous.slot == 0 then Rejected(InvalidRuntimeSlot)
      else Prepared(p.revision, target, [Detach(previous), Attach(Binding(previous.slot, target))])
    else if |p.targets| >= p.maxReceivers then Rejected(ReceiverLimitReached)
    else if p.nextSlot >= MAX_U64 then Rejected(RuntimeSlotExhausted)
    else if p.nextSlot == 0 then Rejected(InvalidRuntimeSlot)
    else Prepared(p.revision, target, [Attach(Binding(p.nextSlot, target))])
  }

  /** The revision counter wraps at 64 bits. */
  function Commit(p: Plan, prepared: Prepared): (Plan, Option<PlanError>)
    requires prepared.Prepared?
  {
    var target := prepared.target;
    if p.revision != prepared.revision then (p, Some(PlanChanged))
    else if target.receiver in p.targets then
      var previous := p.targets[target.receiver];
      if previous.target == target then (p, None)
      else if previous.slot == 0 then (p, Some(InvalidRuntimeSlot))
      else (p.(targets := p.targets[target.receiver := Binding(previous.slot, target)],
               revision := (p.revision + 1) % (MAX_U64 + 1)), None)
    else if |p.targets| >= p.maxReceivers then (p, Some(ReceiverLimitReached))
    else if p.nextSlot >= MAX_U64 then (p, Some(RuntimeSlotExhausted))
    else if p.nextSlot == 0 then (p, Some(InvalidRuntimeSlot))
    else (p.(targets := p.targets[target.receiver := Binding(p.nextSlot, target)], nextSlot := p.nextSlot + 1,
             revision := (p.revision + 1) % (MAX_U64 + 1)), None)
  }

  /** A prepared target consists of invertible actions, and committing it to the same plan cannot fail. */
  lemma PreparedIsInvertible(p: Plan, target: Target)
    requires Prepare(p, target).Prepared?
    ensures AllInvertible(Prepare(p, target).actions)
    ensures Commit(p, Prepare(p, target)).1.None?
    ensures target.receiver in Commit(p, Prepare(p, target)).0.targets
    ensures Commit(p, Prepare(p, target)).0.targets[target.receiver].target == target
  {
  }

  /** The runtime has attached exactly what the plan records, one slot for each receiver. */
  ghost predicate Agree(p: Plan, a: Attached) {
    && 0 < p.nextSlot
    && (forall r :: r in p.targets ==> Recorded(p.targets[r], r, p.nextSlot, a))
    && UniqueSlots(p.targets)
    && (forall slot :: slot in a ==> Held(p.targets, slot))
  }

  predicate UniqueSlots(targets: map<nat, Binding>) {
    forall r, q :: r in targets && q in targets && targets[r].slot == targets[q].slot ==> r == q
  }

  ghost predicate Held(targets: map<nat, Binding>, slot: nat) {
    exists r :: r in targets && targets[r].slot == slot
  }

  predicate Recorded(b: Binding, receiver: nat, nextSlot: nat, a: Attached) {
    0 < b.slot < nextSlot && b.target.receiver == receiver && b.slot in a && a[b.slot] == EndpointOf(b)
  }

  /** From an agreeing state the prepared actions each change the runtime, and it agrees with the committed plan. */
  lemma {:induction false} AgreementIsKept(p: Plan, a: Attached, target: Target, accepts: Endpoint -> bool)
    requires Agree(p, a) && Prepare(p, target).Prepared?
    requires NoneRefused(a, Prepare(p, target).actions, accepts)
    ensures ApplyAll(a, Prepare(p, target).actions, accepts).1 == |Prepare(p, target).actions|
    ensures Agree(Commit(p, Prepare(p, target)).0, ApplyAll(a, Prepare(p, target).actions, accepts).0)
  {
    var actions := Prepare(p, target).actions;
    var end, q := ApplyAll(a, actions, accepts).0, Commit(p, Prepare(p, target)).0;
    if |actions| == 1 {
      HeldSlotsAreOld(p, a);
      assert actions == [Attach(Binding(p.nextSlot, target))] && actions[1..] == [];
      var attached := a[p.nextSlot := EndpointOf(actions[0].binding)];
      assert Apply(a, actions[0], accepts, true) == (attached, Changed);
      assert ApplyAll(attached, actions[1..], accepts) == (attached, 0);
      AddedSlotAgrees(p, a, target, q, end);
    } else if |actions| == 2 {
      var previous := p.targets[target.receiver];
      assert Recorded(previous, target.receiver, p.nextSlot, a);
      var detached := a - {previous.slot};
      assert Apply(a, actions[0], accepts, true) == (detached, Changed);
      assert actions[1..] == [Attach(Binding(previous.slot, target))];
      var replaced := detached[previous.slot := EndpointOf(actions[1].binding)];
      assert ApplyAll(detached, actions[1..], accepts) == (replaced, 1);
      ReplacedSlotAgrees(p, a, target, q, end);
    }
  }

  /** A receiver of the plan can always be prepared; a new one exactly while there is room and a slot number left. */
  lemma PreparesExactly(p: Plan, a: Attached, target: Target)
    requires Agree(p, a)
    ensures Prepare(p, target).Prepared? <==>
      target.receiver in p.targets || (|p.targets| < p.maxReceivers && p.nextSlot < MAX_U64)
    ensures Prepare(p, target).Rejected? ==>
      Prepare(p, target).error == if |p.targets| >= p.maxReceivers then ReceiverLimitReached else RuntimeSlotExhausted
  {
    if target.receiver in p.targets {
      assert Recorded(p.targets[target.receiver], target.receiver, p.nextSlot, a);
    }
  }

  /** The sender configuration takes the new endpoint of the target, and that of the binding it replaces. */
  predicate Configured(p: Plan, target: Target, accepts: Endpoint -> bool) {
    if target.receiver !in p.targets then accepts(EndpointOf(Binding(p.nextSlot, target)))
    else
      var previous := p.targets[target.receiver];
      previous.target == target ||
        (accepts(EndpointOf(previous)) && accepts(EndpointOf(Binding(previous.slot, target))))
  }

  /** From an agreeing state the prepared actions are refused exactly by the sender configuration. */
  lemma {:induction false} NotRefusedExactly(p: Plan, a: Attached, target: Target, accepts: Endpoint -> bool)
    requires Agree(p, a) && Prepare(p, target).Prepared?
    ensures NoneRefused(a, Prepare(p, target).actions, accepts) <==> Configured(p, target, accepts)
  {
    var actions := Prepare(p, target).actions;
    if |actions| == 1 {
      HeldSlotsAreOld(p, a);
      assert actions[1..] == [];
    } else if |actions| == 2 {
      var previous := p.targets[target.receiver];
      assert Recorded(previous, target.receiver, p.nextSlot, a);
      var rest := [Attach(Binding(previous.slot, target))];
      assert actions == [Detach(previous)] + rest && actions[1..] == rest && rest[1..] == [];
      if accepts(EndpointOf(previous)) {
        var detached := a - {previous.slot};
        assert Apply(a, actions[0], accepts, true) == (detached, Changed);
        assert NoneRefused(detached, rest, accepts) <==> accepts(EndpointOf(Binding(previous.slot, target)));
      }
    }
  }

  lemma AddedSlotAgrees(p: Plan, a: Attached, target: Target, q: Plan, end: Attached)
    requires Agree(p, a) && target.receiver !in p.targets
    requires q.targets == p.targets[target.receiver := Binding(p.nextSlot, target)] && q.nextSlot == p.nextSlot + 1
    requires end == a[p.nextSlot := EndpointOf(Binding(p.nextSlot, target))]
    ensures Agree(q, end)
  {
    forall r | r in q.targets ensures Recorded(q.targets[r], r, q.nextSlot, end) {
      assert r != target.receiver ==> Recorded(p.targets[r], r, p.nextSlot, a);
    }
    assert UniqueSlots(q.targets) by {
      forall r | r in p.targets ensures p.targets[r].slot < p.nextSlot {
        assert Recorded(p.targets[r], r, p.nextSlot, a);
      }
    }
    forall slot | slot in end ensures Held(q.targets, slot) {
      if slot == p.nextSlot {
        assert q.targets[target.receiver].slot == slot;
      } else {
        var r :| r in p.targets && p.targets[r].slot == slot;
        assert q.targets[r].slot == slot;
      }
    }
  }

  lemma HeldSlotsAreOld(p: Plan, a: Attached)
    requires Agree(p, a)
    ensures p.nextSlot !in a
  {
  }

  lemma ReplacedSlotAgrees(p: Plan, a: Attached, target: Target, q: Plan, end: Attached)
    requires Agree(p, a) && target.receiver in p.targets
    requires var slot := p.targets[target.receiver].slot;
      && q.targets == p.targets[target.receiver := Binding(slot, target)] && q.nextSlot == p.nextSlot
      && end == (a - {slot})[slot := EndpointOf(Binding(slot, target))]
    ensures Agree(q, end)
  {
    assert Recorded(p.targets[target.receiver], target.receiver, p.nextSlot, a);
    forall r | r in q.targets ensures Recorded(q.targets[r], r, q.nextSlot, end) {
      assert Recorded(p.targets[r], r, p.nextSlot, a);
    }
    assert UniqueSlots(q.targets) by {
      assert forall r :: r in q.targets ==> q.targets[r].slot == p.targets[r].slot;
    }
    forall slot | slot in end ensures Held(q.targets, slot) {
      assert Held(p.targets, slot);
      var r :| r in p.targets && p.targets[r].slot == slot;
      assert q.targets[r].slot == slot;
    }
  }

  class SenderPlan {
    var plan: Plan

    constructor (maxReceivers: nat)
      ensures plan == Plan(map[], maxReceivers, 1, 0)
    {
      plan := Plan(map[], maxReceivers, 1, 0);
    }
  }

  datatype FallbackResult = Ok(changed: nat) | PlanFailed(error: PlanError) | ApplyFailed(outcome: Outcome)

  /**
    `apply_unicast_target_transactionally`: a success applies all prepared
    actions, returns how many changed the runtime and commits the plan; any
    other result leaves the plan as it was and, unless an undo call itself
    failed, the runtime too. Two of the error arms cannot be taken.
  */
  method ApplyUnicastTarget(
      sender: SenderPlan, runtime: VideoRuntime, target: Target, env: Env) returns (r: FallbackResult)
    requires runtime.accepts == env.accepts
    modifies sender, runtime
    ensures r.Ok? ==>
      && Prepare(old(sender.plan), target).Prepared?
      && (runtime.attached, r.changed)
         == ApplyAll(old(runtime.attached), Prepare(old(sender.plan), target).actions, env.accepts)
      && sender.plan == Commit(old(sender.plan), Prepare(old(sender.plan), target)).0
    ensures !r.Ok? ==> sender.plan == old(sender.plan)
    ensures r.Ok? && old(Agree(sender.plan, runtime.attached)) ==>
      r.changed == |Prepare(old(sender.plan), target).actions|
    ensures old(Agree(sender.plan, runtime.attached)) && UndoSucceeds(env) ==> Agree(sender.plan, runtime.attached)
    ensures r.PlanFailed? ==>
      Prepare(old(sender.plan), target) == Rejected(r.error) && runtime.attached == old(runtime.attached)
    ensures r.ApplyFailed? ==> r.outcome.RuntimeFailed? || r.outcome.RollbackFailed?
    ensures r.ApplyFailed? && UndoSucceeds(env) ==> runtime.attached == old(runtime.attached)
    ensures old(Agree(sender.plan, runtime.attached)) && CallsSucceed(env) ==>
      (r.Ok? <==> Prepare(old(sender.plan), target).Prepared? && Configured(old(sender.plan), target, env.accepts))
    ensures r.Ok? ==>
      target.receiver in sender.plan.targets && sender.plan.targets[target.receiver].target == target
  {
    var prepared := Prepare(sender.plan, target);
    if prepared.Rejected? {
      return PlanFailed(prepared.error);
    }
    PreparedIsInvertible(sender.plan, target);
    TransactIsAllOrNothing(runtime.attached, prepared.actions, [], 0, env, runtime.attached);
    if Agree(sender.plan, runtime.attached) && CallsSucceed(env) {
      CommitsExactly(runtime.attached, prepared.actions, [], 0, env);
      NotRefusedExactly(sender.plan, runtime.attached, target, env.accepts);
    }
    var outcome := ApplyActions(runtime, prepared.actions, env);
    if !outcome.Committed? {
      return ApplyFailed(outcome);
    }
    var (plan, failure) := Commit(sender.plan, prepared);
    assert failure.None?;
    if Agree(sender.plan, old(runtime.attached)) {
      AgreementIsKept(sender.plan, old(runtime.attached), target, env.accepts);
    }
    sender.plan := plan;
    return Ok(outcome.changed);
  }
}
