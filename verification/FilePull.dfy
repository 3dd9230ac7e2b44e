/**
  Ownership of the single outbound file pull. Sessions submit file-transfer
  dispatches through a queue of capacity one and race the service loop on each
  dispatch's commit cell; the pull owner is an atomic session identifier that
  the loop acquires and releases and that a disconnecting session releases.
*/
module FilePull {
  import opened Wrappers
  import opened CommitCell
  import SessionIds

  const QUEUE_CAPACITY := 1

  /** What the peer reported about its receiving side. */
  datatype Report = Continuing | Ended | Unrecognized

  datatype Payload =
    | Inbound                                   // offer, chunk, finish, cancel: the inbox side
    | PullRequest(transferId: seq<int>)
    | Status(transferId: seq<int>, report: Report)

  datatype Dispatch = Dispatch(principal: int, session: nat, requestId: nat, payload: Payload,
                               commit: Commit, replied: bool)

  datatype Session =
    | Ready
    | Waiting(on: nat)
    | TimeoutFired(on: nat)
    | CancelFailed(on: nat)
    | AwaitingCommitted(on: nat)
    | Leaving                                   // the session loop returned; release not yet executed
    | Released

  datatype Pull = Pull(principal: int, session: nat, requestId: nat, transferId: seq<int>)

  datatype Service =
    | Between                                   // between dispatches
    | Received(d: nat)
    | Working(d: nat)
    | Acquired(d: nat)                          // owner taken, offer not yet made
    | Finishing(d: nat)

  datatype State = State(
    dispatches: seq<Dispatch>, sessions: map<nat, Session>, nextSession: nat,
    owner: nat, queue: seq<nat>, pending: Option<Pull>, service: Service)

  datatype Step =
    | Connect
    | Submit(session: nat, principal: int, requestId: nat, payload: Payload)
    | PollReply(session: nat)
    | FireTimeout(session: nat)
    | TryCancel(session: nat)
    | ReadCell(session: nat)
    | Leave(session: nat)
    | ReleaseOnDisconnect(session: nat)
    | ReapPending                               // the check at the top of the service loop
    | Receive
    | CommitOrReject
    | Handle(sourceOk: bool)                    // sourceOk: the file source could produce the next frame
    | Offer(sourceOk: bool)                     // sourceOk: the file source accepted the pull
    | Reply

  const INITIAL := State([], map[], 1, 0, [], None, Between)

  // ------------------------------------------------------------ owner token

  function TryAcquire(owner: nat, session: nat): (r: (nat, bool)) {
    if session == 0 then (owner, false)
    else if owner == 0 then (session, true)
    else (owner, owner == session)
  }

  function Release(owner: nat, session: nat): nat {
    if owner == session then 0 else owner
  }

  /** The atomic owner token itself, in the form the service holds it. */
  class FileTransferPullOwner {
    var token: nat

    constructor ()
      ensures token == 0
    {
      token := 0;
    }

    method Acquire(session: nat) returns (ok: bool)
      modifies this
      ensures (token, ok) == TryAcquire(old(token), session)
    {
      if session == 0 {
        return false;
      }
      ok := token == 0 || token == session;
      if token == 0 {
        token := session;
      }
    }

    method ReleaseBy(session: nat) returns (ok: bool)
      modifies this
      ensures token == Release(old(token), session) && ok == (old(token) == session)
    {
      ok := token == session;
      if ok {
        token := 0;
      }
    }

    method IsOwner(session: nat) returns (yes: bool)
      ensures yes <==> session != 0 && token == session
    {
      yes := session != 0 && token == session;
    }
  }

  // ------------------------------------------------------------ transitions

  predicate Matches(pull: Pull, d: Dispatch, transferId: seq<int>) {
    pull.principal == d.principal && pull.session == d.session && pull.requestId == d.requestId
      && pull.transferId == transferId
  }

  function OnSubmit(s: State, session: nat, principal: int, requestId: nat, payload: Payload): State {
    if session !in s.sessions || s.sessions[session] != Ready || |s.queue| >= QUEUE_CAPACITY then s else
    var d := |s.dispatches|;
    s.(dispatches := s.dispatches + [Dispatch(principal, session, requestId, payload, Pending, false)],
       sessions := s.sessions[session := Waiting(d)],
       queue := s.queue + [d])
  }

  function OnSession(s: State, step: Step): State
    requires step.PollReply? || step.FireTimeout? || step.TryCancel? || step.ReadCell? || step.Leave?
             || step.ReleaseOnDisconnect?
  {
    if step.session !in s.sessions then s else
    var id, p := step.session, s.sessions[step.session];
    match step
    case PollReply(_) =>
      if (p.Waiting? || p.AwaitingCommitted?) && p.on < |s.dispatches| && s.dispatches[p.on].replied
      then s.(sessions := s.sessions[id := Ready]) else s
    case FireTimeout(_) =>
      if p.Waiting? then s.(sessions := s.sessions[id := TimeoutFired(p.on)]) else s
    case TryCancel(_) =>
      if !p.TimeoutFired? || p.on >= |s.dispatches| then s else
      var (cell, won) := Exchange(s.dispatches[p.on].commit, Cancelled);
      s.(dispatches := s.dispatches[p.on := s.dispatches[p.on].(commit := cell)],
         sessions := s.sessions[id := if won then Ready else CancelFailed(p.on)])
    case ReadCell(_) =>
      if !p.CancelFailed? || p.on >= |s.dispatches| then s else
      s.(sessions := s.sessions[id := if s.dispatches[p.on].commit.Committed? then AwaitingCommitted(p.on) else Ready])
    case Leave(_) =>
      if p.Ready? then s.(sessions := s.sessions[id := Leaving]) else s
    case ReleaseOnDisconnect(_) =>
      if p.Leaving? then s.(owner := Release(s.owner, id), sessions := s.sessions[id := Released]) else s
  }

  function OnReap(s: State): State {
    if s.service.Between? && s.pending.Some? && s.owner != s.pending.value.session then s.(pending := None) else s
  }

  function OnCommitOrReject(s: State): State {
    if !s.service.Received? || s.service.d >= |s.dispatches| then s else
    var d := s.service.d;
    var x := s.dispatches[d];
    if x.session == 0 || x.requestId == 0 || !Exchange(x.commit, Committed).1 then
      s.(dispatches := s.dispatches[d := x.(replied := true)], service := Between)
    else
      s.(dispatches := s.dispatches[d := x.(commit := Exchange(x.commit, Committed).0)], service := Working(d))
  }

  function OnHandle(s: State, sourceOk: bool): State {
    if !s.service.Working? || s.service.d >= |s.dispatches| then s else
    var d := s.service.d;
    var x := s.dispatches[d];
    match x.payload
    case Inbound => s.(service := Finishing(d))
    case PullRequest(_) =>
      if s.pending.Some? then s.(service := Finishing(d)) else
      var (owner, ok) := TryAcquire(s.owner, x.session);
      s.(owner := owner, service := if ok then Acquired(d) else Finishing(d))
    case Status(transferId, report) =>
      if s.pending.None? || !Matches(s.pending.value, x, transferId) then s.(service := Finishing(d)) else
      if report.Ended? || (report.Continuing? && !sourceOk) then
        s.(owner := Release(s.owner, x.session), pending := None, service := Finishing(d))
      else s.(service := Finishing(d))
  }

  function OnOffer(s: State, sourceOk: bool): State {
    if !s.service.Acquired? || s.service.d >= |s.dispatches| ||
      !s.dispatches[s.service.d].payload.PullRequest? then s else
    var d := s.service.d;
    var x := s.dispatches[d];
    if sourceOk then
      s.(pending := Some(Pull(x.principal, x.session, x.requestId, x.payload.transferId)), service := Finishing(d))
    else
      s.(owner := Release(s.owner, x.session), service := Finishing(d))
  }

  function OnReply(s: State): State {
    if !s.service.Finishing? || s.service.d >= |s.dispatches| then s else
    s.(dispatches := s.dispatches[s.service.d := s.dispatches[s.service.d].(replied := true)], service := Between)
  }

  function Next(s: State, step: Step): State {
    match step
    case Connect =>
      if s.nextSession >= SessionIds.WORD then s
      else s.(sessions := s.sessions[s.nextSession := Ready], nextSession := s.nextSession + 1)
    case Submit(session, principal, requestId, payload) => OnSubmit(s, session, principal, requestId, payload)
    case ReapPending => OnReap(s)
    case Receive =>
      if s.service.Between? && s.queue != [] then s.(queue := s.queue[1..], service := Received(s.queue[0])) else s
    case CommitOrReject => OnCommitOrReject(s)
    case Handle(ok) => OnHandle(s, ok)
    case Offer(ok) => OnOffer(s, ok)
    case Reply => OnReply(s)
    case _ => OnSession(s, step)
  }

  function Run(s: State, steps: seq<Step>): State {
    Fold(Next, s, steps)
  }

  // -------------------------------------------------------------- invariant

  /** The session is still bound to dispatch `d`: it cannot leave before learning its fate. */
  predicate BoundTo(p: Session, d: nat) {
    p == Waiting(d) || p == TimeoutFired(d) || p == CancelFailed(d) || p == AwaitingCommitted(d)
  }

  predicate InHand(s: State, d: nat) {
    s.service == Working(d) || s.service == Acquired(d) || s.service == Finishing(d)
  }

  ghost predicate DispatchOk(s: State, d: nat)
    requires d < |s.dispatches|
  {
    var x := s.dispatches[d];
    && x.session in s.sessions && x.session != 0
    && (InHand(s, d) ==> x.commit.Committed? && !x.replied)
    && (x.commit.Committed? && !x.replied ==> InHand(s, d) && BoundTo(s.sessions[x.session], d))
    && (x.commit.Pending? && !x.replied ==>
          s.sessions[x.session] == Waiting(d) || s.sessions[x.session] == TimeoutFired(d))
    && (d in s.queue || s.service == Received(d) ==> !x.commit.Committed? && !x.replied)
  }

  ghost predicate SessionOk(s: State, id: nat)
    requires id in s.sessions
  {
    var p := s.sessions[id];
    && 0 < id < s.nextSession
    && (p.Waiting? || p.TimeoutFired? || p.CancelFailed? || p.AwaitingCommitted? ==>
          && p.on < |s.dispatches| && s.dispatches[p.on].session == id && !s.dispatches[p.on].commit.Cancelled?
          && (p.CancelFailed? || p.AwaitingCommitted? ==> s.dispatches[p.on].commit.Committed?))
  }

  ghost predicate OwnerOk(s: State) {
    && (s.owner != 0 ==>
          || (s.pending.Some? && s.pending.value.session == s.owner)
          || (s.service.Acquired? && s.service.d < |s.dispatches| && s.dispatches[s.service.d].session == s.owner))
    && (s.service.Acquired? ==>
          && s.service.d < |s.dispatches|
          && s.pending.None? && s.owner == s.dispatches[s.service.d].session
          && s.dispatches[s.service.d].payload.PullRequest?)
    && (s.owner != 0 ==> s.owner in s.sessions && !s.sessions[s.owner].Released?)
    && (s.pending.Some? ==> s.pending.value.session != 0)
  }

  ghost predicate Inv(s: State) {
    && (forall d :: 0 <= d < |s.dispatches| ==> DispatchOk(s, d))
    && (forall id :: id in s.sessions ==> SessionOk(s, id))
    && OwnerOk(s)
    && (forall d :: d in s.queue ==> d < |s.dispatches|)
    && |s.queue| <= QUEUE_CAPACITY && 0 < s.nextSession
    && (!s.service.Between? ==> s.service.d < |s.dispatches| && s.service.d !in s.queue)
  }

  lemma InvConnect(s: State)
    requires Inv(s)
    ensures Inv(Next(s, Connect))
  {
    var t := Next(s, Connect);
    forall d | 0 <= d < |t.dispatches| ensures DispatchOk(t, d) { assert DispatchOk(s, d); }
    forall id | id in t.sessions ensures SessionOk(t, id) { if id in s.sessions { assert SessionOk(s, id); } }
  }

  lemma InvSubmit(s: State, session: nat, principal: int, requestId: nat, payload: Payload)
    requires Inv(s)
    ensures Inv(OnSubmit(s, session, principal, requestId, payload))
  {
    var t := OnSubmit(s, session, principal, requestId, payload);
    forall d | 0 <= d < |t.dispatches| ensures DispatchOk(t, d) { if d < |s.dispatches| { assert DispatchOk(s, d); } }
    forall id | id in t.sessions ensures SessionOk(t, id) { assert SessionOk(s, id); }
  }

  lemma InvSession(s: State, step: Step)
    requires Inv(s)
    requires step.PollReply? || step.FireTimeout? || step.TryCancel? || step.ReadCell? || step.Leave?
             || step.ReleaseOnDisconnect?
    ensures Inv(OnSession(s, step))
  {
    var t := OnSession(s, step);
    if !s.service.Between? { assert DispatchOk(s, s.service.d); }
    forall d | 0 <= d < |t.dispatches| ensures DispatchOk(t, d) {
      assert DispatchOk(s, d);
      if step.session in s.sessions { assert SessionOk(s, step.session); }
    }
    forall id | id in t.sessions ensures SessionOk(t, id) { assert SessionOk(s, id); }
  }

  lemma InvService(s: State, step: Step)
    requires Inv(s)
    requires step.ReapPending? || step.Receive? || step.CommitOrReject? || step.Reply?
    ensures Inv(Next(s, step))
  {
    var t := Next(s, step);
    assert s.queue != [] ==> s.queue[0] in s.queue && s.queue[1..] == [];
    forall d | 0 <= d < |t.dispatches| ensures DispatchOk(t, d) { assert DispatchOk(s, d); }
    forall id | id in t.sessions ensures SessionOk(t, id) { assert SessionOk(s, id); }
  }

  lemma InvPull(s: State, step: Step)
    requires Inv(s) && (step.Handle? || step.Offer?)
    ensures Inv(Next(s, step))
  {
    var t := Next(s, step);
    if !s.service.Between? { assert DispatchOk(s, s.service.d); }
    forall d | 0 <= d < |t.dispatches| ensures DispatchOk(t, d) { assert DispatchOk(s, d); }
    forall id | id in t.sessions ensures SessionOk(t, id) { assert SessionOk(s, id); }
  }

  lemma InvNext(s: State, step: Step)
    requires Inv(s)
    ensures Inv(Next(s, step))
  {
    match step
    case Connect => InvConnect(s);
    case Submit(session, principal, requestId, payload) => InvSubmit(s, session, principal, requestId, payload);
    case ReapPending => InvService(s, step);
    case Receive => InvService(s, step);
    case CommitOrReject => InvService(s, step);
    case Reply => InvService(s, step);
    case Handle(_) => InvPull(s, step);
    case Offer(_) => InvPull(s, step);
    case _ => InvSession(s, step);
  }

  lemma {:induction false} InvRun(s: State, steps: seq<Step>)
    requires Inv(s)
    ensures Inv(Run(s, steps))
    decreases |steps|
  {
    if steps != [] {
      InvNext(s, steps[0]);
      InvRun(Next(s, steps[0]), steps[1..]);
    }
  }

  // ------------------------------------------------------------- properties

  /** Between dispatches a nonzero owner is the session of the single pending pull. */
  lemma {:induction false} OwnerIsThePendingSession(steps: seq<Step>)
    ensures var s := Run(INITIAL, steps);
      s.service.Between? && s.owner != 0 ==> s.pending.Some? && s.pending.value.session == s.owner
  {
    InvRun(INITIAL, steps);
  }

  /** At every instant, also inside a dispatch, a pending pull is owned by its own session or by nobody. */
  lemma {:induction false} PendingIsOwnedOrOrphaned(steps: seq<Step>)
    ensures var s := Run(INITIAL, steps);
      s.pending.Some? ==> s.owner == s.pending.value.session || s.owner == 0
  {
    InvRun(INITIAL, steps);
  }

  /** A released session never owns the pull again, whatever happens afterwards. */
  lemma {:induction false} NoOwnershipAfterRelease(steps: seq<Step>, more: seq<Step>, id: nat)
    requires var s := Run(INITIAL, steps); id in s.sessions && s.sessions[id].Released?
    ensures var t := Run(INITIAL, steps + more);
      id in t.sessions && t.sessions[id].Released? && t.owner != id
  {
    FoldAppend(Next, INITIAL, steps, more);
    InvRun(INITIAL, steps);
    ReleasedIsFinal(Run(INITIAL, steps), more, id);
    InvRun(INITIAL, steps + more);
    assert SessionOk(Run(INITIAL, steps + more), id);
  }

  lemma {:induction false} ReleasedIsFinal(s: State, steps: seq<Step>, id: nat)
    requires Inv(s) && id in s.sessions && s.sessions[id].Released?
    ensures id in Run(s, steps).sessions && Run(s, steps).sessions[id].Released?
    decreases |steps|
  {
    if steps != [] {
      InvNext(s, steps[0]);
      ReleasedStep(s, steps[0], id);
      ReleasedIsFinal(Next(s, steps[0]), steps[1..], id);
    }
  }

  lemma ReleasedStep(s: State, step: Step, id: nat)
    requires Inv(s) && id in s.sessions && s.sessions[id].Released?
    ensures id in Next(s, step).sessions && Next(s, step).sessions[id].Released?
  {
  }

  /** The service never works on a dispatch whose session has already left: leaving waits for the committed reply. */
  lemma {:induction false} WorkIsForABoundSession(steps: seq<Step>, d: nat)
    requires d < |Run(INITIAL, steps).dispatches| && InHand(Run(INITIAL, steps), d)
    ensures var s := Run(INITIAL, steps);
      s.dispatches[d].session in s.sessions && BoundTo(s.sessions[s.dispatches[d].session], d)
    ensures Run(INITIAL, steps).dispatches[d].commit.Committed?
  {
    InvRun(INITIAL, steps);
    var s := Run(INITIAL, steps);
    assert DispatchOk(s, d);
  }

  /** A pull orphaned by its session's release is dropped by the next loop iteration and frees the slot. */
  lemma {:induction false} OrphanIsReaped(steps: seq<Step>)
    requires var s := Run(INITIAL, steps);
      s.service.Between? && s.pending.Some? && s.pending.value.session in s.sessions
        && s.sessions[s.pending.value.session].Released?
    ensures var t := Run(INITIAL, steps + [ReapPending]); t.pending.None? && t.owner == 0
  {
    InvRun(INITIAL, steps);
    FoldAppend(Next, INITIAL, steps, [ReapPending]);
    assert [ReapPending][1..] == [];
  }

  // ----------------------------------------------------------- what a pull gets

  /** The report ends the pull: it names exactly the pending one, and the peer is done or the source is. */
  predicate EndsThePull(s: State, x: Dispatch, sourceOk: bool) {
    && x.payload.Status? && s.pending.Some?
    && s.pending.value == Pull(x.principal, x.session, x.requestId, x.payload.transferId)
    && (x.payload.report == Ended || (x.payload.report == Continuing && !sourceOk))
  }

  /**
    In every reachable state the work on a dispatch takes the token exactly for
    a pull request while none is pending, frees it and drops the pending pull
    exactly for a report that ends it, and touches neither otherwise.
  */
  lemma {:induction false} HandleExactly(steps: seq<Step>, sourceOk: bool)
    requires Run(INITIAL, steps).service.Working?
    ensures var s := Run(INITIAL, steps);
      var d, t := s.service.d, Next(s, Handle(sourceOk));
      && d < |s.dispatches|
      && var x := s.dispatches[d];
      && t.dispatches == s.dispatches && t.sessions == s.sessions && t.queue == s.queue
      && (t.service == Acquired(d) <==> x.payload.PullRequest? && s.pending.None?)
      && (t.service == Acquired(d) ==> t.owner == x.session && t.pending.None?)
      && (t.service != Acquired(d) ==> t.service == Finishing(d))
      && (EndsThePull(s, x, sourceOk) ==> t.pending.None? && t.owner == 0)
      && (!EndsThePull(s, x, sourceOk) && t.service != Acquired(d) ==> t.pending == s.pending && t.owner == s.owner)
  {
    InvRun(INITIAL, steps);
    var s := Run(INITIAL, steps);
    assert DispatchOk(s, s.service.d);
  }

  /** An acquired pull becomes the pending one of its dispatch exactly if the source accepts it; else it is freed. */
  lemma {:induction false} OfferExactly(steps: seq<Step>, sourceOk: bool)
    requires Run(INITIAL, steps).service.Acquired?
    ensures var s := Run(INITIAL, steps);
      var d, t := s.service.d, Next(s, Offer(sourceOk));
      && d < |s.dispatches| && s.dispatches[d].payload.PullRequest? && t.service == Finishing(d)
      && var x := s.dispatches[d];
      && (sourceOk ==>
            && t.owner == x.session
            && t.pending == Some(Pull(x.principal, x.session, x.requestId, x.payload.transferId)))
      && (!sourceOk ==> t.owner == 0 && t.pending.None?)
  {
    InvRun(INITIAL, steps);
  }

  /**
    A received dispatch is worked on exactly if it has a request identifier and
    its session has not taken it back; otherwise it is answered, untouched.
  */
  lemma {:induction false} CommitsExactly(steps: seq<Step>)
    requires Run(INITIAL, steps).service.Received?
    ensures var s := Run(INITIAL, steps);
      var d, t := s.service.d, Next(s, CommitOrReject);
      && d < |s.dispatches| && s.dispatches[d].session in s.sessions
      && (t.service == Working(d) <==>
            s.dispatches[d].requestId != 0 && BoundTo(s.sessions[s.dispatches[d].session], d))
      && (t.service != Working(d) ==>
            t.service == Between && t == s.(service := Between, dispatches := t.dispatches) && t.dispatches[d].replied)
  {
    InvRun(INITIAL, steps);
    var s := Run(INITIAL, steps);
    assert DispatchOk(s, s.service.d);
    assert SessionOk(s, s.dispatches[s.service.d].session);
  }

  /** A pull request from its submission to its answer, with nothing in between. */
  function Granted(session: nat, principal: int, requestId: nat, transferId: seq<int>): seq<Step> {
    [Submit(session, principal, requestId, PullRequest(transferId)), Receive, CommitOrReject, Handle(true), Offer(true),
     Reply, PollReply(session)]
  }

  lemma SubmitMoves(s: State, session: nat, x: Dispatch)
    requires s.service.Between? && s.queue == [] && session in s.sessions && s.sessions[session] == Ready
    requires x.session == session && x.session != 0 && x.requestId != 0 && x.commit == Pending && !x.replied
    ensures var d := |s.dispatches|;
      var t := s.(dispatches := s.dispatches + [x], sessions := s.sessions[session := Waiting(d)], queue := [d]);
      && Next(s, Submit(session, x.principal, x.requestId, x.payload)) == t
      && Next(t, Receive) == t.(queue := [], service := Received(d))
      && Next(t.(queue := [], service := Received(d)), CommitOrReject) ==
         t.(queue := [], service := Working(d), dispatches := s.dispatches + [x.(commit := Committed)])
  {
  }

  lemma PullMoves(s: State, session: nat, x: Dispatch, d: nat)
    requires s.service == Working(d) && s.pending.None? && s.owner == 0 && d + 1 == |s.dispatches|
    requires s.dispatches[d] == x && x.session == session != 0 && x.payload.PullRequest? && !x.replied
    requires session in s.sessions && s.sessions[session] == Waiting(d)
    ensures var pull := Pull(x.principal, session, x.requestId, x.payload.transferId);
      var t := s.(owner := session, service := Acquired(d));
      var u := t.(pending := Some(pull), service := Finishing(d));
      var v := u.(service := Between, dispatches := s.dispatches[d := x.(replied := true)]);
      && Next(s, Handle(true)) == t && Next(t, Offer(true)) == u && Next(u, Reply) == v
      && Next(v, PollReply(session)) == v.(sessions := s.sessions[session := Ready])
  {
  }

  lemma {:induction false} GrantedRun(s: State, session: nat, principal: int, requestId: nat, transferId: seq<int>)
    requires s.service.Between? && s.queue == [] && s.pending.None? && s.owner == 0
    requires session in s.sessions && s.sessions[session] == Ready && session != 0 && requestId != 0
    ensures var t := Run(s, Granted(session, principal, requestId, transferId));
      && t.service.Between? && t.queue == [] && t.sessions == s.sessions && t.owner == session
      && t.pending == Some(Pull(principal, session, requestId, transferId))
  {
    var a := Granted(session, principal, requestId, transferId);
    var x := Dispatch(principal, session, requestId, PullRequest(transferId), Pending, false);
    var d := |s.dispatches|;
    var s1 := s.(dispatches := s.dispatches + [x], sessions := s.sessions[session := Waiting(d)], queue := [d]);
    var s2 := s1.(queue := [], service := Received(d));
    var s3 := s2.(service := Working(d), dispatches := s.dispatches + [x.(commit := Committed)]);
    SubmitMoves(s, session, x);
    PullMoves(s3, session, x.(commit := Committed), d);
    var pull := Pull(principal, session, requestId, transferId);
    var s4 := s3.(owner := session, service := Acquired(d));
    var s5 := s4.(pending := Some(pull), service := Finishing(d));
    var s6 := s5.(service := Between, dispatches := s3.dispatches[d := s3.dispatches[d].(replied := true)]);
    FoldTrace(Next, [s, s1, s2, s3, s4, s5, s6, s6.(sessions := s1.sessions[session := Ready])], a);
    assert s1.sessions[session := Ready] == s.sessions;
  }

  /** From every reachable state at rest without a pending pull, every ready session can have its pull granted. */
  lemma {:induction false} RestGrants(
      steps: seq<Step>, session: nat, principal: int, requestId: nat, transferId: seq<int>)
    requires var s := Run(INITIAL, steps);
      s.service.Between? && s.queue == [] && s.pending.None? && session in s.sessions && s.sessions[session] == Ready
    requires requestId != 0
    ensures var t := Run(INITIAL, steps + Granted(session, principal, requestId, transferId));
      && t.owner == session && t.sessions == Run(INITIAL, steps).sessions
      && t.pending == Some(Pull(principal, session, requestId, transferId))
  {
    var s := Run(INITIAL, steps);
    InvRun(INITIAL, steps);
    assert SessionOk(s, session);
    FoldAppend(Next, INITIAL, steps, Granted(session, principal, requestId, transferId));
    GrantedRun(s, session, principal, requestId, transferId);
  }
}
