/**
  The merge decision as the auditor makes it, writing the report of one pull
  request step by step, and what its outcome means: `READY_FOR_MERGE` exactly
  when every demand is met, and an unknown value is never an approval.
*/
module MergeDecision {
  import opened Wrappers
  import opened LatestPerKey
  import opened GatePolicy
  import BaseEvidence
  import SecurityNotes
  import DependencyState
  import opened MergeReadiness

  // ---------------------------------------------------------------- report

  method GateFindings(gates: Dict<Gate>) returns (blockers: seq<Blocker>, gaps: seq<Gap>)
    ensures blockers == BlockersOfGates(gates) && gaps == GapsOfGates(gates)
  {
    blockers, gaps := [], [];
    for k := 0 to |gates|
      invariant blockers == BlockersOfGates(gates[..k]) && gaps == GapsOfGates(gates[..k])
    {
      var name, state := gates[k].0, gates[k].1.state;
      assert gates[..k + 1][..k] == gates[..k];
      var found := [];
      if state == FAILED {
        found := [CiFailed(name)];
      } else if state == PENDING || state == UNKNOWN {
        found := [CiIncomplete(name)];
        if state == UNKNOWN {
          gaps := gaps + [GateUnproven(name)];
        }
      }
      if name in SECURITY_GATES && state != SUCCESS {
        found := found + [SecurityCheck(name)];
      }
      assert found == BlockersOfGate(name, state);
      blockers := blockers + found;
    }
    assert gates[..|gates|] == gates;
  }

  class PullReport {
    const x: Findings
    var blockers: seq<Blocker>
    var missingEvidence: seq<Gap>
    var technical: seq<Blocker>
    var stage: Stage
    var conditions: Conditions
    var action: Step

    /** The first evaluation. */
    constructor (x: Findings)
      ensures this.x == x
      ensures blockers == FirstBlockers(x) && missingEvidence == AnalyzedGaps(x)
    {
      this.x := x;
      technical, stage, action := [], UNKNOWN_STAGE, CollectMissingEvidence;
      conditions := ConditionsOf(x, [], []);
      blockers, missingEvidence := PullBlockers(x), PullGaps(x);
      new;
      var gateBlockers, gateGaps := GateFindings(x.gates);
      missingEvidence := missingEvidence + gateGaps + ReviewGaps(x);
      blockers := blockers + gateBlockers + ReviewBlockers(x) + ScopeBlockers(x, missingEvidence != []);
      if x.stack == DependencyState.UNKNOWN {
        missingEvidence := missingEvidence + [StackUnknown];
      }
    }

    method Reopen()
      modifies this`blockers, this`missingEvidence
      ensures blockers == WithoutReopened(old(blockers)) && missingEvidence == WithoutStack(old(missingEvidence))
    {
      var kept, k := [], 0;
      while k < |blockers|
        invariant 0 <= k <= |blockers| && blockers == old(blockers)
        invariant kept == WithoutReopened(blockers[..k])
      {
        assert blockers[..k + 1][..k] == blockers[..k];
        if !Reopened(blockers[k]) {
          kept := kept + [blockers[k]];
        }
        k := k + 1;
      }
      assert blockers[..|blockers|] == blockers;
      blockers := kept;
      var gaps := [];
      k := 0;
      while k < |missingEvidence|
        invariant 0 <= k <= |missingEvidence| && missingEvidence == old(missingEvidence)
        invariant gaps == WithoutStack(missingEvidence[..k])
      {
        assert missingEvidence[..k + 1][..k] == missingEvidence[..k];
        if missingEvidence[k] != StackUnknown {
          gaps := gaps + [missingEvidence[k]];
        }
        k := k + 1;
      }
      assert missingEvidence[..|missingEvidence|] == missingEvidence;
      missingEvidence := gaps;
    }

    method DropExplained()
      modifies this`blockers
      ensures blockers == WithoutBlocked(old(blockers))
    {
      var kept, k := [], 0;
      while k < |blockers|
        invariant 0 <= k <= |blockers| && blockers == old(blockers)
        invariant kept == WithoutBlocked(blockers[..k])
      {
        assert blockers[..k + 1][..k] == blockers[..k];
        if blockers[k] != MergeState("blocked") {
          kept := kept + [blockers[k]];
        }
        k := k + 1;
      }
      assert blockers[..|blockers|] == blockers;
      blockers := kept;
    }

    method RecordGaps(more: seq<Gap>)
      modifies this`missingEvidence
      ensures missingEvidence == AddGaps(old(missingEvidence), more)
    {
      for k := 0 to |more|
        invariant missingEvidence == AddGaps(old(missingEvidence), more[..k])
      {
        assert more[..k + 1][..k] == more[..k];
        if more[k] !in missingEvidence {
          missingEvidence := missingEvidence + [more[k]];
        }
      }
      assert more[..|more|] == more;
    }

    method CollectTechnical()
      modifies this`technical
      ensures technical != [] <==> HasTechnical(x, blockers)
    {
      technical := [];
      for k := 0 to |blockers|
        invariant technical != [] <==> HasTechnical(x, blockers[..k])
      {
        assert forall i :: 0 <= i < k ==> blockers[..k + 1][i] == blockers[..k][i];
        assert blockers[..k + 1][k] == blockers[k];
        if Technical(x, blockers[k]) {
          technical := technical + [blockers[k]];
        }
      }
      assert blockers[..|blockers|] == blockers;
    }

    /** The final blockers and gaps. */
    method Revise()
      requires blockers == FirstBlockers(x) && missingEvidence == AnalyzedGaps(x)
      modifies this`blockers, this`missingEvidence
      ensures blockers == FinalBlockers(x) && missingEvidence == FinalGaps(x)
    {
      Reopen();
      RecordGaps(SecondGaps(x));
      if !BaseEvidence.Accepted(x.base) {
        blockers := blockers + [BaseRevalidationRequired];
      }
      if x.security != SecurityNotes.Clear {
        blockers := blockers + [SecurityEvidenceReview];
      }
      if x.dependencies.status != DependencyState.CLEAR {
        blockers := blockers + [DependenciesNotClear(x.dependencies.status)];
      }
      if Explained(x) {
        DropExplained();
      }
      if missingEvidence != [] {
        blockers := blockers + [UnknownEvidence];
      }
    }

    /** Stage, conditions and next action from the blockers and gaps as they stand. */
    method Decide()
      modifies this`technical, this`stage, this`conditions, this`action
      ensures stage == StageOf(x, blockers, missingEvidence)
      ensures conditions == ConditionsOf(x, blockers, missingEvidence)
      ensures action == ChooseAction(x, blockers, missingEvidence, stage)
    {
      CollectTechnical();
      if technical != [] {
        stage := BLOCKED;
      } else if missingEvidence != [] {
        stage := UNKNOWN_STAGE;
      } else if HasReviewCode(blockers) {
        stage := if x.tally.independent != [] then READY_FOR_FINAL_REVIEW else READY_FOR_INDEPENDENT_REVIEW;
      } else {
        stage := if blockers != [] then UNKNOWN_STAGE else READY_FOR_MERGE;
      }
      conditions := ConditionsOf(x, blockers, missingEvidence);
      action := ChooseAction(x, blockers, missingEvidence, stage);
    }

    /** The second evaluation: final blockers and gaps, stage, conditions and next action. */
    method Enrich()
      requires blockers == FirstBlockers(x) && missingEvidence == AnalyzedGaps(x)
      modifies this
      ensures blockers == FinalBlockers(x) && missingEvidence == FinalGaps(x)
      ensures stage == StageOf(x, blockers, missingEvidence)
      ensures conditions == ConditionsOf(x, blockers, missingEvidence)
      ensures action == ChooseAction(x, blockers, missingEvidence, stage)
    {
      Revise();
      Decide();
    }
  }

  // ---------------------------------------------------------------- theory

  /** What the parts of the audit always agree on. */
  predicate Coherent(x: Findings) {
    && (x.confirmed > 0 <==> x.security == SecurityNotes.ConfirmedBlocker)
    && (x.dependencies.status == DependencyState.UNKNOWN ==> x.dependencies.unknown != [])
    && (x.dependencies.status == DependencyState.BLOCKED ==>
          x.dependencies.parents != [] || x.dependencies.closed != [])
    && (x.policy.None? ==> PolicyRules in x.missing)
  }

  predicate SomeGate(x: Findings, state: State) {
    exists i :: 0 <= i < |x.gates| && x.gates[i].1.state == state
  }

  /** Every source is known and every open question of the evidence is settled. */
  predicate NothingUnknown(x: Findings) {
    && x.missing == {} && x.viewerNamed && x.collectionGaps == [] && x.tally.unknownPermissions == []
    && x.draft.Some? && (x.mergeable.Some? || x.mergeableState == "dirty")
    && (x.mergeableState == "clean" || x.mergeableState == "dirty" ||
          (x.mergeableState == "blocked" && x.decision == ReviewRequired))
    && !SomeGate(x, UNKNOWN) && !x.manualScope
    && (x.base == BaseEvidence.HeadOnly || x.base == BaseEvidence.IntegrationCurrent ||
          x.base == BaseEvidence.IntegrationStale)
    && x.security != SecurityNotes.Unknown
    && (x.dependencies.status == DependencyState.CLEAR || x.dependencies.unknown == [])
    && x.policy.Some? && x.policy.value.strict.Some? && x.policy.value.unsupportedRules == []
    && (x.policy.value.requiredApprovals > 0 ==> x.decision != OtherDecision)
  }

  /** A reason to stop that no review can remove. */
  predicate Stopped(x: Findings) {
    || x.draft == Some(true)
    || x.mergeable == Some(false) || x.mergeableState == "dirty"
    || SomeGate(x, FAILED) || SomeGate(x, PENDING)
    || x.tally.changesRequested != [] || x.unresolvedThreads > 0 || x.decision == ChangesRequested
    || x.base == BaseEvidence.IntegrationStale || x.security == SecurityNotes.ConfirmedBlocker
    || (x.dependencies.status != DependencyState.CLEAR &&
          (x.dependencies.parents != [] || x.dependencies.closed != [] ||
            x.dependencies.status == DependencyState.CYCLE))
  }

  /** At least one independent approval, and as many as the policy asks for. */
  predicate ApprovalsReached(x: Findings) {
    x.policy.Some? && |x.tally.independent| >= 1 && |x.tally.independent| >= x.policy.value.requiredApprovals
  }

  /** The review decision neither asks for changes or reviews nor leaves an owner's or last push's approval open. */
  predicate DecisionAllows(x: Findings) {
    && x.decision != ChangesRequested && x.decision != ReviewRequired
    && (x.policy.Some? && (x.policy.value.codeOwnerReview || x.policy.value.lastPushApproval) ==>
          x.decision == Decision.Approved)
  }

  /** Some review is still to be done. */
  predicate ReviewOpen(x: Findings) {
    !ApprovalsReached(x) || !DecisionAllows(x) || x.security != SecurityNotes.Clear
  }

  /** The demands on a pull request that may go to the merge decision. */
  predicate Ready(x: Findings) {
    && NothingUnknown(x)
    && x.draft == Some(false) && x.mergeable == Some(true) && x.mergeableState == "clean"
    && (forall i :: 0 <= i < |x.gates| ==> x.gates[i].1.state == SUCCESS)
    && x.tally.changesRequested == [] && x.unresolvedThreads == 0
    && ApprovalsReached(x) && DecisionAllows(x)
    && x.base != BaseEvidence.IntegrationStale && x.security == SecurityNotes.Clear
    && x.dependencies.status == DependencyState.CLEAR
  }

  // gaps

  lemma {:induction false} SourceGapsIn(sources: seq<Source>, missing: set<Source>, g: Gap)
    ensures g in SourceGaps(sources, missing) <==> g.MissingSource? && g.source in sources && g.source in missing
  {
    if sources != [] {
      SourceGapsIn(sources[..|sources| - 1], missing, g);
      assert sources == sources[..|sources| - 1] + [sources[|sources| - 1]];
    }
  }

  lemma {:induction false} GateGapsIn(gates: Dict<Gate>, g: Gap)
    ensures g in GapsOfGates(gates) ==> g.GateUnproven?
    ensures GapsOfGates(gates) == [] <==> !AnyGate(gates, UNKNOWN)
  {
    if gates != [] {
      var n := |gates| - 1;
      GateGapsIn(gates[..n], g);
      assert forall i :: 0 <= i < n ==> gates[..n][i] == gates[i];
    }
  }

  lemma {:induction false} WithoutStackIn(gaps: seq<Gap>, g: Gap)
    ensures g in WithoutStack(gaps) <==> g in gaps && g != StackUnknown
  {
    if gaps != [] {
      WithoutStackIn(gaps[..|gaps| - 1], g);
      assert gaps == gaps[..|gaps| - 1] + [gaps[|gaps| - 1]];
    }
  }

  lemma {:induction false} AddGapsIn(gaps: seq<Gap>, more: seq<Gap>, g: Gap)
    ensures g in AddGaps(gaps, more) <==> g in gaps || g in more
  {
    if more != [] {
      AddGapsIn(gaps, more[..|more| - 1], g);
      assert more == more[..|more| - 1] + [more[|more| - 1]];
    }
  }

  lemma NoMember<T>(s: seq<T>)
    ensures s == [] || s[0] in s
  {
  }

  lemma FinalGapsEmpty(x: Findings)
    ensures FinalGaps(x) == [] <==> WithoutStack(AnalyzedGaps(x)) == [] && SecondGaps(x) == []
  {
  }

  lemma NoStackGap(x: Findings)
    ensures StackUnknown !in FirstGaps(x)
  {
    SourceGapsIn(AllSources(), x.missing, StackUnknown);
    GateGapsIn(x.gates, StackUnknown);
  }

  lemma AnalyzedGapsEmpty(x: Findings)
    ensures WithoutStack(AnalyzedGaps(x)) == [] <==> FirstGaps(x) == []
  {
    var gaps := FirstGaps(x);
    NoStackGap(x);
    NoMember(gaps);
    NoMember(WithoutStack(AnalyzedGaps(x)));
    if gaps != [] {
      WithoutStackIn(AnalyzedGaps(x), gaps[0]);
    } else if WithoutStack(AnalyzedGaps(x)) != [] {
      WithoutStackIn(AnalyzedGaps(x), WithoutStack(AnalyzedGaps(x))[0]);
    }
  }

  lemma KnownMeansEither(b: Option<bool>)
    ensures b.Some? <==> b == Some(true) || b == Some(false)
  {
    if b.Some? {
      assert b == Some(b.value) && (b.value == true || b.value == false);
    }
  }

  lemma AllSourcesListed(s: Source)
    ensures s in AllSources()
  {
  }

  lemma SourceGapsEmpty(x: Findings)
    ensures SourceGaps(AllSources(), x.missing) == [] <==> x.missing == {}
  {
    var gaps := SourceGaps(AllSources(), x.missing);
    forall s | s in x.missing ensures MissingSource(s) in gaps {
      SourceGapsIn(AllSources(), x.missing, MissingSource(s));
      AllSourcesListed(s);
    }
    NoMember(gaps);
    if gaps != [] {
      SourceGapsIn(AllSources(), x.missing, gaps[0]);
    }
  }

  /** The evidence is complete if and only if nothing is unknown. */
  lemma NoGapsExactly(x: Findings)
    ensures FinalGaps(x) == [] <==> NothingUnknown(x)
  {
    FinalGapsEmpty(x);
    AnalyzedGapsEmpty(x);
    SourceGapsEmpty(x);
    GateGapsIn(x.gates, StackUnknown);
    KnownMeansEither(x.mergeable);
  }

  // blockers

  /** The blockers of one gate by name. */
  predicate GateBlocks(name: string, state: State, b: Blocker) {
    || (b == CiFailed(name) && state == FAILED)
    || (b == CiIncomplete(name) && (state == PENDING || state == UNKNOWN))
    || (b == SecurityCheck(name) && name in SECURITY_GATES && state != SUCCESS)
  }

  lemma OneGateBlockers(name: string, state: State, b: Blocker)
    ensures b in BlockersOfGate(name, state) <==> GateBlocks(name, state, b)
  {
  }

  lemma ConcatIn<T>(s: seq<T>, t: seq<T>, v: T)
    ensures v in s + t <==> v in s || v in t
  {
  }

  lemma FourIn<T>(a: seq<T>, b: seq<T>, c: seq<T>, d: seq<T>, v: T)
    ensures v in a + b + c + d <==> v in a || v in b || v in c || v in d
  {
  }

  lemma {:induction false} GateBlockersIn(gates: Dict<Gate>, b: Blocker)
    ensures b in BlockersOfGates(gates) <==> GateRaises(gates, b)
  {
    if gates != [] {
      var n := |gates| - 1;
      GateBlockersIn(gates[..n], b);
      ConcatIn(BlockersOfGates(gates[..n]), BlockersOfGate(gates[n].0, gates[n].1.state), b);
      OneGateBlockers(gates[n].0, gates[n].1.state, b);
      LastGateRaises(gates, b);
    }
  }

  lemma LastGateRaises(gates: Dict<Gate>, b: Blocker)
    requires gates != []
    ensures var n := |gates| - 1;
      GateRaises(gates, b) <==> GateRaises(gates[..n], b) || GateBlocks(gates[n].0, gates[n].1.state, b)
  {
  }

  lemma {:induction false} WithoutReopenedIn(bs: seq<Blocker>, b: Blocker)
    ensures b in WithoutReopened(bs) <==> b in bs && !Reopened(b)
  {
    if bs != [] {
      WithoutReopenedIn(bs[..|bs| - 1], b);
      assert bs == bs[..|bs| - 1] + [bs[|bs| - 1]];
    }
  }

  lemma {:induction false} WithoutBlockedIn(bs: seq<Blocker>, b: Blocker)
    ensures b in WithoutBlocked(bs) <==> b in bs && b != MergeState("blocked")
  {
    if bs != [] {
      WithoutBlockedIn(bs[..|bs| - 1], b);
      assert bs == bs[..|bs| - 1] + [bs[|bs| - 1]];
    }
  }

  ghost predicate GateRaises(gates: Dict<Gate>, b: Blocker) {
    exists i :: 0 <= i < |gates| && GateBlocks(gates[i].0, gates[i].1.state, b)
  }

  /** The first blockers by name: when each of them is raised. */
  ghost predicate Raised(x: Findings, b: Blocker) {
    match b
    case Draft => x.draft == Some(true)
    case BaseConflict => Conflicting(x)
    case MergeState(state) => state == x.mergeableState && !Settling(state)
    case ChangesRequestedBy(login) => login in x.tally.changesRequested
    case IndependentApprovalMissing => ApprovalMissing(x)
    case RequiredReviewUnsatisfied => RequiredReviewOpen(x)
    case AdditionalRules => x.policy.Some? && x.policy.value.unsupportedRules != []
    case UnresolvedThreads => x.unresolvedThreads > 0
    case ManualScope => x.manualScope
    case IncompleteInventory => x.collectionGaps != []
    case CiFailed(_) => GateRaises(x.gates, b)
    case CiIncomplete(_) => GateRaises(x.gates, b)
    case SecurityCheck(_) => GateRaises(x.gates, b)
    case _ => false
  }

  lemma PullBlockersIn(x: Findings, b: Blocker)
    ensures b in PullBlockers(x) <==> (b.Draft? || b.BaseConflict? || b.MergeState?) && Raised(x, b)
  {
  }

  lemma ReviewBlockersIn(x: Findings, b: Blocker)
    ensures b in ReviewBlockers(x) <==>
      && (b.ChangesRequestedBy? || b.IndependentApprovalMissing? || b.RequiredReviewUnsatisfied? ||
        b.AdditionalRules? || b.UnresolvedThreads?)
      && Raised(x, b)
  {
  }

  lemma ScopeBlockersIn(x: Findings, incomplete: bool, b: Blocker)
    requires !Reopened(b)
    ensures b in ScopeBlockers(x, incomplete) <==> (b.ManualScope? || b.IncompleteInventory?) && Raised(x, b)
  {
  }

  lemma FirstBlockersIn(x: Findings, b: Blocker)
    requires !Reopened(b)
    ensures b in FirstBlockers(x) <==> Raised(x, b)
  {
    PullBlockersIn(x, b);
    GateBlockersIn(x.gates, b);
    ReviewBlockersIn(x, b);
    var incomplete := FirstGaps(x) != [];
    ScopeBlockersIn(x, incomplete, b);
    FourIn(PullBlockers(x), BlockersOfGates(x.gates), ReviewBlockers(x), ScopeBlockers(x, incomplete), b);
  }

  /** The blockers of the first evaluation that the second decides anew. */
  lemma {:induction false} ReopenedIn(x: Findings)
    ensures SecurityEvidenceReview in FirstBlockers(x) <==> x.securitySignals
    ensures StackBaseNotTarget in FirstBlockers(x) <==> x.stack != DependencyState.CLEAR
    ensures UnknownEvidence in FirstBlockers(x) <==> FirstGaps(x) != []
    ensures StackUnknown in AnalyzedGaps(x) <==> x.stack == DependencyState.UNKNOWN
  {
    NoStackGap(x);
    ReopenedOne(x, SecurityEvidenceReview);
    ReopenedOne(x, StackBaseNotTarget);
    ReopenedOne(x, UnknownEvidence);
  }

  lemma {:induction false} ReopenedOne(x: Findings, b: Blocker)
    requires Reopened(b)
    ensures b in FirstBlockers(x) <==> b in ScopeBlockers(x, FirstGaps(x) != [])
    ensures b in ScopeBlockers(x, FirstGaps(x) != []) <==>
      match b
      case SecurityEvidenceReview => x.securitySignals
      case StackBaseNotTarget => x.stack != DependencyState.CLEAR
      case _ => FirstGaps(x) != []
  {
    var incomplete := FirstGaps(x) != [];
    PullBlockersIn(x, b);
    GateBlockersIn(x.gates, b);
    ReviewBlockersIn(x, b);
    ReopenedScope(x, incomplete, b);
    FourIn(PullBlockers(x), BlockersOfGates(x.gates), ReviewBlockers(x), ScopeBlockers(x, incomplete), b);
  }

  lemma ReopenedScope(x: Findings, incomplete: bool, b: Blocker)
    requires Reopened(b)
    ensures b in ScopeBlockers(x, incomplete) <==>
      match b
      case SecurityEvidenceReview => x.securitySignals
      case StackBaseNotTarget => x.stack != DependencyState.CLEAR
      case _ => incomplete
  {
  }

  /** The final blockers by name. */
  ghost predicate Standing(x: Findings, incomplete: bool, b: Blocker) {
    match b
    case MergeState(_) => Raised(x, b) && !Explained(x)
    case BaseRevalidationRequired => !BaseEvidence.Accepted(x.base)
    case SecurityEvidenceReview => x.security != SecurityNotes.Clear
    case DependenciesNotClear(status) => status == x.dependencies.status && status != DependencyState.CLEAR
    case UnknownEvidence => incomplete
    case _ => Raised(x, b)
  }

  lemma SecondOfIn(x: Findings, first: seq<Blocker>, b: Blocker)
    requires !Reopened(b) ==> (b in first <==> Raised(x, b))
    ensures b in SecondOf(x, first) <==> if b.MergeState? then Raised(x, b) else Standing(x, false, b)
  {
    WithoutReopenedIn(first, b);
  }

  lemma FinalOfIn(x: Findings, second: seq<Blocker>, incomplete: bool, b: Blocker)
    requires b in second <==> if b.MergeState? then Raised(x, b) else Standing(x, false, b)
    ensures b in FinalOf(x, second, incomplete) <==> Standing(x, incomplete, b)
  {
    WithoutBlockedIn(second, b);
  }

  lemma FinalBlockersIn(x: Findings, b: Blocker)
    ensures b in FinalBlockers(x) <==> Standing(x, FinalGaps(x) != [], b)
  {
    if !Reopened(b) {
      FirstBlockersIn(x, b);
    }
    SecondOfIn(x, FirstBlockers(x), b);
    FinalOfIn(x, SecondOf(x, FirstBlockers(x)), FinalGaps(x) != [], b);
  }

  /** What the two evaluations leave behind: the standing blockers, and a gap exactly when something is unknown. */
  ghost predicate Outcome(x: Findings, bs: seq<Blocker>, gaps: seq<Gap>) {
    && (forall b :: b in bs <==> Standing(x, gaps != [], b))
    && (gaps == [] <==> NothingUnknown(x))
  }

  lemma FinalOutcome(x: Findings)
    ensures Outcome(x, FinalBlockers(x), FinalGaps(x))
  {
    NoGapsExactly(x);
    forall b ensures b in FinalBlockers(x) <==> Standing(x, FinalGaps(x) != [], b) {
      FinalBlockersIn(x, b);
    }
  }

  // what the stage, the conditions and the action mean

  lemma GatesRaise(gates: Dict<Gate>)
    ensures AllSucceed(gates) <==> forall b :: !GateRaises(gates, b)
  {
    forall i | 0 <= i < |gates| && gates[i].1.state != SUCCESS ensures exists b :: GateRaises(gates, b) {
      var name, state := gates[i].0, gates[i].1.state;
      var b := if state == FAILED then CiFailed(name) else CiIncomplete(name);
      assert GateBlocks(name, state, b);
      assert GateRaises(gates, b);
    }
  }

  /** No blocker stands if and only if no demand of either evaluation is open. */
  lemma NoBlockersExactly(x: Findings, bs: seq<Blocker>, gaps: seq<Gap>)
    requires Outcome(x, bs, gaps)
    ensures bs == [] <==> Ready(x)
  {
    var incomplete := gaps != [];
    GatesRaise(x.gates);
    NoMember(bs);
    if Ready(x) {
      forall b ensures !Standing(x, incomplete, b) {
        assert !GateRaises(x.gates, b);
      }
    }
    if bs == [] {
      forall b ensures !Standing(x, incomplete, b) {
        assert b !in bs;
      }
      DemandsMet(x, incomplete);
    }
  }

  lemma DemandsMet(x: Findings, incomplete: bool)
    requires forall b :: !Standing(x, incomplete, b)
    requires !incomplete <==> NothingUnknown(x)
    ensures Ready(x)
  {
    GateDemandsMet(x, incomplete);
    ReviewDemandsMet(x, incomplete);
    assert !Standing(x, incomplete, UnknownEvidence) && !Standing(x, incomplete, Draft) &&
      !Standing(x, incomplete, BaseConflict);
    assert !Standing(x, incomplete, BaseRevalidationRequired) && !Standing(x, incomplete, SecurityEvidenceReview);
    assert !Standing(x, incomplete, DependenciesNotClear(x.dependencies.status));
    assert !Explained(x) && x.mergeableState == "clean";
    assert x.draft.Some? && (x.draft.value || x.draft == Some(false));
    assert x.mergeable.Some? && (x.mergeable.value || x.mergeable == Some(false));
  }

  lemma GateDemandsMet(x: Findings, incomplete: bool)
    requires forall b :: !Standing(x, incomplete, b)
    ensures AllSucceed(x.gates)
  {
    forall b ensures !GateRaises(x.gates, b) {
      assert GateRaises(x.gates, b) ==> b.CiFailed? || b.CiIncomplete? || b.SecurityCheck?;
      assert !Standing(x, incomplete, b);
    }
    GatesRaise(x.gates);
  }

  lemma ReviewDemandsMet(x: Findings, incomplete: bool)
    requires forall b :: !Standing(x, incomplete, b)
    ensures x.tally.changesRequested == [] && x.unresolvedThreads == 0
    ensures ApprovalsReached(x) && DecisionAllows(x)
  {
    assert !Standing(x, incomplete, IndependentApprovalMissing) && !Standing(x, incomplete, RequiredReviewUnsatisfied);
    assert !Standing(x, incomplete, UnresolvedThreads);
    NoMember(x.tally.changesRequested);
    forall login ensures login !in x.tally.changesRequested {
      assert !Standing(x, incomplete, ChangesRequestedBy(login));
    }
  }

  lemma ObjectionIsRaised(x: Findings, bs: seq<Blocker>, gaps: seq<Gap>)
    requires Outcome(x, bs, gaps)
    ensures HasObjection(bs) <==> x.tally.changesRequested != []
  {
    var logins := x.tally.changesRequested;
    NoMember(logins);
    if logins != [] {
      var b := ChangesRequestedBy(logins[0]);
      assert Standing(x, gaps != [], b);
      assert b in bs;
      var i :| 0 <= i < |bs| && bs[i] == ChangesRequestedBy(logins[0]);
    }
    forall i | 0 <= i < |bs| && bs[i].ChangesRequestedBy? ensures logins != [] {
      assert bs[i] in bs && bs[i].login in logins;
    }
  }

  predicate AllSatisfied(c: Conditions) {
    && c.ci == SATISFIED && c.base == SATISFIED && c.independentReviews == SATISFIED && c.security == SATISFIED
    && c.dependencies == SATISFIED && c.manualAcceptance == SATISFIED && c.mergeAndThreads == SATISFIED &&
      c.evidence == SATISFIED
  }

  predicate AnyUndetermined(c: Conditions) {
    || c.ci == UNDETERMINED || c.base == UNDETERMINED || c.independentReviews == UNDETERMINED ||
      c.security == UNDETERMINED
    || c.dependencies == UNDETERMINED || c.manualAcceptance == UNDETERMINED || c.mergeAndThreads == UNDETERMINED
    || c.evidence == UNDETERMINED
  }

  lemma {:induction false} FailedGateStands(x: Findings, bs: seq<Blocker>, gaps: seq<Gap>)
    requires Outcome(x, bs, gaps)
    ensures HasCiFailure(bs) <==> SomeGate(x, FAILED)
  {
    if SomeGate(x, FAILED) {
      var i :| 0 <= i < |x.gates| && x.gates[i].1.state == FAILED;
      StandsInList(x, bs, gaps, CiFailed(x.gates[i].0), i);
    }
    forall k | 0 <= k < |bs| && bs[k].CiFailed? ensures SomeGate(x, FAILED) {
      assert bs[k] in bs && GateRaises(x.gates, bs[k]);
    }
  }

  /** A blocker that gate `i` raises is in the list. */
  lemma StandsInList(x: Findings, bs: seq<Blocker>, gaps: seq<Gap>, b: Blocker, i: int)
    requires Outcome(x, bs, gaps) && 0 <= i < |x.gates| && GateBlocks(x.gates[i].0, x.gates[i].1.state, b)
    ensures b in bs
  {
    assert GateRaises(x.gates, b);
  }

  lemma {:induction false} PendingGateStands(x: Findings, bs: seq<Blocker>, gaps: seq<Gap>)
    requires Outcome(x, bs, gaps) && SomeGate(x, PENDING)
    ensures HasTechnical(x, bs)
  {
    var i :| 0 <= i < |x.gates| && x.gates[i].1.state == PENDING;
    StandsInList(x, bs, gaps, CiIncomplete(x.gates[i].0), i);
    var k :| 0 <= k < |bs| && bs[k] == CiIncomplete(x.gates[i].0);
    assert Technical(x, bs[k]);
  }

  lemma IsTechnical(x: Findings, bs: seq<Blocker>, b: Blocker)
    requires b in bs && Technical(x, b)
    ensures HasTechnical(x, bs)
  {
    var k :| 0 <= k < |bs| && bs[k] == b;
  }

  lemma {:induction false} StoppedIsTechnical(x: Findings, bs: seq<Blocker>, gaps: seq<Gap>)
    requires Outcome(x, bs, gaps) && Stopped(x)
    ensures HasTechnical(x, bs)
  {
    ObjectionIsRaised(x, bs, gaps);
    FailedGateStands(x, bs, gaps);
    if x.draft == Some(true) {
      IsTechnical(x, bs, Draft);
    } else if x.mergeable == Some(false) || x.mergeableState == "dirty" {
      IsTechnical(x, bs, BaseConflict);
    } else if x.unresolvedThreads > 0 {
      IsTechnical(x, bs, UnresolvedThreads);
    } else if x.decision == ChangesRequested {
      IsTechnical(x, bs, RequiredReviewUnsatisfied);
    } else if x.base == BaseEvidence.IntegrationStale {
      IsTechnical(x, bs, BaseRevalidationRequired);
    } else if x.security == SecurityNotes.ConfirmedBlocker {
      IsTechnical(x, bs, SecurityEvidenceReview);
    } else if SomeGate(x, PENDING) {
      PendingGateStands(x, bs, gaps);
    } else if HasCiFailure(bs) {
      var k :| 0 <= k < |bs| && bs[k].CiFailed?;
      IsTechnical(x, bs, bs[k]);
    } else if HasObjection(bs) {
      var k :| 0 <= k < |bs| && bs[k].ChangesRequestedBy?;
      IsTechnical(x, bs, bs[k]);
    } else {
      IsTechnical(x, bs, DependenciesNotClear(x.dependencies.status));
    }
  }

  lemma {:induction false} TechnicalIsStopped(x: Findings, bs: seq<Blocker>, gaps: seq<Gap>)
    requires Outcome(x, bs, gaps) && HasTechnical(x, bs)
    ensures Stopped(x)
  {
    ObjectionIsRaised(x, bs, gaps);
    FailedGateStands(x, bs, gaps);
    var k :| 0 <= k < |bs| && Technical(x, bs[k]);
    assert bs[k] in bs && Standing(x, gaps != [], bs[k]);
  }

  /** `BLOCKED` if and only if some reason to stop holds. */
  lemma {:induction false} BlockedExactly(x: Findings, bs: seq<Blocker>, gaps: seq<Gap>)
    requires Outcome(x, bs, gaps)
    ensures StageOf(x, bs, gaps) == BLOCKED <==> Stopped(x)
  {
    if Stopped(x) {
      StoppedIsTechnical(x, bs, gaps);
    }
    if HasTechnical(x, bs) {
      TechnicalIsStopped(x, bs, gaps);
    }
  }

  lemma ReviewCodesExactly(x: Findings, bs: seq<Blocker>, gaps: seq<Gap>)
    requires Outcome(x, bs, gaps)
    ensures HasReviewCode(bs) <==> ReviewOpen(x)
  {
    assert IndependentApprovalMissing in bs <==> ApprovalMissing(x);
    assert RequiredReviewUnsatisfied in bs <==> RequiredReviewOpen(x);
    assert SecurityEvidenceReview in bs <==> x.security != SecurityNotes.Clear;
  }

  lemma {:induction false} QuietMeansReady(x: Findings)
    requires Coherent(x) && !Stopped(x) && NothingUnknown(x) && !ReviewOpen(x)
    ensures Ready(x)
  {
    forall i | 0 <= i < |x.gates| ensures x.gates[i].1.state == SUCCESS {
      assert x.gates[i].1.state != FAILED && x.gates[i].1.state != PENDING && x.gates[i].1.state != UNKNOWN;
    }
    KnownMeansEither(x.draft);
    KnownMeansEither(x.mergeable);
  }

  /**
    The stages that are left when nothing stops the request: unknown exactly if
    something is unknown, else a review stage exactly if a review is open, the
    final one exactly if an independent approval exists.
  */
  lemma {:induction false} StagesExactly(x: Findings, bs: seq<Blocker>, gaps: seq<Gap>)
    requires Coherent(x) && Outcome(x, bs, gaps)
    ensures StageOf(x, bs, gaps) == UNKNOWN_STAGE <==> !Stopped(x) && !NothingUnknown(x)
    ensures StageOf(x, bs, gaps) == READY_FOR_FINAL_REVIEW <==>
      !Stopped(x) && NothingUnknown(x) && ReviewOpen(x) && x.tally.independent != []
    ensures StageOf(x, bs, gaps) == READY_FOR_INDEPENDENT_REVIEW <==>
      !Stopped(x) && NothingUnknown(x) && ReviewOpen(x) && x.tally.independent == []
    ensures StageOf(x, bs, gaps) == READY_FOR_MERGE <==> Ready(x)
  {
    BlockedExactly(x, bs, gaps);
    ReviewCodesExactly(x, bs, gaps);
    NoBlockersExactly(x, bs, gaps);
    if !Stopped(x) && NothingUnknown(x) && !ReviewOpen(x) {
      QuietMeansReady(x);
    }
  }

  /** `READY_FOR_MERGE` if and only if every demand is met. */
  lemma ReadyExactly(x: Findings, bs: seq<Blocker>, gaps: seq<Gap>)
    requires Outcome(x, bs, gaps)
    ensures StageOf(x, bs, gaps) == READY_FOR_MERGE <==> Ready(x)
  {
    NoBlockersExactly(x, bs, gaps);
  }

  /**
    The eight conditions are weaker than the stage by exactly one case: a
    `dirty` state that is reported mergeable satisfies them all.
  */
  lemma SatisfiedExactly(x: Findings, bs: seq<Blocker>, gaps: seq<Gap>)
    requires Outcome(x, bs, gaps)
    ensures AllSatisfied(ConditionsOf(x, bs, gaps)) <==>
      Settling(x.mergeableState) && Ready(x.(mergeableState := "clean"))
  {
    ObjectionIsRaised(x, bs, gaps);
    assert IndependentApprovalMissing in bs <==> ApprovalMissing(x);
    assert RequiredReviewUnsatisfied in bs <==> RequiredReviewOpen(x);
  }

  /** Ready means all eight conditions hold; the converse holds exactly outside the `dirty` state. */
  lemma ReadyMeansAllSatisfied(x: Findings, bs: seq<Blocker>, gaps: seq<Gap>)
    requires Outcome(x, bs, gaps)
    ensures StageOf(x, bs, gaps) == READY_FOR_MERGE <==>
      AllSatisfied(ConditionsOf(x, bs, gaps)) && x.mergeableState != "dirty"
  {
    ReadyExactly(x, bs, gaps);
    SatisfiedExactly(x, bs, gaps);
    assert x.mergeableState == "clean" ==> x.(mergeableState := "clean") == x;
  }

  /** What is most urgent, in terms of the findings: reasons to stop by rank, then what is unknown, then reviews. */
  function MostUrgent(x: Findings): Step {
    if x.security == SecurityNotes.ConfirmedBlocker then RequestSecurityReview
    else if SomeGate(x, FAILED) then FixFailedCi
    else if x.mergeable == Some(false) || x.mergeableState == "dirty" then ResolveConflict
    else if x.decision == ChangesRequested || x.tally.changesRequested != [] || x.unresolvedThreads > 0 then
      ResolveReviewThreads
    else if x.dependencies.status != DependencyState.CLEAR then WaitForDependencies
    else if x.base == BaseEvidence.IntegrationStale then RevalidateBase
    else if x.draft == Some(true) then FinishDraft
    else if SomeGate(x, PENDING) then WaitForCi
    else if !NothingUnknown(x) then CollectMissingEvidence
    else if x.security == SecurityNotes.ReviewRequired then RequestSecurityReview
    else if ApprovalsReached(x) && DecisionAllows(x) then CoordinatorMergeDecision
    else if x.tally.independent != [] then CompleteFinalReview
    else RequestIndependentReview
  }

  /** The action chosen from blockers, gaps and stage is the most urgent one. */
  lemma {:induction false} ActionExactly(x: Findings, bs: seq<Blocker>, gaps: seq<Gap>)
    requires Coherent(x) && Outcome(x, bs, gaps)
    ensures ChooseAction(x, bs, gaps, StageOf(x, bs, gaps)) == MostUrgent(x)
  {
    FailedGateStands(x, bs, gaps);
    ObjectionIsRaised(x, bs, gaps);
    BlockedExactly(x, bs, gaps);
    StagesExactly(x, bs, gaps);
    if !Stopped(x) && NothingUnknown(x) && !ReviewOpen(x) {
      QuietMeansReady(x);
    }
    assert AnyGate(x.gates, PENDING) <==> SomeGate(x, PENDING);
    assert BaseConflict in bs <==> Conflicting(x);
    assert UnresolvedThreads in bs <==> x.unresolvedThreads > 0;
    assert Draft in bs <==> x.draft == Some(true);
  }

  /** Each of the eight conditions, in terms of the findings. */
  lemma {:induction false} ConditionsExactly(x: Findings, bs: seq<Blocker>, gaps: seq<Gap>)
    requires Outcome(x, bs, gaps)
    ensures var c := ConditionsOf(x, bs, gaps);
      && (c.ci == SATISFIED <==> forall i :: 0 <= i < |x.gates| ==> x.gates[i].1.state == SUCCESS)
      && (c.ci == UNDETERMINED <==> SomeGate(x, UNKNOWN)) && c.ci != REVIEW_REQUIRED
      && (c.base == SATISFIED <==> x.base == BaseEvidence.HeadOnly || x.base == BaseEvidence.IntegrationCurrent)
      && (c.base == UNSATISFIED <==> x.base == BaseEvidence.IntegrationStale) && c.base != REVIEW_REQUIRED
      && (c.security == SATISFIED <==> x.security == SecurityNotes.Clear)
      && (c.security == UNSATISFIED <==> x.security == SecurityNotes.ConfirmedBlocker)
      && (c.security == UNDETERMINED <==> x.security == SecurityNotes.Unknown)
      && (c.dependencies == SATISFIED <==> x.dependencies.status == DependencyState.CLEAR)
      && (c.dependencies == UNDETERMINED <==> x.dependencies.status == DependencyState.UNKNOWN)
      && c.dependencies != REVIEW_REQUIRED
      && (c.manualAcceptance == if x.manualScope then UNDETERMINED else SATISFIED)
      && (c.evidence == if NothingUnknown(x) then SATISFIED else UNDETERMINED)
  {
  }

  lemma {:induction false} ReviewConditionsExactly(x: Findings, bs: seq<Blocker>, gaps: seq<Gap>)
    requires Outcome(x, bs, gaps)
    ensures var c := ConditionsOf(x, bs, gaps);
      var unread := Reviews in x.missing || Threads in x.missing;
      var refused := x.decision == ChangesRequested || x.tally.changesRequested != [];
      var unsettled := x.draft.None? || x.mergeable.None? || unread || !(x.mergeableState == "clean"
        || x.mergeableState == "dirty" || (x.mergeableState == "blocked" && x.decision == ReviewRequired));
      && (c.independentReviews == UNDETERMINED <==> unread || x.policy.None?)
      && (c.independentReviews == UNSATISFIED <==> !unread && x.policy.Some? && refused)
      && (c.independentReviews == SATISFIED <==>
            !unread && !refused && ApprovalsReached(x) && DecisionAllows(x))
      && (c.mergeAndThreads == UNDETERMINED <==> unsettled)
      && (c.mergeAndThreads == SATISFIED <==>
            !unsettled && x.draft == Some(false) && x.mergeable == Some(true) && x.unresolvedThreads == 0)
      && c.mergeAndThreads != REVIEW_REQUIRED
  {
    ObjectionIsRaised(x, bs, gaps);
    KnownMeansEither(x.draft);
    KnownMeansEither(x.mergeable);
    assert IndependentApprovalMissing in bs <==> ApprovalMissing(x);
    assert RequiredReviewUnsatisfied in bs <==> RequiredReviewOpen(x);
  }

  /** The next action is the merge decision if and only if the stage is ready. */
  lemma MergeDecisionOnlyWhenReady(x: Findings, bs: seq<Blocker>, gaps: seq<Gap>)
    requires Coherent(x) && Outcome(x, bs, gaps)
    ensures ChooseAction(x, bs, gaps, StageOf(x, bs, gaps)) == CoordinatorMergeDecision <==>
      StageOf(x, bs, gaps) == READY_FOR_MERGE
  {
    NoBlockersExactly(x, bs, gaps);
  }

  /** An unknown value is never an approval: any undetermined condition stops the pull request. */
  lemma UnknownIsNeverAnApproval(x: Findings, bs: seq<Blocker>, gaps: seq<Gap>)
    requires Coherent(x) && Outcome(x, bs, gaps) && AnyUndetermined(ConditionsOf(x, bs, gaps))
    ensures StageOf(x, bs, gaps) == BLOCKED || StageOf(x, bs, gaps) == UNKNOWN_STAGE
  {
    assert BaseConflict in bs <==> Conflicting(x);
    if BaseConflict in bs {
      var i :| 0 <= i < |bs| && bs[i] == BaseConflict;
      assert Technical(x, bs[i]);
    }
  }

  /** All eight conditions hold and the stage is still not ready. */
  lemma DirtyButSatisfied(x: Findings)
    requires Ready(x)
    ensures var y := x.(mergeableState := "dirty");
      AllSatisfied(ConditionsOf(y, FinalBlockers(y), FinalGaps(y))) &&
        StageOf(y, FinalBlockers(y), FinalGaps(y)) == BLOCKED
  {
    var y := x.(mergeableState := "dirty");
    var bs, gaps := FinalBlockers(y), FinalGaps(y);
    FinalOutcome(y);
    assert y.(mergeableState := "clean") == x;
    SatisfiedExactly(y, bs, gaps);
    assert BaseConflict in bs;
    var i :| 0 <= i < |bs| && bs[i] == BaseConflict;
    assert Technical(y, bs[i]);
  }
}
