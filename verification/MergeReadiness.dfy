/**
  The merge decision: the blockers and evidence gaps of the first evaluation,
  their re-evaluation with the finer evidence, the readiness stage, the eight
  conditions and the next action. Blocker and gap codes are constructors.
*/
module MergeReadiness {
  import opened Wrappers
  import opened LatestPerKey
  import opened GatePolicy
  import BaseEvidence
  import SecurityNotes
  import DependencyState
  import ReviewPolicy

  datatype Source =
    | Detail | PolicyRules | Checks | Runs | Statuses | Reviews | Threads | Comments | Files | CodeScanning |
      BaseBranch | Stability

  datatype Decision = Approved | ReviewRequired | ChangesRequested | OtherDecision

  datatype RequiredCheck = RequiredCheck(context: string, appId: Option<int>)

  datatype Policy = Policy(
    requiredApprovals: nat, codeOwnerReview: bool, lastPushApproval: bool,
    requiredChecks: seq<RequiredCheck>, strict: Option<bool>, unsupportedRules: seq<string>)

  /** Everything the decision reads about one pull request. `None` is an unknown value. */
  datatype Findings = Findings(
    missing: set<Source>, draft: Option<bool>, mergeable: Option<bool>, mergeableState: string,
    gates: Dict<Gate>, viewerNamed: bool, tally: ReviewPolicy.Tally, policy: Option<Policy>, decision: Decision,
    unresolvedThreads: nat, securitySignals: bool, manualScope: bool, stack: DependencyState.Status,
    collectionGaps: seq<string>, base: BaseEvidence.Freshness, security: SecurityNotes.Assessment, confirmed: nat,
    dependencies: DependencyState.Dependencies)

  datatype Blocker =
    | Draft | BaseConflict | MergeState(state: string)
    | CiFailed(gate: string) | CiIncomplete(gate: string) | SecurityCheck(gate: string)
    | ChangesRequestedBy(login: string) | IndependentApprovalMissing | RequiredReviewUnsatisfied
    | AdditionalRules | UnresolvedThreads | SecurityEvidenceReview | ManualScope | UnknownEvidence
    | StackBaseNotTarget | IncompleteInventory | BaseRevalidationRequired |
      DependenciesNotClear(status: DependencyState.Status)

  datatype Gap =
    | MissingSource(source: Source) | DraftUnknown | MergeableUnknown | GateUnproven(gate: string)
    | ViewerUnknown | PermissionUnknown(login: string) | ManualAcceptance | StackUnknown
    | BaseUnproven(freshness: BaseEvidence.Freshness) | SecurityUnknown | UnknownParents
    | StrictUnknown | RulesUnverified | DecisionUnknown | MergeStateUnsettled(state: string) |
      CollectionGap(field: string)

  datatype Stage = READY_FOR_INDEPENDENT_REVIEW | READY_FOR_FINAL_REVIEW | READY_FOR_MERGE | BLOCKED | UNKNOWN_STAGE

  datatype Condition = SATISFIED | UNSATISFIED | UNDETERMINED | REVIEW_REQUIRED

  datatype Conditions = Conditions(
    ci: Condition, base: Condition, independentReviews: Condition, security: Condition,
    dependencies: Condition, manualAcceptance: Condition, mergeAndThreads: Condition, evidence: Condition)

  datatype Step =
    | RequestSecurityReview | FixFailedCi | ResolveConflict | ResolveReviewThreads | WaitForDependencies
    | RevalidateBase | FinishDraft | WaitForCi | CollectMissingEvidence | RequestIndependentReview
    | CompleteFinalReview | CoordinatorMergeDecision

  function AddIf<T>(s: seq<T>, c: bool, v: T): seq<T> {
    if c then s + [v] else s
  }

  // ------------------------------------------------------- first evaluation

  predicate Settling(state: string) {
    state == "clean" || state == "dirty"
  }

  predicate Conflicting(x: Findings) {
    x.mergeable == Some(false) || x.mergeableState == "dirty"
  }

  const SECURITY_GATES := {"CodeQL", "Gitleaks"}

  function BlockersOfGate(name: string, state: State): seq<Blocker> {
    var ci := AddIf(AddIf([], state == FAILED, CiFailed(name)), state == PENDING ||
      state == UNKNOWN, CiIncomplete(name));
    AddIf(ci, name in SECURITY_GATES && state != SUCCESS, SecurityCheck(name))
  }

  function BlockersOfGates(gates: Dict<Gate>): seq<Blocker> {
    if gates == [] then [] else
    var last := gates[|gates| - 1];
    BlockersOfGates(gates[..|gates| - 1]) + BlockersOfGate(last.0, last.1.state)
  }

  function GapsOfGates(gates: Dict<Gate>): seq<Gap> {
    if gates == [] then [] else
    var last := gates[|gates| - 1];
    AddIf(GapsOfGates(gates[..|gates| - 1]), last.1.state == UNKNOWN, GateUnproven(last.0))
  }

  function Objections(logins: seq<string>): seq<Blocker> {
    seq(|logins|, i requires 0 <= i < |logins| => ChangesRequestedBy(logins[i]))
  }

  function PermissionGaps(logins: seq<string>): seq<Gap> {
    seq(|logins|, i requires 0 <= i < |logins| => PermissionUnknown(logins[i]))
  }

  function AllSources(): seq<Source> {
    [Detail, PolicyRules, Checks, Runs, Statuses, Reviews, Threads, Comments, Files, CodeScanning, BaseBranch,
      Stability]
  }

  function SourceGaps(sources: seq<Source>, missing: set<Source>): seq<Gap> {
    if sources == [] then [] else
    var last := sources[|sources| - 1];
    AddIf(SourceGaps(sources[..|sources| - 1], missing), last in missing, MissingSource(last))
  }

  function RequiredApprovals(p: Policy): nat {
    if p.requiredApprovals > 1 then p.requiredApprovals else 1
  }

  predicate ApprovalMissing(x: Findings) {
    x.policy.None? || |x.tally.independent| < RequiredApprovals(x.policy.value)
  }

  predicate RequiredReviewOpen(x: Findings) {
    || x.decision == ChangesRequested || x.decision == ReviewRequired
    || (x.policy.Some? && (x.policy.value.codeOwnerReview || x.policy.value.lastPushApproval) && x.decision != Approved)
  }

  function PullGaps(x: Findings): seq<Gap> {
    var gaps := AddIf(SourceGaps(AllSources(), x.missing), x.draft.None?, DraftUnknown);
    AddIf(gaps, !Conflicting(x) && x.mergeable != Some(true), MergeableUnknown)
  }

  function ReviewGaps(x: Findings): seq<Gap> {
    AddIf(AddIf([], !x.viewerNamed, ViewerUnknown) + PermissionGaps(x.tally.unknownPermissions), x.manualScope,
      ManualAcceptance)
  }

  function FirstGaps(x: Findings): seq<Gap> {
    PullGaps(x) + GapsOfGates(x.gates) + ReviewGaps(x)
  }

  function PullBlockers(x: Findings): seq<Blocker> {
    var bs := AddIf(AddIf([], x.draft == Some(true), Draft), Conflicting(x), BaseConflict);
    AddIf(bs, !Settling(x.mergeableState), MergeState(x.mergeableState))
  }

  function ReviewBlockers(x: Findings): seq<Blocker> {
    var bs := AddIf(Objections(x.tally.changesRequested), ApprovalMissing(x), IndependentApprovalMissing);
    var cs := AddIf(bs, RequiredReviewOpen(x), RequiredReviewUnsatisfied);
    var ds := AddIf(cs, x.policy.Some? && x.policy.value.unsupportedRules != [], AdditionalRules);
    AddIf(ds, x.unresolvedThreads > 0, UnresolvedThreads)
  }

  function ScopeBlockers(x: Findings, incomplete: bool): seq<Blocker> {
    var bs := AddIf(AddIf([], x.securitySignals, SecurityEvidenceReview), x.manualScope, ManualScope);
    var cs := AddIf(bs, incomplete, UnknownEvidence);
    AddIf(AddIf(cs, x.stack != DependencyState.CLEAR, StackBaseNotTarget), x.collectionGaps != [], IncompleteInventory)
  }

  function FirstBlockers(x: Findings): seq<Blocker> {
    PullBlockers(x) + BlockersOfGates(x.gates) + ReviewBlockers(x) + ScopeBlockers(x, FirstGaps(x) != [])
  }

  /** The gaps after the first evaluation, with the stack state it derives from the base branch. */
  function AnalyzedGaps(x: Findings): seq<Gap> {
    AddIf(FirstGaps(x), x.stack == DependencyState.UNKNOWN, StackUnknown)
  }

  // -------------------------------------------------------- re-evaluation

  /** Codes the second evaluation decides again. */
  predicate Reopened(b: Blocker) {
    b == SecurityEvidenceReview || b == StackBaseNotTarget || b == UnknownEvidence
  }

  function WithoutReopened(bs: seq<Blocker>): seq<Blocker> {
    if bs == [] then [] else
    AddIf(WithoutReopened(bs[..|bs| - 1]), !Reopened(bs[|bs| - 1]), bs[|bs| - 1])
  }

  function WithoutStack(gaps: seq<Gap>): seq<Gap> {
    if gaps == [] then [] else
    AddIf(WithoutStack(gaps[..|gaps| - 1]), gaps[|gaps| - 1] != StackUnknown, gaps[|gaps| - 1])
  }

  function WithoutBlocked(bs: seq<Blocker>): seq<Blocker> {
    if bs == [] then [] else
    AddIf(WithoutBlocked(bs[..|bs| - 1]), bs[|bs| - 1] != MergeState("blocked"), bs[|bs| - 1])
  }

  /** Outstanding reviews alone explain the hosting service's `blocked`. */
  predicate Explained(x: Findings) {
    x.mergeableState == "blocked" && x.decision == ReviewRequired
  }

  function AddGap(gaps: seq<Gap>, g: Gap): seq<Gap> {
    if g in gaps then gaps else gaps + [g]
  }

  function AddGaps(gaps: seq<Gap>, more: seq<Gap>): seq<Gap> {
    if more == [] then gaps else AddGap(AddGaps(gaps, more[..|more| - 1]), more[|more| - 1])
  }

  function CollectionGaps(fields: seq<string>): seq<Gap> {
    seq(|fields|, i requires 0 <= i < |fields| => CollectionGap(fields[i]))
  }

  /** The gaps of the second evaluation, in the order they are looked for. */
  function EvidenceGaps(x: Findings): seq<Gap> {
    var gaps := AddIf([], !BaseEvidence.Accepted(x.base) &&
      x.base != BaseEvidence.IntegrationStale, BaseUnproven(x.base));
    AddIf(AddIf(gaps, x.security == SecurityNotes.Unknown, SecurityUnknown),
      x.dependencies.status != DependencyState.CLEAR && x.dependencies.unknown != [], UnknownParents)
  }

  function RuleGaps(x: Findings): seq<Gap> {
    var p := x.policy;
    var gaps := AddIf([], p.None? || p.value.strict.None?, StrictUnknown);
    var more := AddIf(gaps, p.Some? && p.value.unsupportedRules != [], RulesUnverified);
    AddIf(AddIf(more, p.Some? && p.value.requiredApprovals > 0 && x.decision == OtherDecision, DecisionUnknown),
      !Explained(x) && !Settling(x.mergeableState), MergeStateUnsettled(x.mergeableState))
  }

  function SecondGaps(x: Findings): seq<Gap> {
    EvidenceGaps(x) + RuleGaps(x) + CollectionGaps(x.collectionGaps)
  }

  function FinalGaps(x: Findings): seq<Gap> {
    AddGaps(WithoutStack(AnalyzedGaps(x)), SecondGaps(x))
  }

  function SecondOf(x: Findings, first: seq<Blocker>): seq<Blocker> {
    var bs := AddIf(WithoutReopened(first), !BaseEvidence.Accepted(x.base), BaseRevalidationRequired);
    var cs := AddIf(bs, x.security != SecurityNotes.Clear, SecurityEvidenceReview);
    AddIf(cs, x.dependencies.status != DependencyState.CLEAR, DependenciesNotClear(x.dependencies.status))
  }

  function FinalOf(x: Findings, second: seq<Blocker>, incomplete: bool): seq<Blocker> {
    AddIf(if Explained(x) then WithoutBlocked(second) else second, incomplete, UnknownEvidence)
  }

  function FinalBlockers(x: Findings): seq<Blocker> {
    FinalOf(x, SecondOf(x, FirstBlockers(x)), FinalGaps(x) != [])
  }

  predicate AnyGate(gates: Dict<Gate>, state: State) {
    exists i :: 0 <= i < |gates| && gates[i].1.state == state
  }

  predicate Technical(x: Findings, b: Blocker) {
    match b
    case Draft => true
    case BaseConflict => true
    case CiFailed(_) => true
    case CiIncomplete(_) => AnyGate(x.gates, PENDING)
    case DependenciesNotClear(_) =>
      x.dependencies.parents != [] || x.dependencies.closed != [] || x.dependencies.status == DependencyState.CYCLE
    case ChangesRequestedBy(_) => true
    case UnresolvedThreads => true
    case RequiredReviewUnsatisfied => x.decision == ChangesRequested
    case BaseRevalidationRequired => x.base == BaseEvidence.IntegrationStale
    case SecurityEvidenceReview => x.security == SecurityNotes.ConfirmedBlocker
    case _ => false
  }

  predicate HasTechnical(x: Findings, bs: seq<Blocker>) {
    exists i :: 0 <= i < |bs| && Technical(x, bs[i])
  }

  predicate HasReviewCode(bs: seq<Blocker>) {
    IndependentApprovalMissing in bs || RequiredReviewUnsatisfied in bs || SecurityEvidenceReview in bs
  }

  predicate HasObjection(bs: seq<Blocker>) {
    exists i :: 0 <= i < |bs| && bs[i].ChangesRequestedBy?
  }

  function StageOf(x: Findings, bs: seq<Blocker>, gaps: seq<Gap>): Stage {
    if HasTechnical(x, bs) then BLOCKED
    else if gaps != [] then UNKNOWN_STAGE
    else if HasReviewCode(bs) then
      (if x.tally.independent != [] then READY_FOR_FINAL_REVIEW else READY_FOR_INDEPENDENT_REVIEW)
    else if bs != [] then UNKNOWN_STAGE
    else READY_FOR_MERGE
  }

  predicate ReviewsUnknown(x: Findings) {
    Reviews in x.missing || Threads in x.missing
  }

  predicate AllSucceed(gates: Dict<Gate>) {
    forall i :: 0 <= i < |gates| ==> gates[i].1.state == SUCCESS
  }

  function ReviewCondition(x: Findings, bs: seq<Blocker>): Condition {
    if ReviewsUnknown(x) || x.policy.None? then UNDETERMINED
    else if x.decision == ChangesRequested || HasObjection(bs) then UNSATISFIED
    else if IndependentApprovalMissing in bs || RequiredReviewUnsatisfied in bs then REVIEW_REQUIRED
    else SATISFIED
  }

  function MergeCondition(x: Findings): Condition {
    if x.draft.None? || x.mergeable.None? || ReviewsUnknown(x) || (!Settling(x.mergeableState) &&
      !Explained(x)) then UNDETERMINED
    else if x.draft.value || !x.mergeable.value || x.unresolvedThreads > 0 then UNSATISFIED
    else SATISFIED
  }

  function ConditionsOf(x: Findings, bs: seq<Blocker>, gaps: seq<Gap>): Conditions {
    Conditions(
      if AllSucceed(x.gates) then SATISFIED else if AnyGate(x.gates, UNKNOWN) then UNDETERMINED else UNSATISFIED,
      if BaseEvidence.Accepted(x.base) then SATISFIED
      else if x.base == BaseEvidence.IntegrationStale then UNSATISFIED else UNDETERMINED,
      ReviewCondition(x, bs),
      match x.security
        case Clear => SATISFIED
        case ConfirmedBlocker => UNSATISFIED
        case Unknown => UNDETERMINED
        case ReviewRequired => REVIEW_REQUIRED,
      if x.dependencies.status == DependencyState.CLEAR then SATISFIED
      else if x.dependencies.status == DependencyState.UNKNOWN then UNDETERMINED else UNSATISFIED,
      if x.manualScope then UNDETERMINED else SATISFIED,
      MergeCondition(x),
      if gaps != [] then UNDETERMINED else SATISFIED)
  }

  predicate HasCiFailure(bs: seq<Blocker>) {
    exists i :: 0 <= i < |bs| && bs[i].CiFailed?
  }

  /** The first option that applies, in the source's order of urgency. */
  function ChooseAction(x: Findings, bs: seq<Blocker>, gaps: seq<Gap>, stage: Stage): Step {
    if x.confirmed > 0 then RequestSecurityReview
    else if HasCiFailure(bs) then FixFailedCi
    else if BaseConflict in bs then ResolveConflict
    else if x.decision == ChangesRequested || HasObjection(bs) || UnresolvedThreads in bs then ResolveReviewThreads
    else if x.dependencies.status != DependencyState.CLEAR then WaitForDependencies
    else if x.base == BaseEvidence.IntegrationStale then RevalidateBase
    else if Draft in bs then FinishDraft
    else if AnyGate(x.gates, PENDING) then WaitForCi
    else if gaps != [] then CollectMissingEvidence
    else if x.security == SecurityNotes.ReviewRequired then RequestSecurityReview
    else match stage
      case READY_FOR_INDEPENDENT_REVIEW => RequestIndependentReview
      case READY_FOR_FINAL_REVIEW => CompleteFinalReview
      case READY_FOR_MERGE => CoordinatorMergeDecision
      case _ => CollectMissingEvidence
  }
}
