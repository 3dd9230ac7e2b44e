/**
  How the auditor turns check runs and workflow runs into the state of one
  required gate. Timestamps are ordered integers; absent JSON fields are `None`.
*/
module GatePolicy {
  import opened Wrappers
  import opened LatestPerKey

  datatype Status = Queued | InProgress | Waiting | Pending | Requested | Completed | OtherStatus

  datatype Conclusion =
    | Success | Failure | Cancelled | TimedOut | ActionRequired | StartupFailure | Stale
    | OtherConclusion

  datatype Run = Run(
    id: int, attempt: nat, suite: int, headSha: string, path: string, fromPullRequest: bool,
    status: Status, startedAt: Option<int>, pullRequests: seq<int>)

  datatype Check = Check(
    id: Option<int>, name: string, headSha: string, appSlug: string, appId: Option<int>, suite: Option<int>,
    status: Status, conclusion: Conclusion, startedAt: Option<int>, url: Option<string>)

  datatype State = SUCCESS | FAILED | PENDING | UNKNOWN

  datatype Evidence = Evidence(name: string, checkId: int, state: State, url: Option<string>)

  datatype Gate = Gate(state: State, evidence: seq<Evidence>)

  /** What a gate is evaluated for; `workflow` is `None` for a required context, `appId` for any application. */
  datatype Target = Target(names: seq<string>, workflow: Option<string>, headSha: string, number: Option<int>,
    appId: Option<int>)

  const TRUSTED_APP := "github-actions"

  predicate ValidSha(sha: string) {
    |sha| == 40 && forall i :: 0 <= i < 40 ==> '0' <= sha[i] <= '9' || 'a' <= sha[i] <= 'f'
  }

  predicate Active(s: Status) {
    s in {Queued, InProgress, Waiting, Pending, Requested}
  }

  function CheckState(c: Check): State {
    if Active(c.status) then PENDING
    else if c.status != Completed then UNKNOWN
    else match c.conclusion
      case Success => SUCCESS
      case OtherConclusion => UNKNOWN
      case _ => FAILED
  }

  function Aggregate(states: seq<State>): State {
    if FAILED in states then FAILED
    else if PENDING in states then PENDING
    else if UNKNOWN in states then UNKNOWN
    else if states != [] then SUCCESS else UNKNOWN
  }

  /** A pull-request run of this head, of the gate's workflow, for this pull request. */
  predicate Relevant(t: Target, r: Run) {
    && r.headSha == t.headSha && r.fromPullRequest
    && (t.workflow.None? || r.path == t.workflow.value)
    && t.number.Some? && t.number.value in r.pullRequests
  }

  predicate Candidate(t: Target, c: Check) {
    && c.name in t.names && c.headSha == t.headSha && c.appSlug == TRUSTED_APP
    && (t.appId in {None, Some(-1)} || c.appId == t.appId)
  }

  function RunKept(t: Target): Run -> bool { r => Relevant(t, r) }
  function RunPath(): Run -> string { (r: Run) => r.path }
  function RunScore(): Run -> Score { (r: Run) => (r.id, r.attempt) }

  function LatestRuns(t: Target, runs: seq<Run>): Dict<Run> {
    Best(runs, RunKept(t), RunPath(), RunScore())
  }

  function RunOfSuite(latest: Dict<Run>, suite: Option<int>): Option<Run> {
    if latest == [] then None
    else if suite == Some(latest[0].1.suite) then Some(latest[0].1)
    else RunOfSuite(latest[1..], suite)
  }

  /** A job of a repeated run counts only when it started with or after the current attempt. */
  predicate OfCurrentAttempt(c: Check, r: Run) {
    r.attempt > 1 ==> c.startedAt.Some? && r.startedAt.Some? && r.startedAt.value <= c.startedAt.value
  }

  predicate Bound(latest: Dict<Run>, c: Check) {
    var r := RunOfSuite(latest, c.suite);
    r.Some? && r.value.status in {Completed, InProgress, Waiting, Pending} && OfCurrentAttempt(c, r.value)
  }

  predicate Acceptable(t: Target, latest: Dict<Run>, c: Check) {
    Candidate(t, c) && Bound(latest, c) && c.id.Some?
  }

  function CheckKept(t: Target, latest: Dict<Run>): Check -> bool { c => Acceptable(t, latest, c) }
  function CheckName(): Check -> string { (c: Check) => c.name }
  function CheckScore(): Check -> Score { (c: Check) => (if c.id.Some? then c.id.value else 0, 0) }

  function SelectedChecks(t: Target, latest: Dict<Run>, checks: seq<Check>): Dict<Check> {
    Best(checks, CheckKept(t, latest), CheckName(), CheckScore())
  }

  function EvidenceFor(c: Check): Evidence {
    Evidence(c.name, if c.id.Some? then c.id.value else 0, CheckState(c), c.url)
  }

  function EvidenceOf(selected: Dict<Check>): seq<Evidence> {
    seq(|selected|, i requires 0 <= i < |selected| => EvidenceFor(selected[i].1))
  }

  function StatesOf(evidence: seq<Evidence>): seq<State> {
    seq(|evidence|, i requires 0 <= i < |evidence| => evidence[i].state)
  }

  predicate AnyActive(latest: Dict<Run>) {
    exists i :: 0 <= i < |latest| && Active(latest[i].1.status)
  }

  function GateOf(t: Target, checks: Option<seq<Check>>, runs: Option<seq<Run>>): Gate {
    if checks.None? || runs.None? || !ValidSha(t.headSha) then Gate(UNKNOWN, []) else
    var latest := LatestRuns(t, runs.value);
    var evidence := EvidenceOf(SelectedChecks(t, latest, checks.value));
    if evidence == [] && AnyActive(latest) then Gate(PENDING, [])
    else Gate(Aggregate(StatesOf(evidence)), evidence)
  }

  // ------------------------------------------------------------ the loops

  method CollectLatest(t: Target, runs: seq<Run>) returns (latest: Dict<Run>)
    ensures latest == LatestRuns(t, runs)
  {
    latest := [];
    for i := 0 to |runs|
      invariant latest == LatestRuns(t, runs[..i])
    {
      var run := runs[i];
      assert runs[..i + 1][..i] == runs[..i];
      if run.headSha == t.headSha && run.fromPullRequest && (t.workflow.None? || run.path == t.workflow.value)
        && t.number.Some? && t.number.value in run.pullRequests
      {
        var known := Find(latest, run.path);
        if known.None? || Below((known.value.id, known.value.attempt), (run.id, run.attempt)) {
          latest := Put(latest, run.path, run);
        }
      }
    }
    assert runs[..|runs|] == runs;
  }

  /** The first listed run of the check's suite. */
  method FindRun(latest: Dict<Run>, suite: Option<int>) returns (run: Option<Run>)
    ensures run == RunOfSuite(latest, suite)
  {
    var i := 0;
    while i < |latest| && suite != Some(latest[i].1.suite)
      invariant 0 <= i <= |latest| && RunOfSuite(latest, suite) == RunOfSuite(latest[i..], suite)
    {
      assert latest[i..][1..] == latest[i + 1..];
      i := i + 1;
    }
    run := if i < |latest| then Some(latest[i].1) else None;
  }

  method SelectChecks(t: Target, latest: Dict<Run>, checks: seq<Check>) returns (selected: Dict<Check>)
    ensures selected == SelectedChecks(t, latest, checks)
  {
    selected := [];
    for i := 0 to |checks|
      invariant selected == SelectedChecks(t, latest, checks[..i])
    {
      var check := checks[i];
      assert checks[..i + 1][..i] == checks[..i];
      var run := FindRun(latest, check.suite);
      if check.name in t.names && check.headSha == t.headSha && check.appSlug == TRUSTED_APP
        && (t.appId == None || t.appId == Some(-1) || check.appId == t.appId) && check.id.Some?
        && run.Some? && run.value.status in {Completed, InProgress, Waiting, Pending}
        && (run.value.attempt <= 1 || (check.startedAt.Some? && run.value.startedAt.Some?
          && run.value.startedAt.value <= check.startedAt.value))
      {
        var chosen := Find(selected, check.name);
        if chosen.None? || Below(CheckScore()(chosen.value), CheckScore()(check)) {
          selected := Put(selected, check.name, check);
        }
      }
    }
    assert checks[..|checks|] == checks;
  }

  method EvaluateGate(t: Target, checks: Option<seq<Check>>, runs: Option<seq<Run>>) returns (gate: Gate)
    ensures gate == GateOf(t, checks, runs)
  {
    if checks.None? || runs.None? || !ValidSha(t.headSha) {
      return Gate(UNKNOWN, []);
    }
    var latest := CollectLatest(t, runs.value);
    var selected := SelectChecks(t, latest, checks.value);
    var evidence := EvidenceOf(selected);
    if evidence == [] {
      var i, active := 0, false;
      while i < |latest| && !active
        invariant 0 <= i <= |latest|
        invariant active ==> AnyActive(latest)
        invariant !active ==> forall j :: 0 <= j < i ==> !Active(latest[j].1.status)
        decreases |latest| - i
      {
        active := Active(latest[i].1.status);
        i := i + 1;
      }
      if active {
        return Gate(PENDING, []);
      }
    }
    return Gate(Aggregate(StatesOf(evidence)), evidence);
  }

  // ------------------------------------------------------------- theorems

  lemma {:induction false} ValidShaExactly(sha: string)
    ensures ValidSha(sha) <==> |sha| == 40 && forall i :: 0 <= i < |sha| ==> sha[i] in "0123456789abcdef"
  {
    forall i | 0 <= i < |sha|
      ensures sha[i] in "0123456789abcdef" <==> '0' <= sha[i] <= '9' || 'a' <= sha[i] <= 'f'
    {
      HexDigit(sha[i]);
    }
  }

  lemma HexDigit(c: char)
    ensures c in "0123456789abcdef" <==> '0' <= c <= '9' || 'a' <= c <= 'f'
  {
    assert "0123456789abcdef" == ['0', '1', '2', '3', '4', '5', '6', '7', '8', '9', 'a', 'b', 'c', 'd', 'e', 'f'];
  }

  /** A relevant run that no relevant run of its workflow path supersedes. */
  predicate Current(t: Target, runs: seq<Run>, r: Run) {
    && r in runs && Relevant(t, r)
    && forall q :: q in runs && Relevant(t, q) && q.path == r.path ==> !Below((r.id, r.attempt), (q.id, q.attempt))
  }

  /** The check is on the head, from the required application, and bound to a current run and attempt. */
  ghost predicate Genuine(t: Target, runs: seq<Run>, c: Check) {
    Candidate(t, c) && exists r :: Current(t, runs, r) && c.suite == Some(r.suite) && OfCurrentAttempt(c, r)
  }

  /** The check completed, and with success; skipped and neutral are no success. */
  predicate Passed(c: Check) {
    c.status == Completed && c.conclusion == Success
  }

  predicate Broke(c: Check) {
    c.status == Completed &&
      c.conclusion in {Failure, Conclusion.Cancelled, TimedOut, ActionRequired, StartupFailure, Stale}
  }

  /** Not finished yet: queued, in progress, waiting, pending or requested. */
  predicate Unfinished(s: Status) {
    s != Completed && s != OtherStatus
  }

  /** The evidence names the check, its identifier and its address, and is a success exactly if the check passed. */
  predicate Records(e: Evidence, c: Check) {
    c.id == Some(e.checkId) && e.name == c.name && e.url == c.url && (e.state == SUCCESS <==> Passed(c))
  }

  lemma {:induction false} SuiteRunIsListed(latest: Dict<Run>, suite: Option<int>)
    requires RunOfSuite(latest, suite).Some?
    ensures exists i :: 0 <= i < |latest| && latest[i].1 == RunOfSuite(latest, suite).value
    ensures suite == Some(RunOfSuite(latest, suite).value.suite)
  {
    if suite != Some(latest[0].1.suite) {
      SuiteRunIsListed(latest[1..], suite);
    }
  }

  lemma ListedRunIsCurrent(t: Target, runs: seq<Run>, i: int)
    requires 0 <= i < |LatestRuns(t, runs)|
    ensures Current(t, runs, LatestRuns(t, runs)[i].1)
  {
    var latest := LatestRuns(t, runs);
    BestIsDistinct(runs, RunKept(t), RunPath(), RunScore());
    FindMeets(latest, latest[i].0);
    BestIsTheWinner(runs, RunKept(t), RunPath(), RunScore(), latest[i].0);
    var w :| 0 <= w < |runs| && runs[w] == latest[i].1 && Wins(runs, RunKept(t), RunPath(), RunScore(), w);
    forall q | q in runs && Relevant(t, q) && q.path == runs[w].path
      ensures !Below((runs[w].id, runs[w].attempt), (q.id, q.attempt))
    {
      var j :| 0 <= j < |runs| && runs[j] == q;
      assert RunKept(t)(runs[j]);
    }
  }

  lemma AcceptableIsGenuine(t: Target, runs: seq<Run>, c: Check)
    requires Acceptable(t, LatestRuns(t, runs), c)
    ensures Genuine(t, runs, c)
  {
    var latest := LatestRuns(t, runs);
    SuiteRunIsListed(latest, c.suite);
    var i :| 0 <= i < |latest| && latest[i].1 == RunOfSuite(latest, c.suite).value;
    ListedRunIsCurrent(t, runs, i);
  }

  /**
    The evidence is exactly one entry for each winning check: acceptable,
    greatest id of its name, first of that id.
  */
  predicate WinningCheck(t: Target, runs: seq<Run>, checks: seq<Check>, i: int)
    requires 0 <= i < |checks|
  {
    Wins(checks, CheckKept(t, LatestRuns(t, runs)), CheckName(), CheckScore(), i)
  }

  lemma EvidenceIsTheWinners(t: Target, runs: seq<Run>, checks: seq<Check>)
    ensures var evidence := EvidenceOf(SelectedChecks(t, LatestRuns(t, runs), checks));
      && (forall i :: 0 <= i < |checks| && WinningCheck(t, runs, checks, i) ==> EvidenceFor(checks[i]) in evidence)
      && (forall e :: e in evidence ==>
        exists i :: 0 <= i < |checks| && WinningCheck(t, runs, checks, i) && e == EvidenceFor(checks[i]))
  {
    var keep := CheckKept(t, LatestRuns(t, runs));
    var selected := SelectedChecks(t, LatestRuns(t, runs), checks);
    var evidence := EvidenceOf(selected);
    BestIsDistinct(checks, keep, CheckName(), CheckScore());
    forall i | 0 <= i < |checks| && WinningCheck(t, runs, checks, i) ensures EvidenceFor(checks[i]) in evidence {
      WinnerIsFound(checks, keep, CheckName(), CheckScore(), i);
      FindMeets(selected, checks[i].name);
      var j :| 0 <= j < |selected| && selected[j] == (checks[i].name, checks[i]);
      assert evidence[j] == EvidenceFor(checks[i]);
    }
    forall e | e in evidence
      ensures exists i :: 0 <= i < |checks| && WinningCheck(t, runs, checks, i) && e == EvidenceFor(checks[i])
    {
      var j :| 0 <= j < |evidence| && evidence[j] == e;
      FindMeets(selected, selected[j].0);
      BestIsTheWinner(checks, keep, CheckName(), CheckScore(), selected[j].0);
    }
  }

  lemma GateOnEvidence(t: Target, checks: seq<Check>, runs: seq<Run>)
    requires ValidSha(t.headSha)
    ensures var evidence := EvidenceOf(SelectedChecks(t, LatestRuns(t, runs), checks));
      var gate := GateOf(t, Some(checks), Some(runs));
      && gate.evidence == evidence
      && (evidence == [] ==> gate.state == if AnyActive(LatestRuns(t, runs)) then PENDING else UNKNOWN)
      && (evidence != [] ==>
            && (gate.state == FAILED <==> SomeState(evidence, FAILED))
            && (gate.state == PENDING <==> !SomeState(evidence, FAILED) && SomeState(evidence, PENDING))
            && (gate.state == SUCCESS <==> forall e :: e in evidence ==> e.state == SUCCESS))
  {
    var evidence := EvidenceOf(SelectedChecks(t, LatestRuns(t, runs), checks));
    var states := StatesOf(evidence);
    forall state ensures state in states <==> SomeState(evidence, state) {
      if SomeState(evidence, state) {
        var e :| e in evidence && e.state == state;
        var k :| 0 <= k < |evidence| && evidence[k] == e;
        assert states[k] == state;
      }
      if state in states {
        var k :| 0 <= k < |states| && states[k] == state;
        assert evidence[k] in evidence;
      }
    }
    assert forall e :: e in evidence ==> SomeState(evidence, e.state);
  }

  ghost predicate SomeState(evidence: seq<Evidence>, state: State) {
    exists e :: e in evidence && e.state == state
  }

  predicate Underway(c: Check) {
    Unfinished(c.status)
  }

  /** Some winning check meets the test. */
  ghost predicate SomeWinner(t: Target, runs: seq<Run>, checks: seq<Check>, test: Check -> bool) {
    exists i :: 0 <= i < |checks| && WinningCheck(t, runs, checks, i) && test(checks[i])
  }

  ghost predicate AnyWinner(t: Target, runs: seq<Run>, checks: seq<Check>) {
    exists i :: 0 <= i < |checks| && WinningCheck(t, runs, checks, i)
  }

  ghost predicate WinnersPassed(t: Target, runs: seq<Run>, checks: seq<Check>) {
    && AnyWinner(t, runs, checks)
    && forall i :: 0 <= i < |checks| && WinningCheck(t, runs, checks, i) ==> Passed(checks[i])
  }

  /** The current run of some workflow path is not finished. */
  ghost predicate RunUnderway(t: Target, runs: seq<Run>) {
    exists i :: 0 <= i < |runs| && Wins(runs, RunKept(t), RunPath(), RunScore(), i) && Unfinished(runs[i].status)
  }

  lemma {:induction false} ActiveExactly(t: Target, runs: seq<Run>)
    ensures AnyActive(LatestRuns(t, runs)) <==> RunUnderway(t, runs)
  {
    var latest := LatestRuns(t, runs);
    BestIsDistinct(runs, RunKept(t), RunPath(), RunScore());
    if AnyActive(latest) {
      var j :| 0 <= j < |latest| && Active(latest[j].1.status);
      FindMeets(latest, latest[j].0);
      BestIsTheWinner(runs, RunKept(t), RunPath(), RunScore(), latest[j].0);
    }
    if RunUnderway(t, runs) {
      var i :| 0 <= i < |runs| && Wins(runs, RunKept(t), RunPath(), RunScore(), i) && Unfinished(runs[i].status);
      WinnerIsFound(runs, RunKept(t), RunPath(), RunScore(), i);
      FindMeets(latest, runs[i].path);
      var j :| 0 <= j < |latest| && latest[j] == (runs[i].path, runs[i]);
      assert Active(latest[j].1.status);
    }
  }

  /** A state is in the evidence exactly if some winning check has it. */
  lemma {:induction false} StatesOfWinners(t: Target, runs: seq<Run>, checks: seq<Check>, state: State)
    ensures SomeState(EvidenceOf(SelectedChecks(t, LatestRuns(t, runs), checks)), state) <==>
      SomeWinner(t, runs, checks, c => CheckState(c) == state)
  {
    var evidence := EvidenceOf(SelectedChecks(t, LatestRuns(t, runs), checks));
    EvidenceIsTheWinners(t, runs, checks);
    if SomeWinner(t, runs, checks, c => CheckState(c) == state) {
      var i :| 0 <= i < |checks| && WinningCheck(t, runs, checks, i) && CheckState(checks[i]) == state;
      assert EvidenceFor(checks[i]) in evidence;
    }
  }

  lemma CheckStateExactly(c: Check)
    ensures CheckState(c) == SUCCESS <==> Passed(c)
    ensures CheckState(c) == FAILED <==> Broke(c)
    ensures CheckState(c) == PENDING <==> Underway(c)
  {
  }

  /**
    A gate with known sources fails exactly if a winning check broke; else it is
    pending if one is unfinished or, without any, a current run is; it succeeds
    exactly if there is a winning check and every one of them passed.
  */
  lemma {:induction false} GateExactly(t: Target, checks: seq<Check>, runs: seq<Run>)
    requires ValidSha(t.headSha)
    ensures var state := GateOf(t, Some(checks), Some(runs)).state;
      var broke := SomeWinner(t, runs, checks, Broke);
      var pending := SomeWinner(t, runs, checks, Underway)
        || (!AnyWinner(t, runs, checks) && RunUnderway(t, runs));
      && (state == FAILED <==> broke)
      && (state == PENDING <==> !broke && pending)
      && (state == SUCCESS <==> WinnersPassed(t, runs, checks))
      && (state == UNKNOWN <==> !broke && !pending && !WinnersPassed(t, runs, checks))
  {
    var evidence := EvidenceOf(SelectedChecks(t, LatestRuns(t, runs), checks));
    GateOnEvidence(t, checks, runs);
    ActiveExactly(t, runs);
    WinnersInEvidence(t, runs, checks);
  }

  lemma {:induction false} WinnersInEvidence(t: Target, runs: seq<Run>, checks: seq<Check>)
    ensures var evidence := EvidenceOf(SelectedChecks(t, LatestRuns(t, runs), checks));
      && (evidence != [] <==> AnyWinner(t, runs, checks))
      && (SomeState(evidence, FAILED) <==> SomeWinner(t, runs, checks, Broke))
      && (SomeState(evidence, PENDING) <==> SomeWinner(t, runs, checks, Underway))
      && (evidence != [] && (forall e :: e in evidence ==> e.state == SUCCESS) <==> WinnersPassed(t, runs, checks))
  {
    var evidence := EvidenceOf(SelectedChecks(t, LatestRuns(t, runs), checks));
    EvidenceIsTheWinners(t, runs, checks);
    StatesOfWinners(t, runs, checks, FAILED);
    StatesOfWinners(t, runs, checks, PENDING);
    forall c: Check ensures CheckState(c) == SUCCESS <==> Passed(c)
      ensures CheckState(c) == FAILED <==> Broke(c)
      ensures CheckState(c) == PENDING <==> Underway(c)
    {
      CheckStateExactly(c);
    }
    assert evidence != [] ==> evidence[0] in evidence;
    if forall e :: e in evidence ==> e.state == SUCCESS {
      forall i | 0 <= i < |checks| && WinningCheck(t, runs, checks, i) ensures Passed(checks[i]) {
        assert EvidenceFor(checks[i]) in evidence;
      }
    }
  }

  /** Without its sources or a well-formed head a gate is unknown. */
  lemma UnknownSources(t: Target, checks: Option<seq<Check>>, runs: Option<seq<Run>>)
    requires checks.None? || runs.None? || !ValidSha(t.headSha)
    ensures GateOf(t, checks, runs) == Gate(UNKNOWN, [])
  {
  }

  /**
    A successful gate rests on evidence, all of it of checks that passed, are
    current and bound; an absent source is never a success.
  */
  lemma SuccessRestsOnCurrentEvidence(t: Target, checks: Option<seq<Check>>, runs: Option<seq<Run>>)
    requires GateOf(t, checks, runs).state == SUCCESS
    ensures checks.Some? && runs.Some? && ValidSha(t.headSha)
    ensures GateOf(t, checks, runs).evidence != []
    ensures forall e :: e in GateOf(t, checks, runs).evidence ==>
      exists c :: c in checks.value && Passed(c) && Genuine(t, runs.value, c) && Records(e, c)
  {
    var evidence := GateOf(t, checks, runs).evidence;
    GateOnEvidence(t, checks.value, runs.value);
    EvidenceIsTheWinners(t, runs.value, checks.value);
    forall e | e in evidence
      ensures exists c :: c in checks.value && Passed(c) && Genuine(t, runs.value, c) && Records(e, c)
    {
      var i :| 0 <= i < |checks.value| && WinningCheck(t, runs.value, checks.value, i) &&
        e == EvidenceFor(checks.value[i]);
      AcceptableIsGenuine(t, runs.value, checks.value[i]);
      CheckStateExactly(checks.value[i]);
      assert checks.value[i] in checks.value;
    }
  }
}
