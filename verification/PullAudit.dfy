/**
  One audit from raw entries to verdicts: gates, reviews, base, security and
  dependencies of every pull request, and what a `READY_FOR_MERGE` verdict
  guarantees about the entry it was given for.
*/
module PullAudit {
  import opened Wrappers
  import opened LatestPerKey
  import opened GatePolicy
  import BaseEvidence
  import SecurityNotes
  import DependencyState
  import DependencyGraph
  import ReviewOrder
  import opened ReviewPolicy
  import opened MergeReadiness
  import opened MergeDecision

  datatype ThreadData = ThreadData(decision: Decision, threads: seq<SecurityNotes.Thread>)

  /** The collected evidence about one pull request; `None` is a source that is unknown or malformed. */
  datatype Entry = Entry(
    pull: DependencyState.Pull, detailKnown: bool, headSha: string, author: string,
    draft: Option<bool>, mergeable: Option<bool>, mergeableState: string,
    policy: Option<Policy>, checks: Option<seq<Check>>, runs: Option<seq<Run>>, statusesKnown: bool,
    reviews: Option<seq<Review>>, threads: Option<ThreadData>, comments: Option<seq<Prose>>, files: Option<seq<string>>,
    alerts: Option<seq<SecurityNotes.Alert>>, baseSha: Option<string>, stable: bool, permissions: map<string, string>,
    body: Prose, headCommit: Option<SecurityNotes.HeadCommit>, mergeSha: Option<string>, proofs: map<int,
      BaseEvidence.Proof>)

  datatype Snapshot = Snapshot(
    repository: DependencyState.Repository, owner: string, viewer: Viewer, captured: Option<int>,
      collectionGaps: seq<string>)

  // ----------------------------------------------------------------- gates

  datatype Builtin = Builtin(gate: string, names: seq<string>, workflow: string)

  const BUILTINS := [
    Builtin("Windows Build", ["Windows Build"], ".github/workflows/ci.yml"),
    Builtin("Portable Rust", ["Portable Rust"], ".github/workflows/ci.yml"),
    Builtin("CodeQL", ["CodeQL Rust security analysis", "CodeQL"], ".github/workflows/security-scanning.yml"),
    Builtin("Gitleaks", ["Gitleaks history scan", "Gitleaks"], ".github/workflows/security-scanning.yml")]

  const ACTIONS_APP := 15368

  function BuiltinTarget(e: Entry, b: Builtin): Target {
    Target(b.names, Some(b.workflow), e.headSha, Some(e.pull.number), None)
  }

  function RequiredTarget(e: Entry, c: RequiredCheck): Target {
    Target([c.context], None, e.headSha, Some(e.pull.number), c.appId)
  }

  function BuiltinGate(e: Entry, b: Builtin): Gate {
    GateOf(BuiltinTarget(e, b), e.checks, e.runs)
  }

  function RequiredGate(e: Entry, c: RequiredCheck): Gate {
    GateOf(RequiredTarget(e, c), e.checks, e.runs)
  }

  function RequiredName(context: string): string {
    "required: " + context
  }

  /** A required context that a single-name built-in gate already stands for. */
  predicate CoveredByBuiltin(c: RequiredCheck) {
    (c.context == "Windows Build" || c.context == "Portable Rust") && c.appId in {None, Some(-1), Some(ACTIONS_APP)}
  }

  function BuiltinGates(e: Entry): Dict<Gate> {
    seq(|BUILTINS|, i requires 0 <= i < |BUILTINS| => (BUILTINS[i].gate, BuiltinGate(e, BUILTINS[i])))
  }

  function AddRequired(e: Entry, gates: Dict<Gate>, required: seq<RequiredCheck>): Dict<Gate> {
    if required == [] then gates else
    var before, c := AddRequired(e, gates, required[..|required| - 1]), required[|required| - 1];
    if CoveredByBuiltin(c) then before else Put(before, RequiredName(c.context), RequiredGate(e, c))
  }

  function RequiredChecks(e: Entry): seq<RequiredCheck> {
    if e.policy.Some? then e.policy.value.requiredChecks else []
  }

  function GatesOf(e: Entry): Dict<Gate> {
    AddRequired(e, BuiltinGates(e), RequiredChecks(e))
  }

  method EvaluateGates(e: Entry) returns (gates: Dict<Gate>)
    ensures gates == GatesOf(e)
  {
    gates := [];
    for i := 0 to |BUILTINS|
      invariant gates == BuiltinGates(e)[..i]
    {
      var b := BUILTINS[i];
      var gate := EvaluateGate(Target(b.names, Some(b.workflow), e.headSha, Some(e.pull.number), None), e.checks,
        e.runs);
      gates := gates + [(b.gate, gate)];
    }
    var required := if e.policy.Some? then e.policy.value.requiredChecks else [];
    for k := 0 to |required|
      invariant gates == AddRequired(e, BuiltinGates(e), required[..k])
    {
      var c := required[k];
      assert required[..k + 1][..k] == required[..k];
      var covered := (c.context == "Windows Build" || c.context == "Portable Rust")
        && (c.appId == None || c.appId == Some(-1) || c.appId == Some(ACTIONS_APP));
      if !covered {
        var gate := EvaluateGate(Target([c.context], None, e.headSha, Some(e.pull.number), c.appId), e.checks, e.runs);
        gates := Put(gates, RequiredName(c.context), gate);
      }
    }
    assert required[..|required|] == required;
  }

  /** This check requires the context, and no built-in gate stands for it. */
  predicate Uncovered(required: seq<RequiredCheck>, k: int, context: string)
    requires 0 <= k < |required|
  {
    !CoveredByBuiltin(required[k]) && required[k].context == context
  }

  /** No later check requires the same context outside the built-in gates. */
  predicate LastWithContext(required: seq<RequiredCheck>, k: int)
    requires 0 <= k < |required|
  {
    !CoveredByBuiltin(required[k]) && forall j :: k < j < |required| ==> !Uncovered(required, j, required[k].context)
  }

  /** The gate kept for a required context is that of the last check that requires it. */
  lemma {:induction false} LastRequiredIsKept(e: Entry, gates: Dict<Gate>, required: seq<RequiredCheck>, k: int)
    requires 0 <= k < |required| && LastWithContext(required, k)
    ensures Find(AddRequired(e, gates, required), RequiredName(required[k].context)) == Some(RequiredGate(e,
      required[k]))
  {
    var n := |required| - 1;
    var before := AddRequired(e, gates, required[..n]);
    var c := required[n];
    PutFind(before, RequiredName(c.context), RequiredGate(e, c), RequiredName(required[k].context));
    if k < n {
      assert forall j :: k < j < n ==>
        Uncovered(required[..n], j, required[k].context) == Uncovered(required, j, required[k].context);
      LastRequiredIsKept(e, gates, required[..n], k);
      if !CoveredByBuiltin(c) {
        assert !Uncovered(required, n, required[k].context);
        NamesDiffer(c.context, required[k].context);
      }
    }
  }

  lemma NamesDiffer(a: string, b: string)
    requires a != b
    ensures RequiredName(a) != RequiredName(b)
  {
    var prefix := "required: ";
    assert RequiredName(a)[|prefix|..] == a && RequiredName(b)[|prefix|..] == b;
  }

  lemma {:induction false} AddRequiredKeeps(e: Entry, gates: Dict<Gate>, required: seq<RequiredCheck>, name: string)
    requires Distinct(gates)
    requires forall k :: 0 <= k < |required| ==> RequiredName(required[k].context) != name
    ensures Distinct(AddRequired(e, gates, required))
    ensures Find(AddRequired(e, gates, required), name) == Find(gates, name)
  {
    if required != [] {
      var n := |required| - 1;
      assert forall k :: 0 <= k < n ==> required[..n][k] == required[k];
      AddRequiredKeeps(e, gates, required[..n], name);
      var before, c := AddRequired(e, gates, required[..n]), required[n];
      PutFind(before, RequiredName(c.context), RequiredGate(e, c), name);
      PutKeys(before, RequiredName(c.context), RequiredGate(e, c));
    }
  }

  lemma BuiltinsDistinct(e: Entry)
    ensures Distinct(BuiltinGates(e))
  {
    var gates := BuiltinGates(e);
    assert gates[0].0 == "Windows Build" && gates[1].0 == "Portable Rust" && gates[2].0 == "CodeQL" &&
      gates[3].0 == "Gitleaks";
  }

  /** A required context never takes the place of a built-in gate. */
  lemma BuiltinIsKept(e: Entry, i: int)
    requires 0 <= i < |BUILTINS|
    ensures Find(GatesOf(e), BUILTINS[i].gate) == Some(BuiltinGate(e, BUILTINS[i]))
  {
    var gates := BuiltinGates(e);
    BuiltinsDistinct(e);
    FindMeets(gates, BUILTINS[i].gate);
    assert gates[i] == (BUILTINS[i].gate, BuiltinGate(e, BUILTINS[i]));
    forall k | 0 <= k < |RequiredChecks(e)| ensures RequiredName(RequiredChecks(e)[k].context) != BUILTINS[i].gate {
      assert RequiredName(RequiredChecks(e)[k].context)[0] == 'r';
      assert BUILTINS[i].gate[0] != 'r';
    }
    AddRequiredKeeps(e, gates, RequiredChecks(e), BUILTINS[i].gate);
  }

  /** When all gates succeed, each built-in gate rests on current evidence of its own. */
  lemma BuiltinsSucceeded(e: Entry, i: int)
    requires AllSucceed(GatesOf(e)) && 0 <= i < |BUILTINS|
    ensures BuiltinGate(e, BUILTINS[i]).state == SUCCESS && BuiltinGate(e, BUILTINS[i]).evidence != []
    ensures Proven(e, BuiltinTarget(e, BUILTINS[i]))
  {
    BuiltinIsKept(e, i);
    FoundIsListed(GatesOf(e), BUILTINS[i].gate);
    SuccessRestsOnCurrentEvidence(BuiltinTarget(e, BUILTINS[i]), e.checks, e.runs);
    GateMeans(e, BuiltinTarget(e, BUILTINS[i]));
  }

  /** The sources of all gates are known, and the head is well formed. */
  predicate Readable(e: Entry) {
    e.checks.Some? && e.runs.Some? && ValidSha(e.headSha)
  }

  /** A winning check of the target broke. */
  ghost predicate Broken(e: Entry, t: Target) {
    Readable(e) && SomeWinner(t, e.runs.value, e.checks.value, Broke)
  }

  /** None broke, and one is unfinished or, without any, a current run is. */
  ghost predicate Running(e: Entry, t: Target) {
    && Readable(e) && !Broken(e, t)
    && (SomeWinner(t, e.runs.value, e.checks.value, Underway) ||
          (!AnyWinner(t, e.runs.value, e.checks.value) && RunUnderway(t, e.runs.value)))
  }

  /** There is a winning check, and every one passed. */
  ghost predicate Proven(e: Entry, t: Target) {
    Readable(e) && WinnersPassed(t, e.runs.value, e.checks.value)
  }

  /** The state of a gate in terms of the raw checks and runs. */
  lemma {:induction false} GateMeans(e: Entry, t: Target)
    requires t.headSha == e.headSha
    ensures var state := GateOf(t, e.checks, e.runs).state;
      && (state == FAILED <==> Broken(e, t)) && (state == State.PENDING <==> Running(e, t))
      && (state == SUCCESS <==> Proven(e, t))
  {
    if Readable(e) {
      GateExactly(t, e.checks.value, e.runs.value);
    }
  }

  /**
    When all gates succeed, every required check that no built-in gate stands
    for and that is not required again later has succeeded in its own right.
  */
  lemma RequiredChecksSucceeded(e: Entry, k: int)
    requires AllSucceed(GatesOf(e)) && 0 <= k < |RequiredChecks(e)| && LastWithContext(RequiredChecks(e), k)
    ensures RequiredGate(e, RequiredChecks(e)[k]).state == SUCCESS
    ensures Proven(e, RequiredTarget(e, RequiredChecks(e)[k]))
  {
    var required := RequiredChecks(e);
    LastRequiredIsKept(e, BuiltinGates(e), required, k);
    FoundIsListed(GatesOf(e), RequiredName(required[k].context));
    GateMeans(e, RequiredTarget(e, required[k]));
  }

  lemma {:induction false} FoundIsListed<V>(d: Dict<V>, k: string)
    requires Find(d, k).Some?
    ensures exists i :: 0 <= i < |d| && d[i] == (k, Find(d, k).value)
  {
    if d[0].0 != k {
      FoundIsListed(d[1..], k);
      var i :| 0 <= i < |d[1..]| && d[1..][i] == (k, Find(d, k).value);
      assert d[i + 1] == (k, Find(d, k).value);
    } else {
      assert d[0] == (k, Find(d, k).value);
    }
  }

  // ---------------------------------------------- what success of all gates means

  /** A context required outside the built-in gates has a last check that requires it. */
  lemma {:induction false} LastExists(required: seq<RequiredCheck>, k: int) returns (last: int)
    requires 0 <= k < |required| && !CoveredByBuiltin(required[k])
    ensures k <= last < |required| && LastWithContext(required, last) && required[last].context == required[k].context
    decreases |required| - k
  {
    if LastWithContext(required, k) {
      last := k;
    } else {
      var j :| k < j < |required| && Uncovered(required, j, required[k].context);
      last := LastExists(required, j);
    }
  }

  /** Every gate is one of those given or belongs to a required context. */
  lemma {:induction false} GateNames(e: Entry, gates: Dict<Gate>, required: seq<RequiredCheck>)
    requires Distinct(gates)
    ensures var all := AddRequired(e, gates, required);
      && Distinct(all)
      && forall i :: 0 <= i < |all| ==> NamedBy(gates, required, all[i].0)
  {
    if required != [] {
      var n := |required| - 1;
      var before, c := AddRequired(e, gates, required[..n]), required[n];
      GateNames(e, gates, required[..n]);
      forall i | 0 <= i < |before| ensures NamedBy(gates, required, before[i].0) {
        NamedByLonger(gates, required, n, before[i].0);
      }
      PutKeys(before, RequiredName(c.context), RequiredGate(e, c));
      if !CoveredByBuiltin(c) {
        assert NamedFor(required, n, RequiredName(c.context));
        assert NamedBy(gates, required, RequiredName(c.context));
      }
    }
  }

  ghost predicate NamedBy(gates: Dict<Gate>, required: seq<RequiredCheck>, name: string) {
    || (exists i :: 0 <= i < |gates| && gates[i].0 == name)
    || (exists k :: 0 <= k < |required| && NamedFor(required, k, name))
  }

  predicate NamedFor(required: seq<RequiredCheck>, k: int, name: string)
    requires 0 <= k < |required|
  {
    !CoveredByBuiltin(required[k]) && RequiredName(required[k].context) == name
  }

  lemma NamedByLonger(gates: Dict<Gate>, required: seq<RequiredCheck>, n: nat, name: string)
    requires n <= |required| && NamedBy(gates, required[..n], name)
    ensures NamedBy(gates, required, name)
  {
    if !exists i :: 0 <= i < |gates| && gates[i].0 == name {
      var k :| 0 <= k < n && NamedFor(required[..n], k, name);
      assert NamedFor(required, k, name);
    }
  }

  /** A gate is evaluated for each built-in target and for each context's last uncovered requirement. */
  ghost predicate Demands(e: Entry, t: Target) {
    || (exists i :: 0 <= i < |BUILTINS| && t == BuiltinTarget(e, BUILTINS[i]))
    || (exists k :: 0 <= k < |RequiredChecks(e)| && LastWithContext(RequiredChecks(e), k)
          && t == RequiredTarget(e, RequiredChecks(e)[k]))
  }

  /** Every gate is that of a demanded target. */
  lemma {:induction false} GateIsDemanded(e: Entry, i: int) returns (t: Target)
    requires 0 <= i < |GatesOf(e)|
    ensures Demands(e, t) && GatesOf(e)[i].1 == GateOf(t, e.checks, e.runs)
  {
    var gates, required, all := BuiltinGates(e), RequiredChecks(e), GatesOf(e);
    BuiltinsDistinct(e);
    GateNames(e, gates, required);
    FindMeets(all, all[i].0);
    assert NamedBy(gates, required, all[i].0);
    if exists j :: 0 <= j < |gates| && gates[j].0 == all[i].0 {
      var j :| 0 <= j < |gates| && gates[j].0 == all[i].0;
      BuiltinIsKept(e, j);
      t := BuiltinTarget(e, BUILTINS[j]);
    } else {
      var k :| 0 <= k < |required| && NamedFor(required, k, all[i].0);
      var last := LastExists(required, k);
      LastRequiredIsKept(e, gates, required, last);
      t := RequiredTarget(e, required[last]);
    }
  }

  /** Every demanded target has its gate. */
  lemma {:induction false} DemandHasAGate(e: Entry, t: Target) returns (i: int)
    requires Demands(e, t)
    ensures 0 <= i < |GatesOf(e)| && GatesOf(e)[i].1 == GateOf(t, e.checks, e.runs)
  {
    var name: string;
    if exists j :: 0 <= j < |BUILTINS| && t == BuiltinTarget(e, BUILTINS[j]) {
      var j :| 0 <= j < |BUILTINS| && t == BuiltinTarget(e, BUILTINS[j]);
      BuiltinIsKept(e, j);
      name := BUILTINS[j].gate;
    } else {
      var required := RequiredChecks(e);
      var k :| 0 <= k < |required| && LastWithContext(required, k) && t == RequiredTarget(e, required[k]);
      LastRequiredIsKept(e, BuiltinGates(e), required, k);
      name := RequiredName(required[k].context);
    }
    FoundIsListed(GatesOf(e), name);
    i :| 0 <= i < |GatesOf(e)| && GatesOf(e)[i] == (name, Find(GatesOf(e), name).value);
  }

  ghost predicate SomeBroken(e: Entry) {
    exists t :: Demands(e, t) && Broken(e, t)
  }

  ghost predicate SomeRunning(e: Entry) {
    exists t :: Demands(e, t) && Running(e, t)
  }

  /** Every demanded target is broken, running or proven. */
  ghost predicate AllDecided(e: Entry) {
    forall t :: Demands(e, t) ==> Broken(e, t) || Running(e, t) || Proven(e, t)
  }

  ghost predicate AllProven(e: Entry) {
    forall t :: Demands(e, t) ==> Proven(e, t)
  }

  ghost predicate Occurs(e: Entry, state: State) {
    exists t :: Demands(e, t) && GateOf(t, e.checks, e.runs).state == state
  }

  lemma {:induction false} StateOccurs(e: Entry, state: State)
    ensures AnyGate(GatesOf(e), state) <==> Occurs(e, state)
  {
    if AnyGate(GatesOf(e), state) {
      var i :| 0 <= i < |GatesOf(e)| && GatesOf(e)[i].1.state == state;
      var t := GateIsDemanded(e, i);
    }
    if Occurs(e, state) {
      var t :| Demands(e, t) && GateOf(t, e.checks, e.runs).state == state;
      var i := DemandHasAGate(e, t);
    }
  }

  lemma {:induction false} OccurrencesMean(e: Entry)
    ensures Occurs(e, FAILED) <==> SomeBroken(e)
    ensures Occurs(e, State.PENDING) <==> SomeRunning(e)
    ensures Occurs(e, UNKNOWN) <==> !AllDecided(e)
    ensures AllProven(e) <==> AllDecided(e) && !SomeBroken(e) && !SomeRunning(e)
  {
    forall t | Demands(e, t)
      ensures GateOf(t, e.checks, e.runs).state == FAILED <==> Broken(e, t)
      ensures GateOf(t, e.checks, e.runs).state == State.PENDING <==> Running(e, t)
      ensures GateOf(t, e.checks, e.runs).state == SUCCESS <==> Proven(e, t)
    {
      GateMeans(e, t);
    }
  }

  /**
    What the states of the gates mean: some gate fails, runs or is unknown
    exactly if a demanded target is broken, running, or none of the three.
  */
  lemma {:induction false} GatesMean(e: Entry)
    ensures AnyGate(GatesOf(e), FAILED) <==> SomeBroken(e)
    ensures AnyGate(GatesOf(e), State.PENDING) <==> SomeRunning(e)
    ensures AnyGate(GatesOf(e), UNKNOWN) <==> !AllDecided(e)
    ensures AllSucceed(GatesOf(e)) <==> AllProven(e)
  {
    StateOccurs(e, FAILED);
    StateOccurs(e, State.PENDING);
    StateOccurs(e, UNKNOWN);
    OccurrencesMean(e);
    SuccessIsTheRest(GatesOf(e));
  }

  lemma SuccessIsTheRest(gates: Dict<Gate>)
    ensures AllSucceed(gates) <==>
      !AnyGate(gates, FAILED) && !AnyGate(gates, State.PENDING) && !AnyGate(gates, UNKNOWN)
  {
    forall i | 0 <= i < |gates|
      ensures gates[i].1.state == SUCCESS <==>
        gates[i].1.state != FAILED && gates[i].1.state != State.PENDING && gates[i].1.state != UNKNOWN
    {
    }
  }

  /**
    All gates succeed if and only if the four built-in ones do and so does
    every required check that no built-in gate stands for and that is not
    required again later.
  */
  lemma {:induction false} AllSucceedExactly(e: Entry)
    ensures AllSucceed(GatesOf(e)) <==>
      && (forall i :: 0 <= i < |BUILTINS| ==> BuiltinGate(e, BUILTINS[i]).state == SUCCESS)
      && (forall k :: 0 <= k < |RequiredChecks(e)| && LastWithContext(RequiredChecks(e), k) ==>
            RequiredGate(e, RequiredChecks(e)[k]).state == SUCCESS)
  {
    if AllSucceed(GatesOf(e)) {
      forall i | 0 <= i < |BUILTINS| ensures BuiltinGate(e, BUILTINS[i]).state == SUCCESS {
        BuiltinsSucceeded(e, i);
      }
      forall k | 0 <= k < |RequiredChecks(e)| && LastWithContext(RequiredChecks(e), k)
        ensures RequiredGate(e, RequiredChecks(e)[k]).state == SUCCESS
      {
        RequiredChecksSucceeded(e, k);
      }
    } else {
      var i :| 0 <= i < |GatesOf(e)| && GatesOf(e)[i].1.state != SUCCESS;
      var t := GateIsDemanded(e, i);
      assert t.workflow.Some? || t.workflow.None?;
    }
  }

  // -------------------------------------------------------- shadowed requirements

  /** A later check outside the built-in gates requires the same context. */
  ghost predicate Shadowed(required: seq<RequiredCheck>, k: int)
    requires 0 <= k < |required|
  {
    exists j :: k < j < |required| && Uncovered(required, j, required[k].context)
  }

  lemma {:induction false} AddRequiredSplits(e: Entry, gates: Dict<Gate>, a: seq<RequiredCheck>, b: seq<RequiredCheck>)
    ensures AddRequired(e, gates, a + b) == AddRequired(e, AddRequired(e, gates, a), b)
    decreases |b|
  {
    if b == [] {
      assert a + b == a;
    } else {
      AddRequiredSplits(e, gates, a, b[..|b| - 1]);
      assert (a + b)[..|a + b| - 1] == a + b[..|b| - 1];
    }
  }

  lemma {:induction false} AddLast(e: Entry, gates: Dict<Gate>, required: seq<RequiredCheck>, c: RequiredCheck)
    ensures var before := AddRequired(e, gates, required);
      AddRequired(e, gates, required + [c])
      == if CoveredByBuiltin(c) then before else Put(before, RequiredName(c.context), RequiredGate(e, c))
  {
    assert (required + [c])[..|required|] == required;
  }

  lemma {:induction false} AddRequiredAgrees(
      e: Entry, d: Dict<Gate>, f: Dict<Gate>, required: seq<RequiredCheck>, context: string)
    requires AgreeExcept(d, f, RequiredName(context)) && Distinct(d)
    ensures AgreeExcept(AddRequired(e, d, required), AddRequired(e, f, required), RequiredName(context))
    ensures (exists j :: 0 <= j < |required| && Uncovered(required, j, context)) ==>
      AddRequired(e, d, required) == AddRequired(e, f, required)
    decreases |required|
  {
    if required != [] {
      var n := |required| - 1;
      var c := required[n];
      AddRequiredAgrees(e, d, f, required[..n], context);
      GateNames(e, d, required[..n]);
      PutAgrees(AddRequired(e, d, required[..n]), AddRequired(e, f, required[..n]), RequiredName(context),
        RequiredName(c.context), RequiredGate(e, c));
      if !Uncovered(required, n, context) && exists j :: 0 <= j < |required| && Uncovered(required, j, context) {
        var j :| 0 <= j < |required| && Uncovered(required, j, context);
        assert Uncovered(required[..n], j, context);
      }
    }
  }

  /**
    The application of a shadowed requirement has no influence: with another
    one in its place, the gates are the same.
  */
  lemma {:induction false} ShadowedRequirementIsLost(
      e: Entry, gates: Dict<Gate>, required: seq<RequiredCheck>, k: int, other: Option<int>)
    requires 0 <= k < |required| && Shadowed(required, k) && Distinct(gates)
    requires CoveredByBuiltin(required[k]) == CoveredByBuiltin(required[k].(appId := other))
    ensures AddRequired(e, gates, required[k := required[k].(appId := other)]) == AddRequired(e, gates, required)
  {
    var c, b := required[k], required[k].(appId := other);
    var before, after := required[..k], required[k + 1..];
    var base := AddRequired(e, gates, before);
    assert required == before + [c] + after && required[k := b] == before + [b] + after;
    AddRequiredSplits(e, gates, before + [c], after);
    AddRequiredSplits(e, gates, before + [b], after);
    AddLast(e, gates, before, c);
    AddLast(e, gates, before, b);
    if !CoveredByBuiltin(c) {
      GateNames(e, gates, before);
      var j :| k < j < |required| && Uncovered(required, j, c.context);
      OverwrittenLater(e, base, c.context, RequiredGate(e, c), RequiredGate(e, b), after, j - k - 1);
    }
  }

  lemma {:induction false} OverwrittenLater(
      e: Entry, base: Dict<Gate>, context: string, v: Gate, w: Gate, after: seq<RequiredCheck>, j: int)
    requires Distinct(base) && 0 <= j < |after| && Uncovered(after, j, context)
    ensures var name := RequiredName(context);
      AddRequired(e, Put(base, name, v), after) == AddRequired(e, Put(base, name, w), after)
  {
    var name := RequiredName(context);
    PutKeys(base, name, v);
    PutTwiceAgrees(base, name, v, w);
    AddRequiredAgrees(e, Put(base, name, v), Put(base, name, w), after, context);
  }

  function WithRequired(e: Entry, required: seq<RequiredCheck>): Entry
    requires e.policy.Some?
  {
    e.(policy := Some(e.policy.value.(requiredChecks := required)))
  }

  /** Whatever application a shadowed requirement names, all gates succeed in the same cases. */
  lemma {:induction false} ShadowedRequirementNeverDecides(e: Entry, k: int, other: Option<int>)
    requires 0 <= k < |RequiredChecks(e)| && Shadowed(RequiredChecks(e), k)
    ensures var required := RequiredChecks(e);
      AllSucceed(GatesOf(WithRequired(e, required[k := required[k].(appId := other)]))) <==> AllSucceed(GatesOf(e))
  {
    var required := RequiredChecks(e);
    var changed := required[k := required[k].(appId := other)];
    var f := WithRequired(e, changed);
    AllSucceedExactly(e);
    AllSucceedExactly(f);
    assert forall i :: 0 <= i < |BUILTINS| ==> BuiltinGate(f, BUILTINS[i]) == BuiltinGate(e, BUILTINS[i]);
    forall j | 0 <= j < |required| ensures LastWithContext(changed, j) <==> LastWithContext(required, j) {
      ShadowedIsNeverLast(required, changed, k, j);
    }
    forall j | 0 <= j < |required| && LastWithContext(required, j) ensures changed[j] == required[j] && j != k {
      var later :| k < later < |required| && Uncovered(required, later, required[k].context);
      assert !LastWithContext(required, k);
    }
    assert forall j :: 0 <= j < |required| && LastWithContext(required, j) ==>
      RequiredGate(f, changed[j]) == RequiredGate(e, required[j]);
  }

  lemma ShadowedIsNeverLast(required: seq<RequiredCheck>, changed: seq<RequiredCheck>, k: int, j: int)
    requires 0 <= k < |required| && Shadowed(required, k) && 0 <= j < |required| == |changed|
    requires changed[k].context == required[k].context && forall i :: 0 <= i < |required| && i != k ==>
      changed[i] == required[i]
    ensures LastWithContext(changed, j) <==> LastWithContext(required, j)
  {
    var later :| k < later < |required| && Uncovered(required, later, required[k].context);
    assert Uncovered(changed, later, required[k].context);
    forall i | 0 <= i < |required| &&
      i != k ensures Uncovered(changed, i, required[j].context) == Uncovered(required, i, required[j].context) {
    }
  }

  // ---------------------------------------------------- covered requirements

  /** A pull-request run of this head for this request, of whatever workflow. */
  predicate OfThisRequest(e: Entry, r: Run) {
    r.headSha == e.headSha && r.fromPullRequest && e.pull.number in r.pullRequests
  }

  /** A trusted check of this head under the required name, of whatever application identifier. */
  predicate OfThisContext(e: Entry, c: RequiredCheck, k: Check) {
    k.name == c.context && k.headSha == e.headSha && k.appSlug == TRUSTED_APP
  }

  /**
    Where the built-in workflow is the only one that ran, it decides a covered
    requirement. One that names the Actions application also needs the checks
    of that application to carry its identifier.
  */
  lemma {:induction false} CoveredAgreesInOneWorkflow(e: Entry, c: RequiredCheck, i: int)
    requires 0 <= i < |BUILTINS| && BUILTINS[i].names == [c.context] && CoveredByBuiltin(c)
    requires c.appId == Some(ACTIONS_APP) && e.checks.Some? ==>
      forall j :: 0 <= j < |e.checks.value| && OfThisContext(e, c, e.checks.value[j]) ==>
        e.checks.value[j].appId == Some(ACTIONS_APP)
    requires e.runs.Some? ==>
      forall j :: 0 <= j < |e.runs.value| && OfThisRequest(e, e.runs.value[j]) ==>
        e.runs.value[j].path == BUILTINS[i].workflow
    ensures RequiredGate(e, c) == BuiltinGate(e, BUILTINS[i])
  {
    var b := BUILTINS[i];
    var t := Target([c.context], None, e.headSha, Some(e.pull.number), c.appId);
    var u := Target(b.names, Some(b.workflow), e.headSha, Some(e.pull.number), None);
    if e.checks.Some? && e.runs.Some? && ValidSha(e.headSha) {
      var runs, checks := e.runs.value, e.checks.value;
      forall j | 0 <= j < |runs| ensures RunKept(t)(runs[j]) == RunKept(u)(runs[j]) {
        assert OfThisRequest(e, runs[j]) ==> runs[j].path == b.workflow;
      }
      BestAgrees(runs, RunKept(t), RunKept(u), RunPath(), RunScore());
      var latest := LatestRuns(t, runs);
      forall j | 0 <= j < |checks| ensures CheckKept(t, latest)(checks[j]) == CheckKept(u, latest)(checks[j]) {
        assert c.appId == Some(ACTIONS_APP) && OfThisContext(e, c, checks[j]) ==> checks[j].appId == Some(ACTIONS_APP);
      }
      BestAgrees(checks, CheckKept(t, latest), CheckKept(u, latest), CheckName(), CheckScore());
    }
  }

  /** A successful job of the built-in workflow, and a later failed one of the same name in another workflow. */
  function TwoRuns(sha: string, number: int): seq<Run> {
    [Run(1, 1, 100, sha, ".github/workflows/ci.yml", true, Completed, None, [number]),
     Run(2, 1, 200, sha, ".github/workflows/other.yml", true, Completed, None, [number])]
  }

  function TwoChecks(sha: string): seq<Check> {
    [Check(Some(10), "Windows Build", sha, TRUSTED_APP, None, Some(100), Completed, Success, None, None),
     Check(Some(11), "Windows Build", sha, TRUSTED_APP, None, Some(200), Completed, Failure, None, None)]
  }

  lemma {:induction false} BuiltinSeesOneRun(u: Target, sha: string, number: int)
    requires u == Target(["Windows Build"], Some(".github/workflows/ci.yml"), sha, Some(number), None)
    ensures LatestRuns(u, TwoRuns(sha, number)) == [(TwoRuns(sha, number)[0].path, TwoRuns(sha, number)[0])]
    ensures SelectedChecks(u, LatestRuns(u, TwoRuns(sha, number)), TwoChecks(sha)) == [("Windows Build",
      TwoChecks(sha)[0])]
  {
    var runs, checks := TwoRuns(sha, number), TwoChecks(sha);
    var latest := [(runs[0].path, runs[0])];
    BestOfTwo(runs[0], runs[1], RunKept(u), RunPath(), RunScore());
    assert RunKept(u)(runs[0]) && !RunKept(u)(runs[1]);
    assert LatestRuns(u, runs) == latest;
    BestOfTwo(checks[0], checks[1], CheckKept(u, latest), CheckName(), CheckScore());
    assert RunOfSuite(latest, Some(100)) == Some(runs[0]) && RunOfSuite(latest, Some(200)) == None;
    assert CheckKept(u, latest)(checks[0]) && !CheckKept(u, latest)(checks[1]);
  }

  lemma {:induction false} ContextSeesBothRuns(t: Target, sha: string, number: int)
    requires t == Target(["Windows Build"], None, sha, Some(number), None)
    ensures SelectedChecks(t, LatestRuns(t, TwoRuns(sha, number)), TwoChecks(sha)) == [("Windows Build",
      TwoChecks(sha)[1])]
  {
    var runs, checks := TwoRuns(sha, number), TwoChecks(sha);
    var latest := [(runs[0].path, runs[0]), (runs[1].path, runs[1])];
    BestOfTwo(runs[0], runs[1], RunKept(t), RunPath(), RunScore());
    assert runs[0].path[18] == 'c' && runs[1].path[18] == 'o';
    assert RunKept(t)(runs[0]) && RunKept(t)(runs[1]);
    var one := [(runs[0].path, runs[0])];
    assert Record([], runs[0], RunKept(t), RunPath(), RunScore()) == one && one[1..] == [];
    assert Find(one, runs[1].path) == None && Put(one, runs[1].path, runs[1]) == latest;
    assert Record(one, runs[1], RunKept(t), RunPath(), RunScore()) == latest;
    assert runs == [runs[0], runs[1]];
    BestOfTwo(checks[0], checks[1], CheckKept(t, latest), CheckName(), CheckScore());
    assert latest[1..] == [(runs[1].path, runs[1])];
    assert RunOfSuite(latest[1..], Some(200)) == Some(runs[1]);
    assert RunOfSuite(latest, Some(100)) == Some(runs[0]) && RunOfSuite(latest, Some(200)) == Some(runs[1]);
    assert CheckKept(t, latest)(checks[0]) && CheckKept(t, latest)(checks[1]);
    var first := Record([], checks[0], CheckKept(t, latest), CheckName(), CheckScore());
    assert first == [("Windows Build", checks[0])];
    assert Record(first, checks[1], CheckKept(t, latest), CheckName(), CheckScore()) == [("Windows Build", checks[1])];
  }

  /** Otherwise a covered requirement can have failed while its built-in gate succeeds. */
  lemma {:induction false} CoveredCanHaveFailed(e: Entry)
    requires ValidSha(e.headSha)
    requires e.runs == Some(TwoRuns(e.headSha, e.pull.number)) && e.checks == Some(TwoChecks(e.headSha))
    ensures var c := RequiredCheck("Windows Build", None);
      CoveredByBuiltin(c) && BuiltinGate(e, BUILTINS[0]).state == SUCCESS && RequiredGate(e, c).state == FAILED
  {
    var u := Target(["Windows Build"], Some(".github/workflows/ci.yml"), e.headSha, Some(e.pull.number), None);
    var t := Target(["Windows Build"], None, e.headSha, Some(e.pull.number), None);
    BuiltinSeesOneRun(u, e.headSha, e.pull.number);
    ContextSeesBothRuns(t, e.headSha, e.pull.number);
    GateOfOne(u, e.checks.value, e.runs.value, TwoChecks(e.headSha)[0]);
    GateOfOne(t, e.checks.value, e.runs.value, TwoChecks(e.headSha)[1]);
  }

  lemma {:induction false} GateOfOne(t: Target, checks: seq<Check>, runs: seq<Run>, c: Check)
    requires ValidSha(t.headSha) && SelectedChecks(t, LatestRuns(t, runs), checks) == [(c.name, c)]
    ensures GateOf(t, Some(checks), Some(runs)).state == CheckState(c)
  {
    var evidence := EvidenceOf([(c.name, c)]);
    assert evidence == [EvidenceFor(c)];
    assert StatesOf(evidence) == [CheckState(c)];
  }

  // -------------------------------------------------------------- findings

  /** The source is unknown or malformed. */
  predicate Unread(e: Entry, source: Source) {
    match source
    case Detail => !e.detailKnown
    case PolicyRules => e.policy.None?
    case Checks => e.checks.None?
    case Runs => e.runs.None?
    case Statuses => !e.statusesKnown
    case Reviews => e.reviews.None?
    case Threads => e.threads.None?
    case Comments => e.comments.None?
    case Files => e.files.None?
    case CodeScanning => e.alerts.None?
    case BaseBranch => e.baseSha.None?
    case Stability => !e.stable
  }

  function MissingSources(e: Entry): set<Source> {
    set source | source in AllSources() && Unread(e, source)
  }

  predicate EndsWith(s: string, suffix: string) {
    |suffix| <= |s| && s[|s| - |suffix|..] == suffix
  }

  /** A change to the auditor itself or to documentation needs no acceptance on devices. */
  predicate ToolingOnly(name: string) {
    "tools/classmesh-pr-audit/" <= name || "docs/" <= name || EndsWith(name, ".md")
  }

  const SENSITIVE_PATHS := [
    "apps/classmesh-service/", "crates/classmesh-security/", "crates/classmesh-identity/", "crates/classmesh-win32/",
    "crates/classmesh-windows-runtime/"]

  predicate SensitivePath(name: string) {
    exists k :: 0 <= k < |SENSITIVE_PATHS| && SENSITIVE_PATHS[k] <= name
  }

  method IsSensitive(name: string) returns (sensitive: bool)
    ensures sensitive == SensitivePath(name)
  {
    sensitive := false;
    for k := 0 to |SENSITIVE_PATHS|
      invariant sensitive <==> exists j :: 0 <= j < k && SENSITIVE_PATHS[j] <= name
    {
      var path := SENSITIVE_PATHS[k];
      if |path| <= |name| && name[..|path|] == path {
        sensitive := true;
      }
    }
  }

  method AnySensitive(files: seq<string>) returns (sensitive: bool)
    ensures sensitive == TouchesSensitive(Some(files))
  {
    sensitive := false;
    for i := 0 to |files|
      invariant sensitive <==> exists j :: 0 <= j < i && SensitivePath(files[j])
    {
      var found := IsSensitive(files[i]);
      sensitive := sensitive || found;
    }
  }

  lemma EndsWithExactly(s: string, suffix: string)
    ensures EndsWith(s, suffix) <==> exists head :: s == head + suffix
  {
    if EndsWith(s, suffix) {
      assert s == s[..|s| - |suffix|] + suffix;
    }
  }

  predicate NeedsManualScope(files: Option<seq<string>>) {
    files.None? || files.value == [] || exists i :: 0 <= i < |files.value| && !ToolingOnly(files.value[i])
  }

  predicate TouchesSensitive(files: Option<seq<string>>) {
    files.Some? && exists i :: 0 <= i < |files.value| && SensitivePath(files.value[i])
  }

  function OpenThreads(threads: seq<SecurityNotes.Thread>): nat {
    if threads == [] then 0 else OpenThreads(threads[1..]) + if threads[0].resolved then 0 else 1
  }

  predicate AnyWords(items: seq<Prose>) {
    exists i :: 0 <= i < |items| && items[i].words
  }

  predicate AnyOpenSignal(threads: seq<SecurityNotes.Thread>) {
    exists i :: 0 <= i < |threads| && !threads[i].resolved && AnyWords(threads[i].comments)
  }

  predicate AnySignal(e: Entry) {
    || e.body.words || (e.comments.Some? && AnyWords(e.comments.value))
    || (e.reviews.Some? && exists i :: 0 <= i < |e.reviews.value| && e.reviews.value[i].prose.words)
    || (e.threads.Some? && AnyOpenSignal(e.threads.value.threads))
  }

  function StateOfGate(gates: Dict<Gate>, name: string): State {
    var found := Find(gates, name);
    if found.Some? then found.value.state else UNKNOWN
  }

  /** The first evaluation's own signal for a security review; the second evaluation replaces it. */
  predicate SecuritySignals(e: Entry, gates: Dict<Gate>) {
    || AnySignal(e) || TouchesSensitive(e.files) || e.alerts.None? || e.alerts.value != []
    || StateOfGate(gates, "CodeQL") != SUCCESS || StateOfGate(gates, "Gitleaks") != SUCCESS
  }

  function StackState(s: Snapshot, pulls: seq<DependencyState.Pull>, p: DependencyState.Pull): DependencyState.Status {
    if DependencyState.BaseIsTarget(s.repository, p) then DependencyState.CLEAR
    else if p.baseBranch != s.repository.target &&
      |DependencyState.BaseOwners(s.repository, pulls, p)| == 1 then DependencyState.BLOCKED
    else DependencyState.UNKNOWN
  }

  /** Clear on the target of this repository; blocked on another branch that exactly one open request owns. */
  lemma {:induction false} StackStateExactly(s: Snapshot, pulls: seq<DependencyState.Pull>, p: DependencyState.Pull)
    ensures var r := s.repository;
      && (StackState(s, pulls, p) == DependencyState.CLEAR <==>
            p.baseBranch == r.target && r.fold(p.baseRepo) == r.fold(r.name))
      && (StackState(s, pulls, p) == DependencyState.BLOCKED <==>
            p.baseBranch != r.target && DependencyState.ExactlyOneOwner(r, pulls, p))
      && StackState(s, pulls, p) != DependencyState.CYCLE
  {
    DependencyState.OneBaseOwner(s.repository, pulls, p);
  }

  function ReviewContext(e: Entry, s: Snapshot): ReviewPolicy.Context {
    ReviewPolicy.Context(s.repository.fold, e.author, s.owner, s.viewer, e.headSha, e.permissions)
  }

  function BaseContext(e: Entry): BaseEvidence.Context {
    BaseEvidence.Context(e.stable, e.headSha, if e.baseSha.Some? then e.baseSha.value else "UNKNOWN",
      if e.policy.Some? then e.policy.value.strict else None, e.checks, e.runs, e.proofs)
  }

  function SecurityInput(e: Entry, s: Snapshot, gates: Dict<Gate>): SecurityNotes.Input {
    SecurityNotes.Input(ReviewContext(e, s), e.headCommit, s.captured, e.mergeSha, e.body, e.comments,
      if e.threads.Some? then Some(e.threads.value.threads) else None, e.reviews, e.alerts, e.files.Some?,
      TouchesSensitive(e.files), StateOfGate(gates, "CodeQL"), StateOfGate(gates, "Gitleaks"))
  }

  /** The reviews counted: none when the source is unknown. */
  function KnownReviews(e: Entry): seq<Review> {
    if e.reviews.Some? then e.reviews.value else []
  }

  /** What was found agrees with the entry it was found for. */
  ghost predicate FindingsFor(
    e: Entry, s: Snapshot, pulls: seq<DependencyState.Pull>, cyclic: bool, x: Findings)
  {
    && x.missing == MissingSources(e) && x.gates == GatesOf(e) && x.policy == e.policy
    && x.draft == e.draft && x.mergeable == e.mergeable && x.mergeableState == e.mergeableState
    && x.viewerNamed == s.viewer.NamedViewer? && x.collectionGaps == s.collectionGaps
    && (x.decision == if e.threads.Some? then e.threads.value.decision else OtherDecision)
    && (x.unresolvedThreads == if e.threads.Some? then OpenThreads(e.threads.value.threads) else 0)
    && x.manualScope == NeedsManualScope(e.files) && x.securitySignals == SecuritySignals(e, x.gates)
    && x.stack == StackState(s, pulls, e.pull)
    && Tallied(ReviewContext(e, s), KnownReviews(e), x.tally)
    && x.base == BaseEvidence.BaseOf(BaseContext(e), x.gates)
    && x.security == SecurityNotes.AssessmentOf(SecurityInput(e, s, x.gates))
    && (x.confirmed > 0 <==> x.security == SecurityNotes.ConfirmedBlocker)
    && DependencyState.Settles(s.repository, pulls, e.pull, cyclic, x.dependencies)
  }

  ghost predicate Tallied(c: ReviewPolicy.Context, reviews: seq<Review>, t: Tally) {
    && FoldDistinct(c, t.independent)
    && (forall login :: FoldMember(c, t.independent, login) <==> Approver(c, reviews, login))
    && (forall login :: login in t.changesRequested <==> Objector(c, reviews, login))
    && (forall login :: login in t.unknownPermissions <==> Undetermined(c, reviews, login))
  }

  /** A blocked request has an open or a closed parent: a base that is not the target has an owner. */
  lemma {:induction false} BlockedHasACause(r: DependencyState.Repository, pulls: seq<DependencyState.Pull>,
    p: DependencyState.Pull, cyclic: bool, d: DependencyState.Dependencies)
    requires DependencyState.Settles(r, pulls, p, cyclic, d) && d.status == DependencyState.BLOCKED
    ensures d.parents != [] || d.closed != []
  {
    if !DependencyState.BaseIsTarget(r, p) {
      var i :| DependencyState.OnlyOwner(r, pulls, p, i);
      assert DependencyState.SomeOwner(r, pulls, p, pulls[i].number);
      assert DependencyState.IsParent(r, pulls, p, pulls[i].number);
      assert pulls[i].number in d.parents;
    } else {
      var n :| n in p.declared && DependencyState.FateOf(r, pulls, p, n) != DependencyState.Merged;
      DependencyState.DeclaresConsidered(p, n);
      assert DependencyState.IsParent(r, pulls, p, n) || n in d.closed;
    }
  }

  method TallyEntry(e: Entry, s: Snapshot) returns (tally: Tally)
    ensures Tallied(ReviewContext(e, s), KnownReviews(e), tally)
  {
    tally := TallyReviews(
      ReviewPolicy.Context(s.repository.fold, e.author, s.owner, s.viewer, e.headSha, e.permissions),
      if e.reviews.Some? then e.reviews.value else []);
  }

  method ValidateEntry(e: Entry, gates: Dict<Gate>) returns (base: BaseEvidence.Freshness)
    ensures base == BaseEvidence.BaseOf(BaseContext(e), gates)
  {
    base := BaseEvidence.ValidateBase(
      BaseEvidence.Context(e.stable, e.headSha, if e.baseSha.Some? then e.baseSha.value else "UNKNOWN",
        if e.policy.Some? then e.policy.value.strict else None, e.checks, e.runs, e.proofs), gates);
  }

  lemma {:induction false} FindingsCohere(
    e: Entry, s: Snapshot, pulls: seq<DependencyState.Pull>, cyclic: bool, x: Findings)
    requires FindingsFor(e, s, pulls, cyclic, x)
    ensures Coherent(x)
  {
    if x.dependencies.status == DependencyState.BLOCKED {
      BlockedHasACause(s.repository, pulls, e.pull, cyclic, x.dependencies);
    }
    if e.policy.None? {
      AllSourcesListed(PolicyRules);
    }
  }

  method AssessEntry(e: Entry, s: Snapshot, gates: Dict<Gate>)
    returns (security: SecurityNotes.Assessment, confirmed: nat)
    requires gates == GatesOf(e)
    ensures security == SecurityNotes.AssessmentOf(SecurityInput(e, s, gates))
    ensures confirmed > 0 <==> security == SecurityNotes.ConfirmedBlocker
  {
    var codeQl, gitleaks := Find(gates, "CodeQL"), Find(gates, "Gitleaks");
    var sensitive := false;
    if e.files.Some? {
      sensitive := AnySensitive(e.files.value);
    }
    BuiltinIsKept(e, 2);
    BuiltinIsKept(e, 3);
    security, confirmed := SecurityNotes.AssessSecurity(SecurityNotes.Input(
      ReviewPolicy.Context(s.repository.fold, e.author, s.owner, s.viewer, e.headSha, e.permissions),
      e.headCommit, s.captured, e.mergeSha, e.body, e.comments,
      if e.threads.Some? then Some(e.threads.value.threads) else None, e.reviews, e.alerts, e.files.Some?,
      sensitive, codeQl.value.state, gitleaks.value.state));
  }

  method Examine(
      e: Entry, s: Snapshot, pulls: seq<DependencyState.Pull>, ghost cyclic: bool, d: DependencyState.Dependencies)
    returns (x: Findings)
    requires DependencyState.Settles(s.repository, pulls, e.pull, cyclic, d)
    ensures FindingsFor(e, s, pulls, cyclic, x) && Coherent(x)
  {
    var gates := EvaluateGates(e);
    var tally := TallyEntry(e, s);
    var base := ValidateEntry(e, gates);
    var security, confirmed := AssessEntry(e, s, gates);
    x := Findings(MissingSources(e), e.draft, e.mergeable, e.mergeableState, gates, s.viewer.NamedViewer?, tally,
      e.policy,
      if e.threads.Some? then e.threads.value.decision else OtherDecision,
      if e.threads.Some? then OpenThreads(e.threads.value.threads) else 0,
      SecuritySignals(e, gates), NeedsManualScope(e.files), StackState(s, pulls, e.pull), s.collectionGaps,
      base, security, confirmed, d);
    FindingsCohere(e, s, pulls, cyclic, x);
  }

  // --------------------------------------------------------------- verdict

  datatype Verdict = Verdict(stage: Stage, conditions: Conditions, action: Step, gates: Dict<Gate>,
    independent: seq<string>)

  // what the evidence says

  predicate Wordless(items: seq<Prose>) {
    forall i :: 0 <= i < |items| ==> !items[i].words
  }

  /** Nothing calls for a security review in the first evaluation. */
  ghost predicate NoSignal(e: Entry) {
    && !e.body.words && (e.comments.Some? ==> Wordless(e.comments.value))
    && (e.reviews.Some? ==> forall i :: 0 <= i < |e.reviews.value| ==> !e.reviews.value[i].prose.words)
    && (e.threads.Some? ==>
          forall i :: 0 <= i < |e.threads.value.threads| ==>
            e.threads.value.threads[i].resolved || Wordless(e.threads.value.threads[i].comments))
    && (e.files.Some? ==> forall i :: 0 <= i < |e.files.value| ==> !SensitivePath(e.files.value[i]))
    && e.alerts == Some([])
    && Proven(e, BuiltinTarget(e, BUILTINS[2])) && Proven(e, BuiltinTarget(e, BUILTINS[3]))
  }

  lemma {:induction false} SignalsExactly(e: Entry)
    ensures !SecuritySignals(e, GatesOf(e)) <==> NoSignal(e)
  {
    ScanState(e, 2);
    ScanState(e, 3);
  }

  ghost predicate ThreadOpen(e: Entry) {
    e.threads.Some? && exists i :: 0 <= i < |e.threads.value.threads| && !e.threads.value.threads[i].resolved
  }

  /** Every gate has evidence, all of it of the current base. */
  ghost predicate BaseProven(e: Entry) {
    && e.stable && e.checks.Some? && e.runs.Some?
    && forall g :: 0 <= g < |GatesOf(e)| ==> BaseEvidence.AllCurrent(BaseContext(e), GatesOf(e)[g].1)
  }

  /** The evidence of some gate was all observed, and some of it ran a merge with an older base. */
  ghost predicate BaseOutdated(e: Entry) {
    && e.stable && e.checks.Some? && e.runs.Some?
    && exists g :: 0 <= g < |GatesOf(e)| && BaseEvidence.GateIsStale(BaseContext(e), GatesOf(e)[g].1)
  }

  ghost predicate ParentsStop(s: Snapshot, pulls: seq<DependencyState.Pull>, p: DependencyState.Pull, cyclic: bool) {
    && !DependencyState.AllParentsMerged(s.repository, pulls, p)
    && (|| cyclic || (exists n :: DependencyState.IsParent(s.repository, pulls, p, n))
        || (exists n :: DependencyState.Declares(p, n) &&
              DependencyState.FateOf(s.repository, pulls, p, n) == DependencyState.ClosedOnly))
  }

  ghost predicate SomeObjector(e: Entry, s: Snapshot) {
    exists login :: Objector(ReviewContext(e, s), KnownReviews(e), login)
  }

  /** An approval of the head whose author's standing is not known. */
  ghost predicate SomeUndetermined(e: Entry, s: Snapshot) {
    exists login :: Undetermined(ReviewContext(e, s), KnownReviews(e), login)
  }

  /** A reason to stop, in the terms of the evidence. */
  ghost predicate MustStop(e: Entry, s: Snapshot, pulls: seq<DependencyState.Pull>, cyclic: bool) {
    || e.draft == Some(true) || e.mergeable == Some(false) || e.mergeableState == "dirty"
    || SomeBroken(e) || SomeRunning(e) || SomeObjector(e, s)
    || ThreadOpen(e) || (e.threads.Some? && e.threads.value.decision == ChangesRequested)
    || BaseOutdated(e)
    || SecurityNotes.Confirmed(SecurityInput(e, s, GatesOf(e)))
    || ParentsStop(s, pulls, e.pull, cyclic)
  }

  /** All twelve sources were read, and the collection was complete. */
  predicate SourcesRead(e: Entry, s: Snapshot) {
    && e.detailKnown && e.policy.Some? && e.checks.Some? && e.runs.Some? && e.statusesKnown && e.reviews.Some?
    && e.threads.Some? && e.comments.Some? && e.files.Some? && e.alerts.Some? && e.baseSha.Some? && e.stable
    && s.viewer.NamedViewer? && s.collectionGaps == []
  }

  /** Only the auditor's own files and documentation are changed, so nothing is left to accept by hand. */
  predicate ScopeKnown(files: seq<string>) {
    files != [] && forall i :: 0 <= i < |files| ==>
      "tools/classmesh-pr-audit/" <= files[i] || "docs/" <= files[i] || EndsWith(files[i], ".md")
  }

  /** Nothing that the decision needs is unknown, in the terms of the evidence. */
  ghost predicate EverythingKnown(e: Entry, s: Snapshot, pulls: seq<DependencyState.Pull>) {
    && SourcesRead(e, s) && ScopeKnown(e.files.value)
    && e.draft.Some? && (e.mergeable.Some? || e.mergeableState == "dirty")
    && (e.mergeableState == "clean" || e.mergeableState == "dirty" ||
          (e.mergeableState == "blocked" && e.threads.value.decision == ReviewRequired))
    && AllDecided(e) && !SomeUndetermined(e, s)
    && (BaseProven(e) || BaseOutdated(e))
    && (SecurityNotes.Confirmed(SecurityInput(e, s, GatesOf(e))) ||
          !SecurityNotes.Untraced(SecurityInput(e, s, GatesOf(e))))
    && (DependencyState.AllParentsMerged(s.repository, pulls, e.pull) ||
          !DependencyState.Unsettled(s.repository, pulls, e.pull))
    && e.policy.value.strict.Some? && e.policy.value.unsupportedRules == []
    && (e.policy.value.requiredApprovals > 0 ==> e.threads.value.decision != OtherDecision)
  }

  /** The counted approvals: one for each approver, and nobody else. */
  ghost predicate ApprovalsOf(e: Entry, s: Snapshot, independent: seq<string>) {
    && FoldDistinct(ReviewContext(e, s), independent)
    && forall login :: FoldMember(ReviewContext(e, s), independent, login) <==>
      Approver(ReviewContext(e, s), KnownReviews(e), login)
  }

  /** Nothing that mentions security stands in the way, no sensitive path is touched, and both scans succeeded. */
  ghost predicate SecurityClear(e: Entry, s: Snapshot) {
    && SecurityNotes.EverythingSettled(SecurityInput(e, s, GatesOf(e))) && !TouchesSensitive(e.files)
    && Proven(e, BuiltinTarget(e, BUILTINS[2])) && Proven(e, BuiltinTarget(e, BUILTINS[3]))
  }

  /** As many approvals as demanded, and at least one; the review decision agrees; security is clear. */
  ghost predicate ReviewsDone(e: Entry, s: Snapshot, v: Verdict) {
    && e.policy.Some? && |v.independent| >= 1 && |v.independent| >= e.policy.value.requiredApprovals
    && (e.threads.Some? ==> e.threads.value.decision != ChangesRequested && e.threads.value.decision != ReviewRequired)
    && (e.policy.value.codeOwnerReview || e.policy.value.lastPushApproval ==>
          e.threads.Some? && e.threads.value.decision == Approved)
    && SecurityClear(e, s)
  }

  /** Every demand on a ready pull request, in the terms of the evidence. */
  ghost predicate Guaranteed(e: Entry, s: Snapshot, pulls: seq<DependencyState.Pull>, v: Verdict) {
    && EverythingKnown(e, s, pulls)
    && e.draft == Some(false) && e.mergeable == Some(true) && e.mergeableState == "clean"
    && AllProven(e) && ReviewsDone(e, s, v) && !SomeObjector(e, s) && !ThreadOpen(e)
    && BaseProven(e)
    && DependencyState.AllParentsMerged(s.repository, pulls, e.pull)
  }

  // what was found is what the evidence says

  lemma {:induction false} OpenThreadsCounts(threads: seq<SecurityNotes.Thread>)
    ensures OpenThreads(threads) > 0 <==> exists i :: 0 <= i < |threads| && !threads[i].resolved
  {
    if threads != [] {
      OpenThreadsCounts(threads[1..]);
      assert forall i :: 0 < i < |threads| ==> threads[i] == threads[1..][i - 1];
    }
  }

  lemma {:induction false} TallyMeans(e: Entry, s: Snapshot, t: Tally)
    requires Tallied(ReviewContext(e, s), KnownReviews(e), t)
    ensures t.changesRequested == [] <==> !SomeObjector(e, s)
    ensures t.unknownPermissions == [] <==> !SomeUndetermined(e, s)
    ensures ApprovalsOf(e, s, t.independent)
  {
    var c, reviews := ReviewContext(e, s), KnownReviews(e);
    NoMember(t.changesRequested);
    NoMember(t.unknownPermissions);
    assert t.changesRequested != [] ==> Objector(c, reviews, t.changesRequested[0]);
    assert t.unknownPermissions != [] ==> Undetermined(c, reviews, t.unknownPermissions[0]);
    forall login ensures Objector(c, reviews, login) ==> t.changesRequested != [] {
      assert login in t.changesRequested <==> Objector(c, reviews, login);
    }
    forall login ensures Undetermined(c, reviews, login) ==> t.unknownPermissions != [] {
      assert login in t.unknownPermissions <==> Undetermined(c, reviews, login);
    }
  }

  lemma {:induction false} BaseMeans(e: Entry)
    ensures BaseEvidence.Accepted(BaseEvidence.BaseOf(BaseContext(e), GatesOf(e))) <==> BaseProven(e)
    ensures BaseEvidence.BaseOf(BaseContext(e), GatesOf(e)) == BaseEvidence.IntegrationStale <==> BaseOutdated(e)
  {
    BaseEvidence.BaseAcceptedExactly(BaseContext(e), GatesOf(e));
    BaseEvidence.BaseStaleExactly(BaseContext(e), GatesOf(e));
    BuiltinIsKept(e, 0);
  }

  lemma {:induction false} ScanState(e: Entry, i: int)
    requires 0 <= i < |BUILTINS|
    ensures StateOfGate(GatesOf(e), BUILTINS[i].gate) == SUCCESS <==> Proven(e, BuiltinTarget(e, BUILTINS[i]))
  {
    BuiltinIsKept(e, i);
    GateMeans(e, BuiltinTarget(e, BUILTINS[i]));
  }

  lemma {:induction false} SecurityMeans(e: Entry, s: Snapshot)
    ensures var i := SecurityInput(e, s, GatesOf(e));
      && (SecurityNotes.AssessmentOf(i) == SecurityNotes.ConfirmedBlocker <==> SecurityNotes.Confirmed(i))
      && (SecurityNotes.AssessmentOf(i) == SecurityNotes.Unknown <==>
            !SecurityNotes.Confirmed(i) && SecurityNotes.Untraced(i))
      && (SecurityNotes.AssessmentOf(i) == SecurityNotes.Clear <==> SecurityClear(e, s))
  {
    var i := SecurityInput(e, s, GatesOf(e));
    SecurityNotes.ConfirmedExactly(i);
    SecurityNotes.UnknownExactly(i);
    SecurityNotes.ClearExactly(i);
    ScanState(e, 2);
    ScanState(e, 3);
  }

  lemma SourcesMean(e: Entry, s: Snapshot)
    ensures MissingSources(e) == {} && s.viewer.NamedViewer? && s.collectionGaps == [] <==> SourcesRead(e, s)
  {
    forall source ensures source in MissingSources(e) <==> Unread(e, source) {
      AllSourcesListed(source);
    }
    if MissingSources(e) == {} {
      assert !Unread(e, Detail) && !Unread(e, PolicyRules) && !Unread(e, Checks) && !Unread(e, Runs);
      assert !Unread(e, Statuses) && !Unread(e, Reviews) && !Unread(e, Threads) && !Unread(e, Comments);
      assert !Unread(e, Files) && !Unread(e, CodeScanning) && !Unread(e, BaseBranch) && !Unread(e, Stability);
    }
  }

  lemma {:induction false} ParentsMean(s: Snapshot, pulls: seq<DependencyState.Pull>, p: DependencyState.Pull,
    cyclic: bool, d: DependencyState.Dependencies)
    requires DependencyState.Settles(s.repository, pulls, p, cyclic, d)
    ensures ParentsStop(s, pulls, p, cyclic) <==>
      d.status != DependencyState.CLEAR && (d.parents != [] || d.closed != [] || d.status == DependencyState.CYCLE)
  {
    NoMember(d.parents);
    NoMember(d.closed);
    assert d.parents != [] ==> DependencyState.IsParent(s.repository, pulls, p, d.parents[0]);
    assert d.closed != [] ==>
      DependencyState.FateOf(s.repository, pulls, p, d.closed[0]) == DependencyState.ClosedOnly;
    forall n ensures DependencyState.IsParent(s.repository, pulls, p, n) ==> d.parents != [] {
      assert n in d.parents <==> DependencyState.IsParent(s.repository, pulls, p, n);
    }
  }

  lemma {:induction false} StoppedMeans(
    e: Entry, s: Snapshot, pulls: seq<DependencyState.Pull>, cyclic: bool, x: Findings)
    requires FindingsFor(e, s, pulls, cyclic, x)
    ensures Stopped(x) <==> MustStop(e, s, pulls, cyclic)
  {
    GatesMean(e);
    TallyMeans(e, s, x.tally);
    BaseMeans(e);
    SecurityMeans(e, s);
    ParentsMean(s, pulls, e.pull, cyclic, x.dependencies);
    if e.threads.Some? {
      OpenThreadsCounts(e.threads.value.threads);
    }
    assert SomeGate(x, FAILED) <==> AnyGate(GatesOf(e), FAILED);
    assert SomeGate(x, State.PENDING) <==> AnyGate(GatesOf(e), State.PENDING);
  }

  lemma {:induction false} KnownMeans(
    e: Entry, s: Snapshot, pulls: seq<DependencyState.Pull>, cyclic: bool, x: Findings)
    requires FindingsFor(e, s, pulls, cyclic, x)
    ensures NothingUnknown(x) <==> EverythingKnown(e, s, pulls)
  {
    GatesMean(e);
    TallyMeans(e, s, x.tally);
    BaseMeans(e);
    SecurityMeans(e, s);
    SourcesMean(e, s);
    assert SomeGate(x, UNKNOWN) <==> AnyGate(GatesOf(e), UNKNOWN);
  }

  lemma {:induction false} ReviewsMean(
    e: Entry, s: Snapshot, pulls: seq<DependencyState.Pull>, cyclic: bool, x: Findings, v: Verdict)
    requires FindingsFor(e, s, pulls, cyclic, x) && v.independent == x.tally.independent
    ensures !ReviewOpen(x) <==> ReviewsDone(e, s, v)
  {
    SecurityMeans(e, s);
  }

  /** Findings are ready if and only if the evidence they were found in meets every demand. */
  lemma {:induction false} ReadyMeansGuaranteed(
    e: Entry, s: Snapshot, pulls: seq<DependencyState.Pull>, cyclic: bool, x: Findings, v: Verdict)
    requires FindingsFor(e, s, pulls, cyclic, x) && v.independent == x.tally.independent
    ensures Ready(x) <==> Guaranteed(e, s, pulls, v)
  {
    KnownMeans(e, s, pulls, cyclic, x);
    ReviewsMean(e, s, pulls, cyclic, x, v);
    GatesMean(e);
    TallyMeans(e, s, x.tally);
    BaseMeans(e);
    if e.threads.Some? {
      OpenThreadsCounts(e.threads.value.threads);
    }
    assert (forall i :: 0 <= i < |x.gates| ==> x.gates[i].1.state == SUCCESS) <==> AllSucceed(x.gates);
  }

  /** What a verdict says about the evidence, stage by stage. */
  ghost predicate Means(e: Entry, s: Snapshot, pulls: seq<DependencyState.Pull>, cyclic: bool, v: Verdict) {
    && (v.stage == BLOCKED <==> MustStop(e, s, pulls, cyclic))
    && (v.stage == UNKNOWN_STAGE <==> !MustStop(e, s, pulls, cyclic) && !EverythingKnown(e, s, pulls))
    && (v.stage == READY_FOR_FINAL_REVIEW <==>
          && !MustStop(e, s, pulls, cyclic) && EverythingKnown(e, s, pulls) && !ReviewsDone(e, s, v)
          && v.independent != [])
    && (v.stage == READY_FOR_INDEPENDENT_REVIEW <==>
          && !MustStop(e, s, pulls, cyclic) && EverythingKnown(e, s, pulls) && !ReviewsDone(e, s, v)
          && v.independent == [])
    && (v.stage == READY_FOR_MERGE <==> Guaranteed(e, s, pulls, v))
    && ApprovalsOf(e, s, v.independent)
  }

  /** The verdict on one pull request, with its whole meaning. */
  method AuditPull(
      e: Entry, s: Snapshot, pulls: seq<DependencyState.Pull>, ghost cyclic: bool, d: DependencyState.Dependencies)
    returns (v: Verdict)
    requires DependencyState.Settles(s.repository, pulls, e.pull, cyclic, d)
    ensures Means(e, s, pulls, cyclic, v)
    ensures v.stage == READY_FOR_MERGE <==> AllSatisfied(v.conditions) && e.mergeableState != "dirty"
    ensures v.action == CoordinatorMergeDecision <==> v.stage == READY_FOR_MERGE
    ensures AnyUndetermined(v.conditions) ==> v.stage == BLOCKED || v.stage == UNKNOWN_STAGE
  {
    var x := Examine(e, s, pulls, cyclic, d);
    var report := new PullReport(x);
    report.Enrich();
    v := Verdict(report.stage, report.conditions, report.action, x.gates, x.tally.independent);
    StageMeans(e, s, pulls, cyclic, x, v);
    VerdictMeans(x, report.blockers, report.missingEvidence, v);
  }

  lemma {:induction false} StageMeans(
    e: Entry, s: Snapshot, pulls: seq<DependencyState.Pull>, cyclic: bool, x: Findings, v: Verdict)
    requires FindingsFor(e, s, pulls, cyclic, x) && Coherent(x)
    requires v.stage == StageOf(x, FinalBlockers(x), FinalGaps(x)) && v.independent == x.tally.independent
    ensures Means(e, s, pulls, cyclic, v)
  {
    FinalOutcome(x);
    BlockedExactly(x, FinalBlockers(x), FinalGaps(x));
    StagesExactly(x, FinalBlockers(x), FinalGaps(x));
    StoppedMeans(e, s, pulls, cyclic, x);
    KnownMeans(e, s, pulls, cyclic, x);
    ReviewsMean(e, s, pulls, cyclic, x, v);
    ReadyMeansGuaranteed(e, s, pulls, cyclic, x, v);
    TallyMeans(e, s, x.tally);
  }

  lemma VerdictMeans(x: Findings, bs: seq<Blocker>, gaps: seq<Gap>, v: Verdict)
    requires Coherent(x) && bs == FinalBlockers(x) && gaps == FinalGaps(x)
    requires v.stage == StageOf(x, bs, gaps) && v.conditions == ConditionsOf(x, bs, gaps)
    requires v.action == ChooseAction(x, bs, gaps, v.stage)
    ensures v.stage == READY_FOR_MERGE <==> AllSatisfied(v.conditions) && x.mergeableState != "dirty"
    ensures v.action == CoordinatorMergeDecision <==> v.stage == READY_FOR_MERGE
    ensures AnyUndetermined(v.conditions) ==> v.stage == BLOCKED || v.stage == UNKNOWN_STAGE
  {
    FinalOutcome(x);
    ReadyMeansAllSatisfied(x, bs, gaps);
    MergeDecisionOnlyWhenReady(x, bs, gaps);
    if AnyUndetermined(v.conditions) {
      UnknownIsNeverAnApproval(x, bs, gaps);
    }
  }

  /** A verdict means what it says, and none for a pull request on a dependency cycle is ready. */
  ghost predicate Sound(e: Entry, s: Snapshot, pulls: seq<DependencyState.Pull>, cycles: seq<int>, v: Verdict) {
    && Means(e, s, pulls, e.pull.number in cycles, v)
    && (v.stage == READY_FOR_MERGE ==> e.pull.number !in cycles)
  }

  /** The whole audit: dependencies of all pull requests first, then a verdict on each. */
  method AuditAll(entries: seq<Entry>, s: Snapshot) returns (verdicts: seq<Verdict>, cycles: seq<int>)
    requires DependencyState.DistinctNumbers(PullsOf(entries))
    ensures Each(SoundIn(s, PullsOf(entries), cycles), entries, verdicts)
  {
    var pulls := PullsOf(entries);
    var deps: seq<DependencyState.Dependencies>;
    deps, cycles := DependencyState.BuildDependencies(s.repository, pulls);
    ghost var g := ReviewOrder.Index(DependencyState.Requests(pulls, deps));
    forall i | 0 <= i < |entries| ensures Usable(entries[i], s, pulls, cycles, deps[i]) {
      var cyclic := DependencyGraph.OnCycle(g, pulls[i].number);
      assert DependencyState.Settles(s.repository, pulls, pulls[i], cyclic, deps[i]);
      assert entries[i].pull == pulls[i];
    }
    verdicts := AuditEach(entries, s, pulls, deps, cycles);
  }

  /** What the dependency passes promise about one entry. */
  ghost predicate Usable(
    e: Entry, s: Snapshot, pulls: seq<DependencyState.Pull>, cycles: seq<int>, d: DependencyState.Dependencies)
  {
    DependencyState.Settles(s.repository, pulls, e.pull, e.pull.number in cycles, d)
  }

  method AuditOne(
      e: Entry, s: Snapshot, pulls: seq<DependencyState.Pull>, ghost cycles: seq<int>, d: DependencyState.Dependencies)
    returns (v: Verdict)
    requires Usable(e, s, pulls, cycles, d)
    ensures SoundIn(s, pulls, cycles)(e, v)
  {
    v := AuditPull(e, s, pulls, e.pull.number in cycles, d);
  }

  method AuditEach(
    entries: seq<Entry>, s: Snapshot, pulls: seq<DependencyState.Pull>, deps: seq<DependencyState.Dependencies>,
      ghost cycles: seq<int>)
    returns (verdicts: seq<Verdict>)
    requires |deps| == |entries| && forall i :: 0 <= i < |entries| ==> Usable(entries[i], s, pulls, cycles, deps[i])
    ensures Each(SoundIn(s, pulls, cycles), entries, verdicts)
  {
    verdicts := [];
    for k := 0 to |entries|
      invariant Each(SoundIn(s, pulls, cycles), entries[..k], verdicts)
    {
      var v := AuditOne(entries[k], s, pulls, cycles, deps[k]);
      EachAppend(SoundIn(s, pulls, cycles), entries[..k], verdicts, entries[k], v);
      assert entries[..k + 1] == entries[..k] + [entries[k]];
      verdicts := verdicts + [v];
    }
    assert entries[..|entries|] == entries;
  }

  ghost predicate Each<A, B>(p: (A, B) -> bool, a: seq<A>, b: seq<B>) {
    |a| == |b| && forall i :: 0 <= i < |a| ==> p(a[i], b[i])
  }

  lemma EachAppend<A, B>(p: (A, B) -> bool, a: seq<A>, b: seq<B>, x: A, y: B)
    requires Each(p, a, b) && p(x, y)
    ensures Each(p, a + [x], b + [y])
  {
  }

  ghost function SoundIn(s: Snapshot, pulls: seq<DependencyState.Pull>, cycles: seq<int>): (Entry, Verdict) -> bool {
    (e, v) => Sound(e, s, pulls, cycles, v)
  }

  function PullsOf(entries: seq<Entry>): seq<DependencyState.Pull> {
    seq(|entries|, i requires 0 <= i < |entries| => entries[i].pull)
  }
}
