/**
  Whether the successful checks of a pull request were executed on the current
  base: each check's checkout proof is compared with the head and the base tip.
*/
module BaseEvidence {
  import opened Wrappers
  import opened LatestPerKey
  import opened GatePolicy

  datatype Freshness = Unknown | ChangedDuringCollection | HeadOnly | IntegrationCurrent | IntegrationStale

  /** A known checkout proof; an unknown or malformed one is absent from the map. */
  datatype Proof = Proof(
    fromCheckoutLog: bool, checkId: int, runId: int, attempt: int, headSha: string,
    checkoutSha: string, parents: seq<string>, url: Option<string>)

  /**
    `baseSha` is the tip of the base branch, not a valid hash when unknown;
    `strict` is `None` when the rule is unknown.
  */
  datatype Context = Context(
    stable: bool, headSha: string, baseSha: string, strict: Option<bool>,
    checks: Option<seq<Check>>, runs: Option<seq<Run>>, proofs: map<int, Proof>)

  function CheckById(checks: seq<Check>, id: int): Option<Check> {
    if checks == [] then None else if checks[0].id == Some(id) then Some(checks[0]) else CheckById(checks[1..], id)
  }

  function RunByAttempt(runs: seq<Run>, id: int, attempt: int): Option<Run> {
    if runs == [] then None
    else if runs[0].id == id && runs[0].attempt == attempt then Some(runs[0])
    else RunByAttempt(runs[1..], id, attempt)
  }

  predicate RunOwnsCheck(headSha: string, run: Option<Run>, check: Option<Check>) {
    run.Some? && run.value.headSha == headSha && check.Some? && check.value.suite == Some(run.value.suite)
  }

  /** The proof names this check, this head, and a run of this head that owns the check's suite. */
  predicate Identified(c: Context, e: Evidence, p: Proof) {
    && c.checks.Some? && c.runs.Some?
    && p.fromCheckoutLog && p.headSha == c.headSha && p.checkId == e.checkId
    && RunOwnsCheck(c.headSha, RunByAttempt(c.runs.value, p.runId, p.attempt), CheckById(c.checks.value, e.checkId))
    && ValidSha(p.checkoutSha)
    && (forall i :: 0 <= i < |p.parents| ==> ValidSha(p.parents[i]))
    && e.url.Some? && p.url == e.url
  }

  function Observe(c: Context, e: Evidence): Freshness {
    if e.checkId !in c.proofs then Unknown else
    var p := c.proofs[e.checkId];
    if !Identified(c, e, p) then Unknown
    else if p.checkoutSha == c.headSha then (if c.strict == Some(false) then HeadOnly else Unknown)
    else if |p.parents| == 2 && p.parents[1] == c.headSha && ValidSha(c.baseSha) then
      (if p.parents[0] == c.baseSha then IntegrationCurrent else IntegrationStale)
    else Unknown
  }

  function ObserveAll(c: Context, evidence: seq<Evidence>): seq<Freshness> {
    seq(|evidence|, i requires 0 <= i < |evidence| => Observe(c, evidence[i]))
  }

  function GateFreshness(states: seq<Freshness>): Freshness {
    if states == [] || Unknown in states then Unknown
    else if IntegrationStale in states then IntegrationStale
    else if IntegrationCurrent in states then IntegrationCurrent
    else HeadOnly
  }

  function GateStates(c: Context, gates: Dict<Gate>): seq<Freshness> {
    seq(|gates|, i requires 0 <= i < |gates| => GateFreshness(ObserveAll(c, gates[i].1.evidence)))
  }

  function BaseOf(c: Context, gates: Dict<Gate>): Freshness {
    if !c.stable then ChangedDuringCollection
    else if c.checks.None? || c.runs.None? then Unknown
    else
      var states := GateStates(c, gates);
      if IntegrationStale in states then IntegrationStale
      else if states != [] && Unknown !in states then
        (if IntegrationCurrent in states then IntegrationCurrent else HeadOnly)
      else Unknown
  }

  method ValidateBase(c: Context, gates: Dict<Gate>) returns (base: Freshness)
    ensures base == BaseOf(c, gates)
  {
    if !c.stable {
      return ChangedDuringCollection;
    }
    if c.checks.None? || c.runs.None? {
      return Unknown;
    }
    var states := [];
    for g := 0 to |gates|
      invariant states == GateStates(c, gates)[..g]
    {
      var evidence := gates[g].1.evidence;
      var observations := [];
      for k := 0 to |evidence|
        invariant observations == ObserveAll(c, evidence)[..k]
      {
        observations := observations + [Observe(c, evidence[k])];
      }
      states := states + [GateFreshness(observations)];
    }
    if IntegrationStale in states {
      return IntegrationStale;
    }
    if states != [] && Unknown !in states {
      return if IntegrationCurrent in states then IntegrationCurrent else HeadOnly;
    }
    return Unknown;
  }

  predicate Accepted(f: Freshness) {
    f == HeadOnly || f == IntegrationCurrent
  }

  // -------------------------------------------------- what the freshness means

  /** `checks[i]` is the first with this identifier. */
  predicate FirstCheck(checks: seq<Check>, id: int, i: int) {
    0 <= i < |checks| && checks[i].id == Some(id) && forall j :: 0 <= j < i ==> checks[j].id != Some(id)
  }

  /** `runs[i]` is the first with this identifier and attempt. */
  predicate FirstRun(runs: seq<Run>, id: int, attempt: int, i: int) {
    && 0 <= i < |runs| && runs[i].id == id && runs[i].attempt == attempt
    && forall j :: 0 <= j < i ==> runs[j].id != id || runs[j].attempt != attempt
  }

  lemma {:induction false} CheckByIdIs(checks: seq<Check>, id: int)
    ensures CheckById(checks, id).None? <==> forall i :: 0 <= i < |checks| ==> checks[i].id != Some(id)
    ensures CheckById(checks, id).Some? ==>
      exists i :: FirstCheck(checks, id, i) && CheckById(checks, id).value == checks[i]
  {
    if checks != [] {
      var rest := checks[1..];
      CheckByIdIs(rest, id);
      assert forall i :: 0 < i < |checks| ==> checks[i] == rest[i - 1];
      if checks[0].id == Some(id) {
        assert FirstCheck(checks, id, 0);
      } else if CheckById(rest, id).Some? {
        var i :| FirstCheck(rest, id, i) && CheckById(rest, id).value == rest[i];
        assert FirstCheck(checks, id, i + 1);
      }
    }
  }

  lemma {:induction false} RunByAttemptIs(runs: seq<Run>, id: int, attempt: int)
    ensures RunByAttempt(runs, id, attempt).None? <==>
      forall i :: 0 <= i < |runs| ==> runs[i].id != id || runs[i].attempt != attempt
    ensures RunByAttempt(runs, id, attempt).Some? ==>
      exists i :: FirstRun(runs, id, attempt, i) && RunByAttempt(runs, id, attempt).value == runs[i]
  {
    if runs != [] {
      var rest := runs[1..];
      RunByAttemptIs(rest, id, attempt);
      assert forall i :: 0 < i < |runs| ==> runs[i] == rest[i - 1];
      if runs[0].id == id && runs[0].attempt == attempt {
        assert FirstRun(runs, id, attempt, 0);
      } else if RunByAttempt(rest, id, attempt).Some? {
        var i :| FirstRun(rest, id, attempt, i) && RunByAttempt(rest, id, attempt).value == rest[i];
        assert FirstRun(runs, id, attempt, i + 1);
      }
    }
  }

  /** Check `i` and run `j` are those the proof speaks of, the run is of this head and owns the check's suite. */
  predicate RunOfCheck(c: Context, e: Evidence, p: Proof, i: int, j: int)
    requires c.checks.Some? && c.runs.Some?
  {
    && FirstCheck(c.checks.value, e.checkId, i) && FirstRun(c.runs.value, p.runId, p.attempt, j)
    && c.runs.value[j].headSha == c.headSha && c.checks.value[i].suite == Some(c.runs.value[j].suite)
  }

  /**
    The check has a checkout proof of this head, from the log of a run of this
    head that owns the check, with well-formed hashes and the check's own link.
  */
  ghost predicate Attested(c: Context, e: Evidence) {
    && c.checks.Some? && c.runs.Some? && e.checkId in c.proofs
    && var p := c.proofs[e.checkId];
    && p.fromCheckoutLog && p.headSha == c.headSha && p.checkId == e.checkId
    && (exists i, j :: RunOfCheck(c, e, p, i, j))
    && ValidSha(p.checkoutSha) && (forall i :: 0 <= i < |p.parents| ==> ValidSha(p.parents[i]))
    && e.url.Some? && p.url == e.url
  }

  lemma {:induction false} AttestedExactly(c: Context, e: Evidence)
    ensures e.checkId in c.proofs && Identified(c, e, c.proofs[e.checkId]) <==> Attested(c, e)
  {
    if c.checks.Some? && c.runs.Some? && e.checkId in c.proofs {
      var p := c.proofs[e.checkId];
      CheckByIdIs(c.checks.value, e.checkId);
      RunByAttemptIs(c.runs.value, p.runId, p.attempt);
      var check, run := CheckById(c.checks.value, e.checkId), RunByAttempt(c.runs.value, p.runId, p.attempt);
      if check.Some? && run.Some? {
        var i :| FirstCheck(c.checks.value, e.checkId, i) && check.value == c.checks.value[i];
        var j :| FirstRun(c.runs.value, p.runId, p.attempt, j) && run.value == c.runs.value[j];
        assert RunOwnsCheck(c.headSha, run, check) <==> RunOfCheck(c, e, p, i, j);
        assert forall k, l :: RunOfCheck(c, e, p, k, l) ==> k == i && l == j;
      }
    }
  }

  /** The check ran a merge of some base with the head. */
  ghost predicate RanMerge(c: Context, e: Evidence) {
    && Attested(c, e) && c.proofs[e.checkId].checkoutSha != c.headSha
    && |c.proofs[e.checkId].parents| == 2 && c.proofs[e.checkId].parents[1] == c.headSha
  }

  ghost predicate RanCurrentMerge(c: Context, e: Evidence) {
    RanMerge(c, e) && c.proofs[e.checkId].parents[0] == c.baseSha
  }

  /** The merged base is not the known tip. */
  ghost predicate RanOldMerge(c: Context, e: Evidence) {
    RanMerge(c, e) && ValidSha(c.baseSha) && c.proofs[e.checkId].parents[0] != c.baseSha
  }

  ghost predicate RanHead(c: Context, e: Evidence) {
    Attested(c, e) && c.proofs[e.checkId].checkoutSha == c.headSha
  }

  /** Current enough: a merge of the current base, or the head alone where the base rule is explicitly off. */
  ghost predicate Current(c: Context, e: Evidence) {
    RanCurrentMerge(c, e) || (c.strict == Some(false) && RanHead(c, e))
  }

  ghost predicate AllCurrent(c: Context, gate: Gate) {
    gate.evidence != [] && forall k :: 0 <= k < |gate.evidence| ==> Current(c, gate.evidence[k])
  }

  /** Everything the gate rests on was observed, and some of it ran an old merge. */
  ghost predicate GateIsStale(c: Context, gate: Gate) {
    && (forall k :: 0 <= k < |gate.evidence| ==> Current(c, gate.evidence[k]) || RanOldMerge(c, gate.evidence[k]))
    && (exists k :: 0 <= k < |gate.evidence| && RanOldMerge(c, gate.evidence[k]))
  }

  lemma {:induction false} ObservedExactly(c: Context, e: Evidence)
    ensures Observe(c, e) == IntegrationCurrent <==> RanCurrentMerge(c, e)
    ensures Observe(c, e) == IntegrationStale <==> RanOldMerge(c, e)
    ensures Observe(c, e) == HeadOnly <==> c.strict == Some(false) && RanHead(c, e)
    ensures Observe(c, e) != ChangedDuringCollection
  {
    AttestedExactly(c, e);
  }

  lemma {:induction false} GateFreshnessExactly(c: Context, gate: Gate)
    ensures var f := GateFreshness(ObserveAll(c, gate.evidence));
      && f != ChangedDuringCollection
      && (Accepted(f) <==> AllCurrent(c, gate))
      && (f == IntegrationStale <==> GateIsStale(c, gate))
      && (f == IntegrationCurrent <==>
            AllCurrent(c, gate) && exists k :: 0 <= k < |gate.evidence| && RanCurrentMerge(c, gate.evidence[k]))
  {
    var states := ObserveAll(c, gate.evidence);
    forall k | 0 <= k < |states|
      ensures states[k] == IntegrationCurrent <==> RanCurrentMerge(c, gate.evidence[k])
      ensures states[k] == IntegrationStale <==> RanOldMerge(c, gate.evidence[k])
      ensures states[k] == HeadOnly <==> c.strict == Some(false) && RanHead(c, gate.evidence[k])
      ensures states[k] != ChangedDuringCollection
    {
      ObservedExactly(c, gate.evidence[k]);
    }
  }

  /**
    The base is accepted if and only if nothing changed during collection and
    every gate has evidence, each piece of it current.
  */
  lemma {:induction false} BaseAcceptedExactly(c: Context, gates: Dict<Gate>)
    ensures Accepted(BaseOf(c, gates)) <==>
      c.stable && c.checks.Some? && c.runs.Some? && gates != [] && forall g :: 0 <= g < |gates| ==>
        AllCurrent(c, gates[g].1)
  {
    var states := GateStates(c, gates);
    forall g | 0 <= g < |gates|
      ensures AllCurrent(c, gates[g].1) <==> states[g] != Unknown && states[g] != IntegrationStale
    {
      GateFreshnessExactly(c, gates[g].1);
    }
  }

  /** The base is stale if and only if some gate's evidence was all observed and some of it ran an old merge. */
  lemma {:induction false} BaseStaleExactly(c: Context, gates: Dict<Gate>)
    ensures BaseOf(c, gates) == IntegrationStale <==>
      && c.stable && c.checks.Some? && c.runs.Some?
      && exists g :: 0 <= g < |gates| && GateIsStale(c, gates[g].1)
  {
    var states := GateStates(c, gates);
    forall g | 0 <= g < |gates| ensures GateIsStale(c, gates[g].1) <==> states[g] == IntegrationStale {
      GateFreshnessExactly(c, gates[g].1);
    }
  }

  /**
    Unless the base rule is explicitly off, an accepted base means every
    observation ran a merge of base tip and head.
  */
  lemma {:induction false} StrictBaseMeansIntegration(c: Context, gates: Dict<Gate>)
    requires c.strict != Some(false) && Accepted(BaseOf(c, gates))
    ensures BaseOf(c, gates) == IntegrationCurrent
    ensures forall g, k :: 0 <= g < |gates| && 0 <= k < |gates[g].1.evidence| ==>
      RanCurrentMerge(c, gates[g].1.evidence[k])
  {
    BaseAcceptedExactly(c, gates);
    forall g, k | 0 <= g < |gates| && 0 <= k < |gates[g].1.evidence|
      ensures RanCurrentMerge(c, gates[g].1.evidence[k])
    {
      assert AllCurrent(c, gates[g].1);
      assert Current(c, gates[g].1.evidence[k]);
    }
    assert AllCurrent(c, gates[0].1) && RanCurrentMerge(c, gates[0].1.evidence[0]);
    GateFreshnessExactly(c, gates[0].1);
    assert GateStates(c, gates)[0] == IntegrationCurrent;
  }
}
