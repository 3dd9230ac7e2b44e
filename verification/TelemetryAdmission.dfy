/**
  Admission of native telemetry reports: the service arms, retires and drains;
  one background thread listens for the arm it was started with and offers
  complete reports to a one-slot mailbox. Each arm carries a fresh incarnation,
  because the operating-system identity alone may repeat.
*/
module TelemetryAdmission {
  import opened Wrappers
  import opened TelemetryFraming

  const MAX_INCARNATION := 0xFFFF_FFFF_FFFF_FFFF

  datatype PipeIdentity = PipeIdentity(
    serviceProcess: nat, workerProcess: nat, workerSession: nat, workerGeneration: nat, receiverGeneration: nat)

  datatype Arm = Arm(identity: PipeIdentity, incarnation: nat)

  /** The service's side: its own arm, the mirror the listener thread reads, and the one-slot start queue. */
  datatype Reader = Reader(armed: Option<Arm>, lastIncarnation: nat, current: Option<Arm>, start: Option<Arm>)

  function Retired(r: Reader): Reader {
    r.(armed := None, current := None)
  }

  /** `arm`: the binding check, incarnation check and pipe creation come before any state changes. */
  function Armed(r: Reader, identity: PipeIdentity, bindingOk: bool, pipeOk: bool): Reader {
    if !bindingOk || r.lastIncarnation >= MAX_INCARNATION || !pipeOk then r else
    var arm := Arm(identity, r.lastIncarnation + 1);
    var minted := r.(lastIncarnation := arm.incarnation, armed := Some(arm), current := Some(arm));
    if r.start.None? then minted.(start := Some(arm)) else Retired(minted)
  }

  function Synced(r: Reader, target: Option<PipeIdentity>): Reader {
    if target != (if r.armed.Some? then Some(r.armed.value.identity) else None) then Retired(r)
    else r.(current := r.armed)
  }

  class ServiceTelemetryReader {
    var state: Reader

    constructor ()
      ensures state == Reader(None, 0, None, None)
    {
      state := Reader(None, 0, None, None);
    }

    method ArmPipe(identity: PipeIdentity, bindingOk: bool, pipeOk: bool) returns (ok: bool)
      modifies this
      ensures state == Armed(old(state), identity, bindingOk, pipeOk)
      ensures ok ==> state.armed == Some(Arm(identity, old(state).lastIncarnation + 1)) && state.start == state.armed
      ensures !ok && bindingOk && pipeOk && old(state).lastIncarnation < MAX_INCARNATION ==> state.armed.None?
    {
      if !bindingOk || state.lastIncarnation >= MAX_INCARNATION || !pipeOk {
        return false;
      }
      var arm := Arm(identity, state.lastIncarnation + 1);
      state := state.(lastIncarnation := arm.incarnation, armed := Some(arm), current := Some(arm));
      if state.start.None? {
        state := state.(start := Some(arm));
        return true;
      }
      Retire();
      return false;
    }

    method Retire()
      modifies this
      ensures state == Retired(old(state))
    {
      state := state.(armed := None, current := None);
    }

    method SyncCurrent(target: Option<PipeIdentity>)
      modifies this
      ensures state == Synced(old(state), target)
    {
      var armedIdentity := if state.armed.Some? then Some(state.armed.value.identity) else None;
      if target != armedIdentity {
        Retire();
      } else {
        state := state.(current := state.armed);
      }
    }
  }

  // ------------------------------------------------------------ whole system

  /** The listener thread at work: complete frames handled so far, and the partial one. */
  datatype Listening = Listening(arm: Arm, blocks: nat, frame: seq<byte>, began: int)

  datatype Report = Report(arm: Arm, block: nat, began: int, data: seq<byte>)

  /** An admitted report, the time of its final freshness check, and what the service had armed then. */
  datatype Admission = Admission(report: Report, checkedAt: int, armed: Option<Arm>)

  /** `read[k]` is everything the listener of incarnation `k` has read from its pipe. */
  datatype State = State(
    reader: Reader, listener: Option<Listening>, mailbox: Option<Report>,
    read: map<nat, seq<byte>>, admitted: seq<Admission>, clock: int)

  datatype Step =
    | ArmReader(identity: PipeIdentity, bindingOk: bool, pipeOk: bool)
    | RetireReader
    | Sync(target: Option<PipeIdentity>)
    | TakeStart(accepted: bool)
    | ReadChunk(bytes: seq<byte>)
    | PublishFrame
    | StopListening
    | DrainOne(workerPresent: bool, grant: Option<PipeIdentity>, checkDelay: nat, grantDelay: nat)
    | Tick(elapsed: nat)

  const INITIAL := State(Reader(None, 0, None, None), None, None, map[], [], 0)

  function OnTakeStart(s: State, accepted: bool): State {
    if s.listener.Some? || s.reader.start.None? then s else
    var arm := s.reader.start.value;
    var t := s.(reader := s.reader.(start := None));
    if !accepted then t
    else t.(listener := Some(Listening(arm, 0, [], 0)), read := s.read[arm.incarnation := []])
  }

  function OnRead(s: State, bytes: seq<byte>): State {
    if s.listener.None? || s.listener.value.arm.incarnation !in s.read then s else
    var l := s.listener.value;
    if |l.frame| + |bytes| > REPORT_BYTES || bytes == [] then s else
    s.(listener := Some(l.(frame := l.frame + bytes, began := if l.frame == [] then s.clock else l.began)),
       read := s.read[l.arm.incarnation := s.read[l.arm.incarnation] + bytes])
  }

  function OnPublish(s: State): State {
    if s.listener.None? || |s.listener.value.frame| != REPORT_BYTES then s else
    var l := s.listener.value;
    if PartialReportExpired(Some(l.began), s.clock) then s.(listener := None) else
    s.(listener := Some(Listening(l.arm, l.blocks + 1, [], 0)),
       mailbox := if s.mailbox.None? then Some(Report(l.arm, l.blocks, l.began, l.frame)) else s.mailbox)
  }

  /** One received report and the checks up to its admission; both freshness checks read the clock anew. */
  function OnDrain(
      s: State, workerPresent: bool, grant: Option<PipeIdentity>, checkDelay: nat, grantDelay: nat): State
  {
    if s.mailbox.None? then s else
    var r := s.mailbox.value;
    var t := s.(mailbox := None, clock := s.clock + checkDelay + grantDelay);
    if s.reader.armed != Some(r.arm) || PartialReportExpired(Some(r.began), s.clock + checkDelay)
       || !workerPresent || grant != Some(r.arm.identity) || PartialReportExpired(Some(r.began), t.clock)
    then t
    else t.(admitted := s.admitted + [Admission(r, t.clock, s.reader.armed)])
  }

  function Next(s: State, step: Step): State {
    match step
    case ArmReader(identity, bindingOk, pipeOk) => s.(reader := Armed(s.reader, identity, bindingOk, pipeOk))
    case RetireReader => s.(reader := Retired(s.reader))
    case Sync(target) => s.(reader := Synced(s.reader, target))
    case TakeStart(accepted) => OnTakeStart(s, accepted)
    case ReadChunk(bytes) => OnRead(s, bytes)
    case PublishFrame => OnPublish(s)
    case StopListening => s.(listener := None)
    case DrainOne(w, grant, checkDelay, grantDelay) => OnDrain(s, w, grant, checkDelay, grantDelay)
    case Tick(elapsed) => s.(clock := s.clock + elapsed)
  }

  function Run(s: State, steps: seq<Step>): State {
    Fold(Next, s, steps)
  }

  // -------------------------------------------------------------- invariant

  ghost predicate IsBlockOf(read: map<nat, seq<byte>>, r: Report) {
    var k := r.arm.incarnation;
    k in read && (r.block + 1) * REPORT_BYTES <= |read[k]| && r.data == Block(read[k], r.block)
  }

  ghost predicate ReaderOk(s: State) {
    && s.reader.current == s.reader.armed
    && (s.reader.armed.Some? ==> s.reader.armed.value.incarnation <= s.reader.lastIncarnation)
    && (s.reader.start.Some? ==> s.reader.start.value.incarnation <= s.reader.lastIncarnation)
    && (forall k :: k in s.read ==> k <= s.reader.lastIncarnation)
    && (forall k :: k in s.read && s.reader.start.Some? ==> k < s.reader.start.value.incarnation)
  }

  ghost predicate ListenerOk(s: State) {
    s.listener.Some? ==>
      var l := s.listener.value;
      var k := l.arm.incarnation;
      && k in s.read && |l.frame| <= REPORT_BYTES
      && |s.read[k]| == l.blocks * REPORT_BYTES + |l.frame|
      && l.frame == s.read[k][l.blocks * REPORT_BYTES..]
      && (forall i :: 0 <= i < |s.admitted| ==> Handled(l, s.admitted[i].report))
      && (s.mailbox.Some? ==> Handled(l, s.mailbox.value))
  }

  ghost predicate Handled(l: Listening, r: Report) {
    r.arm.incarnation == l.arm.incarnation ==> r.block < l.blocks
  }

  ghost predicate Earlier(a: Report, b: Report) {
    a.arm.incarnation == b.arm.incarnation ==> a.block < b.block
  }

  ghost predicate AdmissionOk(s: State, a: Admission) {
    && IsBlockOf(s.read, a.report)
    && a.armed == Some(a.report.arm)
    && !PartialReportExpired(Some(a.report.began), a.checkedAt)
    && a.checkedAt <= s.clock
  }

  ghost predicate ReportsOk(s: State) {
    && (s.mailbox.Some? ==> IsBlockOf(s.read, s.mailbox.value))
    && (forall i :: 0 <= i < |s.admitted| ==> AdmissionOk(s, s.admitted[i]))
    && (forall i, j :: 0 <= i < j < |s.admitted| ==> Earlier(s.admitted[i].report, s.admitted[j].report))
    && (forall i :: 0 <= i < |s.admitted| && s.mailbox.Some? ==> Earlier(s.admitted[i].report, s.mailbox.value))
  }

  ghost predicate Inv(s: State) {
    ReaderOk(s) && ListenerOk(s) && ReportsOk(s)
  }

  lemma InvTakeStart(s: State, accepted: bool)
    requires Inv(s)
    ensures Inv(OnTakeStart(s, accepted))
  {
  }

  lemma InvRead(s: State, bytes: seq<byte>)
    requires Inv(s)
    ensures Inv(OnRead(s, bytes))
  {
    var t := OnRead(s, bytes);
    if t != s {
      var l := s.listener.value;
      var k := l.arm.incarnation;
      assert t.read[k][l.blocks * REPORT_BYTES..] == s.read[k][l.blocks * REPORT_BYTES..] + bytes;
      forall i | 0 <= i < |s.admitted| ensures AdmissionOk(t, t.admitted[i]) {
        assert AdmissionOk(s, s.admitted[i]);
        BlockStays(s.read, k, bytes, s.admitted[i].report);
      }
      if s.mailbox.Some? { BlockStays(s.read, k, bytes, s.mailbox.value); }
    }
  }

  lemma BlockStays(read: map<nat, seq<byte>>, k: nat, bytes: seq<byte>, r: Report)
    requires k in read && IsBlockOf(read, r)
    ensures IsBlockOf(read[k := read[k] + bytes], r)
  {
  }

  lemma InvPublish(s: State)
    requires Inv(s)
    ensures Inv(OnPublish(s))
  {
    var t := OnPublish(s);
    if t != s && t.listener.Some? {
      var l := s.listener.value;
      var k := l.arm.incarnation;
      assert l.frame == Block(s.read[k], l.blocks);
      assert s.read[k][(l.blocks + 1) * REPORT_BYTES..] == [];
      assert forall i :: 0 <= i < |s.admitted| ==> Handled(l, s.admitted[i].report);
      if s.mailbox.None? {
        forall i | 0 <= i < |s.admitted| ensures Earlier(t.admitted[i].report, t.mailbox.value) {
          assert Handled(l, s.admitted[i].report);
        }
      }
    }
    forall i | 0 <= i < |s.admitted| ensures AdmissionOk(t, t.admitted[i]) { assert AdmissionOk(s, s.admitted[i]); }
  }

  lemma InvDrain(s: State, workerPresent: bool, grant: Option<PipeIdentity>, checkDelay: nat, grantDelay: nat)
    requires Inv(s)
    ensures Inv(OnDrain(s, workerPresent, grant, checkDelay, grantDelay))
  {
  }

  lemma InvNext(s: State, step: Step)
    requires Inv(s)
    ensures Inv(Next(s, step))
  {
    var t := Next(s, step);
    match step
    case TakeStart(accepted) => InvTakeStart(s, accepted);
    case ReadChunk(bytes) => InvRead(s, bytes);
    case PublishFrame => InvPublish(s);
    case DrainOne(w, grant, checkDelay, grantDelay) => InvDrain(s, w, grant, checkDelay, grantDelay);
    case _ =>
      forall i | 0 <= i < |s.admitted| ensures AdmissionOk(t, t.admitted[i]) { assert AdmissionOk(s, s.admitted[i]); }
  }

  lemma {:induction false} InvRun(s: State, steps: seq<Step>)
    requires Inv(s)
    ensures Inv(Run(s, steps))
    decreases |steps|
  {
    if steps != [] {
      InvNext(s, steps[0]);
      InvRun(Next(s, steps[0]), steps[1..]);
    }
  }

  // ------------------------------------------------------------- properties

  /**
    Over every run, each admitted report is one whole 136-byte block of what
    the listener of its own incarnation read, that incarnation was the armed
    one at admission, and the report was under two seconds old at the final check.
  */
  lemma {:induction false} AdmittedReportsAreCurrentAndFresh(steps: seq<Step>, i: nat)
    requires i < |Run(INITIAL, steps).admitted|
    ensures var a := Run(INITIAL, steps).admitted[i];
      && a.armed == Some(a.report.arm)
      && IsBlockOf(Run(INITIAL, steps).read, a.report)
      && 0 <= a.checkedAt - a.report.began < PARTIAL_TIMEOUT_MS
  {
    InvRun(INITIAL, steps);
    var s := Run(INITIAL, steps);
    assert AdmissionOk(s, s.admitted[i]);
  }

  /** Within one incarnation, admitted blocks strictly advance: none is admitted twice or out of order. */
  lemma {:induction false} AdmittedBlocksAdvance(steps: seq<Step>, i: nat, j: nat)
    requires i < j < |Run(INITIAL, steps).admitted|
    requires var s := Run(INITIAL, steps); s.admitted[i].report.arm.incarnation == s.admitted[j].report.arm.incarnation
    ensures var s := Run(INITIAL, steps); s.admitted[i].report.block < s.admitted[j].report.block
  {
    InvRun(INITIAL, steps);
    var s := Run(INITIAL, steps);
    assert Earlier(s.admitted[i].report, s.admitted[j].report);
  }

  /** The incarnation has been minted and is not the armed one. */
  predicate IsRetired(s: State, incarnation: nat) {
    incarnation <= s.reader.lastIncarnation && (s.reader.armed.Some? ==>
      s.reader.armed.value.incarnation != incarnation)
  }

  /** A retired incarnation is never armed or live again, even when the same identity is armed anew. */
  lemma {:induction false} RetiredStaysRetired(steps: seq<Step>, more: seq<Step>, incarnation: nat)
    requires IsRetired(Run(INITIAL, steps), incarnation)
    ensures var t := Run(INITIAL, steps + more);
      && IsRetired(t, incarnation)
      && (t.reader.current.Some? ==> t.reader.current.value.incarnation != incarnation)
      && |Run(INITIAL, steps).admitted| <= |t.admitted|
      && (forall i :: |Run(INITIAL, steps).admitted| <= i < |t.admitted| ==>
            t.admitted[i].report.arm.incarnation != incarnation)
  {
    var s := Run(INITIAL, steps);
    FoldAppend(Next, INITIAL, steps, more);
    InvRun(INITIAL, steps);
    StaysRetired(s, more, incarnation);
    InvRun(INITIAL, steps + more);
  }

  lemma StaysRetiredOnce(s: State, step: Step, incarnation: nat)
    requires ReaderOk(s) && IsRetired(s, incarnation)
    ensures IsRetired(Next(s, step), incarnation)
    ensures var t := Next(s, step);
      t.admitted == s.admitted
        || exists a :: t.admitted == s.admitted + [a] && a.report.arm.incarnation != incarnation
  {
  }

  lemma {:induction false} StaysRetired(s: State, steps: seq<Step>, incarnation: nat)
    requires Inv(s) && IsRetired(s, incarnation)
    ensures var t := Run(s, steps);
      && IsRetired(t, incarnation)
      && s.admitted <= t.admitted
      && (forall i :: |s.admitted| <= i < |t.admitted| ==> t.admitted[i].report.arm.incarnation != incarnation)
    decreases |steps|
  {
    if steps != [] {
      InvNext(s, steps[0]);
      StaysRetiredOnce(s, steps[0], incarnation);
      StaysRetired(Next(s, steps[0]), steps[1..], incarnation);
    }
  }

  // ------------------------------------------------- when a report is admitted

  /** The state before step `n` of a run from the start. */
  function At(steps: seq<Step>, n: nat): State
    requires n <= |steps|
  {
    Run(INITIAL, steps[..n])
  }

  lemma {:induction false} AtNext(steps: seq<Step>, n: nat)
    requires n < |steps|
    ensures At(steps, n + 1) == Next(At(steps, n), steps[n])
  {
    assert steps[..n + 1] == steps[..n] + [steps[n]];
    FoldAppend(Next, INITIAL, steps[..n], [steps[n]]);
    assert [steps[n]][1..] == [];
  }

  /**
    Step `j` read the first byte of block `block` of the arm: until then the
    listener had exactly the blocks before it, and the clock stood at `began`.
  */
  predicate FirstByteAt(steps: seq<Step>, j: nat, arm: Arm, block: nat, began: int) {
    && j < |steps| && steps[j].ReadChunk? && 0 < |steps[j].bytes| <= REPORT_BYTES
    && At(steps, j).listener.Some? && At(steps, j).clock == began
    && At(steps, j).listener.value.arm == arm && At(steps, j).listener.value.blocks == block
    && At(steps, j).listener.value.frame == []
  }

  ghost predicate Dated(steps: seq<Step>, arm: Arm, block: nat, began: int) {
    exists j :: FirstByteAt(steps, j, arm, block, began)
  }

  /** Every block under way, waiting or admitted is dated by the reading of its first byte. */
  ghost predicate AllDated(steps: seq<Step>, s: State) {
    && (s.listener.Some? && s.listener.value.frame != [] ==>
          Dated(steps, s.listener.value.arm, s.listener.value.blocks, s.listener.value.began)
            && s.listener.value.began <= s.clock)
    && (s.mailbox.Some? ==>
          Dated(steps, s.mailbox.value.arm, s.mailbox.value.block, s.mailbox.value.began)
            && s.mailbox.value.began <= s.clock)
    && (forall i :: 0 <= i < |s.admitted| ==> DatedReport(steps, s.admitted[i].report))
  }

  ghost predicate DatedReport(steps: seq<Step>, r: Report) {
    Dated(steps, r.arm, r.block, r.began)
  }

  lemma DatedLonger(steps: seq<Step>, step: Step, arm: Arm, block: nat, began: int)
    requires Dated(steps, arm, block, began)
    ensures Dated(steps + [step], arm, block, began)
  {
    var j: nat :| FirstByteAt(steps, j, arm, block, began);
    assert (steps + [step])[..j] == steps[..j];
    assert FirstByteAt(steps + [step], j, arm, block, began);
  }

  lemma {:induction false} AllDatedLonger(steps: seq<Step>, step: Step, s: State)
    requires AllDated(steps, s)
    ensures AllDated(steps + [step], s)
  {
    if s.listener.Some? && s.listener.value.frame != [] {
      DatedLonger(steps, step, s.listener.value.arm, s.listener.value.blocks, s.listener.value.began);
    }
    if s.mailbox.Some? {
      DatedLonger(steps, step, s.mailbox.value.arm, s.mailbox.value.block, s.mailbox.value.began);
    }
    forall i | 0 <= i < |s.admitted| ensures DatedReport(steps + [step], s.admitted[i].report) {
      assert DatedReport(steps, s.admitted[i].report);
      DatedLonger(steps, step, s.admitted[i].report.arm, s.admitted[i].report.block, s.admitted[i].report.began);
    }
  }

  lemma {:induction false} DatedStep(steps: seq<Step>, s: State, step: Step)
    requires s == Run(INITIAL, steps) && Inv(s) && AllDated(steps + [step], s)
    ensures AllDated(steps + [step], Next(s, step))
  {
    var all, t := steps + [step], Next(s, step);
    assert all[..|steps|] == steps && At(all, |steps|) == s;
    if step.ReadChunk? && t != s && s.listener.value.frame == [] {
      assert FirstByteAt(all, |steps|, t.listener.value.arm, t.listener.value.blocks, s.clock);
    }
    forall i | 0 <= i < |t.admitted| ensures DatedReport(all, t.admitted[i].report) {
      assert i < |s.admitted| ==> DatedReport(all, s.admitted[i].report);
    }
  }

  lemma {:induction false} RunIsDated(steps: seq<Step>)
    ensures AllDated(steps, Run(INITIAL, steps))
  {
    if steps != [] {
      var before, step := steps[..|steps| - 1], steps[|steps| - 1];
      assert steps == before + [step];
      RunIsDated(before);
      InvRun(INITIAL, before);
      AllDatedLonger(before, step, Run(INITIAL, before));
      DatedStep(before, Run(INITIAL, before), step);
      AtNext(steps, |before|);
      assert steps[..|before|] == before && steps[..|steps|] == steps;
    }
  }

  /** The age of an admitted report is counted from the reading of its first byte. */
  lemma {:induction false} AgeIsFromTheFirstByte(steps: seq<Step>, i: nat) returns (j: nat)
    requires i < |Run(INITIAL, steps).admitted|
    ensures var a := Run(INITIAL, steps).admitted[i];
      FirstByteAt(steps, j, a.report.arm, a.report.block, a.report.began)
  {
    RunIsDated(steps);
    var r := Run(INITIAL, steps).admitted[i].report;
    assert DatedReport(steps, r);
    j :| FirstByteAt(steps, j, r.arm, r.block, r.began);
  }

  /**
    In every reachable state a waiting report is taken out, and it is admitted
    if and only if its arm is the armed one, a Worker is present and granted
    that very identity, and the report is under two seconds old at both checks.
  */
  lemma {:induction false} DrainExactly(
      steps: seq<Step>, workerPresent: bool, grant: Option<PipeIdentity>, checkDelay: nat, grantDelay: nat)
    requires Run(INITIAL, steps).mailbox.Some?
    ensures var s := Run(INITIAL, steps);
      var t := Next(s, DrainOne(workerPresent, grant, checkDelay, grantDelay));
      var r, now := s.mailbox.value, s.clock + checkDelay + grantDelay;
      var admits := s.reader.armed == Some(r.arm) && workerPresent && grant == Some(r.arm.identity)
        && s.clock + checkDelay - r.began < 2000 && now - r.began < 2000;
      && t.mailbox.None? && t.clock == now && t.reader == s.reader && t.listener == s.listener
      && t.admitted == s.admitted + if admits then [Admission(r, now, Some(r.arm))] else []
  {
    RunIsDated(steps);
  }

  /**
    In every reachable state a complete frame under two seconds old enters an
    empty mailbox with its own bytes and is dropped before a full one; an older
    one ends the listener; an incomplete one stays.
  */
  lemma {:induction false} PublishExactly(steps: seq<Step>)
    requires Run(INITIAL, steps).listener.Some?
    ensures var s := Run(INITIAL, steps);
      var t, l := Next(s, PublishFrame), s.listener.value;
      if |l.frame| != 136 then t == s
      else if s.clock - l.began >= 2000 then t == s.(listener := None)
      else
        && t.mailbox == (if s.mailbox.None? then Some(Report(l.arm, l.blocks, l.began, l.frame)) else s.mailbox)
        && t.listener.Some? && t.listener.value.arm == l.arm && t.listener.value.frame == []
        && t.listener.value.blocks == l.blocks + 1
  {
    RunIsDated(steps);
  }

  /** Arm, listen, read one report at once, publish and drain it. */
  function Reporting(identity: PipeIdentity, block: seq<byte>): seq<Step> {
    [ArmReader(identity, true, true), TakeStart(true), ReadChunk(block), PublishFrame,
     DrainOne(true, Some(identity), 0, 0)]
  }

  /** The listener of the new arm has started. */
  function Started(s: State, arm: Arm): State {
    s.(reader := Reader(Some(arm), arm.incarnation, Some(arm), None), listener := Some(Listening(arm, 0, [], 0)),
       read := s.read[arm.incarnation := []])
  }

  /** Its first report waits in the mailbox. */
  function Waiting(s: State, arm: Arm, block: seq<byte>): State {
    Started(s, arm).(listener := Some(Listening(arm, 1, [], 0)), read := s.read[arm.incarnation := block],
                     mailbox := Some(Report(arm, 0, s.clock, block)))
  }

  lemma StartMoves(s: State, identity: PipeIdentity)
    requires s.listener.None? && s.reader.start.None? && s.reader.lastIncarnation < MAX_INCARNATION
    ensures Next(Next(s, ArmReader(identity, true, true)), TakeStart(true))
      == Started(s, Arm(identity, s.reader.lastIncarnation + 1))
  {
  }

  lemma ReadMoves(s: State, arm: Arm, block: seq<byte>)
    requires s.mailbox.None? && |block| == REPORT_BYTES
    ensures Next(Next(Started(s, arm), ReadChunk(block)), PublishFrame) == Waiting(s, arm, block)
  {
    var k := arm.incarnation;
    assert [] + block == block;
    assert s.read[k := []][k := block] == s.read[k := block];
    assert Next(Started(s, arm), ReadChunk(block)) ==
      Started(s, arm).(listener := Some(Listening(arm, 0, block, s.clock)), read := s.read[k := block]);
  }

  lemma {:induction false} ReportingRun(s: State, identity: PipeIdentity, block: seq<byte>)
    requires s.listener.None? && s.reader.start.None? && s.mailbox.None?
    requires s.reader.lastIncarnation < MAX_INCARNATION && |block| == REPORT_BYTES
    ensures var arm := Arm(identity, s.reader.lastIncarnation + 1);
      Run(s, Reporting(identity, block)) ==
        Next(Waiting(s, arm, block), DrainOne(true, Some(identity), 0, 0))
  {
    var a := Reporting(identity, block);
    var arm := Arm(identity, s.reader.lastIncarnation + 1);
    StartMoves(s, identity);
    ReadMoves(s, arm, block);
    var last := Next(Waiting(s, arm, block), a[4]);
    FoldTrace(Next, [s, Next(s, a[0]), Started(s, arm), Next(Started(s, arm), a[2]), Waiting(s, arm, block), last], a);
  }

  /** From every reachable state at rest with an incarnation left, every report of every identity can be admitted. */
  lemma {:induction false} EveryReportCanBeAdmitted(steps: seq<Step>, identity: PipeIdentity, block: seq<byte>)
    requires var s := Run(INITIAL, steps);
      s.listener.None? && s.reader.start.None? && s.mailbox.None? && s.reader.lastIncarnation < MAX_INCARNATION
    requires |block| == 136
    ensures var s := Run(INITIAL, steps);
      var arm := Arm(identity, s.reader.lastIncarnation + 1);
      Run(INITIAL, steps + Reporting(identity, block)).admitted ==
        s.admitted + [Admission(Report(arm, 0, s.clock, block), s.clock, Some(arm))]
  {
    FoldAppend(Next, INITIAL, steps, Reporting(identity, block));
    ReportingRun(Run(INITIAL, steps), identity, block);
  }
}
