/**
  The Service's view of its Worker's capabilities. Reports arrive from a reader
  thread per launched Worker, including readers of Workers already replaced;
  each carries the generation, process and session it was started for.
*/
module WorkerCapabilities {

  datatype Identity = Identity(generation: nat, process: nat, session: nat)

  const NOBODY := Identity(0, 0, 0)

  const DXGI_CAPTURE: bv8 := 1
  const H264_HARDWARE_ENCODE: bv8 := 2
  const TELEMETRY_GRANT_V11: bv8 := 4

  datatype Snapshot = Snapshot(worker: Identity, flags: bv8)

  datatype Event =
    | Activate(worker: Identity)
    | Clear
    | ClearReport(worker: Identity)
    | Qualify(worker: Identity, qualified: bool)
    | Report(worker: Identity, capture: bool, encode: bool, telemetry: bool)

  function ReportFlags(capture: bool, encode: bool, telemetry: bool): bv8 {
    (if capture then DXGI_CAPTURE else 0) | (if encode then H264_HARDWARE_ENCODE else 0)
      | (if telemetry then TELEMETRY_GRANT_V11 else 0)
  }

  function Apply(s: Snapshot, e: Event): Snapshot {
    match e
    case Activate(worker) => Snapshot(worker, 0)
    case Clear => Snapshot(NOBODY, 0)
    case ClearReport(worker) => if s.worker == worker then s.(flags := 0) else s
    case Qualify(worker, qualified) =>
      if worker.generation == 0 || s.worker != worker then s
      else s.(flags := if qualified then s.flags | H264_HARDWARE_ENCODE else s.flags & !H264_HARDWARE_ENCODE)
    case Report(worker, capture, encode, telemetry) =>
      if worker.generation == 0 || s.worker != worker then s
      else s.(flags := ReportFlags(capture, encode, telemetry))
  }

  datatype Capability = ServiceSessionWorker | DxgiCapture | H264HardwareEncode | UdpUnicast

  predicate Live(worker: Identity) {
    worker.generation != 0 && worker.process != 0 && worker.session != 0
  }

  class WorkerCapabilityState {
    var snapshot: Snapshot

    constructor ()
      ensures snapshot == Snapshot(NOBODY, 0)
    {
      snapshot := Snapshot(NOBODY, 0);
    }

    method ActivateWorker(worker: Identity)
      modifies this
      ensures snapshot == Apply(old(snapshot), Activate(worker))
    {
      snapshot := Snapshot(worker, 0);
    }

    method ClearWorker()
      modifies this
      ensures snapshot == Apply(old(snapshot), Clear)
    {
      snapshot := Snapshot(NOBODY, 0);
    }

    method ClearReportIfCurrent(worker: Identity) returns (current: bool)
      modifies this
      ensures snapshot == Apply(old(snapshot), ClearReport(worker))
      ensures current <==> old(snapshot).worker == worker
    {
      if snapshot.worker != worker {
        return false;
      }
      snapshot := snapshot.(flags := 0);
      return true;
    }

    method ApplyH264Qualification(worker: Identity, qualified: bool) returns (current: bool)
      modifies this
      ensures snapshot == Apply(old(snapshot), Qualify(worker, qualified))
      ensures current <==> worker.generation != 0 && old(snapshot).worker == worker
    {
      if worker.generation == 0 || snapshot.worker != worker {
        return false;
      }
      if qualified {
        snapshot := snapshot.(flags := snapshot.flags | H264_HARDWARE_ENCODE);
      } else {
        snapshot := snapshot.(flags := snapshot.flags & !H264_HARDWARE_ENCODE);
      }
      return true;
    }

    method ApplyReport(worker: Identity, capture: bool, encode: bool, telemetry: bool) returns (current: bool)
      modifies this
      ensures snapshot == Apply(old(snapshot), Report(worker, capture, encode, telemetry))
      ensures current <==> worker.generation != 0 && old(snapshot).worker == worker
    {
      if worker.generation == 0 || snapshot.worker != worker {
        return false;
      }
      var flags: bv8 := 0;
      if capture {
        flags := flags | DXGI_CAPTURE;
      }
      if encode {
        flags := flags | H264_HARDWARE_ENCODE;
      }
      if telemetry {
        flags := flags | TELEMETRY_GRANT_V11;
      }
      snapshot := snapshot.(flags := flags);
      return true;
    }

    method HelloCapabilities() returns (capabilities: set<Capability>)
      ensures ServiceSessionWorker in capabilities
      ensures DxgiCapture in capabilities <==> Live(snapshot.worker) && snapshot.flags & DXGI_CAPTURE != 0
      ensures H264HardwareEncode in capabilities <==>
        Live(snapshot.worker) && snapshot.flags & H264_HARDWARE_ENCODE != 0
      ensures UdpUnicast in capabilities <==> DxgiCapture in capabilities && H264HardwareEncode in capabilities
    {
      capabilities := {ServiceSessionWorker};
      if snapshot.worker.generation == 0 || snapshot.worker.process == 0 || snapshot.worker.session == 0 {
        return;
      }
      if snapshot.flags & DXGI_CAPTURE != 0 {
        capabilities := capabilities + {DxgiCapture};
      }
      if snapshot.flags & H264_HARDWARE_ENCODE != 0 {
        capabilities := capabilities + {H264HardwareEncode};
      }
      if snapshot.flags & DXGI_CAPTURE != 0 && snapshot.flags & H264_HARDWARE_ENCODE != 0 {
        capabilities := capabilities + {UdpUnicast};
      }
    }
  }

  // -------------------------------------------------------------- whole runs

  /** The snapshot after a run of events, oldest first. */
  function After(events: seq<Event>): Snapshot {
    if events == [] then Snapshot(NOBODY, 0)
    else Apply(After(events[..|events| - 1]), events[|events| - 1])
  }

  /** The Worker of the last activation, unless it has been cleared since. */
  function CurrentWorker(events: seq<Event>): Identity {
    if events == [] then NOBODY else
    var last := events[|events| - 1];
    match last
    case Activate(worker) => worker
    case Clear => NOBODY
    case _ => CurrentWorker(events[..|events| - 1])
  }

  /** Whether event `e` of Worker `w` writes capability bit `bit`. */
  predicate Writes(e: Event, w: Identity, bit: bv8) {
    match e
    case Activate(_) => true
    case Clear => true
    case ClearReport(worker) => worker == w
    case Qualify(worker, _) => worker == w && w.generation != 0 && bit == H264_HARDWARE_ENCODE
    case Report(worker, _, _, _) => worker == w && w.generation != 0
  }

  function Written(e: Event, bit: bv8): bool {
    match e
    case Qualify(_, qualified) => qualified
    case Report(_, capture, encode, telemetry) =>
      if bit == DXGI_CAPTURE then capture else if bit == H264_HARDWARE_ENCODE then encode else telemetry
    case _ => false
  }

  /** The value of the most recent event of Worker `w` that writes the bit. */
  function LastWritten(events: seq<Event>, w: Identity, bit: bv8): bool {
    if events == [] then false
    else if Writes(events[|events| - 1], w, bit) then Written(events[|events| - 1], bit)
    else LastWritten(events[..|events| - 1], w, bit)
  }

  predicate CapabilityBit(bit: bv8) {
    bit == DXGI_CAPTURE || bit == H264_HARDWARE_ENCODE || bit == TELEMETRY_GRANT_V11
  }

  lemma FlagAfter(s: Snapshot, e: Event, bit: bv8)
    requires CapabilityBit(bit)
    ensures Apply(s, e).flags & bit != 0 <==> if Writes(e, s.worker, bit) then Written(e, bit) else s.flags & bit != 0
  {
  }

  /**
    Under any interleaving of activations, clears and reports from any number
    of readers, each capability bit is the value last written for the current
    Worker since it was activated; other Workers' events leave no trace.
  */
  lemma {:induction false} FlagsAreTheCurrentWorkersOwn(events: seq<Event>, bit: bv8)
    requires CapabilityBit(bit)
    ensures After(events).worker == CurrentWorker(events)
    ensures After(events).flags & bit != 0 <==> LastWritten(events, CurrentWorker(events), bit)
  {
    if events != [] {
      var before, last := events[..|events| - 1], events[|events| - 1];
      FlagsAreTheCurrentWorkersOwn(before, bit);
      FlagAfter(After(before), last, bit);
    }
  }

  /** An event of any Worker but the current one can be deleted from the middle of a run without a difference. */
  lemma {:induction false} StaleEventsLeaveNoTrace(before: seq<Event>, stale: Event, after: seq<Event>)
    requires !stale.Activate? && !stale.Clear? && stale.worker != CurrentWorker(before)
    ensures After(before + [stale] + after) == After(before + after)
    decreases |after|
  {
    if after == [] {
      FlagsAreTheCurrentWorkersOwn(before, DXGI_CAPTURE);
      assert (before + [stale])[..|before|] == before;
      assert before + [stale] + after == before + [stale] && before + after == before;
    } else {
      var init, last := after[..|after| - 1], after[|after| - 1];
      StaleEventsLeaveNoTrace(before, stale, init);
      assert before + [stale] + after == before + [stale] + init + [last];
      assert before + after == before + init + [last];
      assert (before + [stale] + init + [last])[..|before| + 1 + |init|] == before + [stale] + init;
      assert (before + init + [last])[..|before| + |init|] == before + init;
    }
  }

  /** UDP unicast is offered exactly when a live Worker's own latest events claim both capture and encode. */
  method Advertise(events: seq<Event>, state: WorkerCapabilityState) returns (offered: bool)
    requires state.snapshot == After(events)
    ensures offered <==>
      var w := CurrentWorker(events);
      Live(w) && LastWritten(events, w, DXGI_CAPTURE) && LastWritten(events, w, H264_HARDWARE_ENCODE)
  {
    FlagsAreTheCurrentWorkersOwn(events, DXGI_CAPTURE);
    FlagsAreTheCurrentWorkersOwn(events, H264_HARDWARE_ENCODE);
    var capabilities := state.HelloCapabilities();
    offered := UdpUnicast in capabilities;
  }
}
