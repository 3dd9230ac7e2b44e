/**
  The Teacher's playback diagnostics: a latest-only ledger that rejects
  replayed reports, and the interface projection that hides old samples.
  Times are milliseconds of a clock that may go back.
*/
module PlaybackLedger {
  import opened Wrappers

  datatype Binding = Binding(session: nat, presentation: nat, stream: nat, epoch: nat)

  predicate ValidBinding(b: Binding) {
    b.session != 0 && b.presentation != 0 && b.stream != 0 && b.epoch != 0
  }

  datatype Counters = Counters(
    generation: nat, sequence: nat, intervalMs: nat,
    authenticatedFrames: nat, rejectedFrames: nat, decodedFrames: nat, presentedFrames: nat,
    presentErrors: nat, decodeErrors: nat, keyframeWaits: nat, queueDrops: nat)

  datatype Payload = Diagnostic(presentation: nat, stream: nat, epoch: nat, counters: Counters) | OtherPayload

  datatype Version = Version(major: nat, minor: nat)

  datatype Envelope = Envelope(version: Option<Version>, session: nat, sequence: nat, request: nat, payload: Payload)

  datatype Error = InvalidBinding | Inactive | NotNegotiated | BindingMismatch | Malformed | Replay | ClockRegression

  datatype Outcome = Accepted(counters: Counters) | Rejected(error: Error)

  datatype Ledger = Ledger(binding: Option<Binding>, current: Option<Counters>, lastOuter: Option<nat>)

  const MIN_MINOR := 8
  const MAX_INTERVAL_MS := 30_000
  const MAX_AGE_MS := 10_000

  /** A report's place in the receiver's own numbering. */
  predicate Later(a: Counters, b: Counters) {
    a.generation < b.generation || (a.generation == b.generation && a.sequence < b.sequence)
  }

  /** The checks in their order; the first that fails names the error. */
  function Check(l: Ledger, e: Envelope, negotiated: bool): (r: Outcome) {
    if l.binding.None? then Rejected(Inactive) else
    var b := l.binding.value;
    if !negotiated || e.version.None? then Rejected(NotNegotiated)
    else if e.version.value.major != 0 || e.version.value.minor < MIN_MINOR then Rejected(NotNegotiated)
    else if e.session != b.session || e.sequence == 0 || e.request != 0 then Rejected(BindingMismatch)
    else if e.payload.OtherPayload? then Rejected(Malformed)
    else if e.payload.presentation != b.presentation || e.payload.stream != b.stream || e.payload.epoch != b.epoch then
      Rejected(BindingMismatch)
    else
      var c := e.payload.counters;
      if c.generation == 0 || c.sequence == 0 || !(1 <= c.intervalMs <= MAX_INTERVAL_MS) then Rejected(Malformed)
      else if l.lastOuter.Some? && e.sequence <= l.lastOuter.value then Rejected(Replay)
      else if l.current.Some? && !Later(l.current.value, c) then Rejected(Replay)
      else Accepted(c)
  }

  function AfterAccept(l: Ledger, e: Envelope, negotiated: bool): Ledger {
    var r := Check(l, e, negotiated);
    if r.Accepted? then l.(current := Some(r.counters), lastOuter := Some(e.sequence)) else l
  }

  function AfterRevoke(l: Ledger, exact: Binding): Ledger {
    if l.binding == Some(exact) then Ledger(None, None, None) else l
  }

  class TeacherPlaybackDiagnosticLedger {
    var binding: Option<Binding>
    var current: Option<Counters>
    var lastControlSequence: Option<nat>

    function State(): Ledger
      reads this
    {
      Ledger(binding, current, lastControlSequence)
    }

    constructor (b: Binding)
      requires ValidBinding(b)
      ensures State() == Ledger(Some(b), None, None)
    {
      binding, current, lastControlSequence := Some(b), None, None;
    }

    method AcceptFromAuthenticatedControl(e: Envelope, negotiated: bool) returns (r: Outcome)
      modifies this
      ensures r == Check(old(State()), e, negotiated)
      ensures State() == AfterAccept(old(State()), e, negotiated)
    {
      if binding.None? {
        return Rejected(Inactive);
      }
      var b := binding.value;
      if !negotiated || e.version.None? || e.version.value.major != 0 || e.version.value.minor < MIN_MINOR {
        return Rejected(NotNegotiated);
      }
      if e.session != b.session || e.sequence == 0 || e.request != 0 {
        return Rejected(BindingMismatch);
      }
      if e.payload.OtherPayload? {
        return Rejected(Malformed);
      }
      if e.payload.presentation != b.presentation || e.payload.stream != b.stream || e.payload.epoch != b.epoch {
        return Rejected(BindingMismatch);
      }
      var next := e.payload.counters;
      if next.generation == 0 || next.sequence == 0 || next.intervalMs < 1 || next.intervalMs > MAX_INTERVAL_MS {
        return Rejected(Malformed);
      }
      if lastControlSequence.Some? && e.sequence <= lastControlSequence.value {
        return Rejected(Replay);
      }
      if current.Some? {
        var prev := current.value;
        if next.generation < prev.generation || (next.generation == prev.generation && next.sequence <= prev.sequence) {
          return Rejected(Replay);
        }
      }
      lastControlSequence, current := Some(e.sequence), Some(next);
      return Accepted(next);
    }

    method Revoke(exact: Binding) returns (revoked: bool)
      modifies this
      ensures State() == AfterRevoke(old(State()), exact)
      ensures revoked <==> old(binding) == Some(exact)
    {
      if binding != Some(exact) {
        return false;
      }
      binding, current, lastControlSequence := None, None, None;
      return true;
    }
  }

  // ------------------------------------------------------------- projection

  datatype Projection = Projection(source: nat, binding: Binding, ledger: Ledger, receivedAt: Option<nat>)

  function NewProjection(source: nat, b: Binding): Projection {
    Projection(source, b, Ledger(Some(b), None, None), None)
  }

  function CheckAt(p: Projection, e: Envelope, negotiated: bool, now: nat): Outcome {
    if p.receivedAt.Some? && now < p.receivedAt.value then Rejected(ClockRegression) else Check(p.ledger, e, negotiated)
  }

  function AfterReport(p: Projection, e: Envelope, negotiated: bool, now: nat): Projection {
    if CheckAt(p, e, negotiated, now).Rejected? then p
    else p.(ledger := AfterAccept(p.ledger, e, negotiated), receivedAt := Some(now))
  }

  function AfterDisconnect(p: Projection, source: nat, exact: Binding): Projection {
    if source != p.source || exact != p.binding || p.ledger.binding != Some(exact) then p
    else p.(ledger := AfterRevoke(p.ledger, exact), receivedAt := None)
  }

  function VisibleAt(p: Projection, selected: nat, now: nat): Option<Counters> {
    if selected != p.source || p.receivedAt.None? then None
    else if now < p.receivedAt.value || now - p.receivedAt.value > MAX_AGE_MS then None
    else p.ledger.current
  }

  class TeacherPlaybackUiProjection {
    const source: nat
    const binding: Binding
    const ledger: TeacherPlaybackDiagnosticLedger
    var receivedAt: Option<nat>

    function State(): Projection
      reads this, ledger
    {
      Projection(source, binding, ledger.State(), receivedAt)
    }

    constructor (source: nat, b: Binding)
      requires ValidBinding(b)
      ensures State() == NewProjection(source, b) && fresh(ledger)
    {
      this.source, binding, receivedAt := source, b, None;
      ledger := new TeacherPlaybackDiagnosticLedger(b);
    }

    method AcceptAuthenticated(e: Envelope, negotiated: bool, now: nat) returns (r: Outcome)
      modifies this, ledger
      ensures r == CheckAt(old(State()), e, negotiated, now)
      ensures State() == AfterReport(old(State()), e, negotiated, now)
    {
      if receivedAt.Some? && now < receivedAt.value {
        return Rejected(ClockRegression);
      }
      r := ledger.AcceptFromAuthenticatedControl(e, negotiated);
      if r.Accepted? {
        receivedAt := Some(now);
      }
    }

    method Visible(selected: nat, now: nat) returns (sample: Option<Counters>)
      ensures sample == VisibleAt(State(), selected, now)
    {
      if selected != source || receivedAt.None? || now < receivedAt.value || now - receivedAt.value > MAX_AGE_MS {
        return None;
      }
      return ledger.current;
    }

    method Revoke(from: nat, exact: Binding) returns (revoked: bool)
      modifies this, ledger
      ensures State() == AfterDisconnect(old(State()), from, exact)
      ensures revoked <==> from == source && exact == binding && old(ledger.binding) == Some(exact)
    {
      if from != source || exact != binding {
        return false;
      }
      revoked := ledger.Revoke(exact);
      if revoked {
        receivedAt := None;
      }
    }
  }

  /** The public constructors refuse a binding with a zero part. */
  method TryNewProjection(source: nat, b: Binding) returns (r: Option<TeacherPlaybackUiProjection>)
    ensures r.Some? <==> ValidBinding(b)
    ensures r.Some? ==> fresh(r.value) && r.value.State() == NewProjection(source, b)
  {
    if b.session == 0 || b.presentation == 0 || b.stream == 0 || b.epoch == 0 {
      return None;
    }
    var p := new TeacherPlaybackUiProjection(source, b);
    return Some(p);
  }

  // ------------------------------------------------------------- whole runs

  datatype Event =
    | Report(envelope: Envelope, negotiated: bool, now: nat)
    | Disconnect(source: nat, exact: Binding)

  /** One accepted report, as it arrived. */
  datatype Entry = Entry(outer: nat, counters: Counters, at: nat)

  function Step(p: Projection, event: Event): Projection {
    match event
    case Report(e, negotiated, now) => AfterReport(p, e, negotiated, now)
    case Disconnect(source, exact) => AfterDisconnect(p, source, exact)
  }

  function After(start: Projection, events: seq<Event>): Projection
    decreases |events|
  {
    if events == [] then start else Step(After(start, events[..|events| - 1]), events[|events| - 1])
  }

  /** The accepted reports of a run, oldest first. */
  function History(start: Projection, events: seq<Event>): seq<Entry>
    decreases |events|
  {
    if events == [] then [] else
    History(start, events[..|events| - 1]) + Gained(After(start, events[..|events| - 1]), events[|events| - 1])
  }

  /** Both numberings go strictly up and reception times never go back. */
  predicate Ascending(h: seq<Entry>) {
    forall i, j :: 0 <= i < j < |h| ==>
      h[i].outer < h[j].outer && Later(h[i].counters, h[j].counters) && h[i].at <= h[j].at
  }

  predicate Disconnected(events: seq<Event>, source: nat, b: Binding) {
    Disconnect(source, b) in events
  }

  /** The projection is the last accepted report of its run, or nothing once its exact disconnect arrived. */
  predicate Summarises(p: Projection, h: seq<Entry>, revoked: bool) {
    && (p.ledger.binding == if revoked then None else Some(p.binding))
    && (revoked || h == [] ==> p.ledger.current == None && p.ledger.lastOuter == None && p.receivedAt == None)
    && (!revoked && h != [] ==>
          var last := h[|h| - 1];
          p.ledger.current == Some(last.counters) && p.ledger.lastOuter == Some(last.outer) &&
            p.receivedAt == Some(last.at))
  }

  predicate Stops(p: Projection, event: Event) {
    event == Disconnect(p.source, p.binding)
  }

  /** What one event adds to the accepted reports. */
  function Gained(p: Projection, event: Event): seq<Entry> {
    if event.Disconnect? then [] else
    var r := CheckAt(p, event.envelope, event.negotiated, event.now);
    if r.Accepted? then [Entry(event.envelope.sequence, r.counters, event.now)] else []
  }

  lemma SummaryStep(p: Projection, h: seq<Entry>, revoked: bool, event: Event)
    requires Summarises(p, h, revoked)
    ensures Step(p, event).source == p.source && Step(p, event).binding == p.binding
    ensures Summarises(Step(p, event), h + Gained(p, event), revoked || Stops(p, event))
  {
  }

  lemma AscendingStep(p: Projection, h: seq<Entry>, revoked: bool, event: Event)
    requires Ascending(h) && Summarises(p, h, revoked)
    ensures Ascending(h + Gained(p, event))
  {
  }

  lemma {:induction false} RunSummary(source: nat, b: Binding, events: seq<Event>)
    ensures var start := NewProjection(source, b);
      && After(start, events).source == source && After(start, events).binding == b
      && Ascending(History(start, events))
      && Summarises(After(start, events), History(start, events), Disconnected(events, source, b))
    decreases |events|
  {
    if events != [] {
      var start, before, last := NewProjection(source, b), events[..|events| - 1], events[|events| - 1];
      RunSummary(source, b, before);
      var p, h, revoked := After(start, before), History(start, before), Disconnected(before, source, b);
      assert events == before + [last];
      assert Disconnected(events, source, b) <==> revoked || Stops(p, last);
      SummaryStep(p, h, revoked, last);
      AscendingStep(p, h, revoked, last);
    }
  }

  /** What a report must carry to be admissible at all under a binding. */
  predicate WellFormed(b: Binding, e: Envelope, negotiated: bool) {
    && negotiated && e.version.Some? && e.version.value.major == 0 && MIN_MINOR <= e.version.value.minor
    && e.session == b.session && e.sequence != 0 && e.request == 0
    && e.payload.Diagnostic?
    && e.payload.presentation == b.presentation && e.payload.stream == b.stream && e.payload.epoch == b.epoch
    && 0 < e.payload.counters.generation && 0 < e.payload.counters.sequence
    && 1 <= e.payload.counters.intervalMs <= MAX_INTERVAL_MS
  }

  /** Newer than every accepted report: in both numberings, and not received before any of them. */
  predicate NewerThanAll(h: seq<Entry>, outer: nat, c: Counters, now: nat) {
    forall i :: 0 <= i < |h| ==> h[i].outer < outer && Later(h[i].counters, c) && h[i].at <= now
  }

  /**
    After any run, a report is accepted if and only if the binding is live, the
    report is well formed for it, and it is newer than everything accepted so far.
  */
  lemma {:induction false} AcceptedExactlyWhenNewer(
      source: nat, b: Binding, events: seq<Event>, e: Envelope, negotiated: bool, now: nat)
    ensures var start := NewProjection(source, b);
      CheckAt(After(start, events), e, negotiated, now).Accepted? <==>
        && !Disconnected(events, source, b)
        && WellFormed(b, e, negotiated)
        && NewerThanAll(History(start, events), e.sequence, e.payload.counters, now)
  {
    RunSummary(source, b, events);
    var start := NewProjection(source, b);
    var h, p := History(start, events), After(start, events);
    if e.payload.Diagnostic? && h != [] {
      var last := h[|h| - 1];
      assert NewerThanAll(h, e.sequence, e.payload.counters, now) <==>
        last.outer < e.sequence && Later(last.counters, e.payload.counters) && last.at <= now;
    }
  }

  /** A rejected event of either kind leaves the projection as it was. */
  lemma RejectionChangesNothing(p: Projection, event: Event)
    ensures event.Report? && CheckAt(p, event.envelope, event.negotiated, event.now).Rejected? ==> Step(p, event) == p
    ensures event.Disconnect? && (event.source, event.exact) != (p.source, p.binding) ==> Step(p, event) == p
  {
  }

  /** What is shown is exactly the last accepted report, for its own source, while at most ten seconds old. */
  lemma {:induction false} VisibleIsTheLastAccepted(
      source: nat, b: Binding, events: seq<Event>, selected: nat, now: nat)
    ensures var start := NewProjection(source, b);
      var h := History(start, events);
      forall c :: VisibleAt(After(start, events), selected, now) == Some(c) <==>
        && selected == source && !Disconnected(events, source, b) && h != []
        && c == h[|h| - 1].counters
        && h[|h| - 1].at <= now <= h[|h| - 1].at + MAX_AGE_MS
  {
    RunSummary(source, b, events);
  }

  /** The report arrived as event `i`, well formed for the binding. */
  predicate CameAs(b: Binding, events: seq<Event>, i: int, entry: Entry) {
    && 0 <= i < |events| && events[i].Report?
    && WellFormed(b, events[i].envelope, events[i].negotiated)
    && entry == Entry(events[i].envelope.sequence, events[i].envelope.payload.counters, events[i].now)
  }

  /** Every accepted report came in as an event, well formed for the binding. */
  lemma {:induction false} HistoryIsGenuine(source: nat, b: Binding, events: seq<Event>, k: nat)
    requires k < |History(NewProjection(source, b), events)|
    ensures exists i :: CameAs(b, events, i, History(NewProjection(source, b), events)[k])
    decreases |events|
  {
    var start, before, last := NewProjection(source, b), events[..|events| - 1], events[|events| - 1];
    var h, gained := History(start, before), Gained(After(start, before), last);
    assert History(start, events) == h + gained;
    if k < |h| {
      HistoryIsGenuine(source, b, before, k);
      var i :| CameAs(b, before, i, h[k]);
      assert CameAs(b, events, i, h[k]);
      assert History(start, events)[k] == h[k];
    } else {
      RunSummary(source, b, before);
      AcceptedExactlyWhenNewer(source, b, before, last.envelope, last.negotiated, last.now);
      assert CameAs(b, events, |events| - 1, gained[0]);
      assert History(start, events)[k] == gained[0];
    }
  }
}
