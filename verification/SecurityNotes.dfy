/**
  The security assessment of a pull request: every text that matches the
  security keywords, every security-minded review and every scanning alert is
  classified, and the worst class decides. Keyword matching and link parsing
  are parts of the input.
*/
module SecurityNotes {
  import opened Wrappers
  import opened LatestPerKey
  import GatePolicy
  import opened ReviewPolicy

  datatype Kind = CONFIRMED_BLOCKER | UNKNOWN_NOTE | REVIEW_REQUIRED | HISTORICAL_NOTE | RESOLVED

  datatype Assessment = ConfirmedBlocker | Unknown | ReviewRequired | Clear

  datatype Thread = Thread(resolved: bool, comments: seq<Prose>)

  datatype AlertState = Fixed | DismissedAlert | Open | OtherState

  datatype Alert = Alert(state: AlertState, commit: Option<string>, linked: bool)

  /** The head commit as reported: its hash and date. */
  datatype HeadCommit = HeadCommit(sha: string, date: Option<int>)

  datatype Input = Input(
    review: Context, headCommit: Option<HeadCommit>, captured: Option<int>, mergeSha: Option<string>,
    body: Prose, comments: Option<seq<Prose>>, threads: Option<seq<Thread>>, reviews: Option<seq<Review>>,
    alerts: Option<seq<Alert>>, filesKnown: bool, sensitive: bool,
    codeQl: GatePolicy.State, gitleaks: GatePolicy.State)

  /** The head's date, trusted only when it belongs to this head and is not after the capture. */
  function Committed(i: Input): Option<int> {
    if i.headCommit.None? || i.headCommit.value.sha != i.review.headSha || i.captured.None? then None
    else if i.headCommit.value.date.None? || i.headCommit.value.date.value > i.captured.value then None
    else i.headCommit.value.date
  }

  function DateOf(p: Prose): Option<int> {
    match p.edited
    case NotEdited => p.created
    case EditedAt(when) =>
      if p.created.None? || when.None? then None
      else Some(if p.created.value < when.value then when.value else p.created.value)
  }

  predicate Historical(p: Prose, committed: Option<int>) {
    DateOf(p).Some? && committed.Some? && DateOf(p).value < committed.value
  }

  function Classify(p: Prose, forced: Option<Kind>, committed: Option<int>): Option<Kind> {
    if !p.words then None
    else if !p.linked then Some(UNKNOWN_NOTE)
    else if forced.Some? then forced
    else if Historical(p, committed) then Some(HISTORICAL_NOTE) else Some(REVIEW_REQUIRED)
  }

  function TextOrder(): Review -> Score { (r: Review) => (r.submitted, r.textRank) }

  function SecurityOpinions(c: Context, reviews: seq<Review>): Dict<Review> {
    OpinionsBy(c, reviews, TextOrder())
  }

  function SecurityExcluded(c: Context): set<string> {
    {c.fold(c.author), c.fold(c.owner), c.fold(
      match c.viewer
      case UnknownViewer => "None"
      case NamelessViewer(text) => text
      case NamedViewer(login) => login)}
  }

  predicate Withdrawn(c: Context, opinions: Dict<Review>, r: Review) {
    var current := Find(opinions, c.fold(r.login));
    current.Some? && current.value.state in {APPROVED, DISMISSED}
  }

  function ForcedFor(c: Context, opinions: Dict<Review>, r: Review): Option<Kind> {
    if r.state != CHANGES_REQUESTED then None
    else if Withdrawn(c, opinions, r) then Some(RESOLVED)
    else if r.commit == Some(c.headSha) && c.fold(r.login) !in SecurityExcluded(c) && r.isUser
      && r.login in c.permissions && MayApprove(c.permissions[r.login]) then Some(CONFIRMED_BLOCKER)
    else Some(REVIEW_REQUIRED)
  }

  function AlertKind(i: Input, a: Alert): Kind {
    if !a.linked then UNKNOWN_NOTE
    else if a.state in {Fixed, DismissedAlert} then RESOLVED
    else if a.state == Open && a.commit.Some? && GatePolicy.ValidSha(a.commit.value)
      && (a.commit.value == i.review.headSha || a.commit == i.mergeSha) then CONFIRMED_BLOCKER
    else UNKNOWN_NOTE
  }

  predicate SourcesKnown(i: Input) {
    i.comments.Some? && i.threads.Some? && i.reviews.Some? && i.alerts.Some? && i.filesKnown
  }

  // ---------------------------------------------------------------- notes

  ghost predicate ProseNoted(items: seq<Prose>, forced: Option<Kind>, committed: Option<int>, k: Kind) {
    exists j :: 0 <= j < |items| && Classify(items[j], forced, committed) == Some(k)
  }

  ghost predicate ThreadsNoted(threads: seq<Thread>, committed: Option<int>, k: Kind) {
    exists j :: 0 <= j < |threads| && ProseNoted(threads[j].comments, ThreadForced(threads[j]), committed, k)
  }

  function ReviewKind(c: Context, opinions: Dict<Review>, r: Review, committed: Option<int>): Option<Kind> {
    Classify(r.prose, ForcedFor(c, opinions, r), committed)
  }

  ghost predicate ReviewsNotedTo(
      c: Context, opinions: Dict<Review>, reviews: seq<Review>, n: int, committed: Option<int>, k: Kind)
    requires 0 <= n <= |reviews|
  {
    exists j :: 0 <= j < n && ReviewKind(c, opinions, reviews[j], committed) == Some(k)
  }

  ghost predicate ReviewsNoted(c: Context, reviews: seq<Review>, committed: Option<int>, k: Kind) {
    ReviewsNotedTo(c, SecurityOpinions(c, reviews), reviews, |reviews|, committed, k)
  }

  ghost predicate AlertsNoted(i: Input, alerts: seq<Alert>, k: Kind) {
    exists j :: 0 <= j < |alerts| && AlertKind(i, alerts[j]) == k
  }

  function ThreadForced(t: Thread): Option<Kind> {
    Some(if t.resolved then RESOLVED else REVIEW_REQUIRED)
  }

  ghost predicate Noted(i: Input, k: Kind) {
    || Classify(i.body, None, Committed(i)) == Some(k)
    || (i.comments.Some? && ProseNoted(i.comments.value, None, Committed(i), k))
    || (i.threads.Some? && ThreadsNoted(i.threads.value, Committed(i), k))
    || (i.reviews.Some? && ReviewsNoted(i.review, i.reviews.value, Committed(i), k))
    || (i.alerts.Some? && AlertsNoted(i, i.alerts.value, k))
    || (k == UNKNOWN_NOTE && !SourcesKnown(i))
  }

  method ScanProse(items: seq<Prose>, forced: Option<Kind>, committed: Option<int>) returns (notes: seq<Kind>)
    ensures forall k :: k in notes <==> ProseNoted(items, forced, committed, k)
  {
    notes := [];
    for j := 0 to |items|
      invariant forall k :: k in notes <==> ProseNoted(items[..j], forced, committed, k)
    {
      var kind := Classify(items[j], forced, committed);
      if kind.Some? {
        notes := notes + [kind.value];
      }
      forall k ensures k in notes <==> ProseNoted(items[..j + 1], forced, committed, k) {
        assert items[..j + 1][j] == items[j];
        assert forall m :: 0 <= m < j ==> items[..j + 1][m] == items[..j][m];
        assert ProseNoted(items[..j + 1], forced, committed, k) <==>
          ProseNoted(items[..j], forced, committed, k) || kind == Some(k);
      }
    }
    assert items[..|items|] == items;
  }

  method ScanThreads(threads: seq<Thread>, committed: Option<int>) returns (notes: seq<Kind>)
    ensures forall k :: k in notes <==> ThreadsNoted(threads, committed, k)
  {
    notes := [];
    for j := 0 to |threads|
      invariant forall k :: k in notes <==> ThreadsNoted(threads[..j], committed, k)
    {
      var found := ScanProse(threads[j].comments, ThreadForced(threads[j]), committed);
      notes := notes + found;
      forall k ensures k in notes <==> ThreadsNoted(threads[..j + 1], committed, k) {
        assert threads[..j + 1][j] == threads[j];
        assert forall m :: 0 <= m < j ==> threads[..j + 1][m] == threads[..j][m];
        assert ThreadsNoted(threads[..j + 1], committed, k) <==>
          ThreadsNoted(threads[..j], committed, k) ||
            ProseNoted(threads[j].comments, ThreadForced(threads[j]), committed, k);
      }
    }
    assert threads[..|threads|] == threads;
  }

  method ScanReviews(c: Context, reviews: seq<Review>, committed: Option<int>) returns (notes: seq<Kind>)
    ensures forall k :: k in notes <==> ReviewsNoted(c, reviews, committed, k)
  {
    var opinions := SecurityOpinions(c, reviews);
    notes := [];
    for j := 0 to |reviews|
      invariant forall k :: k in notes <==> ReviewsNotedTo(c, opinions, reviews, j, committed, k)
    {
      var kind := ReviewKind(c, opinions, reviews[j], committed);
      forall k ensures ReviewsNotedTo(c, opinions, reviews, j + 1, committed, k) <==>
        ReviewsNotedTo(c, opinions, reviews, j, committed, k) || kind == Some(k)
      {
      }
      if kind.Some? {
        notes := notes + [kind.value];
      }
    }
  }

  method ScanAlerts(i: Input, alerts: seq<Alert>) returns (notes: seq<Kind>)
    ensures forall k :: k in notes <==> AlertsNoted(i, alerts, k)
  {
    notes := [];
    for j := 0 to |alerts|
      invariant forall k :: k in notes <==> exists m :: 0 <= m < j && AlertKind(i, alerts[m]) == k
    {
      notes := notes + [AlertKind(i, alerts[j])];
    }
  }

  method CollectNotes(i: Input) returns (notes: seq<Kind>)
    ensures forall k :: k in notes <==> Noted(i, k)
  {
    var committed := Committed(i);
    var body := Classify(i.body, None, committed);
    notes := if body.Some? then [body.value] else [];
    if i.comments.Some? {
      var found := ScanProse(i.comments.value, None, committed);
      notes := notes + found;
    }
    if i.threads.Some? {
      var found := ScanThreads(i.threads.value, committed);
      notes := notes + found;
    }
    if i.reviews.Some? {
      var found := ScanReviews(i.review, i.reviews.value, committed);
      notes := notes + found;
    }
    if i.alerts.Some? {
      var found := ScanAlerts(i, i.alerts.value);
      notes := notes + found;
    }
    if !SourcesKnown(i) {
      notes := notes + [UNKNOWN_NOTE];
    }
  }

  // ----------------------------------------------------------- assessment

  ghost function AssessmentOf(i: Input): Assessment {
    if Noted(i, CONFIRMED_BLOCKER) then ConfirmedBlocker
    else if Noted(i, UNKNOWN_NOTE) then Unknown
    else if Noted(i, REVIEW_REQUIRED) then ReviewRequired
    else if i.sensitive || i.codeQl != GatePolicy.SUCCESS || i.gitleaks != GatePolicy.SUCCESS then ReviewRequired
    else Clear
  }

  function CountConfirmed(notes: seq<Kind>): (n: nat)
    ensures n > 0 <==> CONFIRMED_BLOCKER in notes
  {
    if notes == [] then 0 else CountConfirmed(notes[1..]) + if notes[0] == CONFIRMED_BLOCKER then 1 else 0
  }

  method AssessSecurity(i: Input) returns (assessment: Assessment, confirmed: nat)
    ensures assessment == AssessmentOf(i)
    ensures confirmed > 0 <==> assessment == ConfirmedBlocker
  {
    var notes := CollectNotes(i);
    confirmed := CountConfirmed(notes);
    if CONFIRMED_BLOCKER in notes {
      return ConfirmedBlocker, confirmed;
    }
    if UNKNOWN_NOTE in notes {
      return Unknown, confirmed;
    }
    if REVIEW_REQUIRED in notes || i.sensitive || i.codeQl != GatePolicy.SUCCESS || i.gitleaks != GatePolicy.SUCCESS {
      return ReviewRequired, confirmed;
    }
    return Clear, confirmed;
  }

  // ------------------------------------------------ what the assessment means

  function TextRank(): Review -> int { (r: Review) => r.textRank }

  /**
    The text and its last edit are dated before the head's commit, whose own
    date is trusted: it belongs to this head and is not after the capture.
  */
  predicate PredatesHead(i: Input, p: Prose) {
    && i.headCommit.Some? && i.headCommit.value.sha == i.review.headSha && i.headCommit.value.date.Some?
    && i.captured.Some? && i.headCommit.value.date.value <= i.captured.value
    && p.created.Some? && p.created.value < i.headCommit.value.date.value
    && (p.edited.EditedAt? ==> p.edited.when.Some? && p.edited.when.value < i.headCommit.value.date.value)
  }

  lemma HistoricalExactly(i: Input, p: Prose)
    ensures Historical(p, Committed(i)) <==> PredatesHead(i, p)
  {
  }

  /** The reviewer's latest opinion, by time and the text of its identifier, took the request back. */
  ghost predicate TakenBack(c: Context, reviews: seq<Review>, r: Review) {
    exists j :: 0 <= j < |reviews| && LatestOpinion(c, reviews, TextRank(), c.fold(r.login), j)
      && (reviews[j].state == APPROVED || reviews[j].state == DISMISSED)
  }

  lemma {:induction false} WithdrawnExactly(c: Context, reviews: seq<Review>, r: Review)
    ensures Withdrawn(c, SecurityOpinions(c, reviews), r) <==> TakenBack(c, reviews, r)
  {
    OpinionsAre(c, reviews, TextOrder(), TextRank(), c.fold(r.login));
  }

  /** A text that cannot stand in the way: no keyword, or trusted and older than the verified head. */
  predicate Settled(i: Input, p: Prose) {
    p.words ==> p.linked && PredatesHead(i, p)
  }

  predicate ThreadSettled(t: Thread) {
    forall j :: 0 <= j < |t.comments| && t.comments[j].words ==> t.comments[j].linked && t.resolved
  }

  /** A review that cannot stand in the way: for a change request, only its own author's later opinion settles it. */
  ghost predicate ReviewSettled(i: Input, reviews: seq<Review>, r: Review) {
    r.prose.words ==>
      && r.prose.linked
      && if r.state == CHANGES_REQUESTED then TakenBack(i.review, reviews, r) else PredatesHead(i, r.prose)
  }

  ghost predicate EverythingSettled(i: Input) {
    && i.comments.Some? && i.threads.Some? && i.reviews.Some? && i.alerts.Some? && i.filesKnown
    && Settled(i, i.body)
    && (forall j :: 0 <= j < |i.comments.value| ==> Settled(i, i.comments.value[j]))
    && (forall j :: 0 <= j < |i.threads.value| ==> ThreadSettled(i.threads.value[j]))
    && (forall j :: 0 <= j < |i.reviews.value| ==> ReviewSettled(i, i.reviews.value, i.reviews.value[j]))
    && (forall j :: 0 <= j < |i.alerts.value| ==>
          i.alerts.value[j].linked && (i.alerts.value[j].state == Fixed || i.alerts.value[j].state == DismissedAlert))
  }

  function ViewerText(v: Viewer): string {
    match v
    case UnknownViewer => "None"
    case NamelessViewer(text) => text
    case NamedViewer(login) => login
  }

  /** A standing change request about security on the head, by a writing user who is not author, owner or viewer. */
  ghost predicate StandingObjection(i: Input, reviews: seq<Review>, r: Review) {
    var c := i.review;
    && r.prose.words && r.prose.linked && r.state == CHANGES_REQUESTED && !TakenBack(c, reviews, r)
    && r.commit == Some(c.headSha) && r.isUser && Writes(c, r)
    && c.fold(r.login) != c.fold(c.author) && c.fold(r.login) != c.fold(c.owner)
    && c.fold(r.login) != c.fold(ViewerText(c.viewer))
  }

  /** An open alert on the head or on its merge with the base. */
  predicate OpenOnHead(i: Input, a: Alert) {
    && a.linked && a.state == Open && a.commit.Some? && GatePolicy.ValidSha(a.commit.value)
    && (a.commit == Some(i.review.headSha) || a.commit == i.mergeSha)
  }

  ghost predicate Objected(i: Input, reviews: seq<Review>) {
    exists j :: 0 <= j < |reviews| && StandingObjection(i, reviews, reviews[j])
  }

  ghost predicate Confirmed(i: Input) {
    || (i.reviews.Some? && Objected(i, i.reviews.value))
    || (i.alerts.Some? && exists j :: 0 <= j < |i.alerts.value| && OpenOnHead(i, i.alerts.value[j]))
  }

  /** A text that mentions security behind a link that is missing or not trusted. */
  predicate Untraceable(p: Prose) {
    p.words && !p.linked
  }

  predicate UntraceableThread(t: Thread) {
    exists k :: 0 <= k < |t.comments| && Untraceable(t.comments[k])
  }

  predicate UnsettledAlert(i: Input, a: Alert) {
    !a.linked || (a.state != Fixed && a.state != DismissedAlert && !OpenOnHead(i, a))
  }

  ghost predicate Untraced(i: Input) {
    || i.comments.None? || i.threads.None? || i.reviews.None? || i.alerts.None? || !i.filesKnown
    || Untraceable(i.body)
    || (exists j :: 0 <= j < |i.comments.value| && Untraceable(i.comments.value[j]))
    || (exists j :: 0 <= j < |i.threads.value| && UntraceableThread(i.threads.value[j]))
    || (exists j :: 0 <= j < |i.reviews.value| && Untraceable(i.reviews.value[j].prose))
    || (exists j :: 0 <= j < |i.alerts.value| && UnsettledAlert(i, i.alerts.value[j]))
  }

  // one note

  lemma ProseKind(i: Input, p: Prose, k: Kind)
    ensures Classify(p, None, Committed(i)) == Some(k) <==>
      || (k == UNKNOWN_NOTE && Untraceable(p))
      || (k == HISTORICAL_NOTE && p.words && p.linked && PredatesHead(i, p))
      || (k == REVIEW_REQUIRED && p.words && p.linked && !PredatesHead(i, p))
  {
    HistoricalExactly(i, p);
  }

  function ReviewNote(i: Input, reviews: seq<Review>, r: Review): Option<Kind> {
    ReviewKind(i.review, SecurityOpinions(i.review, reviews), r, Committed(i))
  }

  lemma {:induction false} ReviewNoteKind(i: Input, reviews: seq<Review>, r: Review)
    ensures var kind := ReviewNote(i, reviews, r);
      && (kind == Some(UNKNOWN_NOTE) <==> Untraceable(r.prose))
      && (kind == Some(CONFIRMED_BLOCKER) <==> StandingObjection(i, reviews, r))
      && (kind == Some(REVIEW_REQUIRED) <==>
            r.prose.linked && !ReviewSettled(i, reviews, r) && !StandingObjection(i, reviews, r))
  {
    WithdrawnExactly(i.review, reviews, r);
    HistoricalExactly(i, r.prose);
  }

  lemma AlertNoteKind(i: Input, a: Alert)
    ensures AlertKind(i, a) == CONFIRMED_BLOCKER <==> OpenOnHead(i, a)
    ensures AlertKind(i, a) == UNKNOWN_NOTE <==> UnsettledAlert(i, a)
    ensures AlertKind(i, a) != REVIEW_REQUIRED
  {
  }

  // all notes

  lemma {:induction false} ConfirmedNoted(i: Input)
    ensures Noted(i, CONFIRMED_BLOCKER) <==> Confirmed(i)
  {
    if i.reviews.Some? {
      forall j | 0 <= j < |i.reviews.value|
        ensures ReviewNote(i, i.reviews.value, i.reviews.value[j]) == Some(CONFIRMED_BLOCKER) <==>
          StandingObjection(i, i.reviews.value, i.reviews.value[j])
      {
        ReviewNoteKind(i, i.reviews.value, i.reviews.value[j]);
      }
    }
    if i.alerts.Some? {
      forall j | 0 <= j < |i.alerts.value|
        ensures AlertKind(i, i.alerts.value[j]) == CONFIRMED_BLOCKER <==> OpenOnHead(i, i.alerts.value[j])
      {
        AlertNoteKind(i, i.alerts.value[j]);
      }
    }
  }

  lemma {:induction false} UnknownNoted(i: Input)
    ensures Noted(i, UNKNOWN_NOTE) <==> Untraced(i)
  {
    if SourcesKnown(i) {
      ProseKind(i, i.body, UNKNOWN_NOTE);
      assert ProseNoted(i.comments.value, None, Committed(i), UNKNOWN_NOTE) <==>
        exists j :: 0 <= j < |i.comments.value| && Untraceable(i.comments.value[j]);
      ThreadsUntraced(i.threads.value, Committed(i));
      forall j | 0 <= j < |i.reviews.value|
        ensures ReviewNote(i, i.reviews.value, i.reviews.value[j]) == Some(UNKNOWN_NOTE) <==>
          Untraceable(i.reviews.value[j].prose)
      {
        ReviewNoteKind(i, i.reviews.value, i.reviews.value[j]);
      }
      forall j | 0 <= j < |i.alerts.value|
        ensures AlertKind(i, i.alerts.value[j]) == UNKNOWN_NOTE <==> UnsettledAlert(i, i.alerts.value[j])
      {
        AlertNoteKind(i, i.alerts.value[j]);
      }
    }
  }

  lemma {:induction false} ThreadsUntraced(threads: seq<Thread>, committed: Option<int>)
    ensures ThreadsNoted(threads, committed, UNKNOWN_NOTE) <==>
      exists j :: 0 <= j < |threads| && UntraceableThread(threads[j])
  {
    forall j | 0 <= j < |threads|
      ensures ProseNoted(threads[j].comments, ThreadForced(threads[j]), committed, UNKNOWN_NOTE) <==>
        UntraceableThread(threads[j])
    {
    }
  }

  /** Confirmed exactly if a change request about security stands on the head or an alert is open there. */
  lemma {:induction false} ConfirmedExactly(i: Input)
    ensures AssessmentOf(i) == ConfirmedBlocker <==> Confirmed(i)
  {
    ConfirmedNoted(i);
  }

  /** Unknown exactly if nothing is confirmed and a source is missing, a text is untraceable or an alert unsettled. */
  lemma {:induction false} UnknownExactly(i: Input)
    ensures AssessmentOf(i) == Unknown <==> !Confirmed(i) && Untraced(i)
  {
    ConfirmedNoted(i);
    UnknownNoted(i);
  }

  /** The kinds that keep an assessment from being clear. */
  ghost predicate Objects(i: Input) {
    Noted(i, CONFIRMED_BLOCKER) || Noted(i, UNKNOWN_NOTE) || Noted(i, REVIEW_REQUIRED)
  }

  predicate Objecting(k: Option<Kind>) {
    k in {Some(CONFIRMED_BLOCKER), Some(UNKNOWN_NOTE), Some(REVIEW_REQUIRED)}
  }

  lemma {:induction false} ProseObjects(i: Input, p: Prose)
    ensures Objecting(Classify(p, None, Committed(i))) <==> !Settled(i, p)
  {
    HistoricalExactly(i, p);
  }

  lemma {:induction false} ReviewObjects(i: Input, reviews: seq<Review>, r: Review)
    ensures Objecting(ReviewNote(i, reviews, r)) <==>
      !ReviewSettled(i, reviews, r)
  {
    ReviewNoteKind(i, reviews, r);
  }

  lemma AlertObjects(i: Input, a: Alert)
    ensures Objecting(Some(AlertKind(i, a))) <==> !(a.linked && (a.state == Fixed || a.state == DismissedAlert))
  {
  }

  lemma {:induction false} SettledMeansNoObjection(i: Input)
    requires EverythingSettled(i)
    ensures !Objects(i)
  {
    forall k | Objecting(Some(k)) ensures !Noted(i, k) {
      NotNoted(i, k);
    }
    assert Objecting(Some(CONFIRMED_BLOCKER)) && Objecting(Some(UNKNOWN_NOTE)) && Objecting(Some(REVIEW_REQUIRED));
  }

  lemma {:induction false} NotNoted(i: Input, k: Kind)
    requires EverythingSettled(i) && Objecting(Some(k))
    ensures !Noted(i, k)
  {
    var committed := Committed(i);
    ProseObjects(i, i.body);
    forall j | 0 <= j < |i.comments.value| ensures Classify(i.comments.value[j], None, committed) != Some(k) {
      ProseObjects(i, i.comments.value[j]);
    }
    forall j | 0 <= j < |i.threads.value|
      ensures !ProseNoted(i.threads.value[j].comments, ThreadForced(i.threads.value[j]), committed, k)
    {
      assert ThreadSettled(i.threads.value[j]);
    }
    forall j | 0 <= j < |i.reviews.value|
      ensures ReviewNote(i, i.reviews.value, i.reviews.value[j]) != Some(k)
    {
      ReviewObjects(i, i.reviews.value, i.reviews.value[j]);
    }
    forall j | 0 <= j < |i.alerts.value| ensures AlertKind(i, i.alerts.value[j]) != k {
      AlertObjects(i, i.alerts.value[j]);
    }
  }

  /** Every text, thread, review and alert that is not settled leaves a note that objects. */
  lemma {:induction false} NoObjectionMeansSettled(i: Input)
    requires !Objects(i)
    ensures EverythingSettled(i)
  {
    ProseObjects(i, i.body);
    forall j | 0 <= j < |i.comments.value| ensures Settled(i, i.comments.value[j]) {
      ProseObjects(i, i.comments.value[j]);
    }
    forall j | 0 <= j < |i.threads.value| ensures ThreadSettled(i.threads.value[j]) {
      assert !ProseNoted(i.threads.value[j].comments, ThreadForced(i.threads.value[j]), Committed(i), UNKNOWN_NOTE);
      assert !ProseNoted(i.threads.value[j].comments, ThreadForced(i.threads.value[j]), Committed(i), REVIEW_REQUIRED);
    }
    forall j | 0 <= j < |i.reviews.value| ensures ReviewSettled(i, i.reviews.value, i.reviews.value[j]) {
      ReviewObjects(i, i.reviews.value, i.reviews.value[j]);
    }
    forall j | 0 <= j < |i.alerts.value|
      ensures i.alerts.value[j].linked &&
        (i.alerts.value[j].state == Fixed || i.alerts.value[j].state == DismissedAlert)
    {
      AlertObjects(i, i.alerts.value[j]);
    }
  }

  /**
    The assessment is clear if and only if every source is known, everything
    that mentions security is settled, no sensitive path is touched, and both
    security scans succeeded.
  */
  lemma {:induction false} ClearExactly(i: Input)
    ensures AssessmentOf(i) == Clear <==>
      EverythingSettled(i) && !i.sensitive && i.codeQl == GatePolicy.SUCCESS && i.gitleaks == GatePolicy.SUCCESS
  {
    if EverythingSettled(i) {
      SettledMeansNoObjection(i);
    }
    if !Objects(i) {
      NoObjectionMeansSettled(i);
    }
  }
}
