/**
  Which reviews count as independent approvals of the current head: only the
  latest opinion of each reviewer, and never the author's, the viewer's or the
  repository owner's. Case folding of logins is a parameter.
*/
module ReviewPolicy {
  import opened Wrappers
  import opened LatestPerKey

  datatype Opinion = APPROVED | CHANGES_REQUESTED | DISMISSED | COMMENTED | PENDING

  /** The parts of a text the security assessment looks at: keyword match, trusted link, and dates. */
  datatype Prose = Prose(words: bool, linked: bool, created: Option<int>, edited: Edit)

  datatype Edit = NotEdited | EditedAt(when: Option<int>)

  /** `textRank` orders the reviews of one moment by the text of their identifiers. */
  datatype Review = Review(
    login: string, isUser: bool, state: Opinion, commit: Option<string>, submitted: int, id: int, textRank: int,
      prose: Prose)

  /** The account the audit runs as: not reported, reported without a name, or named. */
  datatype Viewer = UnknownViewer | NamelessViewer(text: string) | NamedViewer(login: string)

  datatype Context = Context(
    fold: string -> string, author: string, owner: string, viewer: Viewer, headSha: string, permissions: map<string,
      string>)

  function Excluded(c: Context): set<string> {
    {c.fold(c.author), c.fold(c.owner)} + if c.viewer.NamedViewer? then {c.fold(c.viewer.login)} else {}
  }

  predicate MayApprove(permission: string) {
    permission in {"write", "maintain", "admin"}
  }

  function Opinionated(): Review -> bool { (r: Review) => r.state in {APPROVED, CHANGES_REQUESTED, DISMISSED} }
  function FoldedLogin(c: Context): Review -> string { (r: Review) => c.fold(r.login) }
  function SubmissionOrder(): Review -> Score { (r: Review) => (r.submitted, r.id) }

  function LatestOpinions(c: Context, reviews: seq<Review>): Dict<Review> {
    OpinionsBy(c, reviews, SubmissionOrder())
  }

  /** An approval of the head by a user who is not excluded; whether they may approve is still open. */
  predicate Eligible(c: Context, login: string, r: Review) {
    && r.state == APPROVED && login !in Excluded(c) && r.isUser && r.commit == Some(c.headSha) &&
      !c.viewer.UnknownViewer?
  }

  datatype Tally = Tally(independent: seq<string>, changesRequested: seq<string>, unknownPermissions: seq<string>)

  // ------------------------------------------------------- what the tally means

  predicate Opines(r: Review) {
    r.state == APPROVED || r.state == CHANGES_REQUESTED || r.state == DISMISSED
  }

  function Number(): Review -> int { (r: Review) => r.id }

  /** Review `j` comes before review `i`: by time, then by rank, then by its place in the list. */
  predicate Earlier(reviews: seq<Review>, rank: Review -> int, j: int, i: int)
    requires 0 <= j < |reviews| && 0 <= i < |reviews|
  {
    || reviews[j].submitted < reviews[i].submitted
    || (reviews[j].submitted == reviews[i].submitted
        && (rank(reviews[j]) < rank(reviews[i]) || (rank(reviews[j]) == rank(reviews[i]) && j < i)))
  }

  /** Review `i` is an opinion of the folded login, and every other opinion of theirs comes before it. */
  ghost predicate LatestOpinion(c: Context, reviews: seq<Review>, rank: Review -> int, login: string, i: int)
    requires 0 <= i < |reviews|
  {
    && Opines(reviews[i]) && c.fold(reviews[i].login) == login
    && forall j :: 0 <= j < |reviews| && j != i && Opines(reviews[j]) && c.fold(reviews[j].login) == login ==>
      Earlier(reviews, rank, j, i)
  }

  /** An approval of the head by a user who is none of author, owner and viewer, with the viewer known. */
  predicate ApprovesHead(c: Context, r: Review) {
    && r.state == APPROVED && r.isUser && r.commit == Some(c.headSha)
    && c.fold(r.login) != c.fold(c.author) && c.fold(r.login) != c.fold(c.owner)
    && !c.viewer.UnknownViewer? && (c.viewer.NamedViewer? ==> c.fold(r.login) != c.fold(c.viewer.login))
  }

  predicate Writes(c: Context, r: Review) {
    r.login in c.permissions &&
      (c.permissions[r.login] == "write" || c.permissions[r.login] == "maintain" || c.permissions[r.login] == "admin")
  }

  ghost predicate Approver(c: Context, reviews: seq<Review>, login: string) {
    exists i :: 0 <= i < |reviews| && LatestOpinion(c, reviews, Number(), login, i) && ApprovesHead(c, reviews[i])
      && Writes(c, reviews[i])
  }

  ghost predicate Objector(c: Context, reviews: seq<Review>, login: string) {
    exists i :: 0 <= i < |reviews| && LatestOpinion(c, reviews, Number(), login, i)
      && reviews[i].state == CHANGES_REQUESTED
  }

  ghost predicate Undetermined(c: Context, reviews: seq<Review>, login: string) {
    exists i :: 0 <= i < |reviews| && LatestOpinion(c, reviews, Number(), login, i) && ApprovesHead(c, reviews[i])
      && reviews[i].login !in c.permissions
  }

  lemma EligibleExactly(c: Context, r: Review)
    ensures Eligible(c, c.fold(r.login), r) <==> ApprovesHead(c, r)
  {
  }

  /** The score sorts by time, then by rank. */
  ghost predicate Orders(score: Review -> Score, rank: Review -> int) {
    forall r: Review :: score(r) == (r.submitted, rank(r))
  }

  lemma LatestExactly(c: Context, reviews: seq<Review>, score: Review -> Score, rank: Review -> int, i: int)
    requires 0 <= i < |reviews| && Orders(score, rank)
    ensures Latest(reviews, Opinionated(), FoldedLogin(c), score, i) <==>
      LatestOpinion(c, reviews, rank, c.fold(reviews[i].login), i)
  {
    forall j | 0 <= j < |reviews| && j != i
      ensures Earlier(reviews, rank, j, i) <==>
        !Below(score(reviews[i]), score(reviews[j])) && (j > i ==> Below(score(reviews[j]), score(reviews[i])))
    {
    }
    assert !Below(score(reviews[i]), score(reviews[i]));
    assert forall j :: 0 <= j < |reviews| ==> Opinionated()(reviews[j]) == Opines(reviews[j]);
  }

  function OpinionsBy(c: Context, reviews: seq<Review>, score: Review -> Score): Dict<Review> {
    Overwrite(StableSort(reviews, score), Opinionated(), FoldedLogin(c))
  }

  /** The dictionary holds, for each folded login, exactly its latest opinion. */
  lemma {:induction false} OpinionsAre(
      c: Context, reviews: seq<Review>, score: Review -> Score, rank: Review -> int, login: string)
    requires Orders(score, rank)
    ensures var found := Find(OpinionsBy(c, reviews, score), login);
      && (found.Some? ==>
            exists i :: 0 <= i < |reviews| && reviews[i] == found.value && LatestOpinion(c, reviews, rank, login, i))
      && (forall i :: 0 <= i < |reviews| && LatestOpinion(c, reviews, rank, login, i) ==> found == Some(reviews[i]))
  {
    var keep, key := Opinionated(), FoldedLogin(c);
    SortedLastIsLatest(reviews, keep, key, score, login);
    var found := Find(OpinionsBy(c, reviews, score), login);
    if found.Some? {
      var i :| 0 <= i < |reviews| && reviews[i] == found.value && key(reviews[i]) == login &&
        Latest(reviews, keep, key, score, i);
      LatestExactly(c, reviews, score, rank, i);
    }
    forall i | 0 <= i < |reviews| && LatestOpinion(c, reviews, rank, login, i) ensures found == Some(reviews[i]) {
      LatestExactly(c, reviews, score, rank, i);
      LatestIsFound(reviews, keep, key, score, i);
    }
  }

  predicate FoldDistinct(c: Context, logins: seq<string>) {
    forall i, j :: 0 <= i < j < |logins| ==> c.fold(logins[i]) != c.fold(logins[j])
  }

  predicate FoldMember(c: Context, logins: seq<string>, login: string) {
    exists i :: 0 <= i < |logins| && c.fold(logins[i]) == login
  }

  /** Every latest opinion is filed under the folded login of its own author. */
  lemma OpinionKey(c: Context, reviews: seq<Review>, i: int)
    requires 0 <= i < |LatestOpinions(c, reviews)|
    ensures var d := LatestOpinions(c, reviews);
      && Distinct(d) && Find(d, d[i].0) == Some(d[i].1)
      && d[i].1 in reviews && c.fold(d[i].1.login) == d[i].0
  {
    var d := LatestOpinions(c, reviews);
    OverwriteIsDistinct(StableSort(reviews, SubmissionOrder()), Opinionated(), FoldedLogin(c));
    FindMeets(d, d[i].0);
    OpinionsAre(c, reviews, SubmissionOrder(), Number(), d[i].0);
  }

  /** What the tally has seen of the first `n` opinions. */
  ghost predicate TalliedTo(c: Context, d: Dict<Review>, n: int, t: Tally)
    requires 0 <= n <= |d|
  {
    && (forall login :: FoldMember(c, t.independent, login) <==>
      exists i :: 0 <= i < n && d[i].0 == login && ApprovesHead(c, d[i].1) && Writes(c, d[i].1))
    && (forall login :: login in t.changesRequested <==>
      exists i :: 0 <= i < n && d[i].0 == login && d[i].1.state == CHANGES_REQUESTED)
    && (forall login :: login in t.unknownPermissions <==>
          exists i :: 0 <= i < n && d[i].0 == login && ApprovesHead(c, d[i].1) && d[i].1.login !in c.permissions)
    && FoldDistinct(c, t.independent)
  }

  function TallyOne(c: Context, login: string, r: Review, t: Tally): Tally {
    var t1 := if r.state == CHANGES_REQUESTED then t.(changesRequested := t.changesRequested + [login]) else t;
    if !Eligible(c, login, r) then t1
    else if r.login !in c.permissions then t1.(unknownPermissions := t1.unknownPermissions + [login])
    else if MayApprove(c.permissions[r.login]) then t1.(independent := t1.independent + [r.login])
    else t1
  }

  lemma FoldMemberAppend(c: Context, logins: seq<string>, raw: string, login: string)
    ensures FoldMember(c, logins + [raw], login) <==> FoldMember(c, logins, login) || c.fold(raw) == login
  {
    var longer := logins + [raw];
    assert longer[|logins|] == raw;
    assert forall i :: 0 <= i < |logins| ==> longer[i] == logins[i];
  }

  lemma TallyStep(c: Context, d: Dict<Review>, n: int, t: Tally)
    requires 0 <= n < |d| && Distinct(d) && c.fold(d[n].1.login) == d[n].0
    requires TalliedTo(c, d, n, t)
    ensures TalliedTo(c, d, n + 1, TallyOne(c, d[n].0, d[n].1, t))
  {
    var login, r := d[n].0, d[n].1;
    var u := TallyOne(c, login, r, t);
    EligibleExactly(c, r);
    assert !FoldMember(c, t.independent, login);
    assert FoldDistinct(c, u.independent) by {
      assert forall i :: 0 <= i < |t.independent| ==> FoldMember(c, t.independent, c.fold(t.independent[i]));
    }
    forall l ensures FoldMember(c, u.independent, l) <==>
      exists i :: 0 <= i < n + 1 && d[i].0 == l && ApprovesHead(c, d[i].1) && Writes(c, d[i].1) {
      FoldMemberAppend(c, t.independent, r.login, l);
      assert FoldMember(c, t.independent, l) <==>
        exists i :: 0 <= i < n && d[i].0 == l && ApprovesHead(c, d[i].1) && Writes(c, d[i].1);
    }
  }

  /**
    The independent approvals, one for each reviewer: a reviewer is among them
    if and only if their latest opinion approves the head, they are none of
    author, owner and viewer, and they may write. Objections and approvals of
    unknown standing are listed the same way.
  */
  method TallyReviews(c: Context, reviews: seq<Review>) returns (t: Tally)
    ensures FoldDistinct(c, t.independent)
    ensures forall login :: FoldMember(c, t.independent, login) <==> Approver(c, reviews, login)
    ensures forall login :: login in t.changesRequested <==> Objector(c, reviews, login)
    ensures forall login :: login in t.unknownPermissions <==> Undetermined(c, reviews, login)
  {
    var d := LatestOpinions(c, reviews);
    OverwriteIsDistinct(StableSort(reviews, SubmissionOrder()), Opinionated(), FoldedLogin(c));
    t := Tally([], [], []);
    for n := 0 to |d|
      invariant TalliedTo(c, d, n, t)
    {
      OpinionKey(c, reviews, n);
      TallyStep(c, d, n, t);
      var login, r := d[n].0, d[n].1;
      if r.state == CHANGES_REQUESTED {
        t := t.(changesRequested := t.changesRequested + [login]);
      }
      if Eligible(c, login, r) {
        if r.login !in c.permissions {
          t := t.(unknownPermissions := t.unknownPermissions + [login]);
        } else if MayApprove(c.permissions[r.login]) {
          t := t.(independent := t.independent + [r.login]);
        }
      }
    }
    forall login
      ensures FoldMember(c, t.independent, login) <==> Approver(c, reviews, login)
      ensures login in t.changesRequested <==> Objector(c, reviews, login)
      ensures login in t.unknownPermissions <==> Undetermined(c, reviews, login)
    {
      FindMeets(d, login);
      OpinionsAre(c, reviews, SubmissionOrder(), Number(), login);
    }
  }

  /** A reviewer has at most one latest opinion, so approving, objecting and being undetermined exclude each other. */
  lemma OneOpinionEach(c: Context, reviews: seq<Review>, rank: Review -> int, login: string, i: int, j: int)
    requires 0 <= i < |reviews| && 0 <= j < |reviews|
    requires LatestOpinion(c, reviews, rank, login, i) && LatestOpinion(c, reviews, rank, login, j)
    ensures i == j
  {
  }
}
