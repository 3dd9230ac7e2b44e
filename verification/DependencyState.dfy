/**
  The dependency state of each audited pull request: its parents by base
  branch and by explicit declaration, and whether all of them are verified
  merged into the target. Case folding of repository names is a parameter.
*/
module DependencyState {
  import opened Wrappers
  import opened DependencyGraph
  import opened ReviewOrder

  /** A known answer about a pull request that is not open. */
  datatype Detail = Detail(number: int, closed: bool, merged: Option<bool>, baseRef: string, baseRepo: string)

  datatype Pull = Pull(
    number: int, headRepo: string, headBranch: string, baseRepo: string, baseBranch: string,
    declared: seq<int>, details: map<int, Detail>)

  datatype Repository = Repository(fold: string -> string, name: string, target: string)

  datatype Status = CLEAR | BLOCKED | UNKNOWN | CYCLE

  datatype UnknownParent = BaseBranch(name: string) | DeclarationLimit | Declared(number: int)

  datatype Dependencies = Dependencies(
    status: Status, parents: seq<int>, unknown: seq<UnknownParent>, closed: seq<int>, merged: seq<int>)

  const DECLARATION_LIMIT := 32

  predicate DistinctNumbers(pulls: seq<Pull>) {
    forall i, j :: 0 <= i < j < |pulls| ==> pulls[i].number != pulls[j].number
  }

  function Numbers(pulls: seq<Pull>): set<int> {
    set i | 0 <= i < |pulls| :: pulls[i].number
  }

  predicate IsOpen(pulls: seq<Pull>, n: int) {
    exists i :: 0 <= i < |pulls| && pulls[i].number == n
  }

  predicate BaseIsTarget(r: Repository, p: Pull) {
    p.baseBranch == r.target && r.fold(p.baseRepo) == r.fold(r.name)
  }

  /** The open pull requests whose head branch is this one's base. */
  function BaseOwners(r: Repository, pulls: seq<Pull>, p: Pull): seq<int> {
    if pulls == [] then [] else
    var rest := BaseOwners(r, pulls[1..], p);
    if r.fold(pulls[0].headRepo) == r.fold(p.baseRepo) &&
      pulls[0].headBranch == p.baseBranch then [pulls[0].number] + rest
    else rest
  }

  predicate VerifiedMerged(r: Repository, p: Pull, n: int) {
    && n in p.details && p.details[n].number == n && p.details[n].closed && p.details[n].merged == Some(true)
    && p.details[n].baseRef == r.target && r.fold(p.details[n].baseRepo) == r.fold(r.name)
  }

  predicate ClosedUnmerged(p: Pull, n: int) {
    n in p.details && p.details[n].number == n && p.details[n].closed && p.details[n].merged == Some(false)
  }

  function Considered(p: Pull): seq<int> {
    if |p.declared| > DECLARATION_LIMIT then p.declared[..DECLARATION_LIMIT] else p.declared
  }

  /** `p` declares `n` among the declarations that are considered. */
  ghost predicate Declares(p: Pull, n: int) {
    exists i :: 0 <= i < |p.declared| && i < DECLARATION_LIMIT && p.declared[i] == n
  }

  /** The base of `p` is the head branch of `q`. */
  predicate OwnsBase(r: Repository, q: Pull, p: Pull) {
    q.headBranch == p.baseBranch && r.fold(q.headRepo) == r.fold(p.baseRepo)
  }

  ghost predicate SomeOwner(r: Repository, pulls: seq<Pull>, p: Pull, n: int) {
    exists i :: 0 <= i < |pulls| && pulls[i].number == n && OwnsBase(r, pulls[i], p)
  }

  ghost predicate OnlyOwner(r: Repository, pulls: seq<Pull>, p: Pull, i: int) {
    && 0 <= i < |pulls| && OwnsBase(r, pulls[i], p)
    && forall j :: 0 <= j < |pulls| && OwnsBase(r, pulls[j], p) ==> j == i
  }

  ghost predicate ExactlyOneOwner(r: Repository, pulls: seq<Pull>, p: Pull) {
    exists i :: OnlyOwner(r, pulls, p, i)
  }

  lemma {:induction false} BaseOwnersAre(r: Repository, pulls: seq<Pull>, p: Pull, n: int)
    ensures n in BaseOwners(r, pulls, p) <==> SomeOwner(r, pulls, p, n)
  {
    if pulls != [] {
      BaseOwnersAre(r, pulls[1..], p, n);
      if SomeOwner(r, pulls[1..], p, n) {
        var i :| 0 <= i < |pulls[1..]| && pulls[1..][i].number == n && OwnsBase(r, pulls[1..][i], p);
        assert pulls[i + 1].number == n && OwnsBase(r, pulls[i + 1], p);
      }
      if SomeOwner(r, pulls, p, n) {
        var i :| 0 <= i < |pulls| && pulls[i].number == n && OwnsBase(r, pulls[i], p);
        assert i > 0 ==> pulls[1..][i - 1] == pulls[i];
      }
    }
  }

  lemma {:induction false} NoBaseOwner(r: Repository, pulls: seq<Pull>, p: Pull)
    ensures BaseOwners(r, pulls, p) == [] <==> forall i :: 0 <= i < |pulls| ==> !OwnsBase(r, pulls[i], p)
  {
    if pulls != [] {
      NoBaseOwner(r, pulls[1..], p);
      assert forall i :: 0 < i < |pulls| ==> pulls[i] == pulls[1..][i - 1];
    }
  }

  /** The base has one owner if and only if exactly one open request qualifies; their number decides `UNKNOWN`. */
  lemma {:induction false} OneBaseOwner(r: Repository, pulls: seq<Pull>, p: Pull)
    ensures |BaseOwners(r, pulls, p)| == 1 <==> ExactlyOneOwner(r, pulls, p)
  {
    if pulls != [] {
      var rest := pulls[1..];
      NoBaseOwner(r, rest, p);
      OneBaseOwner(r, rest, p);
      assert forall i :: 0 < i < |pulls| ==> pulls[i] == rest[i - 1];
      if OwnsBase(r, pulls[0], p) {
        assert BaseOwners(r, rest, p) == [] ==> OnlyOwner(r, pulls, p, 0);
      } else {
        assert forall i :: OnlyOwner(r, rest, p, i) ==> OnlyOwner(r, pulls, p, i + 1);
        assert forall i :: OnlyOwner(r, pulls, p, i) ==> OnlyOwner(r, rest, p, i - 1);
      }
    }
  }

  /** A parent edge: the owner of the base branch, or an open pull request it declares. */
  ghost predicate IsParent(r: Repository, pulls: seq<Pull>, p: Pull, n: int) {
    || (!BaseIsTarget(r, p) && SomeOwner(r, pulls, p, n))
    || (Declares(p, n) && IsOpen(pulls, n))
  }

  /**
    Nothing stands before this pull request: it targets the target, and every
    declared parent is verified merged there.
  */
  predicate AllParentsMerged(r: Repository, pulls: seq<Pull>, p: Pull) {
    && BaseIsTarget(r, p) && |p.declared| <= DECLARATION_LIMIT
    && forall n :: n in p.declared ==> FateOf(r, pulls, p, n) == Merged
  }

  datatype Fate = StillOpen | Merged | ClosedOnly | Unverified

  function FateOf(r: Repository, pulls: seq<Pull>, p: Pull, n: int): Fate {
    if IsOpen(pulls, n) then StillOpen
    else if VerifiedMerged(r, p, n) then Merged
    else if ClosedUnmerged(p, n) then ClosedOnly
    else Unverified
  }

  /** Something about the parents is not known: the base's owner, a declaration too many, or a declared parent. */
  ghost predicate Unsettled(r: Repository, pulls: seq<Pull>, p: Pull) {
    || (!BaseIsTarget(r, p) && !ExactlyOneOwner(r, pulls, p))
    || |p.declared| > DECLARATION_LIMIT
    || exists n :: Declares(p, n) && FateOf(r, pulls, p, n) == Unverified
  }

  /** The numbers of a list with one fate, in order. */
  function WithFate(r: Repository, pulls: seq<Pull>, p: Pull, numbers: seq<int>, fate: Fate): seq<int> {
    if numbers == [] then [] else
    var n := numbers[|numbers| - 1];
    WithFate(r, pulls, p, numbers[..|numbers| - 1], fate) + if FateOf(r, pulls, p, n) == fate then [n] else []
  }

  lemma {:induction false} WithFateMember(
      r: Repository, pulls: seq<Pull>, p: Pull, numbers: seq<int>, fate: Fate, n: int)
    ensures n in WithFate(r, pulls, p, numbers, fate) <==> n in numbers && FateOf(r, pulls, p, n) == fate
  {
    if numbers != [] {
      WithFateMember(r, pulls, p, numbers[..|numbers| - 1], fate, n);
      assert numbers == numbers[..|numbers| - 1] + [numbers[|numbers| - 1]];
    }
  }

  method SortByFate(r: Repository, pulls: seq<Pull>, p: Pull, numbers: seq<int>)
    returns (open: seq<int>, merged: seq<int>, closed: seq<int>, unverified: seq<int>)
    ensures open == WithFate(r, pulls, p, numbers, StillOpen) && merged == WithFate(r, pulls, p, numbers, Merged)
    ensures closed == WithFate(r, pulls, p, numbers, ClosedOnly) &&
      unverified == WithFate(r, pulls, p, numbers, Unverified)
  {
    open, merged, closed, unverified := [], [], [], [];
    for k := 0 to |numbers|
      invariant open == WithFate(r, pulls, p, numbers[..k], StillOpen) &&
        merged == WithFate(r, pulls, p, numbers[..k], Merged)
      invariant closed == WithFate(r, pulls, p, numbers[..k], ClosedOnly)
      invariant unverified == WithFate(r, pulls, p, numbers[..k], Unverified)
    {
      var n := numbers[k];
      assert numbers[..k + 1][..k] == numbers[..k];
      var known := n in p.details && p.details[n].number == n && p.details[n].closed;
      if n in Numbers(pulls) {
        open := open + [n];
      } else if known && p.details[n].merged == Some(true) && p.details[n].baseRef == r.target
        && r.fold(p.details[n].baseRepo) == r.fold(r.name)
      {
        merged := merged + [n];
      } else if known && p.details[n].merged == Some(false) {
        closed := closed + [n];
      } else {
        unverified := unverified + [n];
      }
    }
    assert numbers[..|numbers|] == numbers;
  }

  function DeclaredMarks(numbers: seq<int>): seq<UnknownParent> {
    seq(|numbers|, i requires 0 <= i < |numbers| => Declared(numbers[i]))
  }

  /** The state a pull request has between the two passes: blocked is what is neither unsettled nor clear. */
  ghost predicate Gathered(r: Repository, pulls: seq<Pull>, p: Pull, d: Dependencies) {
    && (forall n :: n in d.parents <==> IsParent(r, pulls, p, n))
    && (forall n :: n in d.closed <==> Declares(p, n) && FateOf(r, pulls, p, n) == ClosedOnly)
    && (forall n :: n in d.merged <==> Declares(p, n) && FateOf(r, pulls, p, n) == Merged)
    && (d.unknown != [] <==> Unsettled(r, pulls, p))
    && (d.status == UNKNOWN <==> Unsettled(r, pulls, p))
    && (d.status == CLEAR <==> AllParentsMerged(r, pulls, p))
    && d.status != CYCLE
  }

  /** The first pass over one pull request, before cycles are known. */
  method Gather(r: Repository, pulls: seq<Pull>, p: Pull) returns (d: Dependencies)
    ensures Gathered(r, pulls, p, d)
  {
    var onTarget := p.baseBranch == r.target && r.fold(p.baseRepo) == r.fold(r.name);
    var base := if onTarget then [] else BaseOwners(r, pulls, p);
    var unknown := if !onTarget && |base| != 1 then [BaseBranch(p.baseBranch)] else [];
    if |p.declared| > DECLARATION_LIMIT {
      unknown := unknown + [DeclarationLimit];
    }
    var open, merged, closed, unverified := SortByFate(r, pulls, p, Considered(p));
    unknown := unknown + DeclaredMarks(unverified);
    var parents := (set n | n in base) + set n | n in open;
    var status := if unknown != [] then UNKNOWN
      else if parents != {} || closed != [] || !onTarget then BLOCKED else CLEAR;
    d := Dependencies(status, Sorted(parents), unknown, closed, merged);
    ParentsGathered(r, pulls, p, d.parents);
    FatesGathered(r, pulls, p, d);
    UnknownGathered(r, pulls, p, unknown != []);
    assert parents == {} <==> d.parents == [];
    StatusGathered(r, pulls, p, d);
  }

  lemma DeclaresConsidered(p: Pull, n: int)
    ensures Declares(p, n) <==> n in Considered(p)
  {
    var considered := Considered(p);
    assert forall i :: 0 <= i < |considered| ==> considered[i] == p.declared[i];
    if Declares(p, n) {
      var i :| 0 <= i < |p.declared| && i < DECLARATION_LIMIT && p.declared[i] == n;
      assert considered[i] == n;
    }
  }

  lemma {:induction false} ParentsGathered(r: Repository, pulls: seq<Pull>, p: Pull, parents: seq<int>)
    requires forall n :: n in Elements(parents) <==>
      || (!BaseIsTarget(r, p) && n in BaseOwners(r, pulls, p))
      || n in WithFate(r, pulls, p, Considered(p), StillOpen)
    ensures forall n :: n in parents <==> IsParent(r, pulls, p, n)
  {
    forall n ensures n in parents <==> IsParent(r, pulls, p, n) {
      WithFateMember(r, pulls, p, Considered(p), StillOpen, n);
      BaseOwnersAre(r, pulls, p, n);
      DeclaresConsidered(p, n);
      assert n in parents <==> n in Elements(parents);
    }
  }

  lemma {:induction false} FatesGathered(r: Repository, pulls: seq<Pull>, p: Pull, d: Dependencies)
    requires d.closed == WithFate(r, pulls, p, Considered(p), ClosedOnly)
    requires d.merged == WithFate(r, pulls, p, Considered(p), Merged)
    ensures forall n :: n in d.closed <==> Declares(p, n) && FateOf(r, pulls, p, n) == ClosedOnly
    ensures forall n :: n in d.merged <==> Declares(p, n) && FateOf(r, pulls, p, n) == Merged
  {
    forall n ensures n in d.closed <==> Declares(p, n) && FateOf(r, pulls, p, n) == ClosedOnly
      ensures n in d.merged <==> Declares(p, n) && FateOf(r, pulls, p, n) == Merged
    {
      WithFateMember(r, pulls, p, Considered(p), ClosedOnly, n);
      WithFateMember(r, pulls, p, Considered(p), Merged, n);
      DeclaresConsidered(p, n);
    }
  }

  lemma HasMember(s: seq<int>)
    ensures s == [] || s[0] in s
  {
  }

  lemma {:induction false} UnknownGathered(r: Repository, pulls: seq<Pull>, p: Pull, unknown: bool)
    requires unknown <==>
      || (!BaseIsTarget(r, p) && |BaseOwners(r, pulls, p)| != 1) || |p.declared| > DECLARATION_LIMIT
      || WithFate(r, pulls, p, Considered(p), Unverified) != []
    ensures unknown <==> Unsettled(r, pulls, p)
  {
    var unverified := WithFate(r, pulls, p, Considered(p), Unverified);
    OneBaseOwner(r, pulls, p);
    HasMember(unverified);
    forall n ensures n in unverified <==> Declares(p, n) && FateOf(r, pulls, p, n) == Unverified {
      WithFateMember(r, pulls, p, Considered(p), Unverified, n);
      DeclaresConsidered(p, n);
    }
    assert unverified != [] ==> Declares(p, unverified[0]) && FateOf(r, pulls, p, unverified[0]) == Unverified;
  }

  /** How the collected lists decide the status. */
  lemma {:induction false} StatusGathered(r: Repository, pulls: seq<Pull>, p: Pull, d: Dependencies)
    requires forall n :: n in d.parents <==> IsParent(r, pulls, p, n)
    requires forall n :: n in d.closed <==> Declares(p, n) && FateOf(r, pulls, p, n) == ClosedOnly
    requires d.unknown != [] <==> Unsettled(r, pulls, p)
    requires d.status == if d.unknown != [] then UNKNOWN
      else if d.parents != [] || d.closed != [] || !BaseIsTarget(r, p) then BLOCKED else CLEAR
    ensures d.status == UNKNOWN <==> Unsettled(r, pulls, p)
    ensures d.status == CLEAR <==> AllParentsMerged(r, pulls, p)
  {
    if d.status == CLEAR {
      forall n | n in p.declared ensures FateOf(r, pulls, p, n) == Merged {
        DeclaresConsidered(p, n);
        assert !IsParent(r, pulls, p, n) && n !in d.closed;
      }
    }
    if AllParentsMerged(r, pulls, p) {
      forall n ensures Declares(p, n) ==> FateOf(r, pulls, p, n) == Merged {
        DeclaresConsidered(p, n);
      }
      forall n ensures n !in d.parents {
        assert n in d.parents <==> IsParent(r, pulls, p, n);
      }
      forall n ensures n !in d.closed {
        assert n in d.closed ==> Declares(p, n);
      }
      HasMember(d.parents);
      HasMember(d.closed);
    }
  }

  function Requests(pulls: seq<Pull>, deps: seq<Dependencies>): seq<Request>
    requires |pulls| == |deps|
  {
    seq(|pulls|, i requires 0 <= i < |pulls| => Request(pulls[i].number, deps[i].parents))
  }

  /** What both passes leave behind for one pull request; `cyclic`: it is its own ancestor. */
  ghost predicate Settles(r: Repository, pulls: seq<Pull>, p: Pull, cyclic: bool, d: Dependencies) {
    && (forall n :: n in d.parents <==> IsParent(r, pulls, p, n))
    && (forall n :: n in d.closed <==> Declares(p, n) && FateOf(r, pulls, p, n) == ClosedOnly)
    && (d.unknown != [] <==> Unsettled(r, pulls, p))
    && (d.status == CYCLE <==> cyclic)
    && (d.status == UNKNOWN <==> Unsettled(r, pulls, p) && !cyclic)
    && (d.status == CLEAR <==> AllParentsMerged(r, pulls, p))
  }

  function Marked(d: Dependencies, reach: Reach): Dependencies {
    if reach.inCycle then d.(status := CYCLE) else d
  }

  lemma MarkingIsCorrect(r: Repository, pulls: seq<Pull>, g: Graph, p: Pull, d: Dependencies, reach: Reach)
    requires Gathered(r, pulls, p, d) && p.number in g && g[p.number] == d.parents
    requires reach.inCycle <==> OnCycle(g, p.number)
    ensures Settles(r, pulls, p, OnCycle(g, p.number), Marked(d, reach))
  {
  }

  method GatherAll(r: Repository, pulls: seq<Pull>) returns (gathered: seq<Dependencies>)
    ensures |gathered| == |pulls|
    ensures forall i :: 0 <= i < |pulls| ==> Gathered(r, pulls, pulls[i], gathered[i])
  {
    gathered := [];
    for k := 0 to |pulls|
      invariant |gathered| == k
      invariant forall i :: 0 <= i < k ==> Gathered(r, pulls, pulls[i], gathered[i])
    {
      var d := Gather(r, pulls, pulls[k]);
      gathered := gathered + [d];
    }
  }

  /**
    Both passes: parents and states first, then the requests that reach
    themselves become `CYCLE`. A clear request is never on a cycle, so clear
    means exactly that every parent is verified merged into the target.
  */
  method BuildDependencies(r: Repository, pulls: seq<Pull>) returns (deps: seq<Dependencies>, cycles: seq<int>)
    requires DistinctNumbers(pulls)
    ensures |deps| == |pulls| && ReviewOrder.Distinct(Requests(pulls, deps))
    ensures forall i :: 0 <= i < |pulls| ==>
      Settles(r, pulls, pulls[i], OnCycle(Index(Requests(pulls, deps)), pulls[i].number), deps[i])
    ensures forall n :: n in cycles <==> OnCycle(Index(Requests(pulls, deps)), n)
  {
    var gathered := GatherAll(r, pulls);
    var requests := Requests(pulls, gathered);
    var g := Index(requests);
    var reach: seq<Reach>;
    reach, cycles := MarkCycles(requests);
    deps := seq(|pulls|, i requires 0 <= i < |pulls| => Marked(gathered[i], reach[i]));
    assert Requests(pulls, deps) == requests;
    forall i | 0 <= i < |pulls| ensures Settles(r, pulls, pulls[i], OnCycle(g, pulls[i].number), deps[i]) {
      assert ReachCorrect(g, requests[i].number, reach[i]);
      MarkingIsCorrect(r, pulls, g, pulls[i], gathered[i], reach[i]);
    }
  }
}
