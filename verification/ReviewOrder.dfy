/**
  Cycle flags and the suggested review order of the pull-request auditor: the
  per-request reachability pass of `build_dependencies` and the priority-driven
  Kahn loop of `prioritize`, with the theorem that both agree on what is cyclic.
*/
module ReviewOrder {
  import opened Wrappers
  import opened DependencyGraph

  // ---------------------------------------------------------------- sorting

  ghost predicate Increasing(s: seq<int>) {
    forall i, j :: 0 <= i < j < |s| ==> s[i] < s[j]
  }

  ghost function Elements(s: seq<int>): set<int> {
    set x | x in s
  }

  lemma {:induction false} MinimumExists(s: set<int>) returns (m: int)
    requires s != {}
    ensures IsMinimum(s, m)
  {
    m := SomeMember(s);
    if s != {m} {
      var rest := s - {m};
      var r := MinimumExists(rest);
      assert forall x :: x in s ==> x == m || x in rest;
      if r < m { m := r; }
    }
  }

  ghost predicate IsMinimum(s: set<int>, m: int) {
    m in s && forall x :: x in s ==> m <= x
  }

  function Minimum(s: set<int>): (m: int)
    requires s != {}
    ensures IsMinimum(s, m)
  {
    assert exists m :: IsMinimum(s, m) by { var m := MinimumExists(s); }
    var m :| m in s && forall x :: x in s ==> m <= x;
    m
  }

  lemma SortedStep(s: set<int>, m: int, rest: seq<int>)
    requires IsMinimum(s, m) && Increasing(rest) && Elements(rest) == s - {m} && |rest| == |s - {m}|
    ensures Increasing([m] + rest) && Elements([m] + rest) == s && |[m] + rest| == |s|
  {
    forall i | 0 <= i < |rest| ensures m < rest[i] { assert rest[i] in Elements(rest); }
    var all := [m] + rest;
    assert all[0] == m && forall i :: 0 < i < |all| ==> all[i] == rest[i - 1];
    assert s == {m} + (s - {m});
  }

  /** Python's `sorted` over a set of numbers. */
  function Sorted(s: set<int>): (r: seq<int>)
    ensures Increasing(r) && Elements(r) == s && |r| == |s|
  {
    if s == {} then [] else
      var m := Minimum(s);
      var rest := Sorted(s - {m});
      SortedStep(s, m, rest);
      [m] + rest
  }

  // ------------------------------------------------------------ cycle flags

  /** What the reachability pass writes back into one pull request. */
  datatype Reach = Reach(number: int, ancestors: seq<int>, inCycle: bool)

  /** `requests` and the index `ids` built from them: numbers are distinct, as the inventory check requires. */
  datatype Request = Request(number: int, parents: seq<int>)

  predicate Distinct(requests: seq<Request>) {
    forall i, j :: 0 <= i < j < |requests| ==> requests[i].number != requests[j].number
  }

  function Index(requests: seq<Request>): (g: Graph)
    requires Distinct(requests)
    ensures forall i :: 0 <= i < |requests| ==> requests[i].number in g && g[requests[i].number] == requests[i].parents
    ensures forall n :: n in g ==> exists i :: 0 <= i < |requests| && requests[i].number == n
  {
    if requests == [] then map[] else
      var last := |requests| - 1;
      Index(requests[..last])[requests[last].number := requests[last].parents]
  }

  /** The recorded ancestors are the transitive closure of the parent edges minus the request itself. */
  ghost predicate ReachCorrect(g: Graph, number: int, r: Reach) {
    && r.number == number
    && Increasing(r.ancestors)
    && (forall a :: a in r.ancestors <==> a != number && Ancestor(g, number, a))
    && (r.inCycle <==> OnCycle(g, number))
  }

  /** `cycles` of `build_dependencies`: every request that reaches itself, and each one's ancestors. */
  method MarkCycles(requests: seq<Request>) returns (reach: seq<Reach>, cycles: seq<int>)
    requires Distinct(requests)
    ensures |reach| == |requests|
    ensures forall i :: 0 <= i < |reach| ==> ReachCorrect(Index(requests), requests[i].number, reach[i])
    ensures Increasing(cycles)
    ensures forall n :: n in cycles <==> OnCycle(Index(requests), n)
  {
    var g := Index(requests);
    reach := [];
    var found: set<int> := {};
    for k := 0 to |requests|
      invariant |reach| == k
      invariant forall i :: 0 <= i < k ==> ReachCorrect(g, requests[i].number, reach[i])
      invariant found == InCycle(reach)
    {
      var item := ReachOf(g, requests[k].number);
      InCycleAppend(reach, item);
      reach := reach + [item];
      if item.inCycle {
        found := found + {item.number};
      }
    }
    cycles := Sorted(found);
    MarkedAreCyclic(requests, reach, cycles);
  }

  ghost function InCycle(reach: seq<Reach>): set<int> {
    set i | 0 <= i < |reach| && reach[i].inCycle :: reach[i].number
  }

  lemma InCycleAppend(reach: seq<Reach>, item: Reach)
    ensures InCycle(reach + [item]) == InCycle(reach) + if item.inCycle then {item.number} else {}
  {
    var longer := reach + [item];
    assert longer[|reach|] == item;
    assert forall i :: 0 <= i < |reach| ==> longer[i] == reach[i];
  }

  lemma {:induction false} MarkedAreCyclic(requests: seq<Request>, reach: seq<Reach>, cycles: seq<int>)
    requires Distinct(requests) && |reach| == |requests|
    requires forall i :: 0 <= i < |reach| ==> ReachCorrect(Index(requests), requests[i].number, reach[i])
    requires Elements(cycles) == InCycle(reach)
    ensures forall n :: n in cycles <==> OnCycle(Index(requests), n)
  {
    var g := Index(requests);
    forall n | n in cycles ensures OnCycle(g, n) {
      assert n in Elements(cycles);
      var i :| 0 <= i < |reach| && reach[i].inCycle && reach[i].number == n;
    }
    forall n | OnCycle(g, n) ensures n in cycles {
      var i :| 0 <= i < |requests| && requests[i].number == n;
      assert reach[i].inCycle;
      assert n in Elements(cycles);
    }
  }

  method ReachOf(g: Graph, number: int) returns (item: Reach)
    requires number in g
    ensures ReachCorrect(g, number, item)
  {
    var reachable := Reachable(g, g[number]);
    forall a ensures a in reachable <==> Ancestor(g, number, a) { ReachedFromParents(g, number, a); }
    var ancestors := Sorted(reachable - {number});
    assert forall a :: a in ancestors <==> a in Elements(ancestors);
    item := Reach(number, ancestors, number in reachable);
  }

  // ----------------------------------------------------------- review order

  /** The sort key `(-score, number)`, compared strictly. */
  predicate Before(score: map<int, int>, a: int, b: int)
    requires a in score && b in score
  {
    score[a] > score[b] || (score[a] == score[b] && a < b)
  }

  function Eligible(g: Graph, remaining: set<int>): set<int>
    requires remaining <= g.Keys
  {
    set n | n in remaining && forall p :: p in g[n] ==> p !in remaining
  }

  /** `selected` is the one eligible request no other eligible request comes before. */
  ghost predicate IsPick(g: Graph, score: map<int, int>, remaining: set<int>, selected: int)
    requires remaining <= g.Keys <= score.Keys
  {
    selected in Eligible(g, remaining) &&
    forall e :: e in Eligible(g, remaining) && e != selected ==> Before(score, selected, e)
  }

  ghost function Rest(g: Graph, picks: seq<int>): set<int> {
    g.Keys - Elements(picks)
  }

  /** Each element was the pick at its turn, and nothing was eligible at the end. */
  ghost predicate IsPickSequence(g: Graph, score: map<int, int>, picks: seq<int>)
    requires g.Keys <= score.Keys
  {
    AllPicks(g, score, picks) && Eligible(g, Rest(g, picks)) == {}
  }

  ghost predicate AllPicks(g: Graph, score: map<int, int>, picks: seq<int>)
    requires g.Keys <= score.Keys
  {
    forall i :: 0 <= i < |picks| ==> PickedAt(g, score, picks, i)
  }

  ghost predicate PickedAt(g: Graph, score: map<int, int>, picks: seq<int>, i: nat)
    requires g.Keys <= score.Keys && i < |picks|
  {
    IsPick(g, score, Rest(g, picks[..i]), picks[i])
  }

  lemma AppendPick(g: Graph, score: map<int, int>, picks: seq<int>, selected: int)
    requires g.Keys <= score.Keys && AllPicks(g, score, picks)
    requires IsPick(g, score, Rest(g, picks), selected)
    ensures AllPicks(g, score, picks + [selected])
    ensures Rest(g, picks + [selected]) == Rest(g, picks) - {selected}
  {
    var longer := picks + [selected];
    forall i | 0 <= i < |longer| ensures PickedAt(g, score, longer, i) {
      if i < |picks| {
        assert longer[..i] == picks[..i];
        assert PickedAt(g, score, picks, i);
      } else {
        assert longer[..i] == picks;
      }
    }
    assert Elements(longer) == Elements(picks) + {selected};
  }

  /** `min` over the eligible requests, visited in whatever order the set yields them. */
  method SelectMinimum(score: map<int, int>, eligible: set<int>) returns (selected: int)
    requires eligible != {} && eligible <= score.Keys
    ensures selected in eligible
    ensures forall e :: e in eligible && e != selected ==>
      score[selected] > score[e] || (score[selected] == score[e] && selected < e)
  {
    ghost var someone := SomeMember(eligible);
    selected :| selected in eligible;
    var todo := eligible - {selected};
    while todo != {}
      invariant todo <= eligible && selected in eligible && selected !in todo
      invariant forall e :: e in eligible && e !in todo && e != selected ==>
        score[selected] > score[e] || (score[selected] == score[e] && selected < e)
      decreases todo
    {
      ghost var next := SomeMember(todo);
      var candidate :| candidate in todo;
      todo := todo - {candidate};
      if score[candidate] > score[selected] || (score[candidate] == score[selected] && candidate < selected) {
        selected := candidate;
      }
    }
  }

  lemma PickedMeansEligible(g: Graph, score: map<int, int>, picks: seq<int>, n: nat)
    requires g.Keys <= score.Keys && AllPicks(g, score, picks) && n <= |picks|
    ensures n < |picks| ==> picks[n] in Eligible(g, Rest(g, picks[..n]))
    ensures n == |picks| ==> picks[..n] == picks
  {
    assert n < |picks| ==> PickedAt(g, score, picks, n);
  }

  /** The order does not depend on the set's iteration order: there is only one pick sequence. */
  lemma {:induction false} PickSequenceUnique(g: Graph, score: map<int, int>, a: seq<int>, b: seq<int>, n: nat)
    requires g.Keys <= score.Keys
    requires IsPickSequence(g, score, a) && IsPickSequence(g, score, b)
    requires n <= |a| && n <= |b| && a[..n] == b[..n]
    ensures a == b
    decreases |a| - n
  {
    PickedMeansEligible(g, score, a, n);
    PickedMeansEligible(g, score, b, n);
    if n < |a| && n < |b| {
      assert PickedAt(g, score, a, n) && PickedAt(g, score, b, n);
      assert a[..n + 1] == a[..n] + [a[n]] && b[..n + 1] == b[..n] + [b[n]];
      PickSequenceUnique(g, score, a, b, n + 1);
    }
  }

  lemma PickIsNew(g: Graph, score: map<int, int>, picks: seq<int>, i: int, j: int)
    requires g.Keys <= score.Keys && IsPickSequence(g, score, picks)
    requires 0 <= i < j < |picks|
    ensures picks[i] != picks[j]
  {
    assert PickedAt(g, score, picks, j);
    assert picks[i] == picks[..j][i];
  }

  /** No picked request lies on a cycle or below one. */
  lemma {:induction false} PicksAreOrderable(g: Graph, score: map<int, int>, picks: seq<int>, i: nat)
    requires g.Keys <= score.Keys && IsPickSequence(g, score, picks) && i < |picks|
    ensures !Unorderable(g, picks[i])
    decreases i
  {
    assert PickedAt(g, score, picks, i);
    forall p | Edge(g, picks[i], p) ensures !Unorderable(g, p) {
      assert p !in Rest(g, picks[..i]);
      var k :| 0 <= k < i && picks[..i][k] == p;
      PicksAreOrderable(g, score, picks, k);
    }
    OrderableFromParents(g, picks[i]);
  }

  /** What the loop leaves behind is exactly the set of requests on a cycle or below one. */
  lemma TailIsUnorderable(g: Graph, score: map<int, int>, picks: seq<int>)
    requires g.Keys <= score.Keys && IsPickSequence(g, score, picks)
    ensures forall n :: n in Rest(g, picks) <==> Unorderable(g, n)
  {
    var stuck := Rest(g, picks);
    forall m | m in stuck ensures HasParentIn(g, stuck, m) {
      assert m !in Eligible(g, stuck);
    }
    StuckIsUnorderable(g, stuck);
    forall n | n in g && n !in stuck ensures !Unorderable(g, n) {
      var i :| 0 <= i < |picks| && picks[i] == n;
      PicksAreOrderable(g, score, picks, i);
    }
  }

  /** Every transitive parent of a picked request was picked earlier. */
  lemma {:induction false} AncestorsPickedEarlier(
      g: Graph, score: map<int, int>, picks: seq<int>, j: nat, a: int, k: nat)
    requires g.Keys <= score.Keys && IsPickSequence(g, score, picks) && j < |picks|
    requires k > 0 && ReachesIn(g, picks[j], a, k)
    ensures exists i :: 0 <= i < j && picks[i] == a
    decreases k
  {
    var m :| Edge(g, picks[j], m) && ReachesIn(g, m, a, k - 1);
    assert PickedAt(g, score, picks, j);
    assert m !in Rest(g, picks[..j]);
    var i :| 0 <= i < j && picks[..j][i] == m;
    if k > 1 {
      AncestorsPickedEarlier(g, score, picks, i, a, k - 1);
    } else {
      assert picks[i] == a;
    }
  }

  ghost predicate ParentsFirst(g: Graph, order: seq<int>, picked: nat)
    requires picked <= |order|
  {
    forall j, a :: 0 <= j < picked && Ancestor(g, order[j], a) ==> exists i :: 0 <= i < j && order[i] == a
  }

  lemma PicksParentsFirst(g: Graph, score: map<int, int>, picks: seq<int>, tail: seq<int>)
    requires g.Keys <= score.Keys && IsPickSequence(g, score, picks)
    ensures ParentsFirst(g, picks + tail, |picks|)
  {
    var order := picks + tail;
    forall j, a | 0 <= j < |picks| && Ancestor(g, order[j], a)
      ensures exists i :: 0 <= i < j && order[i] == a
    {
      var p :| Edge(g, picks[j], p) && Reaches(g, p, a);
      var k: nat :| ReachesIn(g, p, a, k);
      assert ReachesIn(g, picks[j], a, k + 1);
      AncestorsPickedEarlier(g, score, picks, j, a, k + 1);
      var i :| 0 <= i < j && picks[i] == a;
      assert order[i] == a;
    }
  }

  ghost predicate Permutes(order: seq<int>, numbers: set<int>) {
    Elements(order) == numbers && NoRepeats(order)
  }

  /**
    The picks in their unique priority order, then the sorted tail: a
    permutation of all requests, parents first among the picks, and a tail of
    exactly the requests on a cycle or below one.
  */
  ghost predicate IsReviewOrder(g: Graph, score: map<int, int>, order: seq<int>, tail: seq<int>)
    requires g.Keys <= score.Keys
  {
    && |tail| <= |order| && order[|order| - |tail|..] == tail
    && IsPickSequence(g, score, order[..|order| - |tail|])
    && Permutes(order, g.Keys)
    && ParentsFirst(g, order, |order| - |tail|)
    && Increasing(tail)
    && (forall n :: n in tail <==> Unorderable(g, n))
  }

  /** The Kahn loop: order, and the part of it that could not be ordered. */
  method Prioritize(g: Graph, score: map<int, int>) returns (order: seq<int>, cyclicTail: seq<int>)
    requires g.Keys <= score.Keys
    ensures IsReviewOrder(g, score, order, cyclicTail)
  {
    var remaining := g.Keys;
    order := [];
    cyclicTail := [];
    while remaining != {}
      invariant cyclicTail == []
      invariant remaining == Rest(g, order) && AllPicks(g, score, order)
      decreases remaining
    {
      var eligible := set n | n in remaining && !exists p :: p in g[n] && p in remaining;
      assert eligible == Eligible(g, remaining);
      if eligible == {} {
        cyclicTail := Sorted(remaining);
        Conclude(g, score, order, cyclicTail);
        order := order + cyclicTail;
        return;
      }
      var selected := SelectMinimum(score, eligible);
      AppendPick(g, score, order, selected);
      order := order + [selected];
      remaining := remaining - {selected};
    }
    Conclude(g, score, order, []);
    assert order + [] == order;
  }

  lemma Conclude(g: Graph, score: map<int, int>, picks: seq<int>, tail: seq<int>)
    requires g.Keys <= score.Keys && IsPickSequence(g, score, picks)
    requires Increasing(tail) && Elements(tail) == Rest(g, picks)
    ensures IsReviewOrder(g, score, picks + tail, tail)
  {
    var order := picks + tail;
    assert order[..|picks|] == picks && order[|picks|..] == tail;
    TailIsUnorderable(g, score, picks);
    assert forall n :: n in tail <==> n in Elements(tail);
    PicksParentsFirst(g, score, picks, tail);
    forall i | 0 <= i < |picks| ensures picks[i] in g.Keys {
      assert PickedAt(g, score, picks, i);
    }
    forall i, j | 0 <= i < j < |order| ensures order[i] != order[j] {
      if j < |picks| {
        PickIsNew(g, score, picks, i, j);
      } else if i < |picks| {
        assert order[j] in Elements(tail) && order[i] in Elements(picks);
      }
    }
    assert forall n :: n in g.Keys ==> n in Elements(picks) || n in Elements(tail);
    assert Elements(order) == Elements(picks) + Elements(tail);
  }

  /** `order.index(n) + 1`. */
  function Rank(order: seq<int>, n: int): (r: int)
    requires n in order
    ensures 1 <= r <= |order| && order[r - 1] == n
    ensures forall i :: 0 <= i < r - 1 ==> order[i] != n
  {
    if order[0] == n then 1 else
      assert n in order[1..];
      1 + Rank(order[1..], n)
  }

  predicate NoRepeats(order: seq<int>) {
    forall i, j :: 0 <= i < j < |order| ==> order[i] != order[j]
  }

  lemma {:induction false} RankOfElement(order: seq<int>, k: int)
    requires 0 <= k < |order| && NoRepeats(order)
    ensures order[k] in order && Rank(order, order[k]) == k + 1
  {
  }

  /** Ranks are a bijection from the request numbers onto 1..n. */
  lemma {:induction false} RanksAreABijection(g: Graph, order: seq<int>)
    requires Permutes(order, g.Keys)
    ensures |order| == |g.Keys|
    ensures forall n :: n in g ==> n in order && 1 <= Rank(order, n) <= |order| && order[Rank(order, n) - 1] == n
    ensures forall k :: 0 <= k < |order| ==> order[k] in g && order[k] in order && Rank(order, order[k]) == k + 1
  {
    DistinctCount(order);
    forall n | n in g ensures n in order && 1 <= Rank(order, n) <= |order| && order[Rank(order, n) - 1] == n {
      assert n in Elements(order);
    }
    forall k | 0 <= k < |order| ensures order[k] in g && order[k] in order && Rank(order, order[k]) == k + 1 {
      assert order[k] in Elements(order);
      RankOfElement(order, k);
    }
  }

  /** Outside the cyclic tail, every transitive parent has a smaller rank. */
  lemma {:induction false} ParentOutranks(g: Graph, order: seq<int>, picked: nat, n: int, a: int)
    requires Permutes(order, g.Keys) && picked <= |order| && ParentsFirst(g, order, picked)
    requires n in order && Rank(order, n) <= picked && Ancestor(g, n, a)
    ensures a in g && a in order && Rank(order, a) < Rank(order, n)
  {
  }

  lemma {:induction false} DistinctCount(order: seq<int>)
    requires NoRepeats(order)
    ensures |Elements(order)| == |order|
  {
    if order != [] {
      var last := |order| - 1;
      DistinctCount(order[..last]);
      assert Elements(order) == Elements(order[..last]) + {order[last]};
    }
  }

  /**
    The two algorithms agree: the order is complete exactly when the
    reachability pass flags no request, every flagged request is in the cyclic
    tail, and every tail member is flagged or has a flagged ancestor.
  */
  method AuditOrder(requests: seq<Request>, score: map<int, int>)
    returns (cycles: seq<int>, order: seq<int>, cyclicTail: seq<int>)
    requires Distinct(requests)
    requires forall i :: 0 <= i < |requests| ==> requests[i].number in score
    ensures cycles == [] <==> cyclicTail == []
    ensures forall c :: c in cycles ==> c in cyclicTail
    ensures forall n :: n in cyclicTail ==>
              n in cycles || exists c :: c in cycles && Ancestor(Index(requests), n, c)
    ensures Permutes(order, Index(requests).Keys)
  {
    var g := Index(requests);
    var reach;
    reach, cycles := MarkCycles(requests);
    order, cyclicTail := Prioritize(g, score);
    forall c | c in cycles ensures c in cyclicTail {
      assert OnCycle(g, c) && Unorderable(g, c);
    }
    if cyclicTail != [] {
      assert cyclicTail[0] in cyclicTail && Unorderable(g, cyclicTail[0]);
    }
    if cycles != [] {
      assert cycles[0] in cyclicTail;
    }
  }
}
