/**
  The pull-request dependency graph: `g[n]` lists the parent numbers recorded
  for pull request `n`. Parents that are not themselves collected pull
  requests (not keys of `g`) are ignored by every algorithm over the graph.
*/
module DependencyGraph {

  type Graph = map<int, seq<int>>

  ghost predicate Edge(g: Graph, child: int, parent: int) {
    child in g && parent in g && parent in g[child]
  }

  /** `a` leads to `b` by exactly `k` parent edges inside the graph. */
  ghost predicate ReachesIn(g: Graph, a: int, b: int, k: nat)
    decreases k
  {
    a in g && b in g &&
    if k == 0 then a == b else exists m :: Edge(g, a, m) && ReachesIn(g, m, b, k - 1)
  }

  /** Zero or more parent edges. */
  ghost predicate Reaches(g: Graph, a: int, b: int) {
    exists k: nat :: ReachesIn(g, a, b, k)
  }

  /** One or more parent edges: `b` is a transitive parent of `a`. */
  ghost predicate Ancestor(g: Graph, a: int, b: int) {
    exists p :: Edge(g, a, p) && Reaches(g, p, b)
  }

  ghost predicate OnCycle(g: Graph, n: int) {
    Ancestor(g, n, n)
  }

  /** The pull requests that no dependency-respecting order can contain. */
  ghost predicate Unorderable(g: Graph, n: int) {
    n in g && (OnCycle(g, n) || exists c :: Ancestor(g, n, c) && OnCycle(g, c))
  }

  lemma ReachesSelf(g: Graph, a: int)
    requires a in g
    ensures Reaches(g, a, a)
  {
    assert ReachesIn(g, a, a, 0);
  }

  lemma ReachesStep(g: Graph, a: int, m: int, b: int)
    requires Edge(g, a, m) && Reaches(g, m, b)
    ensures Reaches(g, a, b)
  {
    var k: nat :| ReachesIn(g, m, b, k);
    assert ReachesIn(g, a, b, k + 1);
  }

  lemma {:induction false} ReachesExtend(g: Graph, a: int, b: int, c: int, k: nat)
    requires ReachesIn(g, a, b, k) && Edge(g, b, c)
    ensures Reaches(g, a, c)
    decreases k
  {
    if k == 0 {
      ReachesSelf(g, c);
      ReachesStep(g, a, c, c);
    } else {
      var m :| Edge(g, a, m) && ReachesIn(g, m, b, k - 1);
      ReachesExtend(g, m, b, c, k - 1);
      ReachesStep(g, a, m, c);
    }
  }

  lemma {:induction false} ReachesTransitive(g: Graph, a: int, b: int, c: int, k: nat)
    requires ReachesIn(g, a, b, k) && Reaches(g, b, c)
    ensures Reaches(g, a, c)
    decreases k
  {
    if k != 0 {
      var m :| Edge(g, a, m) && ReachesIn(g, m, b, k - 1);
      ReachesTransitive(g, m, b, c, k - 1);
      ReachesStep(g, a, m, c);
    }
  }

  lemma AncestorTransitive(g: Graph, a: int, b: int, c: int)
    requires Ancestor(g, a, b) && Ancestor(g, b, c)
    ensures Ancestor(g, a, c)
  {
    var p :| Edge(g, a, p) && Reaches(g, p, b);
    var q :| Edge(g, b, q) && Reaches(g, q, c);
    ReachesStep(g, b, q, c);
    var k: nat :| ReachesIn(g, p, b, k);
    ReachesTransitive(g, p, b, c, k);
  }

  /** A set closed under parent edges contains everything its members reach. */
  lemma {:induction false} ClosedUnderReach(g: Graph, closed: set<int>, a: int, b: int, k: nat)
    requires forall n, p :: n in closed && Edge(g, n, p) ==> p in closed
    requires a in closed && ReachesIn(g, a, b, k)
    ensures b in closed
    decreases k
  {
    if k != 0 {
      var m :| Edge(g, a, m) && ReachesIn(g, m, b, k - 1);
      ClosedUnderReach(g, closed, m, b, k - 1);
    }
  }

  /** The numbers the worklist must find: reachable from one of the starting parents. */
  ghost predicate ReachedFrom(g: Graph, start: seq<int>, n: int) {
    exists s :: s in start && Reaches(g, s, n)
  }

  /**
    The bounded iterative reachability loop. The worklist may grow in an
    iteration; the loop still ends because a growing iteration visits a new node.
  */
  method Reachable(g: Graph, start: seq<int>) returns (reachable: set<int>)
    ensures reachable <= g.Keys
    ensures forall n :: n in reachable <==> ReachedFrom(g, start, n)
  {
    var todo := start;
    reachable := {};
    Start(g, start);
    while todo != []
      invariant Exploring(g, start, reachable, todo)
      decreases g.Keys - reachable, |todo|
    {
      var node := todo[|todo| - 1];
      ghost var before := todo;
      todo := todo[..|todo| - 1];
      assert before == todo + [node];
      if node in reachable || node !in g {
        Skip(g, start, reachable, todo, node);
        continue;
      }
      Visit(g, start, reachable, todo, node);
      reachable := reachable + {node};
      todo := todo + g[node];
    }
    Explored(g, start, reachable);
  }

  /** Only reachable numbers are found or waiting, and nothing reachable in one step is forgotten. */
  ghost predicate Exploring(g: Graph, start: seq<int>, reachable: set<int>, todo: seq<int>) {
    && reachable <= g.Keys
    && (forall n :: n in reachable ==> ReachedFrom(g, start, n))
    && (forall n :: n in todo && n in g ==> ReachedFrom(g, start, n))
    && (forall s :: s in start && s in g ==> s in reachable || s in todo)
    && (forall n, p :: n in reachable && Edge(g, n, p) ==> p in reachable || p in todo)
  }

  lemma Start(g: Graph, start: seq<int>)
    ensures Exploring(g, start, {}, start)
  {
    forall s | s in start && s in g ensures ReachedFrom(g, start, s) { ReachesSelf(g, s); }
  }

  lemma Skip(g: Graph, start: seq<int>, reachable: set<int>, todo: seq<int>, node: int)
    requires (node in reachable || node !in g) && Exploring(g, start, reachable, todo + [node])
    ensures Exploring(g, start, reachable, todo)
  {
    assert forall n :: n in todo + [node] <==> n in todo || n == node;
  }

  lemma Visit(g: Graph, start: seq<int>, reachable: set<int>, todo: seq<int>, node: int)
    requires node in g && Exploring(g, start, reachable, todo + [node])
    ensures Exploring(g, start, reachable + {node}, todo + g[node])
  {
    assert node in todo + [node];
    ParentsReached(g, start, node);
    forall n, p | n in reachable + {node} && Edge(g, n, p) ensures p in reachable + {node} || p in todo + g[node] {
      if n in reachable && p != node {
        assert p in reachable || p in todo + [node];
      }
    }
    forall s | s in start && s in g ensures s in reachable + {node} || s in todo + g[node] {
      assert s in reachable || s in todo + [node];
    }
  }

  lemma Explored(g: Graph, start: seq<int>, reachable: set<int>)
    requires Exploring(g, start, reachable, [])
    ensures forall n :: n in reachable <==> ReachedFrom(g, start, n)
  {
    forall n | ReachedFrom(g, start, n)
      ensures n in reachable
    {
      var s :| s in start && Reaches(g, s, n);
      var k: nat :| ReachesIn(g, s, n, k);
      ClosedUnderReach(g, reachable, s, n, k);
    }
  }

  lemma ParentsReached(g: Graph, start: seq<int>, node: int)
    requires node in g && ReachedFrom(g, start, node)
    ensures forall p :: p in g[node] && p in g ==> ReachedFrom(g, start, p)
  {
    var s :| s in start && Reaches(g, s, node);
    var k: nat :| ReachesIn(g, s, node, k);
    forall p | p in g[node] && p in g
      ensures ReachedFrom(g, start, p)
    {
      ReachesExtend(g, s, node, p, k);
    }
  }

  /** Starting from a node's own parents, the worklist finds exactly its ancestors. */
  lemma ReachedFromParents(g: Graph, n: int, a: int)
    requires n in g
    ensures ReachedFrom(g, g[n], a) <==> Ancestor(g, n, a)
  {
  }

  ghost predicate HasParentIn(g: Graph, within: set<int>, n: int)
    requires n in g
  {
    exists p :: p in within && p in g[n]
  }

  /**
    Pigeonhole: where every member of a finite set has a parent in the set,
    each member reaches a node of the set that is its own ancestor. `trail` is
    a repetition-free walk inside the set, read from its newest node backwards.
  */
  lemma {:induction false} StuckReachesCycle(g: Graph, stuck: set<int>, n: int, trail: set<int>)
    requires stuck <= g.Keys && n in stuck
    requires forall m :: m in stuck ==> HasParentIn(g, stuck, m)
    requires trail <= stuck && n !in trail
    requires forall t :: t in trail ==> Ancestor(g, t, n)
    ensures exists c :: c in stuck && Reaches(g, n, c) && OnCycle(g, c)
    decreases stuck - trail
  {
    var p :| p in stuck && p in g[n];
    assert Edge(g, n, p);
    ReachesSelf(g, p);
    assert Ancestor(g, n, p);
    if p == n {
      ReachesSelf(g, n);
    } else if p in trail {
      AncestorTransitive(g, p, n, p);
      ReachesStep(g, n, p, p);
    } else {
      forall t | t in trail + {n} ensures Ancestor(g, t, p) {
        if t != n { AncestorTransitive(g, t, n, p); }
      }
      StuckReachesCycle(g, stuck, p, trail + {n});
      var c :| c in stuck && Reaches(g, p, c) && OnCycle(g, c);
      ReachesStep(g, n, p, c);
    }
  }

  lemma AncestorOrSelf(g: Graph, n: int, c: int)
    requires Reaches(g, n, c)
    ensures n == c || Ancestor(g, n, c)
  {
    var k: nat :| ReachesIn(g, n, c, k);
    if k != 0 {
      var m :| Edge(g, n, m) && ReachesIn(g, m, c, k - 1);
    }
  }

  /** When no member is free of parents inside the set, the whole set is unorderable. */
  lemma StuckIsUnorderable(g: Graph, stuck: set<int>)
    requires stuck <= g.Keys
    requires forall m :: m in stuck ==> HasParentIn(g, stuck, m)
    ensures forall n :: n in stuck ==> Unorderable(g, n)
  {
    forall n | n in stuck ensures Unorderable(g, n) {
      StuckReachesCycle(g, stuck, n, {});
      var c :| c in stuck && Reaches(g, n, c) && OnCycle(g, c);
      AncestorOrSelf(g, n, c);
    }
  }

  /** A node is orderable once all its parents inside the graph are. */
  lemma OrderableFromParents(g: Graph, n: int)
    requires n in g
    requires forall p :: Edge(g, n, p) ==> !Unorderable(g, p)
    ensures !Unorderable(g, n)
  {
    if Unorderable(g, n) {
      var c :| Ancestor(g, n, c) && OnCycle(g, c) && (c == n || !OnCycle(g, n));
      var p :| Edge(g, n, p) && Reaches(g, p, c);
      AncestorOrSelf(g, p, c);
      assert Unorderable(g, p);
    }
  }
}
