/** Vocabulary shared by the component models. */
module Wrappers {
  datatype Option<+T> = None | Some(value: T)

  newtype byte = x: int | 0 <= x < 256

  lemma SomeMember<T>(s: set<T>) returns (x: T)
    requires s != {}
    ensures x in s
  {
    x :| x in s;
  }

  function Min(a: nat, b: nat): nat {
    if a < b then a else b
  }

  /** The state after all steps of a run. */
  function Fold<S, A>(next: (S, A) -> S, s: S, steps: seq<A>): S
    decreases |steps|
  {
    if steps == [] then s else Fold(next, next(s, steps[0]), steps[1..])
  }

  lemma {:induction false} FoldAppend<S, A>(next: (S, A) -> S, s: S, steps: seq<A>, more: seq<A>)
    ensures Fold(next, s, steps + more) == Fold(next, Fold(next, s, steps), more)
    decreases |steps|
  {
    if steps == [] {
      assert steps + more == more;
    } else {
      assert (steps + more)[1..] == steps[1..] + more;
      FoldAppend(next, next(s, steps[0]), steps[1..], more);
    }
  }

  /** A run whose every state is given. */
  lemma {:induction false} FoldTrace<S, A>(next: (S, A) -> S, states: seq<S>, steps: seq<A>)
    requires |states| == |steps| + 1
    requires forall k :: 0 <= k < |steps| ==> next(states[k], steps[k]) == states[k + 1]
    ensures Fold(next, states[0], steps) == states[|steps|]
    decreases |steps|
  {
    if steps != [] {
      FoldTrace(next, states[1..], steps[1..]);
    }
  }
}
