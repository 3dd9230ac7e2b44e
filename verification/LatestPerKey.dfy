/**
  Insertion-ordered dictionaries and the two ways the auditor fills them: keep
  the entry with the greatest score of each key, or let a later entry overwrite
  an earlier one after a stable sort.
*/
module LatestPerKey {
  import opened Wrappers

  /** Keys in insertion order; assigning an existing key keeps its place. */
  type Dict<V> = seq<(string, V)>

  type Score = (int, int)

  predicate Below(a: Score, b: Score) {
    a.0 < b.0 || (a.0 == b.0 && a.1 < b.1)
  }

  function Find<V>(d: Dict<V>, k: string): Option<V> {
    if d == [] then None else if d[0].0 == k then Some(d[0].1) else Find(d[1..], k)
  }

  function Put<V>(d: Dict<V>, k: string, v: V): Dict<V> {
    if d == [] then [(k, v)] else if d[0].0 == k then [(k, v)] + d[1..] else [d[0]] + Put(d[1..], k, v)
  }

  predicate Distinct<V>(d: Dict<V>) {
    forall i, j :: 0 <= i < j < |d| ==> d[i].0 != d[j].0
  }

  lemma {:induction false} PutFind<V>(d: Dict<V>, k: string, v: V, j: string)
    ensures Find(Put(d, k, v), j) == if j == k then Some(v) else Find(d, j)
  {
    if d != [] && d[0].0 != k {
      PutFind(d[1..], k, v, j);
      assert Put(d, k, v)[1..] == Put(d[1..], k, v);
    } else if d != [] {
      assert Put(d, k, v)[1..] == d[1..];
    }
  }

  lemma {:induction false} PutKeys<V>(d: Dict<V>, k: string, v: V)
    ensures forall i :: 0 <= i < |Put(d, k, v)| ==>
      Put(d, k, v)[i].0 == k || exists j :: 0 <= j < |d| && d[j].0 == Put(d, k, v)[i].0
    ensures Distinct(d) ==> Distinct(Put(d, k, v))
  {
    if d != [] && d[0].0 != k {
      PutKeys(d[1..], k, v);
      assert forall j :: 0 <= j < |d[1..]| ==> d[1..][j] == d[j + 1];
    }
  }

  /** In a dictionary with distinct keys, looking up a key and meeting it on the way are the same. */
  lemma {:induction false} FindMeets<V>(d: Dict<V>, k: string)
    requires Distinct(d)
    ensures Find(d, k).Some? ==> exists i :: 0 <= i < |d| && d[i] == (k, Find(d, k).value)
    ensures forall i :: 0 <= i < |d| && d[i].0 == k ==> Find(d, k) == Some(d[i].1)
  {
    if d != [] && d[0].0 != k {
      FindMeets(d[1..], k);
      assert forall j :: 0 <= j < |d[1..]| ==> d[1..][j] == d[j + 1];
    }
  }

  /** Same keys in the same places, and the same values except under `k`. */
  predicate AgreeExcept<V(==)>(d: Dict<V>, f: Dict<V>, k: string) {
    |d| == |f| && forall i :: 0 <= i < |d| ==> d[i].0 == f[i].0 && (d[i].0 != k ==> d[i] == f[i])
  }

  lemma {:induction false} PutAgrees<V>(d: Dict<V>, f: Dict<V>, k: string, name: string, v: V)
    requires AgreeExcept(d, f, k)
    ensures AgreeExcept(Put(d, name, v), Put(f, name, v), k)
    ensures name == k ==> Distinct(d) ==> Put(d, name, v) == Put(f, name, v)
  {
    if d != [] {
      assert forall i :: 0 <= i < |d| - 1 ==> d[1..][i] == d[i + 1] && f[1..][i] == f[i + 1];
      if d[0].0 != name {
        PutAgrees(d[1..], f[1..], k, name, v);
      } else if name == k && Distinct(d) {
        assert d[1..] == f[1..];
      }
    }
  }

  lemma {:induction false} PutTwiceAgrees<V>(d: Dict<V>, k: string, v: V, w: V)
    ensures AgreeExcept(Put(d, k, v), Put(d, k, w), k)
  {
    if d != [] && d[0].0 != k {
      PutTwiceAgrees(d[1..], k, v, w);
    }
  }

  // ------------------------------------------------------- greatest of each

  function Record<V>(d: Dict<V>, v: V, keep: V -> bool, key: V -> string, score: V -> Score): Dict<V> {
    if !keep(v) then d else
    var kept := Find(d, key(v));
    if kept.None? || Below(score(kept.value), score(v)) then Put(d, key(v), v) else d
  }

  function Best<V>(items: seq<V>, keep: V -> bool, key: V -> string, score: V -> Score): Dict<V> {
    if items == [] then [] else Record(Best(items[..|items| - 1], keep, key, score), items[|items| - 1], keep, key,
      score)
  }

  /** `items[i]` is kept, no kept item of its key has a greater score, and it is the first of that score. */
  predicate Wins<V>(items: seq<V>, keep: V -> bool, key: V -> string, score: V -> Score, i: int)
    requires 0 <= i < |items|
  {
    && keep(items[i])
    && (forall j :: 0 <= j < |items| && keep(items[j]) && key(items[j]) == key(items[i]) ==>
      !Below(score(items[i]), score(items[j])))
    && (forall j :: 0 <= j < i && keep(items[j]) && key(items[j]) == key(items[i]) ==>
      Below(score(items[j]), score(items[i])))
  }

  lemma {:induction false} BestOfTwo<V>(a: V, b: V, keep: V -> bool, key: V -> string, score: V -> Score)
    ensures Best([a, b], keep, key, score) == Record(Record([], a, keep, key, score), b, keep, key, score)
  {
    var none: seq<V> := [];
    assert [a][..0] == none && Best(none, keep, key, score) == [];
    assert Best([a], keep, key, score) == Record([], a, keep, key, score);
    assert [a, b][..1] == [a];
  }

  /** Only what is kept of the listed items matters. */
  lemma {:induction false} BestAgrees<V>(
    items: seq<V>, keep: V -> bool, other: V -> bool, key: V -> string, score: V -> Score)
    requires forall i :: 0 <= i < |items| ==> keep(items[i]) == other(items[i])
    ensures Best(items, keep, key, score) == Best(items, other, key, score)
  {
    if items != [] {
      assert forall i :: 0 <= i < |items| - 1 ==> items[..|items| - 1][i] == items[i];
      BestAgrees(items[..|items| - 1], keep, other, key, score);
    }
  }

  lemma {:induction false} BestIsDistinct<V>(items: seq<V>, keep: V -> bool, key: V -> string, score: V -> Score)
    ensures Distinct(Best(items, keep, key, score))
  {
    if items != [] {
      var before, v := items[..|items| - 1], items[|items| - 1];
      BestIsDistinct(before, keep, key, score);
      PutKeys(Best(before, keep, key, score), key(v), v);
    }
  }

  /** A key is present exactly when some item of it is kept, and then holds that key's winner. */
  lemma {:induction false} BestIsTheWinner<V>(
      items: seq<V>, keep: V -> bool, key: V -> string, score: V -> Score, k: string)
    ensures var found := Find(Best(items, keep, key, score), k);
      && (found.None? ==> forall i :: 0 <= i < |items| && keep(items[i]) ==> key(items[i]) != k)
      && (found.Some? ==>
            exists i :: 0 <= i < |items| && items[i] == found.value && key(items[i]) == k &&
              Wins(items, keep, key, score, i))
  {
    if items != [] {
      var n := |items| - 1;
      var before, v := items[..n], items[n];
      BestIsTheWinner(before, keep, key, score, k);
      assert forall j :: 0 <= j < n ==> before[j] == items[j];
      var d := Best(before, keep, key, score);
      PutFind(d, key(v), v, k);
      if keep(v) && key(v) == k {
        NewcomerWins(items, keep, key, score, k, Find(d, k));
      } else if Find(d, k).Some? {
        var i :| 0 <= i < |before| && before[i] == Find(d, k).value && key(before[i]) == k &&
          Wins(before, keep, key, score, i);
        assert Wins(items, keep, key, score, i);
      }
    }
  }

  lemma NewcomerWins<V>(items: seq<V>, keep: V -> bool, key: V -> string, score: V -> Score, k: string, kept: Option<V>)
    requires items != [] && keep(items[|items| - 1]) && key(items[|items| - 1]) == k
    requires var before := items[..|items| - 1];
      && (kept.None? ==> forall i :: 0 <= i < |before| && keep(before[i]) ==> key(before[i]) != k)
      && (kept.Some? ==>
            exists i :: 0 <= i < |before| && before[i] == kept.value && key(before[i]) == k &&
              Wins(before, keep, key, score, i))
    ensures var n := |items| - 1;
      var v := if kept.None? || Below(score(kept.value), score(items[n])) then items[n] else kept.value;
      exists i :: 0 <= i < |items| && items[i] == v && key(items[i]) == k && Wins(items, keep, key, score, i)
  {
    var n := |items| - 1;
    var before := items[..n];
    assert forall j :: 0 <= j < n ==> before[j] == items[j];
    if kept.None? {
      assert Wins(items, keep, key, score, n);
    } else {
      var i :| 0 <= i < |before| && before[i] == kept.value && key(before[i]) == k && Wins(before, keep, key, score, i);
      if Below(score(kept.value), score(items[n])) {
        assert Wins(items, keep, key, score, n);
      } else {
        assert Wins(items, keep, key, score, i);
      }
    }
  }

  /** Two winners of one key are the same item, so a winner is what the dictionary holds. */
  lemma {:induction false} WinnerIsFound<V>(items: seq<V>, keep: V -> bool, key: V -> string, score: V -> Score, i: int)
    requires 0 <= i < |items| && Wins(items, keep, key, score, i)
    ensures Find(Best(items, keep, key, score), key(items[i])) == Some(items[i])
  {
    BestIsTheWinner(items, keep, key, score, key(items[i]));
    var found := Find(Best(items, keep, key, score), key(items[i]));
    var w :| 0 <= w < |items| && items[w] == found.value && key(items[w]) == key(items[i]) &&
      Wins(items, keep, key, score, w);
    assert w == i;
  }

  // ------------------------------------------------------- stable sort, last wins

  /** Insert after every element whose score is not greater. */
  function Insert<V>(s: seq<V>, v: V, score: V -> Score): seq<V> {
    if s == [] || !Below(score(v), score(s[|s| - 1])) then s + [v]
    else Insert(s[..|s| - 1], v, score) + [s[|s| - 1]]
  }

  function StableSort<V>(s: seq<V>, score: V -> Score): seq<V> {
    if s == [] then [] else Insert(StableSort(s[..|s| - 1], score), s[|s| - 1], score)
  }

  predicate Sorted<V>(s: seq<V>, score: V -> Score) {
    forall i, j :: 0 <= i < j < |s| ==> !Below(score(s[j]), score(s[i]))
  }

  lemma {:induction false} InsertKeeps<V>(s: seq<V>, v: V, score: V -> Score)
    ensures multiset(Insert(s, v, score)) == multiset(s) + multiset{v}
  {
    if s != [] && Below(score(v), score(s[|s| - 1])) {
      assert s == s[..|s| - 1] + [s[|s| - 1]];
      InsertKeeps(s[..|s| - 1], v, score);
    }
  }

  /** No element scores above `top`. */
  predicate Bounded<V>(s: seq<V>, top: Score, score: V -> Score) {
    forall i :: 0 <= i < |s| ==> !Below(top, score(s[i]))
  }

  lemma {:induction false} InsertBounded<V>(s: seq<V>, v: V, score: V -> Score, top: Score)
    requires Bounded(s, top, score) && !Below(top, score(v))
    ensures Bounded(Insert(s, v, score), top, score)
  {
    if s != [] && Below(score(v), score(s[|s| - 1])) {
      InsertBounded(s[..|s| - 1], v, score, top);
    }
  }

  lemma SnocSorts<V>(s: seq<V>, v: V, score: V -> Score)
    requires Sorted(s, score) && Bounded(s, score(v), score)
    ensures Sorted(s + [v], score)
  {
  }

  lemma {:induction false} InsertSorts<V>(s: seq<V>, v: V, score: V -> Score)
    requires Sorted(s, score)
    ensures Sorted(Insert(s, v, score), score)
  {
    if s == [] {
    } else if Below(score(v), score(s[|s| - 1])) {
      var init, last := s[..|s| - 1], s[|s| - 1];
      InsertSorts(init, v, score);
      InsertBounded(init, v, score, score(last));
      SnocSorts(Insert(init, v, score), last, score);
    } else {
      assert Bounded(s, score(v), score);
      SnocSorts(s, v, score);
    }
  }

  lemma {:induction false} StableSortSorts<V>(s: seq<V>, score: V -> Score)
    ensures Sorted(StableSort(s, score), score)
    ensures multiset(StableSort(s, score)) == multiset(s)
  {
    if s != [] {
      assert s == s[..|s| - 1] + [s[|s| - 1]];
      StableSortSorts(s[..|s| - 1], score);
      InsertSorts(StableSort(s[..|s| - 1], score), s[|s| - 1], score);
      InsertKeeps(StableSort(s[..|s| - 1], score), s[|s| - 1], score);
    }
  }

  function Overwrite<V>(items: seq<V>, keep: V -> bool, key: V -> string): Dict<V> {
    if items == [] then [] else
    var before, v := Overwrite(items[..|items| - 1], keep, key), items[|items| - 1];
    if keep(v) then Put(before, key(v), v) else before
  }

  lemma {:induction false} OverwriteIsDistinct<V>(items: seq<V>, keep: V -> bool, key: V -> string)
    ensures Distinct(Overwrite(items, keep, key))
  {
    if items != [] {
      var v := items[|items| - 1];
      OverwriteIsDistinct(items[..|items| - 1], keep, key);
      PutKeys(Overwrite(items[..|items| - 1], keep, key), key(v), v);
    }
  }

  /** `items[i]` is kept, no kept item of its key has a greater score, and it is the last of that score. */
  predicate Latest<V>(items: seq<V>, keep: V -> bool, key: V -> string, score: V -> Score, i: int)
    requires 0 <= i < |items|
  {
    && keep(items[i])
    && (forall j :: 0 <= j < |items| && keep(items[j]) && key(items[j]) == key(items[i]) ==>
      !Below(score(items[i]), score(items[j])))
    && (forall j :: i < j < |items| && keep(items[j]) && key(items[j]) == key(items[i]) ==>
      Below(score(items[j]), score(items[i])))
  }

  /** A kept item of the key scores above `v`. */
  ghost predicate Surpassed<V>(s: seq<V>, v: V, keep: V -> bool, key: V -> string, score: V -> Score, k: string) {
    exists u :: u in s && keep(u) && key(u) == k && Below(score(v), score(u))
  }

  /** Inserting into a sorted list changes what a key holds only if nothing kept of that key scores higher. */
  lemma {:induction false} InsertFinds<V>(
      s: seq<V>, v: V, keep: V -> bool, key: V -> string, score: V -> Score, k: string)
    requires Sorted(s, score)
    ensures Find(Overwrite(Insert(s, v, score), keep, key), k) ==
      if keep(v) && key(v) == k && !Surpassed(s, v, keep, key, score, k) then Some(v)
      else Find(Overwrite(s, keep, key), k)
  {
    if s == [] || !Below(score(v), score(s[|s| - 1])) {
      OverwriteSnoc(s, v, keep, key, k);
    } else {
      var init, last := s[..|s| - 1], s[|s| - 1];
      assert s == init + [last];
      InsertFinds(init, v, keep, key, score, k);
      OverwriteSnoc(Insert(init, v, score), last, keep, key, k);
      OverwriteSnoc(init, last, keep, key, k);
      assert Surpassed(s, v, keep, key, score, k) <==>
        Surpassed(init, v, keep, key, score, k) || (keep(last) && key(last) == k);
    }
  }

  lemma {:induction false} OverwriteSnoc<V>(s: seq<V>, v: V, keep: V -> bool, key: V -> string, k: string)
    ensures Find(Overwrite(s + [v], keep, key), k) ==
      if keep(v) && key(v) == k then Some(v) else Find(Overwrite(s, keep, key), k)
  {
    assert (s + [v])[..|s|] == s;
    PutFind(Overwrite(s, keep, key), key(v), v, k);
  }

  lemma {:induction false} SurpassedInSorted<V>(
      items: seq<V>, v: V, keep: V -> bool, key: V -> string, score: V -> Score, k: string)
    ensures Surpassed(StableSort(items, score), v, keep, key, score, k) <==> Surpassed(items, v, keep, key, score, k)
  {
    StableSortSorts(items, score);
    assert forall u :: u in items <==> u in multiset(items);
    assert forall u :: u in StableSort(items, score) <==> u in multiset(StableSort(items, score));
  }

  /** Nothing is found exactly if no item of the key is kept, else the latest one. */
  ghost predicate HoldsLatest<V>(
    items: seq<V>, keep: V -> bool, key: V -> string, score: V -> Score, k: string, found: Option<V>)
  {
    && (found.None? ==> forall i :: 0 <= i < |items| && keep(items[i]) ==> key(items[i]) != k)
    && (found.Some? ==>
          exists i :: 0 <= i < |items| && items[i] == found.value && key(items[i]) == k &&
            Latest(items, keep, key, score, i))
  }

  lemma {:induction false} LatestStep<V>(
      items: seq<V>, keep: V -> bool, key: V -> string, score: V -> Score, k: string, found: Option<V>)
    requires items != [] && HoldsLatest(items[..|items| - 1], keep, key, score, k, found)
    ensures var n := |items| - 1;
      HoldsLatest(items, keep, key, score, k,
        if keep(items[n]) && key(items[n]) == k && !Surpassed(items[..n], items[n], keep, key, score, k)
        then Some(items[n]) else found)
  {
    var n := |items| - 1;
    var before, v := items[..n], items[n];
    assert forall j :: 0 <= j < n ==> before[j] == items[j];
    if keep(v) && key(v) == k && !Surpassed(before, v, keep, key, score, k) {
      NewcomerIsLatest(items, keep, key, score, k);
    } else if found.Some? {
      var i :| 0 <= i < n && before[i] == found.value && key(before[i]) == k && Latest(before, keep, key, score, i);
      StillLatest(items, keep, key, score, k, i);
    } else {
      assert !keep(v) || key(v) != k || Surpassed(before, v, keep, key, score, k);
    }
  }

  /**
    What overwriting in stably sorted order leaves under a key: nothing exactly
    if no item of it is kept, else the kept item of the greatest score, the last
    of them in the list.
  */
  lemma {:induction false} SortedLastIsLatest<V>(
      items: seq<V>, keep: V -> bool, key: V -> string, score: V -> Score, k: string)
    ensures HoldsLatest(items, keep, key, score, k, Find(Overwrite(StableSort(items, score), keep, key), k))
  {
    if items != [] {
      var n := |items| - 1;
      var before, v := items[..n], items[n];
      var s := StableSort(before, score);
      StableSortSorts(before, score);
      SortedLastIsLatest(before, keep, key, score, k);
      InsertFinds(s, v, keep, key, score, k);
      SurpassedInSorted(before, v, keep, key, score, k);
      LatestStep(items, keep, key, score, k, Find(Overwrite(s, keep, key), k));
    }
  }

  lemma StillLatest<V>(items: seq<V>, keep: V -> bool, key: V -> string, score: V -> Score, k: string, i: int)
    requires 0 <= i < |items| - 1 && key(items[i]) == k
    requires var n := |items| - 1;
      && Latest(items[..n], keep, key, score, i)
      && (keep(items[n]) && key(items[n]) == k ==> Surpassed(items[..n], items[n], keep, key, score, k))
    ensures Latest(items, keep, key, score, i)
  {
    var n := |items| - 1;
    assert forall j :: 0 <= j < n ==> items[..n][j] == items[j];
    if keep(items[n]) && key(items[n]) == k {
      var u :| u in items[..n] && keep(u) && key(u) == k && Below(score(items[n]), score(u));
      var j :| 0 <= j < n && items[..n][j] == u;
      assert !Below(score(items[i]), score(items[j]));
    }
  }

  lemma NewcomerIsLatest<V>(items: seq<V>, keep: V -> bool, key: V -> string, score: V -> Score, k: string)
    requires items != []
    requires var n := |items| - 1;
      keep(items[n]) && key(items[n]) == k && !Surpassed(items[..n], items[n], keep, key, score, k)
    ensures Latest(items, keep, key, score, |items| - 1)
  {
    var n := |items| - 1;
    forall j | 0 <= j < n && keep(items[j]) && key(items[j]) == k ensures !Below(score(items[n]), score(items[j])) {
      assert items[..n][j] == items[j] && items[j] in items[..n];
    }
  }

  /** A key holds the latest item of it. */
  lemma {:induction false} LatestIsFound<V>(items: seq<V>, keep: V -> bool, key: V -> string, score: V -> Score, i: int)
    requires 0 <= i < |items| && Latest(items, keep, key, score, i)
    ensures Find(Overwrite(StableSort(items, score), keep, key), key(items[i])) == Some(items[i])
  {
    SortedLastIsLatest(items, keep, key, score, key(items[i]));
    var found := Find(Overwrite(StableSort(items, score), keep, key), key(items[i]));
    var w :| 0 <= w < |items| && items[w] == found.value && key(items[w]) == key(items[i]) &&
      Latest(items, keep, key, score, w);
    assert w == i;
  }
}
