/** Sums over finite maps and sequences, independent of the order they are taken in. */
module Sums {

  ghost function MapSum<K(!new)>(m: map<K, int>): int {
    if m == map[] then 0
    else
      var k :| k in m;
      m[k] + MapSum(m - {k})
  }

  lemma {:induction false} MapSumTake<K(!new)>(m: map<K, int>, k: K)
    requires k in m
    ensures MapSum(m) == m[k] + MapSum(m - {k})
    decreases |m|
  {
    var j :| j in m && MapSum(m) == m[j] + MapSum(m - {j});
    if j != k {
      MapSumTake(m - {j}, k);
      MapSumTake(m - {k}, j);
      assert m - {j} - {k} == m - {k} - {j};
    }
  }

  function Get<K>(m: map<K, int>, k: K): int {
    if k in m then m[k] else 0
  }

  lemma MapSumUpdate<K(!new)>(m: map<K, int>, k: K, v: int)
    ensures MapSum(m[k := v]) == MapSum(m) - Get(m, k) + v
  {
    MapSumTake(m[k := v], k);
    assert m[k := v] - {k} == m - {k};
    if k in m {
      MapSumTake(m, k);
    } else {
      assert m - {k} == m;
    }
  }

  /** The values at `n` keys from `first` on. */
  function Ranged(m: map<int, int>, first: int, n: nat): int {
    if n == 0 then 0 else Ranged(m, first, n - 1) + Get(m, first + n - 1)
  }

  lemma {:induction false} RangedWithout(m: map<int, int>, k: int, first: int, n: nat)
    requires first + n <= k
    ensures Ranged(m - {k}, first, n) == Ranged(m, first, n)
  {
    if n > 0 {
      RangedWithout(m, k, first, n - 1);
    }
  }

  /** A map's sum, key by key over a range that has all of its keys. */
  lemma {:induction false} MapSumRange(m: map<int, int>, first: int, n: nat)
    requires forall k :: k in m ==> first <= k < first + n
    ensures MapSum(m) == Ranged(m, first, n)
  {
    if n == 0 {
      assert forall k :: k !in m;
      assert m == map[];
    } else {
      var k := first + n - 1;
      if k in m {
        MapSumTake(m, k);
        MapSumRange(m - {k}, first, n - 1);
        RangedWithout(m, k, first, n - 1);
      } else {
        MapSumRange(m, first, n - 1);
      }
    }
  }

  ghost function RealSum<K(!new)>(m: map<K, real>): real {
    if m == map[] then 0.0
    else
      var k :| k in m;
      m[k] + RealSum(m - {k})
  }

  lemma {:induction false} RealSumTake<K(!new)>(m: map<K, real>, k: K)
    requires k in m
    ensures RealSum(m) == m[k] + RealSum(m - {k})
    decreases |m|
  {
    var j :| j in m && RealSum(m) == m[j] + RealSum(m - {j});
    if j != k {
      RealSumTake(m - {j}, k);
      RealSumTake(m - {k}, j);
      assert m - {j} - {k} == m - {k} - {j};
    }
  }

  lemma RealSumNew<K(!new)>(m: map<K, real>, k: K, v: real)
    requires k !in m
    ensures RealSum(m[k := v]) == RealSum(m) + v
  {
    RealSumTake(m[k := v], k);
    assert m[k := v] - {k} == m;
  }

  lemma RealSumOne<K(!new)>(k: K, v: real)
    ensures RealSum(map[k := v]) == v
  {
    RealSumNew(map[], k, v);
  }

  lemma TakeShrinks<K, V>(m: map<K, V>, k: K)
    requires k in m
    ensures |m - {k}| < |m| && m == (m - {k})[k := m[k]]
  {
    assert m.Keys == (m - {k}).Keys + {k};
  }

  lemma JoinTakes<K, V>(a: map<K, V>, b: map<K, V>, k: K)
    requires a.Keys !! b.Keys && k in b
    ensures a + b == (a + (b - {k}))[k := b[k]]
  {
  }

  lemma {:induction false} RealSumBoth<K(!new)>(a: map<K, real>, b: map<K, real>)
    requires a.Keys !! b.Keys
    ensures RealSum(a + b) == RealSum(a) + RealSum(b)
    decreases |b|
  {
    if b == map[] {
      assert a + b == a;
    } else {
      var k :| k in b;
      TakeShrinks(b, k);
      JoinTakes(a, b, k);
      RealSumBoth(a, b - {k});
      RealSumNew(b - {k}, k, b[k]);
      RealSumNew(a + (b - {k}), k, b[k]);
    }
  }

  // ---- Folds whose steps may be taken in any order ----

  function Fold<S, A>(f: (S, A) -> S, start: S, xs: seq<A>): S {
    if xs == [] then start else f(Fold(f, start, xs[..|xs| - 1]), xs[|xs| - 1])
  }

  lemma {:induction false} FoldTakesOut<S(!new), A(!new)>(f: (S, A) -> S, start: S, xs: seq<A>, i: nat)
    requires forall s, a, b :: f(f(s, a), b) == f(f(s, b), a)
    requires i < |xs|
    ensures Fold(f, start, xs) == f(Fold(f, start, xs[..i] + xs[i + 1..]), xs[i])
  {
    var front := xs[..|xs| - 1];
    if i == |xs| - 1 {
      assert xs[..i] + xs[i + 1..] == front;
    } else {
      FoldTakesOut(f, start, front, i);
      assert (xs[..i] + xs[i + 1..])[..|xs| - 2] == front[..i] + front[i + 1..];
    }
  }

  lemma SameRest<A(!new)>(xs: seq<A>, ys: seq<A>) returns (i: nat)
    requires multiset(xs) == multiset(ys) && xs != []
    ensures i < |ys| && ys[i] == xs[|xs| - 1]
    ensures multiset(xs[..|xs| - 1]) == multiset(ys[..i] + ys[i + 1..])
  {
    var x := xs[|xs| - 1];
    assert xs == xs[..|xs| - 1] + [x];
    assert x in multiset(ys);
    i :| 0 <= i < |ys| && ys[i] == x;
    assert ys == ys[..i] + [x] + ys[i + 1..];
    assert multiset(ys[..i] + ys[i + 1..]) == multiset(ys) - multiset{x};
  }

  lemma {:induction false} FoldOrder<S(!new), A(!new)>(f: (S, A) -> S, start: S, xs: seq<A>, ys: seq<A>)
    requires forall s, a, b :: f(f(s, a), b) == f(f(s, b), a)
    requires multiset(xs) == multiset(ys)
    ensures Fold(f, start, xs) == Fold(f, start, ys)
    decreases |xs|
  {
    if xs == [] {
      assert |multiset(ys)| == 0;
    } else {
      var i := SameRest(xs, ys);
      FoldTakesOut(f, start, ys, i);
      FoldOrder(f, start, xs[..|xs| - 1], ys[..i] + ys[i + 1..]);
    }
  }

  lemma {:induction false} FoldBoth<S, A>(f: (S, A) -> S, start: S, xs: seq<A>, ys: seq<A>)
    ensures Fold(f, start, xs + ys) == Fold(f, Fold(f, start, xs), ys)
  {
    if ys == [] {
      assert xs + ys == xs;
    } else {
      assert (xs + ys)[..|xs + ys| - 1] == xs + ys[..|ys| - 1];
      FoldBoth(f, start, xs, ys[..|ys| - 1]);
    }
  }
}
