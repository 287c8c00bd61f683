/** Sums over finite maps, independent of the order in which a map is traversed. */
module Sums {

  /**
   * The sum of `f` over a map's values. The definition is reached through layers, so that the solver does
   * not unfold it on its own; the lemmas below are the way to reason about it.
   */
  ghost function Sum<K, V>(m: map<K, V>, f: V -> int): int
    decreases |m|, 3
  {
    SumOuter(m, f)
  }

  ghost function SumOuter<K, V>(m: map<K, V>, f: V -> int): int
    decreases |m|, 2
  {
    SumInner(m, f)
  }

  ghost function SumInner<K, V>(m: map<K, V>, f: V -> int): int
    decreases |m|, 1
  {
    SumStep(m, f)
  }

  ghost function SumStep<K, V>(m: map<K, V>, f: V -> int): int
    decreases |m|, 0
  {
    if m == map[] then 0 else
      var k :| k in m;
      f(m[k]) + Sum(m - {k}, f)
  }

  lemma SumUnfolds<K, V>(m: map<K, V>, f: V -> int)
    ensures m == map[] ==> Sum(m, f) == 0
    ensures m != map[] ==> exists k :: k in m && Sum(m, f) == f(m[k]) + Sum(m - {k}, f)
  {
    assert Sum(m, f) == SumOuter(m, f);
    assert SumOuter(m, f) == SumInner(m, f);
    assert SumInner(m, f) == SumStep(m, f);
  }

  lemma {:induction false} SumRemove<K, V>(m: map<K, V>, f: V -> int, k: K)
    requires k in m
    ensures Sum(m, f) == f(m[k]) + Sum(m - {k}, f)
    decreases |m|
  {
    SumUnfolds(m, f);
    var j :| j in m && Sum(m, f) == f(m[j]) + Sum(m - {j}, f);
    if j != k {
      SumRemove(m - {j}, f, k);
      SumRemove(m - {k}, f, j);
      assert m - {j} - {k} == m - {k} - {j};
    }
  }

  lemma SumPut<K, V>(m: map<K, V>, f: V -> int, k: K, v: V)
    ensures Sum(m[k := v], f) == Sum(m, f) + f(v) - (if k in m then f(m[k]) else 0)
  {
    SumRemove(m[k := v], f, k);
    assert m[k := v] - {k} == m - {k};
    if k in m {
      SumRemove(m, f, k);
    } else {
      assert m - {k} == m;
    }
  }

  /** Two families over the same keys compare as their members do. */
  lemma {:induction false} SumMonotone<K, V, W>(m: map<K, V>, f: V -> int, n: map<K, W>, g: W -> int)
    requires m.Keys == n.Keys
    requires forall k :: k in m ==> f(m[k]) <= g(n[k])
    ensures Sum(m, f) <= Sum(n, g)
    decreases |m|
  {
    if m == map[] {
      assert n == map[];
      SumUnfolds(m, f);
      SumUnfolds(n, g);
    } else {
      var k :| k in m;
      SumRemove(m, f, k);
      SumRemove(n, g, k);
      SumMonotone(m - {k}, f, n - {k}, g);
    }
  }

  lemma {:induction false} SumNonNegative<K, V>(m: map<K, V>, f: V -> int)
    requires forall k :: k in m ==> 0 <= f(m[k])
    ensures 0 <= Sum(m, f)
    decreases |m|
  {
    if m == map[] {
      SumUnfolds(m, f);
    } else {
      var k :| k in m;
      SumRemove(m, f, k);
      SumNonNegative(m - {k}, f);
    }
  }

  lemma {:induction false} SumZero<K, V>(m: map<K, V>, f: V -> int)
    requires forall k :: k in m ==> f(m[k]) == 0
    ensures Sum(m, f) == 0
    decreases |m|
  {
    if m == map[] {
      SumUnfolds(m, f);
    } else {
      var k :| k in m;
      SumRemove(m, f, k);
      SumZero(m - {k}, f);
    }
  }

  /** A family that splits pointwise splits in total. */
  lemma {:induction false} SumSplit<K, V, W>(m: map<K, V>, f: V -> int, n: map<K, W>, g: W -> int, h: W -> int)
    requires m.Keys == n.Keys
    requires forall k :: k in m ==> f(m[k]) == g(n[k]) + h(n[k])
    ensures Sum(m, f) == Sum(n, g) + Sum(n, h)
    decreases |m|
  {
    if m == map[] {
      assert n == map[];
      SumUnfolds(m, f);
      SumUnfolds(n, g);
      SumUnfolds(n, h);
    } else {
      var k :| k in m;
      SumRemove(m, f, k);
      SumRemove(n, g, k);
      SumRemove(n, h, k);
      SumSplit(m - {k}, f, n - {k}, g, h);
    }
  }
}
