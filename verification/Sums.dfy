/** Sums of a measure over the values of a finite map, and how a sum changes when one entry does. */
module Sums {

  lemma SmallerWithout<K, V>(m: map<K, V>, k: K)
    requires k in m
    ensures |m - {k}| == |m| - 1
  {
    assert m.Keys == (m - {k}).Keys + {k};
  }

  ghost function Sum<K, V>(m: map<K, V>, f: V -> int): int
    decreases |m|
  {
    if m == map[] then 0
    else
      var k :| k in m;
      assert |m - {k}| < |m| by { SmallerWithout(m, k); }
      f(m[k]) + Sum(m - {k}, f)
  }

  /** What key `k` contributes now. */
  ghost function At<K, V>(m: map<K, V>, k: K, f: V -> int): int {
    if k in m then f(m[k]) else 0
  }

  lemma {:induction false} SumRemove<K, V>(m: map<K, V>, k: K, f: V -> int)
    requires k in m
    ensures Sum(m, f) == f(m[k]) + Sum(m - {k}, f)
    decreases |m|
  {
    var j :| j in m && Sum(m, f) == f(m[j]) + Sum(m - {j}, f);
    if j != k {
      SmallerWithout(m, j);
      SmallerWithout(m, k);
      SumRemove(m - {j}, k, f);
      SumRemove(m - {k}, j, f);
      assert m - {j} - {k} == m - {k} - {j};
    }
  }

  lemma SumPut<K, V>(m: map<K, V>, k: K, v: V, f: V -> int)
    ensures Sum(m[k := v], f) == Sum(m, f) - At(m, k, f) + f(v)
  {
    SumRemove(m[k := v], k, f);
    assert m[k := v] - {k} == m - {k};
    if k in m {
      SumRemove(m, k, f);
    } else {
      assert m - {k} == m;
    }
  }

  lemma {:induction false} SumNonNegative<K, V>(m: map<K, V>, f: V -> int)
    requires forall k :: k in m ==> f(m[k]) >= 0
    ensures Sum(m, f) >= 0
    decreases |m|
  {
    if m != map[] {
      var k :| k in m;
      SumRemove(m, k, f);
      SmallerWithout(m, k);
      SumNonNegative(m - {k}, f);
    }
  }

  /** One entry is at most the whole. */
  lemma SumAtLeast<K, V>(m: map<K, V>, k: K, f: V -> int)
    requires k in m
    requires forall j :: j in m ==> f(m[j]) >= 0
    ensures f(m[k]) <= Sum(m, f)
  {
    SumRemove(m, k, f);
    SumNonNegative(m - {k}, f);
  }

  /** Two different entries together are at most the whole. */
  lemma SumAtLeastTwo<K, V>(m: map<K, V>, k1: K, k2: K, f: V -> int)
    requires k1 in m && k2 in m && k1 != k2
    requires forall j :: j in m ==> f(m[j]) >= 0
    ensures f(m[k1]) + f(m[k2]) <= Sum(m, f)
  {
    SumRemove(m, k1, f);
    SumAtLeast(m - {k1}, k2, f);
  }

  lemma {:induction false} SumZero<K, V>(m: map<K, V>, f: V -> int)
    requires forall k :: k in m ==> f(m[k]) == 0
    ensures Sum(m, f) == 0
    decreases |m|
  {
    if m != map[] {
      var k :| k in m;
      SumRemove(m, k, f);
      SmallerWithout(m, k);
      SumZero(m - {k}, f);
    }
  }

  /** A map dominated key by key by another has the smaller sum. */
  lemma {:induction false} SumCompare<K, V, W>(m1: map<K, V>, m2: map<K, W>, f: V -> int, g: W -> int)
    requires forall k :: k in m1 ==> k in m2 && f(m1[k]) <= g(m2[k])
    requires forall k :: k in m2 && k !in m1 ==> g(m2[k]) >= 0
    ensures Sum(m1, f) <= Sum(m2, g)
    decreases |m1|
  {
    if m1 == map[] {
      SumNonNegative(m2, g);
    } else {
      var k :| k in m1;
      SumRemove(m1, k, f);
      SumRemove(m2, k, g);
      SmallerWithout(m1, k);
      SumCompare(m1 - {k}, m2 - {k}, f, g);
    }
  }

  /** Sums add where the measures add. */
  lemma {:induction false} SumCombine<K, V>(m: map<K, V>, f: V -> int, g: V -> int, h: V -> int)
    requires forall k :: k in m ==> f(m[k]) + g(m[k]) == h(m[k])
    ensures Sum(m, f) + Sum(m, g) == Sum(m, h)
    decreases |m|
  {
    if m != map[] {
      var k :| k in m;
      SumRemove(m, k, f);
      SumRemove(m, k, g);
      SumRemove(m, k, h);
      SmallerWithout(m, k);
      SumCombine(m - {k}, f, g, h);
    }
  }

  /** A measure that is at most a multiple of another, entry by entry, sums to at most that multiple. */
  lemma {:induction false} SumAtMostTimes<K, V>(m: map<K, V>, f: V -> int, g: V -> int, factor: int)
    requires forall k :: k in m ==> f(m[k]) <= factor * g(m[k])
    ensures Sum(m, f) <= factor * Sum(m, g)
    decreases |m|
  {
    if m != map[] {
      var k :| k in m;
      SumRemove(m, k, f);
      SumRemove(m, k, g);
      SmallerWithout(m, k);
      SumAtMostTimes(m - {k}, f, g, factor);
      assert factor * (g(m[k]) + Sum(m - {k}, g)) == factor * g(m[k]) + factor * Sum(m - {k}, g);
    }
  }

  /** A measure of at most one sums to at most the number of entries. */
  lemma {:induction false} SumAtMostCount<K, V>(m: map<K, V>, f: V -> int)
    requires forall k :: k in m ==> f(m[k]) <= 1
    ensures Sum(m, f) <= |m|
    decreases |m|
  {
    if m != map[] {
      var k :| k in m;
      SumRemove(m, k, f);
      SmallerWithout(m, k);
      SumAtMostCount(m - {k}, f);
    }
  }
}
