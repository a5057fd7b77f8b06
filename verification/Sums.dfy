/** Sums of naturals over the keys of a map. */
module Sums {

  ghost function Sum<K>(m: map<K, nat>): nat
    decreases |m|
  {
    if m == map[] then 0 else
      var k :| k in m;
      m[k] + Sum(m - {k})
  }

  /** Any key may be taken out first. */
  lemma {:induction false} SumTake<K>(m: map<K, nat>, k: K)
    requires k in m
    ensures Sum(m) == m[k] + Sum(m - {k})
    decreases |m|
  {
    var c :| c in m && Sum(m) == m[c] + Sum(m - {c});
    if c != k {
      SumTake(m - {c}, k);
      SumTake(m - {k}, c);
      assert m - {c} - {k} == m - {k} - {c};
    }
  }

  /** Pointwise order carries over to sums. */
  lemma {:induction false} SumMonotone<K>(m: map<K, nat>, n: map<K, nat>)
    requires m.Keys == n.Keys && forall k :: k in m ==> n[k] <= m[k]
    ensures Sum(n) <= Sum(m)
    decreases |m|
  {
    if m == map[] {
      assert n == map[];
    } else {
      var k :| k in m;
      SumTake(m, k);
      SumTake(n, k);
      SumMonotone(m - {k}, n - {k});
    }
  }

  /** ... strictly, if one summand is smaller. */
  lemma SumSmaller<K>(m: map<K, nat>, n: map<K, nat>, k: K)
    requires m.Keys == n.Keys && (forall j :: j in m ==> n[j] <= m[j]) && k in m && n[k] < m[k]
    ensures Sum(n) < Sum(m)
  {
    SumTake(m, k);
    SumTake(n, k);
    SumMonotone(m - {k}, n - {k});
  }

  lemma {:induction false} SubsetSize<T>(a: set<T>, b: set<T>)
    requires a <= b
    ensures |a| <= |b| && (a != b ==> |a| < |b|)
  {
    assert b == a + (b - a);
    assert |b| == |a| + |b - a|;
  }
}
