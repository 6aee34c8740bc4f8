/** Totals over the values of a finite map, and the effect of changing one key. */
module Sums {

  ghost function SumOf<K>(m: map<K, nat>): nat
    decreases |m|
  {
    if m == map[] then 0
    else
      var k :| k in m;
      assert |m - {k}| < |m| by { assert (m - {k}).Keys == m.Keys - {k}; }
      m[k] + SumOf(m - {k})
  }

  lemma {:induction false} SumRemove<K>(m: map<K, nat>, k: K)
    requires k in m
    ensures SumOf(m) == m[k] + SumOf(m - {k})
    decreases |m|
  {
    var k0 :| k0 in m && SumOf(m) == m[k0] + SumOf(m - {k0});
    if k0 != k {
      assert (m - {k0}).Keys == m.Keys - {k0};
      SumRemove(m - {k0}, k);
      assert (m - {k}).Keys == m.Keys - {k};
      SumRemove(m - {k}, k0);
      assert m - {k0} - {k} == m - {k} - {k0};
    }
  }

  lemma SumSet<K>(m: map<K, nat>, k: K, v: nat)
    ensures SumOf(m[k := v]) == v + SumOf(m - {k})
  {
    SumRemove(m[k := v], k);
    assert m[k := v] - {k} == m - {k};
  }

  lemma SumDecreases<K>(m: map<K, nat>, m': map<K, nat>, k: K)
    requires k in m && m' - {k} == m - {k}
    requires if k in m' then m'[k] < m[k] else m[k] > 0
    ensures SumOf(m') < SumOf(m)
  {
    SumRemove(m, k);
    if k in m' {
      SumRemove(m', k);
    } else {
      assert m' == m' - {k};
    }
  }

  ghost function BagOf<K, T>(m: map<K, seq<T>>): multiset<T>
    decreases |m|
  {
    if m == map[] then multiset{}
    else
      var k :| k in m;
      assert |m - {k}| < |m| by { assert (m - {k}).Keys == m.Keys - {k}; }
      multiset(m[k]) + BagOf(m - {k})
  }

  lemma {:induction false} BagRemove<K, T>(m: map<K, seq<T>>, k: K)
    requires k in m
    ensures BagOf(m) == multiset(m[k]) + BagOf(m - {k})
    decreases |m|
  {
    var k0 :| k0 in m && BagOf(m) == multiset(m[k0]) + BagOf(m - {k0});
    if k0 != k {
      assert (m - {k0}).Keys == m.Keys - {k0};
      BagRemove(m - {k0}, k);
      assert (m - {k}).Keys == m.Keys - {k};
      BagRemove(m - {k}, k0);
      assert m - {k0} - {k} == m - {k} - {k0};
    }
  }

  /** Two sets that agree away from k differ in size only by k. */
  lemma CardUpdate<K>(a: set<K>, b: set<K>, k: K)
    requires a - {k} == b - {k}
    ensures |b| == |a| - (if k in a then 1 else 0) + (if k in b then 1 else 0)
  {
    assert k in a ==> |a - {k}| == |a| - 1;
    assert k in b ==> |b - {k}| == |b| - 1;
    assert k !in a ==> a - {k} == a;
    assert k !in b ==> b - {k} == b;
  }
}
