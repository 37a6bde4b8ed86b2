/** Sums over the values of a finite map, and sizes of finite sets. */
module Sums {
  ghost function SumOf<K(!new)>(m: map<K, nat>): nat
    decreases |m|
  {
    if m == map[] then 0
    else
      var k :| k in m;
      assert |m - {k}| < |m| by { assert (m - {k}).Keys == m.Keys - {k}; }
      m[k] + SumOf(m - {k})
  }

  // Any key can be taken out first.
  lemma {:induction false} SumWithout<K(!new)>(m: map<K, nat>, k: K)
    requires k in m
    ensures SumOf(m) == m[k] + SumOf(m - {k})
    decreases |m|
  {
    var j :| j in m && SumOf(m) == m[j] + SumOf(m - {j});
    if j != k {
      assert |m - {j}| < |m| by { assert (m - {j}).Keys == m.Keys - {j}; }
      assert |m - {k}| < |m| by { assert (m - {k}).Keys == m.Keys - {k}; }
      SumWithout(m - {j}, k);
      SumWithout(m - {k}, j);
      assert m - {j} - {k} == m - {k} - {j};
    }
  }

  lemma SumWith<K(!new)>(m: map<K, nat>, k: K, v: nat)
    requires k !in m
    ensures SumOf(m[k := v]) == SumOf(m) + v
  {
    SumWithout(m[k := v], k);
    assert m[k := v] - {k} == m;
  }

  ghost predicate SubmapOf<K, V>(a: map<K, V>, b: map<K, V>) {
    forall k | k in a :: k in b && a[k] == b[k]
  }

  lemma {:induction false} SumMonotone<K(!new)>(a: map<K, nat>, b: map<K, nat>)
    requires SubmapOf(a, b)
    ensures SumOf(a) <= SumOf(b)
    decreases |a|
  {
    if a != map[] {
      var k :| k in a;
      SumWithout(a, k);
      SumWithout(b, k);
      assert |a - {k}| < |a| by { assert (a - {k}).Keys == a.Keys - {k}; }
      SumMonotone(a - {k}, b - {k});
    }
  }

  lemma SubsetSize<T>(a: set<T>, b: set<T>)
    requires a <= b
    ensures |a| <= |b|
  {
    assert b == a + (b - a);
  }

  // Adding at most one element.
  lemma OneMore<T>(a: set<T>, b: set<T>, x: T)
    requires b <= a + {x}
    ensures |b| <= |a| + 1
  {
    SubsetSize(b, a + {x});
  }

  // The entries of `m` under `keys`.
  ghost function Only<K, V>(m: map<K, V>, keys: set<K>): map<K, V> { map k | k in m && k in keys :: m[k] }

  lemma OnlyAll<K(!new)>(m: map<K, nat>, keys: set<K>)
    requires keys == m.Keys
    ensures Only(m, keys) == m
    ensures SumOf(Only(m, {})) == 0
  {
    assert Only(m, {}) == map[];
  }

  lemma TakeOut<K(!new)>(m: map<K, nat>, keys: set<K>, k: K)
    requires k in keys && k in m
    ensures SumOf(Only(m, keys)) == m[k] + SumOf(Only(m, keys - {k}))
  {
    SumWithout(Only(m, keys), k);
    assert Only(m, keys) - {k} == Only(m, keys - {k});
  }

  lemma SkipOut<K(!new)>(m: map<K, nat>, keys: set<K>, k: K)
    requires k !in m
    ensures Only(m, keys) == Only(m, keys - {k})
  {
  }

  lemma OnlyNone<K(!new)>(m: map<K, nat>)
    ensures SumOf(Only(m, {})) == 0
  {
    assert Only(m, {}) == map[];
  }
}
