/** Sums of the values of a finite map, and how they react to one key changing. */
module Sums {
  ghost function Sum<K>(m: map<K, int>): int
    decreases |m|
  {
    if m == map[] then 0
    else
      var k :| k in m;
      m[k] + Sum(m - {k})
  }

  /** The choice of key inside `Sum` does not matter. */
  lemma {:induction false} SumRemove<K>(m: map<K, int>, k: K)
    requires k in m
    ensures Sum(m) == m[k] + Sum(m - {k})
    decreases |m|
  {
    var c :| c in m && Sum(m) == m[c] + Sum(m - {c});
    if c != k {
      SumRemove(m - {c}, k);
      SumRemove(m - {k}, c);
      assert (m - {c}) - {k} == (m - {k}) - {c};
    }
  }

  lemma SumInsert<K>(m: map<K, int>, k: K, v: int)
    requires k !in m
    ensures Sum(m[k := v]) == Sum(m) + v
  {
    SumRemove(m[k := v], k);
    assert m[k := v] - {k} == m;
  }

  lemma SumUpdate<K>(m: map<K, int>, k: K, v: int)
    requires k in m
    ensures Sum(m[k := v]) == Sum(m) - m[k] + v
  {
    SumRemove(m, k);
    SumRemove(m[k := v], k);
    assert m[k := v] - {k} == m - {k};
  }

  lemma {:induction false} SumNonNegative<K>(m: map<K, int>)
    requires forall k :: k in m ==> m[k] >= 0
    ensures Sum(m) >= 0
    decreases |m|
  {
    if m != map[] {
      var k :| k in m;
      SumRemove(m, k);
      SumNonNegative(m - {k});
    }
  }

  /** A sum over fewer keys, each carrying no more, is no larger. */
  lemma {:induction false} SumMonotone<K>(small: map<K, int>, large: map<K, int>)
    requires small.Keys <= large.Keys
    requires forall k :: k in small ==> small[k] <= large[k]
    requires forall k :: k in large ==> large[k] >= 0
    ensures Sum(small) <= Sum(large)
    decreases |small|
  {
    if small == map[] {
      SumNonNegative(large);
    } else {
      var k :| k in small;
      SumRemove(small, k);
      SumRemove(large, k);
      SumMonotone(small - {k}, large - {k});
    }
  }
}
