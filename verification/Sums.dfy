/** Sums over finite maps, shared by the conservation proofs. */
module Sums {

  /** The sum of `f` over the values of `m`. */
  ghost function MapSum<K, V>(m: map<K, V>, f: V -> int): int
    decreases |m|
  {
    if m == map[] then 0
    else
      var k :| k in m;
      f(m[k]) + MapSum(m - {k}, f)
  }

  /** The sum does not depend on which key is taken out first. */
  lemma {:induction false} MapSumRemove<K, V>(m: map<K, V>, f: V -> int, k: K)
    requires k in m
    ensures MapSum(m, f) == f(m[k]) + MapSum(m - {k}, f)
    decreases |m|
  {
    var j :| j in m && MapSum(m, f) == f(m[j]) + MapSum(m - {j}, f);
    if j != k {
      MapSumRemove(m - {j}, f, k);
      MapSumRemove(m - {k}, f, j);
      assert m - {j} - {k} == m - {k} - {j};
    }
  }

  /** Setting one key changes the sum by the difference of the two values there (an absent key counts as 0). */
  lemma {:induction false} MapSumSet<K, V>(m: map<K, V>, f: V -> int, k: K, v: V)
    ensures MapSum(m[k := v], f) == MapSum(m, f) - (if k in m then f(m[k]) else 0) + f(v)
  {
    MapSumRemove(m[k := v], f, k);
    assert m[k := v] - {k} == m - {k};
    if k in m {
      MapSumRemove(m, f, k);
    } else {
      assert m - {k} == m;
    }
  }

  /** A sum of non-negative terms is at least each of its terms. */
  lemma {:induction false} MapSumAtLeast<K, V>(m: map<K, V>, f: V -> int, k: K)
    requires k in m
    requires forall j :: j in m ==> f(m[j]) >= 0
    ensures MapSum(m, f) >= f(m[k])
  {
    MapSumRemove(m, f, k);
    MapSumNonNegative(m - {k}, f);
  }

  lemma {:induction false} MapSumNonNegative<K, V>(m: map<K, V>, f: V -> int)
    requires forall j :: j in m ==> f(m[j]) >= 0
    ensures MapSum(m, f) >= 0
    decreases |m|
  {
    if m != map[] {
      var j :| j in m && MapSum(m, f) == f(m[j]) + MapSum(m - {j}, f);
      MapSumNonNegative(m - {j}, f);
    }
  }

  /** A positive sum has a positive term. */
  lemma {:induction false} MapSumPositive<K, V>(m: map<K, V>, f: V -> int) returns (k: K)
    requires MapSum(m, f) > 0
    ensures k in m && f(m[k]) > 0
    decreases |m|
  {
    var j :| j in m && MapSum(m, f) == f(m[j]) + MapSum(m - {j}, f);
    if f(m[j]) > 0 {
      k := j;
    } else {
      k := MapSumPositive(m - {j}, f);
    }
  }

  /** Leaving out non-negative terms, and replacing terms by smaller ones, makes a sum no larger. */
  lemma {:induction false} MapSumShrinks<K, V>(small: map<K, V>, f: V -> int, large: map<K, V>, g: V -> int)
    requires forall k :: k in small ==> k in large && f(small[k]) <= g(large[k])
    requires forall k :: k in large ==> g(large[k]) >= 0
    ensures MapSum(small, f) <= MapSum(large, g)
    decreases |small|
  {
    if small == map[] {
      MapSumNonNegative(large, g);
    } else {
      var k :| k in small && MapSum(small, f) == f(small[k]) + MapSum(small - {k}, f);
      MapSumRemove(large, g, k);
      MapSumShrinks(small - {k}, f, large - {k}, g);
    }
  }
}
