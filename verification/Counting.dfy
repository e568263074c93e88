/** Counting pairs: distinct pairs drawn from a set and a range of integers are at most their product. */
module Counting {

  function Pairs<A>(ids: set<A>, lo: int, hi: int): set<(A, int)>
  {
    set a, k | a in ids && lo <= k <= hi :: (a, k)
  }

  lemma {:induction false} ColumnSize<A>(a: A, lo: int, hi: int)
    requires lo <= hi + 1
    ensures |set k | lo <= k <= hi :: (a, k)| == hi - lo + 1
    decreases hi - lo + 1
  {
    var s := set k | lo <= k <= hi :: (a, k);
    if lo == hi + 1 {
      assert s == {};
    } else {
      ColumnSize(a, lo, hi - 1);
      assert s == (set k | lo <= k <= hi - 1 :: (a, k)) + {(a, hi)};
    }
  }

  lemma {:induction false} OneMore(n: int, m: int)
    ensures (n + 1) * m == n * m + m
  {
  }

  lemma {:induction false} PairsSize<A>(ids: set<A>, lo: int, hi: int)
    requires lo <= hi + 1
    ensures |Pairs(ids, lo, hi)| == |ids| * (hi - lo + 1)
    decreases |ids|
  {
    if ids == {} {
      assert Pairs(ids, lo, hi) == {};
    } else {
      var a :| a in ids;
      var column := set k | lo <= k <= hi :: (a, k);
      PairsSize(ids - {a}, lo, hi);
      ColumnSize(a, lo, hi);
      assert Pairs(ids, lo, hi) == Pairs(ids - {a}, lo, hi) + column;
      assert Pairs(ids - {a}, lo, hi) !! column;
      OneMore(|ids - {a}|, hi - lo + 1);
    }
  }

  lemma {:induction false} DistinctSize<T>(xs: seq<T>)
    requires forall i, j :: 0 <= i < j < |xs| ==> xs[i] != xs[j]
    ensures |set x | x in xs| == |xs|
  {
    if xs != [] {
      var rest := xs[..|xs| - 1];
      DistinctSize(rest);
      assert (set x | x in xs) == (set x | x in rest) + {xs[|xs| - 1]};
    }
  }

  lemma {:induction false} SubsetSize<T>(a: set<T>, b: set<T>)
    requires a <= b
    ensures |a| <= |b|
  {
    assert b == a + (b - a);
  }

  /** A list of distinct pairs from `ids` and `lo..hi` is no longer than the number of such pairs. */
  lemma {:induction false} DistinctPairs<A>(xs: seq<(A, int)>, ids: set<A>, lo: int, hi: int)
    requires lo <= hi + 1
    requires forall i, j :: 0 <= i < j < |xs| ==> xs[i] != xs[j]
    requires forall i :: 0 <= i < |xs| ==> xs[i].0 in ids && lo <= xs[i].1 <= hi
    ensures |xs| <= |ids| * (hi - lo + 1)
  {
    DistinctSize(xs);
    PairsSize(ids, lo, hi);
    SubsetSize((set x | x in xs), Pairs(ids, lo, hi));
  }
}
