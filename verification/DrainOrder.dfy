/** When the drain order of a transaction decides whether a hash is left in the database: the exact condition. */
module DrainOrder {
  import opened Sums
  import opened MemoryDb

  /** The transaction carries `key`, under some prefix, with a zero count. */
  predicate CarriesZero(tx: Data, key: Bytes)
    requires Prefixed(tx)
  {
    exists k :: k in Carrying(tx, key) && tx[k].rc == 0
  }

  predicate CarriesNonZero(tx: Data, key: Bytes)
    requires Prefixed(tx)
  {
    exists k :: k in Carrying(tx, key) && tx[k].rc != 0
  }

  /** The counts cancel out, and zero and non-zero counts for `key` stand side by side. */
  ghost predicate OrderDecides(data: Data, tx: Data, key: Bytes)
    requires Prefixed(tx)
  {
    CountIn(data, key) + TxCount(tx, key) == 0 && CarriesZero(tx, key) && CarriesNonZero(tx, key)
  }

  /** Whether `key` is left when the order does not decide: zeros alone put it in and take it out in turn. */
  ghost predicate LeftBehind(data: Data, tx: Data, key: Bytes)
    requires Prefixed(tx)
  {
    || CountIn(data, key) + TxCount(tx, key) != 0
    || (!CarriesNonZero(tx, key) && (key in data <==> |Carrying(tx, key)| % 2 == 0))
  }

  /** Whether `key` is in the database afterwards is the same for all drain orders. */
  ghost predicate SameForAllOrders(data: Data, tx: Data, key: Bytes)
    requires Prefixed(tx)
  {
    forall order, order' :: Enumerates(order, tx) && Enumerates(order', tx) ==>
      (key in Consolidated(data, tx, order) <==> key in Consolidated(data, tx, order'))
  }

  /* ---------- where the order does not decide ---------- */

  /** Taking one entry out of the transaction, seen from `key`. */
  lemma {:induction false} CarryingRest(tx: Data, k: Bytes, key: Bytes)
    requires Prefixed(tx) && k in tx
    ensures Carrying(tx - {k}, key) == Carrying(tx, key) - {k}
    ensures |Carrying(tx, key)| == |Carrying(tx - {k}, key)| + if HashPart(k) == key then 1 else 0
    ensures CarriesZero(tx, key) <==> CarriesZero(tx - {k}, key) || (HashPart(k) == key && tx[k].rc == 0)
    ensures CarriesNonZero(tx, key) <==> CarriesNonZero(tx - {k}, key) || (HashPart(k) == key && tx[k].rc != 0)
  {
    assert Carrying(tx - {k}, key) == Carrying(tx, key) - {k};
    if HashPart(k) != key {
      assert Carrying(tx, key) - {k} == Carrying(tx, key);
    }
    if j :| j in Carrying(tx, key) && tx[j].rc == 0 && j != k {
      assert j in Carrying(tx - {k}, key);
    }
    if j :| j in Carrying(tx, key) && tx[j].rc != 0 && j != k {
      assert j in Carrying(tx - {k}, key);
    }
  }

  /** What one merge does to the presence of its own hash: a merge that reaches zero takes a present hash out. */
  lemma {:induction false} MergedPresence(data: Data, key: Bytes, e: Entry)
    ensures key in Merged(data, key, e) <==> key !in data || CountIn(data, key) + e.rc != 0
  {
  }

  /** Merging an entry of another hash. */
  lemma {:induction false} OtherMerge(data: Data, tx: Data, k: Bytes, key: Bytes)
    requires Prefixed(tx) && k in tx && HashPart(k) != key
    ensures var data1 := Merged(data, HashPart(k), tx[k]);
      && (OrderDecides(data1, tx - {k}, key) <==> OrderDecides(data, tx, key))
      && (LeftBehind(data1, tx - {k}, key) <==> LeftBehind(data, tx, key))
  {
    CarryingRest(tx, k, key);
    TxCountRest(tx, k, key);
    MergedCount(data, HashPart(k), tx[k], key);
  }

  /** A merge never changes what the counts add up to. */
  lemma {:induction false} SumKept(data: Data, tx: Data, k: Bytes, key: Bytes)
    requires Prefixed(tx) && k in tx
    ensures CountIn(Merged(data, HashPart(k), tx[k]), key) + TxCount(tx - {k}, key)
         == CountIn(data, key) + TxCount(tx, key)
  {
    TxCountRest(tx, k, key);
    MergedCount(data, HashPart(k), tx[k], key);
  }

  /** Merging one of several zero counts, with no other count and nothing counted before. */
  lemma {:induction false} ZeroMerge(data: Data, tx: Data, k: Bytes, key: Bytes)
    requires Prefixed(tx) && k in tx && HashPart(k) == key && !CarriesNonZero(tx, key)
    requires CountIn(data, key) + TxCount(tx, key) == 0
    ensures !CarriesNonZero(tx - {k}, key)
    ensures LeftBehind(Merged(data, key, tx[k]), tx - {k}, key) <==> LeftBehind(data, tx, key)
  {
    SumKept(data, tx, k, key);
    ZerosSum(tx, key);
    assert tx[k].rc == 0 by {
      assert k in Carrying(tx, key);
    }
    MergedPresence(data, key, tx[k]);
    CarryingRest(tx, k, key);
  }

  /** Merging a non-zero count, with no zero count and all counts cancelling out. */
  lemma {:induction false} NonZeroMerge(data: Data, tx: Data, k: Bytes, key: Bytes)
    requires Prefixed(tx) && k in tx && HashPart(k) == key && !CarriesZero(tx, key)
    requires CountIn(data, key) + TxCount(tx, key) == 0
    ensures !CarriesZero(tx - {k}, key)
    ensures !LeftBehind(Merged(data, key, tx[k]), tx - {k}, key) && !LeftBehind(data, tx, key)
  {
    SumKept(data, tx, k, key);
    assert tx[k].rc != 0 by {
      assert k in Carrying(tx, key);
    }
    MergedPresence(data, key, tx[k]);
    MergedCount(data, key, tx[k], key);
    CarryingRest(tx, k, key);
    if !CarriesNonZero(tx - {k}, key) {
      NothingLeft(tx - {k}, key);
    }
  }

  /** One merge where the order does not decide leaves the matter as it was. */
  lemma {:induction false} MergeStep(data: Data, tx: Data, k: Bytes, key: Bytes)
    requires Prefixed(tx) && k in tx && !OrderDecides(data, tx, key)
    ensures var data1 := Merged(data, HashPart(k), tx[k]);
      !OrderDecides(data1, tx - {k}, key) && (LeftBehind(data1, tx - {k}, key) <==> LeftBehind(data, tx, key))
  {
    SumKept(data, tx, k, key);
    if CountIn(data, key) + TxCount(tx, key) == 0 {
      if HashPart(k) != key {
        OtherMerge(data, tx, k, key);
      } else if CarriesNonZero(tx, key) {
        NonZeroMerge(data, tx, k, key);
      } else {
        ZeroMerge(data, tx, k, key);
      }
    }
  }

  lemma {:induction false} NothingLeft(tx: Data, key: Bytes)
    requires Prefixed(tx) && !CarriesZero(tx, key) && !CarriesNonZero(tx, key)
    ensures |Carrying(tx, key)| == 0 && TxCount(tx, key) == 0
  {
    if Carrying(tx, key) != map[] {
      var k :| k in Carrying(tx, key);
      assert false;
    }
  }

  lemma {:induction false} ZerosSum(tx: Data, key: Bytes)
    requires Prefixed(tx) && !CarriesNonZero(tx, key)
    ensures TxCount(tx, key) == 0
  {
    ZeroSum(Carrying(tx, key));
  }

  lemma {:induction false} ZeroSum(data: Data)
    requires forall k :: k in data ==> data[k].rc == 0
    ensures MapSum(data, RcOf) == 0
    decreases |data|
  {
    if data != map[] {
      var k :| k in data;
      MapSumRemove(data, RcOf, k);
      ZeroSum(data - {k});
    }
  }

  /** Outside that condition every order leaves `key` behind, or none does. */
  lemma {:induction false} PresenceIsSettled(data: Data, tx: Data, order: seq<Bytes>, key: Bytes)
    requires Prefixed(tx) && Enumerates(order, tx) && !OrderDecides(data, tx, key)
    ensures key in Consolidated(data, tx, order) <==> LeftBehind(data, tx, key)
    decreases |order|
  {
    if order == [] {
      assert forall k :: k in tx ==> k in order;
      assert Carrying(tx, key) == map[];
    } else {
      EnumeratesRest(order, tx);
      var k := order[0];
      MergeStep(data, tx, k, key);
      PresenceIsSettled(Merged(data, HashPart(k), tx[k]), tx - {k}, order[1..], key);
    }
  }

  /* ---------- where the order decides ---------- */

  /** A finite transaction can be drained in some order. */
  lemma {:induction false} SomeOrder(tx: Data) returns (order: seq<Bytes>)
    ensures Enumerates(order, tx)
    decreases |tx|
  {
    if tx == map[] {
      order := [];
    } else {
      var k :| k in tx;
      var rest := SomeOrder(tx - {k});
      EnumeratesSnoc(rest, tx - {k}, k, tx[k]);
      assert (tx - {k})[k := tx[k]] == tx;
      order := rest + [k];
    }
  }

  /** The two last entries, one after the other. */
  lemma {:induction false} DrainedLast(data: Data, tx: Data, rest: seq<Bytes>, a: Bytes, b: Bytes)
    requires Prefixed(tx) && a in tx && b in tx && a != b && Enumerates(rest, tx - {a} - {b})
    ensures Enumerates(rest + [a] + [b], tx)
    ensures Consolidated(data, tx, rest + [a] + [b])
         == Merged(Merged(Consolidated(data, tx - {a} - {b}, rest), HashPart(a), tx[a]), HashPart(b), tx[b])
  {
    ConsolidatedSnoc(data, tx - {a} - {b}, rest, a, tx[a]);
    assert (tx - {a} - {b})[a := tx[a]] == tx - {b};
    ConsolidatedSnoc(data, tx - {b}, rest + [a], b, tx[b]);
    assert (tx - {b})[b := tx[b]] == tx;
  }

  /** With a zero and a non-zero count last, `key` is left if and only if the very last one is the zero. */
  lemma {:induction false} LastTwo(data: Data, tx: Data, key: Bytes, rest: seq<Bytes>, a: Bytes, b: Bytes)
    requires Prefixed(tx) && a in Carrying(tx, key) && b in Carrying(tx, key) && (tx[a].rc == 0 <==> tx[b].rc != 0)
    requires CountIn(data, key) + TxCount(tx, key) == 0 && Enumerates(rest, tx - {a} - {b})
    ensures Enumerates(rest + [a] + [b], tx)
    ensures key in Consolidated(data, tx, rest + [a] + [b]) <==> tx[b].rc == 0
  {
    CountWithout(data, tx, key, rest, a, b);
    DrainedLast(data, tx, rest, a, b);
    MergedTwice(Consolidated(data, tx - {a} - {b}, rest), key, tx[a], tx[b]);
  }

  lemma {:induction false} CountWithout(data: Data, tx: Data, key: Bytes, rest: seq<Bytes>, a: Bytes, b: Bytes)
    requires Prefixed(tx) && a in tx && b in tx && a != b && Enumerates(rest, tx - {a} - {b})
    requires HashPart(a) == key && HashPart(b) == key && CountIn(data, key) + TxCount(tx, key) == 0
    ensures CountIn(Consolidated(data, tx - {a} - {b}, rest), key) == -tx[a].rc - tx[b].rc
  {
    TxCountRest(tx, a, key);
    TxCountRest(tx - {a}, b, key);
    ConsolidatedCounts(data, tx - {a} - {b}, rest, key);
  }

  lemma {:induction false} MergedTwice(data: Data, key: Bytes, a: Entry, b: Entry)
    requires CountIn(data, key) == -a.rc - b.rc && (a.rc == 0 <==> b.rc != 0)
    ensures key in Merged(Merged(data, key, a), key, b) <==> b.rc == 0
  {
  }

  lemma {:induction false} OrderEnding(data: Data, tx: Data, key: Bytes, a: Bytes, b: Bytes) returns (order: seq<Bytes>)
    requires Prefixed(tx) && a in Carrying(tx, key) && b in Carrying(tx, key) && (tx[a].rc == 0 <==> tx[b].rc != 0)
    requires CountIn(data, key) + TxCount(tx, key) == 0
    ensures Enumerates(order, tx) && (key in Consolidated(data, tx, order) <==> tx[b].rc == 0)
  {
    var rest := SomeOrder(tx - {a} - {b});
    LastTwo(data, tx, key, rest, a, b);
    order := rest + [a] + [b];
  }

  /** Swapping a zero and a non-zero count at the end changes the outcome. */
  lemma {:induction false} BothHappen(data: Data, tx: Data, key: Bytes)
    requires Prefixed(tx) && OrderDecides(data, tx, key)
    ensures !SameForAllOrders(data, tx, key)
  {
    var zero :| zero in Carrying(tx, key) && tx[zero].rc == 0;
    var non :| non in Carrying(tx, key) && tx[non].rc != 0;
    var left := OrderEnding(data, tx, key, non, zero);
    var gone := OrderEnding(data, tx, key, zero, non);
  }

  /**
   The exact condition: the drain order decides whether a hash is left in the database if and only if its
   old count and the transaction's counts for it cancel out and the transaction carries it with both zero
   and non-zero counts.
   */
  lemma {:induction false} PresenceIgnoresOrderIff(data: Data, tx: Data, key: Bytes)
    requires Prefixed(tx)
    ensures SameForAllOrders(data, tx, key) <==> !OrderDecides(data, tx, key)
  {
    if OrderDecides(data, tx, key) {
      BothHappen(data, tx, key);
    } else {
      forall order, order' | Enumerates(order, tx) && Enumerates(order', tx)
        ensures key in Consolidated(data, tx, order) <==> key in Consolidated(data, tx, order')
      {
        PresenceIsSettled(data, tx, order, key);
        PresenceIsSettled(data, tx, order', key);
      }
    }
  }
}
