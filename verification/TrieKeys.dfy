/** The keys and values the trie database hands back: what was inserted is found again under the key returned. */
module TrieKeys {
  import opened Options
  import opened MemoryDb

  /** The database reached from the empty one whose null node is `n`. */
  ghost function Reached(h: Bytes -> Bytes, n: Bytes, ops: seq<Op>): Db
    requires Legal(h, ops)
  {
    Run(h, FromNullNode(h, n, n), ops)
  }

  /** The references gathered for a key over a run. */
  ghost function References(h: Bytes -> Bytes, n: Bytes, ops: seq<Op>, key: Bytes): int
    requires Legal(h, ops)
  {
    DeltaSum(h, h(n), n, ops, key)
  }

  lemma {:induction false} ReachedCounts(h: Bytes -> Bytes, n: Bytes, ops: seq<Op>, key: Bytes)
    requires Legal(h, ops)
    ensures var db := Reached(h, n, ops);
      && CountIn(db.data, key) == References(h, n, ops, key) && Preimages(h, db.data)
      && db.nullHash == h(n) && db.nullData == n
  {
    RunCounts(h, FromNullNode(h, n, n), ops, key);
  }

  /**
   An insert returns the value's hash, and a lookup of it then succeeds if and only if it is the null node's
   hash or its references had not fallen below zero; what it finds has the value's hash.
   */
  lemma {:induction false} InsertedIsFound(h: Bytes -> Bytes, n: Bytes, ops: seq<Op>, value: Bytes)
    requires Legal(h, ops)
    ensures var (db', key) := Inserted(h, Reached(h, n, ops), value);
      && key == h(value)
      && (Get(db', key).Some? <==> h(value) == h(n) || References(h, n, ops, h(value)) >= 0)
      && (Get(db', key).Some? ==> h(Get(db', key).value) == h(value))
  {
    ReachedCounts(h, n, ops, h(value));
    NextCounts(h, Reached(h, n, ops), Insert(value), h(value));
  }

  /** If no two values at hand collide, it finds the value itself. */
  lemma {:induction false} InsertedValueIsFound(h: Bytes -> Bytes, n: Bytes, ops: seq<Op>, value: Bytes)
    requires Legal(h, ops) && CollisionFree(h, Values(Reached(h, n, ops).data) + {value, n})
    requires h(value) == h(n) || References(h, n, ops, h(value)) >= 0
    ensures var (db', key) := Inserted(h, Reached(h, n, ops), value); Get(db', key) == Some(value)
  {
    var db := Reached(h, n, ops);
    var (db', key) := Inserted(h, db, value);
    ReachedCounts(h, n, ops, h(value));
    InsertedIsFound(h, n, ops, value);
    assert Get(db', key).value in Values(db.data) + {value, n};
  }

  /**
   Purging returns a value if and only if the key has exactly one reference and is not the null node's; it is
   the value a lookup found before, a preimage of the key, and nothing is left under the key.
   */
  lemma {:induction false} PurgeReturns(h: Bytes -> Bytes, n: Bytes, ops: seq<Op>, key: Bytes)
    requires Legal(h, ops)
    ensures var db := Reached(h, n, ops);
      var (db', out) := RemovedAndPurged(db, key);
      && (out.Some? <==> key != h(n) && References(h, n, ops, key) == 1)
      && (out.Some? ==> out == Get(db, key) && h(out.value) == key && key !in db'.data && Get(db', key) == None)
  {
    ReachedCounts(h, n, ops, key);
  }

  /** Inserting a value nobody refers to and purging the key returned gives the value back and leaves no trace. */
  lemma {:induction false} InsertThenPurge(h: Bytes -> Bytes, n: Bytes, ops: seq<Op>, value: Bytes)
    requires Legal(h, ops) && CollisionFree(h, Values(Reached(h, n, ops).data) + {value, n})
    requires h(value) != h(n) && h(value) !in Reached(h, n, ops).data
    ensures var db := Reached(h, n, ops);
      var (db', key) := Inserted(h, db, value);
      RemovedAndPurged(db', key) == (db, Some(value))
  {
    var db := Reached(h, n, ops);
    ReachedCounts(h, n, ops, h(value));
    assert db.data[h(value) := Entry(value, 1)] - {h(value)} == db.data;
  }

  /** Of two serialised values with one hash the later is restored. */
  lemma {:induction false} LaterValueWins(h: Bytes -> Bytes, es: seq<Entry>, e: Entry, es': seq<Entry>)
    requires forall i :: 0 <= i < |es'| ==> h(es'[i].value) != h(e.value)
    ensures var data := Rehashed(h, es + [e] + es'); h(e.value) in data && data[h(e.value)] == e
    decreases |es'|
  {
    var all := es + [e] + es';
    if es' == [] {
      assert all[..|all| - 1] == es;
    } else {
      assert all[..|all| - 1] == es + [e] + es'[..|es'| - 1];
      LaterValueWins(h, es, e, es'[..|es'| - 1]);
    }
  }

  /* ---------- what `raw` shows ---------- */

  /** A lookup is `raw` cut down to positive counts; the null node shows with a count of one. */
  lemma {:induction false} GetIsPositiveRaw(db: Db, key: Bytes)
    ensures Get(db, key)
         == match Raw(db, key) case Some(e) => (if e.rc > 0 then Some(e.value) else None) case None => None
    ensures Raw(db, db.nullHash) == Some(Entry(db.nullData, 1))
  {
  }

  /** The null node goes in and out without a trace; by default it is the single byte 0. */
  lemma {:induction false} NullNodeIsFixed(h: Bytes -> Bytes, db: Db, data: Data)
    ensures Inserted(h, db, db.nullData) == (db, db.nullHash)
    ensures Removed(db, db.nullHash) == db && RemovedAndPurged(db, db.nullHash) == (db, None)
    ensures FromInner(h, data) == Db(data, h([0]), [0])
  {
  }

  /**
   An insert counts one up: a count that reaches zero disappears, and where there was no positive count the
   new value is stored.
   */
  lemma {:induction false} RawAfterInsert(h: Bytes -> Bytes, db: Db, value: Bytes, key: Bytes)
    requires value != db.nullData && h(value) != db.nullHash
    ensures var db', before := Inserted(h, db, value).0, Raw(db, key);
      Raw(db', key) ==
        if key != h(value) then before
        else if before == None then Some(Entry(value, 1))
        else if before.value.rc == -1 then None
        else Some(Entry(if before.value.rc > 0 then before.value.value else value, before.value.rc + 1))
  {
  }

  /** A removal counts one down: a count that reaches zero disappears, and a missing key becomes a debt. */
  lemma {:induction false} RawAfterRemove(db: Db, k: Bytes, key: Bytes)
    requires k != db.nullHash
    ensures var before := Raw(db, key);
      Raw(Removed(db, k), key) ==
        if key != k then before
        else if before == None then Some(Entry([], -1))
        else if before.value.rc == 1 then None
        else Some(before.value.(rc := before.value.rc - 1))
  {
  }

  /** A purge leaves what a removal leaves. */
  lemma {:induction false} PurgeLeavesWhatRemoveLeaves(db: Db, k: Bytes)
    ensures RemovedAndPurged(db, k).0 == Removed(db, k)
  {
  }

}
