/**
 The reference-counted trie database: signed counts, a null node, consolidation of a prefixed
 transaction in any order, and the serialised form that drops the keys. The hash function is a
 parameter; where two values must not collide, the values concerned are named.
 */
module MemoryDb {
  import opened Options
  import opened Sums

  type Bytes = seq<bv8>

  const HASH_LENGTH: nat := 32
  const NULL_NODE: Bytes := [0]

  datatype Entry = Entry(value: Bytes, rc: int)

  type Data = map<Bytes, Entry>

  datatype Db = Db(data: Data, nullHash: Bytes, nullData: Bytes)

  function FromNullNode(h: Bytes -> Bytes, nullKey: Bytes, nullData: Bytes): Db
  {
    Db(map[], h(nullKey), nullData)
  }

  function FromInner(h: Bytes -> Bytes, data: Data): Db
  {
    FromNullNode(h, NULL_NODE, NULL_NODE).(data := data)
  }

  /* ---------- lookups ---------- */

  function CountIn(data: Data, key: Bytes): int
  {
    if key in data then data[key].rc else 0
  }

  function Raw(db: Db, key: Bytes): Option<Entry>
  {
    if key == db.nullHash then Some(Entry(db.nullData, 1))
    else if key in db.data then Some(db.data[key])
    else None
  }

  function Get(db: Db, key: Bytes): Option<Bytes>
  {
    if key == db.nullHash then Some(db.nullData)
    else if key in db.data && db.data[key].rc > 0 then Some(db.data[key].value)
    else None
  }

  predicate Contains(db: Db, key: Bytes)
  {
    key == db.nullHash || (key in db.data && db.data[key].rc > 0)
  }

  /* ---------- updates, on values ---------- */

  /** Puts a count in place; a count that reaches zero leaves the map. */
  function Settle(data: Data, key: Bytes, e: Entry): Data
  {
    if e.rc == 0 then data - {key} else data[key := e]
  }

  function Emplaced(db: Db, key: Bytes, value: Bytes): Db
  {
    if value == db.nullData then db
    else if key in db.data then
      var entry := db.data[key];
      db.(data := Settle(db.data, key, Entry(if entry.rc <= 0 then value else entry.value, entry.rc + 1)))
    else db.(data := db.data[key := Entry(value, 1)])
  }

  function Inserted(h: Bytes -> Bytes, db: Db, value: Bytes): (Db, Bytes)
  {
    if value == db.nullData then (db, db.nullHash) else (Emplaced(db, h(value), value), h(value))
  }

  function Removed(db: Db, key: Bytes): Db
  {
    if key == db.nullHash then db
    else if key in db.data then db.(data := Settle(db.data, key, db.data[key].(rc := db.data[key].rc - 1)))
    else db.(data := db.data[key := Entry([], -1)])
  }

  function RemovedAndPurged(db: Db, key: Bytes): (Db, Option<Bytes>)
  {
    if key == db.nullHash then (db, None)
    else if key in db.data then
      var entry := db.data[key];
      if entry.rc == 1 then (db.(data := db.data - {key}), Some(entry.value))
      else (db.(data := db.data[key := entry.(rc := entry.rc - 1)]), None)
    else (db.(data := db.data[key := Entry([], -1)]), None)
  }

  /** The hash part of a prefixed key: its last 32 bytes. */
  function HashPart(key: Bytes): Bytes
    requires |key| >= HASH_LENGTH
  {
    key[|key| - HASH_LENGTH..]
  }

  /** One drained entry of a transaction. */
  function Merged(data: Data, key: Bytes, e: Entry): Data
  {
    if key in data then
      var entry := data[key];
      Settle(data, key, Entry(if entry.rc < 0 then e.value else entry.value, entry.rc + e.rc))
    else data[key := e]
  }

  predicate Prefixed(tx: Data)
  {
    forall k :: k in tx ==> |k| >= HASH_LENGTH
  }

  /** `order` lists every key of `tx` once. */
  ghost predicate Enumerates(order: seq<Bytes>, tx: Data)
  {
    && (forall i, j :: 0 <= i < j < |order| ==> order[i] != order[j])
    && (forall k :: k in order <==> k in tx)
  }

  lemma {:induction false} EnumeratesRest(order: seq<Bytes>, tx: Data)
    requires Enumerates(order, tx) && order != []
    ensures order[0] in tx && Enumerates(order[1..], tx - {order[0]})
  {
    assert order == [order[0]] + order[1..];
    assert order[0] in order;
  }

  /** The transaction drained in the given order. */
  function Consolidated(data: Data, tx: Data, order: seq<Bytes>): Data
    requires Prefixed(tx) && Enumerates(order, tx)
    decreases |order|
  {
    if order == [] then data
    else
      EnumeratesRest(order, tx);
      Consolidated(Merged(data, HashPart(order[0]), tx[order[0]]), tx - {order[0]}, order[1..])
  }

  /** Draining one more entry at the end. */
  lemma {:induction false} EnumeratesSnoc(order: seq<Bytes>, tx: Data, k: Bytes, e: Entry)
    requires Enumerates(order, tx) && k !in tx
    ensures Enumerates(order + [k], tx[k := e])
  {
    assert k !in order;
  }

  lemma {:induction false} ConsolidatedSnoc(data: Data, tx: Data, order: seq<Bytes>, k: Bytes, e: Entry)
    requires Prefixed(tx) && Enumerates(order, tx) && k !in tx && |k| >= HASH_LENGTH
    ensures Enumerates(order + [k], tx[k := e])
    ensures Consolidated(data, tx[k := e], order + [k]) == Merged(Consolidated(data, tx, order), HashPart(k), e)
    decreases |order|
  {
    EnumeratesSnoc(order, tx, k, e);
    var order', tx' := order + [k], tx[k := e];
    EnumeratesRest(order', tx');
    if order == [] {
      assert order' == [k] && order'[1..] == [];
    } else {
      EnumeratesRest(order, tx);
      var k0 := order[0];
      var data1 := Merged(data, HashPart(k0), tx[k0]);
      assert order'[0] == k0 && tx'[k0] == tx[k0];
      assert order'[1..] == order[1..] + [k];
      assert tx' - {k0} == (tx - {k0})[k := e];
      assert Consolidated(data, tx', order') == Consolidated(data1, tx' - {k0}, order'[1..]);
      ConsolidatedSnoc(data1, tx - {k0}, order[1..], k, e);
    }
  }

  /* ---------- consolidation does not depend on the order ---------- */

  /** The transaction's entries that carry `key`, under whatever prefix. */
  function Carrying(tx: Data, key: Bytes): Data
    requires Prefixed(tx)
  {
    map k | k in tx && HashPart(k) == key :: tx[k]
  }

  function RcOf(e: Entry): int { e.rc }

  ghost function TxCount(tx: Data, key: Bytes): int
    requires Prefixed(tx)
  {
    MapSum(Carrying(tx, key), RcOf)
  }

  lemma {:induction false} TxCountRest(tx: Data, k: Bytes, key: Bytes)
    requires Prefixed(tx) && k in tx
    ensures TxCount(tx, key) == TxCount(tx - {k}, key) + if HashPart(k) == key then tx[k].rc else 0
  {
    if HashPart(k) == key {
      MapSumRemove(Carrying(tx, key), RcOf, k);
      assert Carrying(tx, key) - {k} == Carrying(tx - {k}, key);
    } else {
      assert Carrying(tx, key) == Carrying(tx - {k}, key);
    }
  }

  lemma {:induction false} MergedCount(data: Data, h: Bytes, e: Entry, key: Bytes)
    ensures CountIn(Merged(data, h, e), key) == CountIn(data, key) + if h == key then e.rc else 0
  {
  }

  lemma {:induction false} NothingCarried(tx: Data, key: Bytes)
    requires Prefixed(tx) && Enumerates([], tx)
    ensures TxCount(tx, key) == 0
  {
    assert Carrying(tx, key) == map[] by {
      assert forall k :: k in tx ==> k in [];
    }
  }

  /** Whatever the order, each hash ends with its old count plus the counts of all prefixes carrying it. */
  lemma {:induction false} ConsolidatedCounts(data: Data, tx: Data, order: seq<Bytes>, key: Bytes)
    requires Prefixed(tx) && Enumerates(order, tx)
    ensures CountIn(Consolidated(data, tx, order), key) == CountIn(data, key) + TxCount(tx, key)
    decreases |order|
  {
    if order == [] {
      NothingCarried(tx, key);
    } else {
      EnumeratesRest(order, tx);
      var k := order[0];
      MergedCount(data, HashPart(k), tx[k], key);
      TxCountRest(tx, k, key);
      ConsolidatedCounts(Merged(data, HashPart(k), tx[k]), tx - {k}, order[1..], key);
    }
  }

  /** Every entry with a non-negative count holds a preimage of its key. */
  ghost predicate Preimages(h: Bytes -> Bytes, data: Data)
  {
    forall k :: k in data && data[k].rc >= 0 ==> h(data[k].value) == k
  }

  ghost predicate TxPreimages(h: Bytes -> Bytes, tx: Data)
    requires Prefixed(tx)
  {
    forall k :: k in tx && tx[k].rc >= 0 ==> h(tx[k].value) == HashPart(k)
  }

  lemma {:induction false} ConsolidatedPreimages(h: Bytes -> Bytes, data: Data, tx: Data, order: seq<Bytes>)
    requires Prefixed(tx) && Enumerates(order, tx) && Preimages(h, data) && TxPreimages(h, tx)
    ensures Preimages(h, Consolidated(data, tx, order))
    decreases |order|
  {
    if order != [] {
      EnumeratesRest(order, tx);
      ConsolidatedPreimages(h, Merged(data, HashPart(order[0]), tx[order[0]]), tx - {order[0]}, order[1..]);
    }
  }

  function Values(data: Data): set<Bytes>
  {
    set k | k in data :: data[k].value
  }

  lemma {:induction false} ConsolidatedValues(data: Data, tx: Data, order: seq<Bytes>, key: Bytes)
    requires Prefixed(tx) && Enumerates(order, tx)
    requires key in Consolidated(data, tx, order)
    ensures Consolidated(data, tx, order)[key].value in Values(data) + Values(tx)
    decreases |order|
  {
    if order != [] {
      EnumeratesRest(order, tx);
      var data1 := Merged(data, HashPart(order[0]), tx[order[0]]);
      ConsolidatedValues(data1, tx - {order[0]}, order[1..], key);
      assert Values(data1) <= Values(data) + Values(tx);
      assert Values(tx - {order[0]}) <= Values(tx);
    }
  }

  predicate CollisionFree(h: Bytes -> Bytes, values: set<Bytes>)
  {
    forall a, b :: a in values && b in values && h(a) == h(b) ==> a == b
  }

  /** Two drain orders give databases that answer every lookup alike. */
  lemma {:induction false} LookupsIgnoreOrder(h: Bytes -> Bytes, db: Db, tx: Data, order: seq<Bytes>,
                                              order': seq<Bytes>, key: Bytes)
    requires Prefixed(tx) && Enumerates(order, tx) && Enumerates(order', tx)
    requires Preimages(h, db.data) && TxPreimages(h, tx)
    requires CollisionFree(h, Values(db.data) + Values(tx))
    ensures Get(db.(data := Consolidated(db.data, tx, order)), key)
         == Get(db.(data := Consolidated(db.data, tx, order')), key)
  {
    var a, b := Consolidated(db.data, tx, order), Consolidated(db.data, tx, order');
    ConsolidatedCounts(db.data, tx, order, key);
    ConsolidatedCounts(db.data, tx, order', key);
    ConsolidatedPreimages(h, db.data, tx, order);
    ConsolidatedPreimages(h, db.data, tx, order');
    if key in a && key in b && a[key].rc > 0 {
      ConsolidatedValues(db.data, tx, order, key);
      ConsolidatedValues(db.data, tx, order', key);
    }
  }

  predicate ZeroFree(data: Data)
  {
    forall k :: k in data ==> data[k].rc != 0
  }

  /** Without zero counts in the transaction, presence too is settled by the counts alone. */
  lemma {:induction false} ConsolidatedZeroFree(data: Data, tx: Data, order: seq<Bytes>)
    requires Prefixed(tx) && Enumerates(order, tx) && ZeroFree(data) && ZeroFree(tx)
    ensures ZeroFree(Consolidated(data, tx, order))
    decreases |order|
  {
    if order != [] {
      EnumeratesRest(order, tx);
      ConsolidatedZeroFree(Merged(data, HashPart(order[0]), tx[order[0]]), tx - {order[0]}, order[1..]);
    }
  }

  lemma {:induction false} PresenceIgnoresOrder(data: Data, tx: Data, order: seq<Bytes>, order': seq<Bytes>)
    requires Prefixed(tx) && Enumerates(order, tx) && Enumerates(order', tx) && ZeroFree(data) && ZeroFree(tx)
    ensures forall key :: key in Consolidated(data, tx, order) <==> key in Consolidated(data, tx, order')
  {
    ConsolidatedZeroFree(data, tx, order);
    ConsolidatedZeroFree(data, tx, order');
    forall key
      ensures key in Consolidated(data, tx, order) <==> key in Consolidated(data, tx, order')
    {
      ConsolidatedCounts(data, tx, order, key);
      ConsolidatedCounts(data, tx, order', key);
    }
  }

  /**
   With a zero count in the transaction the order shows through `raw`: three prefixes of one hash, with
   counts +1, -1 and 0, leave an entry behind or not depending on where the zero comes.
   */
  lemma {:induction false} ZeroCountShowsOrder(db: Db, key: Bytes, value: Bytes)
    requires |key| == 32 && key != db.nullHash && db.data == map[]
    ensures var a, b, c := [1] + key, [2] + key, [3] + key;
      var tx := map[a := Entry(value, 1), b := Entry(value, -1), c := Entry(value, 0)];
      && Prefixed(tx) && Enumerates([a, b, c], tx) && Enumerates([c, a, b], tx)
      && Raw(db.(data := Consolidated(db.data, tx, [a, b, c])), key) == Some(Entry(value, 0))
      && Raw(db.(data := Consolidated(db.data, tx, [c, a, b])), key) == None
  {
    var a: Bytes, b: Bytes, c: Bytes := [1] + key, [2] + key, [3] + key;
    var tx: Data := map[a := Entry(value, 1), b := Entry(value, -1), c := Entry(value, 0)];
    assert a[0] != b[0] && b[0] != c[0] && a[0] != c[0];
    assert HashPart(a) == key && HashPart(b) == key && HashPart(c) == key;
    DrainThree(db.data, tx, a, b, c);
    DrainThree(db.data, tx, c, a, b);
  }

  lemma {:induction false} DrainThree(data: Data, tx: Data, a: Bytes, b: Bytes, c: Bytes)
    requires Prefixed(tx) && tx.Keys == {a, b, c} && a != b && b != c && a != c
    ensures Enumerates([a, b, c], tx)
    ensures Consolidated(data, tx, [a, b, c])
         == Merged(Merged(Merged(data, HashPart(a), tx[a]), HashPart(b), tx[b]), HashPart(c), tx[c])
  {
    var order := [a, b, c];
    assert order[0] == a && order[1] == b && order[2] == c;
    assert Enumerates(order, tx);
    EnumeratesRest(order, tx);
    assert order[1..] == [b, c];
    var data1 := Merged(data, HashPart(a), tx[a]);
    assert Consolidated(data, tx, order) == Consolidated(data1, tx - {a}, [b, c]);
    EnumeratesRest([b, c], tx - {a});
    assert [b, c][1..] == [c];
    var data2 := Merged(data1, HashPart(b), tx[b]);
    assert Consolidated(data1, tx - {a}, [b, c]) == Consolidated(data2, tx - {a} - {b}, [c]);
    EnumeratesRest([c], tx - {a} - {b});
    assert [c][1..] == [];
    var data3 := Merged(data2, HashPart(c), tx[c]);
    assert Consolidated(data2, tx - {a} - {b}, [c]) == Consolidated(data3, tx - {a} - {b} - {c}, []) == data3;
  }

  /* ---------- whole runs: reference counting ---------- */

  datatype Op =
    | Insert(value: Bytes)
    | Remove(key: Bytes)
    | Purge(key: Bytes)
    | Consolidate(tx: Data, order: seq<Bytes>)

  ghost predicate Enabled(h: Bytes -> Bytes, op: Op)
  {
    op.Consolidate? ==> Prefixed(op.tx) && Enumerates(op.order, op.tx) && TxPreimages(h, op.tx)
  }

  ghost function Next(h: Bytes -> Bytes, db: Db, op: Op): Db
    requires Enabled(h, op)
  {
    match op
    case Insert(value) => Inserted(h, db, value).0
    case Remove(key) => Removed(db, key)
    case Purge(key) => RemovedAndPurged(db, key).0
    case Consolidate(tx, order) => db.(data := Consolidated(db.data, tx, order))
  }

  /** What an operation adds to the count of `key`: a number known without looking at the database. */
  ghost function Delta(h: Bytes -> Bytes, nullHash: Bytes, nullData: Bytes, op: Op, key: Bytes): int
    requires Enabled(h, op)
  {
    match op
    case Insert(value) => if value != nullData && h(value) == key then 1 else 0
    case Remove(k) => if k != nullHash && k == key then -1 else 0
    case Purge(k) => if k != nullHash && k == key then -1 else 0
    case Consolidate(tx, _) => TxCount(tx, key)
  }

  ghost predicate Legal(h: Bytes -> Bytes, ops: seq<Op>)
  {
    forall i :: 0 <= i < |ops| ==> Enabled(h, ops[i])
  }

  ghost function Run(h: Bytes -> Bytes, db: Db, ops: seq<Op>): Db
    requires Legal(h, ops)
    decreases |ops|
  {
    if ops == [] then db else Run(h, Next(h, db, ops[0]), ops[1..])
  }

  ghost function DeltaSum(h: Bytes -> Bytes, nullHash: Bytes, nullData: Bytes, ops: seq<Op>, key: Bytes): int
    requires Legal(h, ops)
    decreases |ops|
  {
    if ops == [] then 0
    else Delta(h, nullHash, nullData, ops[0], key) + DeltaSum(h, nullHash, nullData, ops[1..], key)
  }

  lemma {:induction false} NextCounts(h: Bytes -> Bytes, db: Db, op: Op, key: Bytes)
    requires Enabled(h, op)
    ensures var db' := Next(h, db, op);
      && CountIn(db'.data, key) == CountIn(db.data, key) + Delta(h, db.nullHash, db.nullData, op, key)
      && db'.nullHash == db.nullHash && db'.nullData == db.nullData
      && (Preimages(h, db.data) ==> Preimages(h, db'.data))
  {
    match op
    case Consolidate(tx, order) =>
      ConsolidatedCounts(db.data, tx, order, key);
      if Preimages(h, db.data) {
        ConsolidatedPreimages(h, db.data, tx, order);
      }
    case _ =>
  }

  /**
   Over any run the count of a hash is its first count plus the inserts, removals and transaction counts
   that named it, and the entries with non-negative counts keep holding preimages.
   */
  lemma {:induction false} RunCounts(h: Bytes -> Bytes, db: Db, ops: seq<Op>, key: Bytes)
    requires Legal(h, ops) && Preimages(h, db.data)
    ensures var db' := Run(h, db, ops);
      && CountIn(db'.data, key) == CountIn(db.data, key) + DeltaSum(h, db.nullHash, db.nullData, ops, key)
      && Preimages(h, db'.data)
      && db'.nullHash == db.nullHash && db'.nullData == db.nullData
    decreases |ops|
  {
    if ops != [] {
      NextCounts(h, db, ops[0], key);
      RunCounts(h, Next(h, db, ops[0]), ops[1..], key);
    }
  }

  /** A lookup finds a value exactly when the references gathered over the run are positive, and then a preimage. */
  lemma {:induction false} RunLookup(h: Bytes -> Bytes, nullKey: Bytes, ops: seq<Op>, key: Bytes)
    requires Legal(h, ops)
    ensures var db := FromNullNode(h, nullKey, nullKey);
      var got := Get(Run(h, db, ops), key);
      && (got.Some? <==> key == h(nullKey) || DeltaSum(h, h(nullKey), nullKey, ops, key) > 0)
      && (got.Some? ==> h(got.value) == key)
      && (got.Some? <==> Contains(Run(h, db, ops), key))
  {
    RunCounts(h, FromNullNode(h, nullKey, nullKey), ops, key);
  }

  /* ---------- the keyless serialised form ---------- */

  /** The entries in iteration order, without their keys. */
  function Serialized(data: Data, order: seq<Bytes>): seq<Entry>
    requires Enumerates(order, data)
  {
    seq(|order|, i requires 0 <= i < |order| => assert order[i] in order; data[order[i]])
  }

  /** Rehashing each value; a later entry replaces an earlier one with the same hash. */
  function Rehashed(h: Bytes -> Bytes, es: seq<Entry>): Data
  {
    if es == [] then map[]
    else
      var last := es[|es| - 1];
      Rehashed(h, es[..|es| - 1])[h(last.value) := last]
  }

  lemma {:induction false} RehashedKeys(h: Bytes -> Bytes, es: seq<Entry>)
    ensures forall k :: k in Rehashed(h, es) ==> h(Rehashed(h, es)[k].value) == k
  {
    if es != [] {
      RehashedKeys(h, es[..|es| - 1]);
    }
  }

  lemma {:induction false} RehashedDistinct(h: Bytes -> Bytes, es: seq<Entry>)
    requires forall i, j :: 0 <= i < j < |es| ==> h(es[i].value) != h(es[j].value)
    ensures forall i :: 0 <= i < |es| ==> h(es[i].value) in Rehashed(h, es) && Rehashed(h, es)[h(es[i].value)] == es[i]
    ensures forall k :: k in Rehashed(h, es) ==> exists i :: 0 <= i < |es| && k == h(es[i].value)
  {
    if es != [] {
      var rest := es[..|es| - 1];
      RehashedDistinct(h, rest);
      forall k | k in Rehashed(h, es)
        ensures exists i :: 0 <= i < |es| && k == h(es[i].value)
      {
        if k in Rehashed(h, rest) {
          var i :| 0 <= i < |rest| && k == h(rest[i].value);
          assert k == h(es[i].value);
        } else {
          assert k == h(es[|es| - 1].value);
        }
      }
    }
  }

  /** Dropping the keys loses nothing exactly when every value, whatever its count, hashes to its key. */
  lemma {:induction false} RoundTripIff(h: Bytes -> Bytes, data: Data, order: seq<Bytes>)
    requires Enumerates(order, data)
    ensures Rehashed(h, Serialized(data, order)) == data <==> forall k :: k in data ==> h(data[k].value) == k
  {
    var es := Serialized(data, order);
    RehashedKeys(h, es);
    if forall k :: k in data ==> h(data[k].value) == k {
      assert forall i :: 0 <= i < |order| ==>
        order[i] in order && es[i] == data[order[i]] && h(es[i].value) == order[i];
      RehashedDistinct(h, es);
      forall k | k in data
        ensures k in Rehashed(h, es) && Rehashed(h, es)[k] == data[k]
      {
        assert k in order;
        var i :| 0 <= i < |order| && order[i] == k;
        assert h(es[i].value) == k;
      }
    }
  }

  /** The backend: the database and its root. */
  datatype Backend = Backend(db: Db, root: Bytes)

  function SerializedBackend(b: Backend, order: seq<Bytes>): (Bytes, seq<Entry>)
    requires Enumerates(order, b.db.data)
  {
    (b.root, Serialized(b.db.data, order))
  }

  function DeserializedBackend(h: Bytes -> Bytes, s: (Bytes, seq<Entry>)): Backend
  {
    Backend(FromInner(h, Rehashed(h, s.1)), s.0)
  }

  /** Every database reached from the default one comes back whole, if no count is negative. */
  lemma {:induction false} RoundTripOverRun(h: Bytes -> Bytes, ops: seq<Op>, root: Bytes, order: seq<Bytes>)
    requires Legal(h, ops)
    requires var db := Run(h, FromNullNode(h, NULL_NODE, NULL_NODE), ops);
      Enumerates(order, db.data) && forall k :: k in db.data ==> db.data[k].rc >= 0
    ensures var b := Backend(Run(h, FromNullNode(h, NULL_NODE, NULL_NODE), ops), root);
      DeserializedBackend(h, SerializedBackend(b, order)) == b
  {
    RunCounts(h, FromNullNode(h, NULL_NODE, NULL_NODE), ops, []);
    RoundTripIff(h, Run(h, FromNullNode(h, NULL_NODE, NULL_NODE), ops).data, order);
  }

  /** A negative count can lose its key: removing a hash that was never inserted does not survive the trip. */
  lemma {:induction false} NegativeCountIsLost(h: Bytes -> Bytes, key: Bytes)
    requires key != h(NULL_NODE) && key != h([])
    ensures var db := Removed(FromNullNode(h, NULL_NODE, NULL_NODE), key);
      Enumerates([key], db.data) && Rehashed(h, Serialized(db.data, [key])) != db.data
  {
    var db := Removed(FromNullNode(h, NULL_NODE, NULL_NODE), key);
    assert Enumerates([key], db.data);
    RoundTripIff(h, db.data, [key]);
    assert key in db.data;
  }

  /* ---------- the storage object ---------- */

  /** `tx` in two parts: drained already, and left to drain. */
  ghost predicate Split(tx: Data, drained: Data, left: Data)
  {
    && (forall k :: k in drained ==> k in tx && tx[k] == drained[k] && k !in left)
    && (forall k :: k in left ==> k in tx && tx[k] == left[k])
    && (forall k :: k in tx ==> k in drained || k in left)
  }

  lemma {:induction false} SplitMoves(tx: Data, drained: Data, left: Data, k: Bytes)
    requires Split(tx, drained, left) && k in left
    ensures Split(tx, drained[k := left[k]], left - {k})
  {
  }

  class TrieStorage {
    const h: Bytes -> Bytes
    const nullHash: Bytes
    const nullData: Bytes
    var data: Data
    var root: Bytes

    ghost function View(): Backend
      reads this
    {
      Backend(Db(data, nullHash, nullData), root)
    }

    constructor (h: Bytes -> Bytes, root: Bytes)
      ensures this.h == h && View() == Backend(FromNullNode(h, NULL_NODE, NULL_NODE), root)
    {
      this.h := h;
      nullHash, nullData := h(NULL_NODE), NULL_NODE;
      data := map[];
      this.root := root;
    }

    method Emplace(key: Bytes, value: Bytes)
      modifies this`data
      ensures View().db == Emplaced(old(View()).db, key, value)
    {
      if value == nullData {
        return;
      }
      if key in data {
        var e := data[key];
        if e.rc <= 0 {
          e := e.(value := value);
        }
        e := e.(rc := e.rc + 1);
        if e.rc == 0 {
          data := data - {key};
        } else {
          data := data[key := e];
        }
      } else {
        data := data[key := Entry(value, 1)];
      }
    }

    method Insert(value: Bytes) returns (key: Bytes)
      modifies this`data
      ensures (View().db, key) == Inserted(h, old(View()).db, value)
    {
      if value == nullData {
        return nullHash;
      }
      key := h(value);
      Emplace(key, value);
    }

    method Remove(key: Bytes)
      modifies this`data
      ensures View().db == Removed(old(View()).db, key)
    {
      if key == nullHash {
        return;
      }
      if key in data {
        var e := data[key];
        e := e.(rc := e.rc - 1);
        if e.rc == 0 {
          data := data - {key};
        } else {
          data := data[key := e];
        }
      } else {
        data := data[key := Entry([], -1)];
      }
    }

    method RemoveAndPurge(key: Bytes) returns (purged: Option<Bytes>)
      modifies this`data
      ensures (View().db, purged) == RemovedAndPurged(old(View()).db, key)
    {
      if key == nullHash {
        return None;
      }
      purged := None;
      if key in data {
        var e := data[key];
        if e.rc == 1 {
          data := data - {key};
          purged := Some(e.value);
        } else {
          data := data[key := e.(rc := e.rc - 1)];
        }
      } else {
        data := data[key := Entry([], -1)];
      }
    }

    /** Drains the transaction in some order; `order` is that order. */
    method Consolidate(tx: Data) returns (ghost order: seq<Bytes>)
      requires Prefixed(tx)
      modifies this`data
      ensures Enumerates(order, tx) && data == Consolidated(old(data), tx, order)
      ensures forall key :: CountIn(data, key) == CountIn(old(data), key) + TxCount(tx, key)
      ensures Preimages(h, old(data)) && TxPreimages(h, tx) ==> Preimages(h, data)
    {
      order := [];
      var left := tx;
      ghost var drained: Data := map[];
      while left != map[]
        invariant Split(tx, drained, left) && Prefixed(drained) && Enumerates(order, drained)
        invariant data == Consolidated(old(data), drained, order)
        decreases |left|
      {
        var k :| k in left;
        assert |left - {k}| < |left|;
        SplitMoves(tx, drained, left, k);
        ConsolidatedSnoc(old(data), drained, order, k, left[k]);
        data := Merge(HashPart(k), left[k]);
        order := order + [k];
        drained := drained[k := left[k]];
        left := left - {k};
      }
      assert forall k :: k in tx ==> k in drained;
      assert drained == tx;
      forall key
        ensures CountIn(data, key) == CountIn(old(data), key) + TxCount(tx, key)
      {
        ConsolidatedCounts(old(data), tx, order, key);
      }
      if Preimages(h, old(data)) && TxPreimages(h, tx) {
        ConsolidatedPreimages(h, old(data), tx, order);
      }
    }

    method Merge(key: Bytes, e: Entry) returns (merged: Data)
      ensures merged == Merged(data, key, e)
    {
      merged := data;
      if key in merged {
        var mine := merged[key];
        if mine.rc < 0 {
          mine := mine.(value := e.value);
        }
        mine := mine.(rc := mine.rc + e.rc);
        if mine.rc == 0 {
          merged := merged - {key};
        } else {
          merged := merged[key := mine];
        }
      } else {
        merged := merged[key := e];
      }
    }

    method ApplyChanges(root: Bytes, tx: Data) returns (ghost order: seq<Bytes>)
      requires Prefixed(tx)
      modifies this
      ensures Enumerates(order, tx)
      ensures View() == Backend(old(View()).db.(data := Consolidated(old(data), tx, order)), root)
    {
      order := Consolidate(tx);
      this.root := root;
    }
  }
}
