/**
 The sidevm deployer's three indexes of paid instances: by contract, by worker, and the running list.
 Each operation is given on values together with its error paths; the lemmas show that those paths
 are out of reach and that the three indexes always tell the same story.
 */
module SidevmIndex {
  import opened Options
  import opened Sums

  type AccountId(==, !new)
  type WorkerId(==, !new)

  const MAX_U32: nat := 0xFFFF_FFFF
  const MAX_BALANCE: nat := 0xFFFF_FFFF_FFFF_FFFF_FFFF_FFFF_FFFF_FFFF

  type U32 = n: nat | n <= MAX_U32 witness 0
  type BlockNumber = U32
  type Balance = n: nat | n <= MAX_BALANCE witness 0

  datatype Instance = Instance(workers: seq<WorkerId>, deadline: BlockNumber, price: Balance)

  datatype Index = Index(
    deadlines: map<WorkerId, seq<BlockNumber>>,
    instances: map<AccountId, Instance>,
    running: seq<AccountId>,
    maxPerWorker: nat)

  datatype Error =
    | TransactionRequired
    | NoWorkers
    | NoMemory
    | LiveTooShort
    | Overflow
    | NotEnoughValue
    | NoAvailableWorkers
    | NoInstances
    | NoDeadline
    | SystemError
    | Panicked

  datatype Result<+T> = Ok(value: T) | Err(error: Error)
  {
    predicate IsFailure() { Err? }

    function PropagateFailure<U>(): Result<U>
      requires Err?
    {
      Err(error)
    }

    function Extract(): T
      requires Ok?
    {
      value
    }
  }

  /* ---------- the operations, on values ---------- */

  /** `retain(|x| x != c)` */
  function Without(xs: seq<AccountId>, c: AccountId): seq<AccountId>
  {
    if xs == [] then [] else (if xs[0] == c then [] else [xs[0]]) + Without(xs[1..], c)
  }

  /** The list without the first occurrence of `d`. */
  function RemoveFirst(ds: seq<BlockNumber>, d: BlockNumber): seq<BlockNumber>
  {
    if ds == [] then [] else if ds[0] == d then ds[1..] else [ds[0]] + RemoveFirst(ds[1..], d)
  }

  type DeadlineMap = map<WorkerId, seq<BlockNumber>>

  function DropDeadline(dl: DeadlineMap, w: WorkerId, d: BlockNumber): DeadlineMap
    requires w in dl
  {
    var ds := RemoveFirst(dl[w], d);
    if ds == [] then dl - {w} else dl[w := ds]
  }

  /** Takes `d` out of each worker's list in turn; stops, reporting false, at a worker without a list. */
  function ReleaseWorkers(dl: DeadlineMap, ws: seq<WorkerId>, d: BlockNumber): (DeadlineMap, bool)
  {
    if ws == [] then (dl, true)
    else if ws[0] !in dl then (dl, false)
    else ReleaseWorkers(DropDeadline(dl, ws[0], d), ws[1..], d)
  }

  function Cleared(s: Index, c: AccountId): (Index, bool)
  {
    var s0 := s.(running := Without(s.running, c));
    if c !in s.instances then (s0, false)
    else
      var i := s.instances[c];
      var (dl, ok) := ReleaseWorkers(s.deadlines, i.workers, i.deadline);
      (s0.(instances := s.instances - {c}, deadlines := dl), ok)
  }

  function ClearedAll(s: Index, cs: seq<AccountId>): Result<Index>
    decreases |cs|
  {
    if cs == [] then Ok(s)
    else
      var (s', ok) := Cleared(s, cs[0]);
      if ok then ClearedAll(s', cs[1..]) else Err(Panicked)
  }

  predicate AllKnown(instances: map<AccountId, Instance>, cs: seq<AccountId>)
  {
    forall i :: 0 <= i < |cs| ==> cs[i] in instances
  }

  /** The contracts of a list whose deadline has passed. */
  function Expired(instances: map<AccountId, Instance>, cs: seq<AccountId>, now: BlockNumber): seq<AccountId>
    requires AllKnown(instances, cs)
  {
    if cs == [] then []
    else
      var rest := cs[..|cs| - 1];
      var c := cs[|cs| - 1];
      Expired(instances, rest, now) + if instances[c].deadline < now then [c] else []
  }

  /** An unknown contract in the running list is a panic. */
  function Recycled(s: Index, now: BlockNumber): Result<Index>
  {
    if AllKnown(s.instances, s.running) then ClearedAll(s, Expired(s.instances, s.running, now)) else Err(Panicked)
  }

  function ListOf(dl: DeadlineMap, w: WorkerId): seq<BlockNumber>
  {
    if w in dl then dl[w] else []
  }

  predicate Available(s: Index, ws: seq<WorkerId>)
  {
    forall i :: 0 <= i < |ws| ==> |ListOf(s.deadlines, ws[i])| < s.maxPerWorker
  }

  function AddDeadlines(dl: DeadlineMap, ws: seq<WorkerId>, d: BlockNumber): DeadlineMap
    decreases |ws|
  {
    if ws == [] then dl else AddDeadlines(dl[ws[0] := ListOf(dl, ws[0]) + [d]], ws[1..], d)
  }

  /** The index with an instance of `c` entered; `c` has none yet. */
  function Entered(s: Index, c: AccountId, i: Instance): Index
  {
    s.(instances := s.instances[c := i],
       deadlines := AddDeadlines(s.deadlines, i.workers, i.deadline),
       running := s.running + [c])
  }

  function DeployInfoAdded(s: Index, now: BlockNumber, c: AccountId, ws: seq<WorkerId>, price: Balance,
                           deadline: BlockNumber): Result<Index>
  {
    var s1 :- Recycled(s, now);
    var s2 := Cleared(s1, c).0;
    if !Available(s2, ws) then Err(NoAvailableWorkers)
    else Ok(Entered(s2, c, Instance(ws, deadline, price)))
  }

  function MoveOne(dl: DeadlineMap, w: WorkerId, from: BlockNumber, to: BlockNumber): DeadlineMap
    requires w in dl
  {
    dl[w := RemoveFirst(dl[w], from) + [to]]
  }

  /** Moves one entry of each worker's list from one deadline to another. */
  function MoveDeadlines(dl: DeadlineMap, ws: seq<WorkerId>, from: BlockNumber, to: BlockNumber): Result<DeadlineMap>
    decreases |ws|
  {
    if ws == [] then Ok(dl)
    else if ws[0] !in dl then Err(NoInstances)
    else if from !in dl[ws[0]] then Err(NoDeadline)
    else MoveDeadlines(MoveOne(dl, ws[0], from, to), ws[1..], from, to)
  }

  /* ---------- the invariant ---------- */

  function Listed(dl: DeadlineMap, w: WorkerId): multiset<BlockNumber>
  {
    multiset(ListOf(dl, w))
  }

  /** How often an instance asks for deadline `d` to be listed at worker `w`. */
  function Names(w: WorkerId, d: BlockNumber): Instance -> int
  {
    (i: Instance) => if i.deadline == d then multiset(i.workers)[w] else 0
  }

  /** Worker `w` lists deadline `d` once for each naming of `w` by an instance that ends at `d`. */
  ghost predicate ListedRight(dl: DeadlineMap, instances: map<AccountId, Instance>, w: WorkerId, d: BlockNumber)
  {
    Listed(dl, w)[d] == MapSum(instances, Names(w, d))
  }

  predicate NoEmptyList(dl: DeadlineMap)
  {
    forall w :: w in dl ==> dl[w] != []
  }

  ghost predicate Valid(s: Index)
  {
    && Distinct(s.running)
    && (forall c :: c in s.running <==> c in s.instances)
    && NoEmptyList(s.deadlines)
    && (forall w, d :: ListedRight(s.deadlines, s.instances, w, d))
  }

  /* ---------- lists ---------- */

  lemma {:induction false} WithoutMembers(xs: seq<AccountId>, c: AccountId)
    ensures forall x :: x in Without(xs, c) <==> x in xs && x != c
    ensures Distinct(xs) ==> Distinct(Without(xs, c))
  {
    if xs != [] {
      WithoutMembers(xs[1..], c);
      if Distinct(xs) {
        assert Distinct(xs[1..]);
        assert forall i :: 0 <= i < |Without(xs[1..], c)| ==> Without(xs[1..], c)[i] in xs[1..];
      }
    }
  }

  lemma {:induction false} RemoveFirstCounts(ds: seq<BlockNumber>, d: BlockNumber, x: BlockNumber)
    ensures multiset(RemoveFirst(ds, d))[x] == multiset(ds)[x] - if x == d && d in ds then 1 else 0
    ensures |RemoveFirst(ds, d)| == |ds| - if d in ds then 1 else 0
  {
    if ds != [] {
      assert ds == [ds[0]] + ds[1..];
      if ds[0] != d {
        RemoveFirstCounts(ds[1..], d, x);
      }
    }
  }

  lemma {:induction false} DropDeadlineCounts(dl: DeadlineMap, w: WorkerId, d: BlockNumber, v: WorkerId, x: BlockNumber)
    requires w in dl
    ensures var dl' := DropDeadline(dl, w, d);
      && Listed(dl', v)[x] == Listed(dl, v)[x] - (if v == w && x == d && d in dl[w] then 1 else 0)
      && |ListOf(dl', v)| <= |ListOf(dl, v)|
  {
    RemoveFirstCounts(dl[w], d, x);
  }

  lemma {:induction false} HeadCount(ws: seq<WorkerId>, w: WorkerId)
    requires ws != []
    ensures multiset(ws)[w] == multiset(ws[1..])[w] + if w == ws[0] then 1 else 0
  {
    assert ws == [ws[0]] + ws[1..];
  }

  /** Every naming of a worker in `ws` is matched by an entry for `d` in that worker's list. */
  ghost predicate AllListed(dl: DeadlineMap, ws: seq<WorkerId>, d: BlockNumber)
  {
    forall w :: multiset(ws)[w] <= Listed(dl, w)[d]
  }

  lemma {:induction false} AllListedHead(dl: DeadlineMap, ws: seq<WorkerId>, d: BlockNumber)
    requires ws != [] && AllListed(dl, ws, d)
    ensures ws[0] in dl && d in dl[ws[0]]
  {
    HeadCount(ws, ws[0]);
    assert multiset(ws)[ws[0]] <= Listed(dl, ws[0])[d];
    assert d in Listed(dl, ws[0]);
  }

  /** Releasing never runs into a missing list, and takes exactly one entry per naming. */
  lemma {:induction false} ReleaseSucceeds(dl: DeadlineMap, ws: seq<WorkerId>, d: BlockNumber)
    requires NoEmptyList(dl) && AllListed(dl, ws, d)
    ensures ReleaseWorkers(dl, ws, d).1 && NoEmptyList(ReleaseWorkers(dl, ws, d).0)
    decreases |ws|
  {
    if ws != [] {
      AllListedHead(dl, ws, d);
      var dl1 := DropDeadline(dl, ws[0], d);
      forall w
        ensures multiset(ws[1..])[w] <= Listed(dl1, w)[d]
      {
        HeadCount(ws, w);
        DropDeadlineCounts(dl, ws[0], d, w, d);
        assert multiset(ws)[w] <= Listed(dl, w)[d];
      }
      ReleaseSucceeds(dl1, ws[1..], d);
    }
  }

  lemma {:induction false} ReleaseCounts(dl: DeadlineMap, ws: seq<WorkerId>, d: BlockNumber, w: WorkerId,
                                         x: BlockNumber)
    requires ReleaseWorkers(dl, ws, d).1 && multiset(ws)[w] <= Listed(dl, w)[d]
    ensures var dl' := ReleaseWorkers(dl, ws, d).0;
      && Listed(dl', w)[x] == Listed(dl, w)[x] - (if x == d then multiset(ws)[w] else 0)
      && |ListOf(dl', w)| <= |ListOf(dl, w)|
    decreases |ws|
  {
    if ws != [] {
      HeadCount(ws, w);
      DropDeadlineCounts(dl, ws[0], d, w, x);
      DropDeadlineCounts(dl, ws[0], d, w, d);
      if w == ws[0] {
        assert d in Listed(dl, w);
      }
      ReleaseCounts(DropDeadline(dl, ws[0], d), ws[1..], d, w, x);
    }
  }

  lemma {:induction false} AddCounts(dl: DeadlineMap, ws: seq<WorkerId>, d: BlockNumber, w: WorkerId, x: BlockNumber)
    ensures var dl' := AddDeadlines(dl, ws, d);
      && Listed(dl', w)[x] == Listed(dl, w)[x] + (if x == d then multiset(ws)[w] else 0)
      && |ListOf(dl', w)| == |ListOf(dl, w)| + multiset(ws)[w]
    decreases |ws|
  {
    if ws != [] {
      HeadCount(ws, w);
      AddCounts(dl[ws[0] := ListOf(dl, ws[0]) + [d]], ws[1..], d, w, x);
    }
  }

  lemma {:induction false} MoveOneCounts(dl: DeadlineMap, v: WorkerId, from: BlockNumber, to: BlockNumber,
                                         w: WorkerId, x: BlockNumber)
    requires v in dl && from in dl[v] && from != to
    ensures var dl' := MoveOne(dl, v, from, to);
      && Listed(dl', w)[x]
         == Listed(dl, w)[x] + (if w != v then 0 else if x == from then -1 else if x == to then 1 else 0)
      && |ListOf(dl', w)| == |ListOf(dl, w)|
  {
    RemoveFirstCounts(dl[v], from, x);
  }

  lemma {:induction false} MoveSucceeds(dl: DeadlineMap, ws: seq<WorkerId>, from: BlockNumber, to: BlockNumber)
    requires NoEmptyList(dl) && from != to && AllListed(dl, ws, from)
    ensures MoveDeadlines(dl, ws, from, to).Ok? && NoEmptyList(MoveDeadlines(dl, ws, from, to).value)
    decreases |ws|
  {
    if ws != [] {
      AllListedHead(dl, ws, from);
      var dl1 := MoveOne(dl, ws[0], from, to);
      forall w
        ensures multiset(ws[1..])[w] <= Listed(dl1, w)[from]
      {
        HeadCount(ws, w);
        MoveOneCounts(dl, ws[0], from, to, w, from);
        assert multiset(ws)[w] <= Listed(dl, w)[from];
      }
      MoveSucceeds(dl1, ws[1..], from, to);
    }
  }

  lemma {:induction false} MoveCounts(dl: DeadlineMap, ws: seq<WorkerId>, from: BlockNumber, to: BlockNumber,
                                      w: WorkerId, x: BlockNumber)
    requires from != to && MoveDeadlines(dl, ws, from, to).Ok?
    ensures var dl' := MoveDeadlines(dl, ws, from, to).value;
      var n: int := multiset(ws)[w];
      && Listed(dl', w)[x] == Listed(dl, w)[x] + (if x == from then -n else if x == to then n else 0)
      && |ListOf(dl', w)| == |ListOf(dl, w)|
    decreases |ws|
  {
    if ws != [] {
      HeadCount(ws, w);
      MoveOneCounts(dl, ws[0], from, to, w, x);
      MoveCounts(MoveOne(dl, ws[0], from, to), ws[1..], from, to, w, x);
    }
  }

  /* ---------- the indexes agree ---------- */

  lemma {:induction false} InstanceIsListed(s: Index, c: AccountId)
    requires Valid(s) && c in s.instances
    ensures AllListed(s.deadlines, s.instances[c].workers, s.instances[c].deadline)
  {
    var i := s.instances[c];
    forall w
      ensures multiset(i.workers)[w] <= Listed(s.deadlines, w)[i.deadline]
    {
      assert ListedRight(s.deadlines, s.instances, w, i.deadline);
      MapSumAtLeast(s.instances, Names(w, i.deadline), c);
    }
  }

  /** Clearing a contract that has an instance succeeds and forgets exactly that contract. */
  lemma {:induction false} ClearedKeeps(s: Index, c: AccountId)
    requires Valid(s)
    ensures var (s', ok) := Cleared(s, c);
      && Valid(s')
      && (ok <==> c in s.instances)
      && s'.instances == s.instances - {c}
      && s'.maxPerWorker == s.maxPerWorker
      && (forall w :: |ListOf(s'.deadlines, w)| <= |ListOf(s.deadlines, w)|)
  {
    WithoutMembers(s.running, c);
    var s' := Cleared(s, c).0;
    if c in s.instances {
      var i := s.instances[c];
      InstanceIsListed(s, c);
      ReleaseSucceeds(s.deadlines, i.workers, i.deadline);
      forall w, d
        ensures ListedRight(s'.deadlines, s'.instances, w, d)
      {
        assert ListedRight(s.deadlines, s.instances, w, d);
        MapSumRemove(s.instances, Names(w, d), c);
        assert multiset(i.workers)[w] <= Listed(s.deadlines, w)[i.deadline];
        ReleaseCounts(s.deadlines, i.workers, i.deadline, w, d);
      }
      forall w
        ensures |ListOf(s'.deadlines, w)| <= |ListOf(s.deadlines, w)|
      {
        assert multiset(i.workers)[w] <= Listed(s.deadlines, w)[i.deadline];
        ReleaseCounts(s.deadlines, i.workers, i.deadline, w, i.deadline);
      }
    } else {
      assert s.instances - {c} == s.instances;
    }
  }

  lemma {:induction false} LeaveOut<V>(m: map<AccountId, V>, cs: seq<AccountId>)
    requires cs != []
    ensures m - {cs[0]} - (set c | c in cs[1..]) == m - (set c | c in cs)
  {
    assert cs == [cs[0]] + cs[1..];
  }

  lemma {:induction false} ClearedAllKeeps(s: Index, cs: seq<AccountId>)
    requires Valid(s) && Distinct(cs) && forall i :: 0 <= i < |cs| ==> cs[i] in s.instances
    ensures ClearedAll(s, cs).Ok?
    ensures var s' := ClearedAll(s, cs).value;
      && Valid(s')
      && s'.instances == s.instances - (set c | c in cs)
      && s'.maxPerWorker == s.maxPerWorker
      && (forall w :: |ListOf(s'.deadlines, w)| <= |ListOf(s.deadlines, w)|)
    decreases |cs|
  {
    if cs == [] {
      assert s.instances - (set c | c in cs) == s.instances;
    } else {
      ClearedKeeps(s, cs[0]);
      var s1 := Cleared(s, cs[0]).0;
      var rest := cs[1..];
      forall i | 0 <= i < |rest|
        ensures rest[i] in s1.instances
      {
        assert rest[i] == cs[i + 1] != cs[0];
      }
      ClearedAllKeeps(s1, rest);
      LeaveOut(s.instances, cs);
      var s' := ClearedAll(s1, rest).value;
      forall w
        ensures |ListOf(s'.deadlines, w)| <= |ListOf(s.deadlines, w)|
      {
        assert |ListOf(s1.deadlines, w)| <= |ListOf(s.deadlines, w)|;
      }
    }
  }

  lemma {:induction false} ExpiredMembers(instances: map<AccountId, Instance>, cs: seq<AccountId>, now: BlockNumber)
    requires AllKnown(instances, cs)
    ensures forall c :: c in Expired(instances, cs, now) <==> c in cs && instances[c].deadline < now
    ensures Distinct(cs) ==> Distinct(Expired(instances, cs, now))
  {
    if cs != [] {
      var rest, last := cs[..|cs| - 1], cs[|cs| - 1];
      ExpiredMembers(instances, rest, now);
      assert cs == rest + [last];
      if Distinct(cs) {
        assert last !in rest;
        assert last !in Expired(instances, rest, now);
      }
    }
  }

  /** Recycling never panics; it forgets exactly the instances whose deadline lies behind. */
  lemma {:induction false} RecycledKeeps(s: Index, now: BlockNumber)
    requires Valid(s)
    ensures Recycled(s, now).Ok?
    ensures var s' := Recycled(s, now).value;
      && Valid(s')
      && s'.instances == (map c | c in s.instances && s.instances[c].deadline >= now :: s.instances[c])
      && s'.maxPerWorker == s.maxPerWorker
      && (forall w :: |ListOf(s'.deadlines, w)| <= |ListOf(s.deadlines, w)|)
  {
    ExpiredMembers(s.instances, s.running, now);
    ClearedAllKeeps(s, Expired(s.instances, s.running, now));
  }

  lemma {:induction false} EnteredKeeps(s: Index, c: AccountId, i: Instance)
    requires Valid(s) && c !in s.instances
    ensures Valid(Entered(s, c, i))
  {
    var s' := Entered(s, c, i);
    forall w, d
      ensures ListedRight(s'.deadlines, s'.instances, w, d)
    {
      assert ListedRight(s.deadlines, s.instances, w, d);
      MapSumSet(s.instances, Names(w, d), c, i);
      AddCounts(s.deadlines, i.workers, i.deadline, w, d);
    }
    NonEmptyAdd(s.deadlines, i.workers, i.deadline);
  }

  lemma {:induction false} NonEmptyAdd(dl: DeadlineMap, ws: seq<WorkerId>, d: BlockNumber)
    requires NoEmptyList(dl)
    ensures NoEmptyList(AddDeadlines(dl, ws, d))
    decreases |ws|
  {
    if ws != [] {
      NonEmptyAdd(dl[ws[0] := ListOf(dl, ws[0]) + [d]], ws[1..], d);
    }
  }

  /** The instances left after recycling and after clearing `c`. */
  function Kept(s: Index, now: BlockNumber, c: AccountId): map<AccountId, Instance>
  {
    map a | a in s.instances && s.instances[a].deadline >= now && a != c :: s.instances[a]
  }

  /** Entering a deployment can only fail for want of room; otherwise it replaces the contract's instance. */
  lemma {:induction false} DeployInfoAddedKeeps(s: Index, now: BlockNumber, c: AccountId, ws: seq<WorkerId>,
                                                price: Balance, deadline: BlockNumber)
    requires Valid(s)
    ensures var r := DeployInfoAdded(s, now, c, ws, price, deadline);
      match r
      case Err(e) => e == NoAvailableWorkers
      case Ok(s') =>
        && Valid(s')
        && s'.maxPerWorker == s.maxPerWorker
        && s'.instances == Kept(s, now, c)[c := Instance(ws, deadline, price)]
  {
    RecycledKeeps(s, now);
    var s1 := Recycled(s, now).value;
    ClearedKeeps(s1, c);
    var s2 := Cleared(s1, c).0;
    assert s2.instances == Kept(s, now, c);
    EnteredKeeps(s2, c, Instance(ws, deadline, price));
  }

  lemma {:induction false} MovedKeeps(s: Index, c: AccountId, to: BlockNumber)
    requires Valid(s) && c in s.instances && to != s.instances[c].deadline
    ensures var i := s.instances[c];
      var r := MoveDeadlines(s.deadlines, i.workers, i.deadline, to);
      && r.Ok?
      && Valid(s.(deadlines := r.value, instances := s.instances[c := i.(deadline := to)]))
      && (forall w :: |ListOf(r.value, w)| == |ListOf(s.deadlines, w)|)
  {
    var i := s.instances[c];
    InstanceIsListed(s, c);
    MoveSucceeds(s.deadlines, i.workers, i.deadline, to);
    var dl' := MoveDeadlines(s.deadlines, i.workers, i.deadline, to).value;
    var instances' := s.instances[c := i.(deadline := to)];
    forall w, d
      ensures ListedRight(dl', instances', w, d)
    {
      assert ListedRight(s.deadlines, s.instances, w, d);
      MapSumSet(s.instances, Names(w, d), c, i.(deadline := to));
      MoveCounts(s.deadlines, i.workers, i.deadline, to, w, d);
    }
    forall w
      ensures |ListOf(dl', w)| == |ListOf(s.deadlines, w)|
    {
      MoveCounts(s.deadlines, i.workers, i.deadline, to, w, to);
    }
  }

  /** The workers that have a list are exactly the workers some instance names. */
  lemma {:induction false} ListsMatchNames(s: Index)
    requires Valid(s)
    ensures forall c, w :: c in s.instances && w in s.instances[c].workers ==> w in s.deadlines
    ensures forall w :: w in s.deadlines ==> exists c :: c in s.instances && w in s.instances[c].workers
  {
    forall c, w | c in s.instances && w in s.instances[c].workers
      ensures w in s.deadlines
    {
      InstanceIsListed(s, c);
      assert w in multiset(s.instances[c].workers);
      assert multiset(s.instances[c].workers)[w] <= Listed(s.deadlines, w)[s.instances[c].deadline];
    }
    forall w | w in s.deadlines
      ensures exists c :: c in s.instances && w in s.instances[c].workers
    {
      var d := s.deadlines[w][0];
      assert d in Listed(s.deadlines, w);
      assert ListedRight(s.deadlines, s.instances, w, d);
      var c := MapSumPositive(s.instances, Names(w, d));
    }
  }

  /* ---------- the bound per worker ---------- */

  ghost predicate Capped(s: Index)
  {
    forall w :: |ListOf(s.deadlines, w)| <= s.maxPerWorker
  }

  lemma {:induction false} DistinctCounts<T>(xs: seq<T>, x: T)
    requires Distinct(xs)
    ensures multiset(xs)[x] <= 1
  {
    if xs != [] {
      assert xs == [xs[0]] + xs[1..];
      DistinctCounts(xs[1..], x);
      if x == xs[0] {
        assert x !in xs[1..];
      }
    }
  }

  /** With distinct worker ids no worker goes over the maximum. */
  lemma {:induction false} CapKept(s: Index, now: BlockNumber, c: AccountId, ws: seq<WorkerId>, price: Balance,
                                   deadline: BlockNumber)
    requires Valid(s) && Capped(s) && Distinct(ws)
    requires DeployInfoAdded(s, now, c, ws, price, deadline).Ok?
    ensures Capped(DeployInfoAdded(s, now, c, ws, price, deadline).value)
  {
    RecycledKeeps(s, now);
    var s1 := Recycled(s, now).value;
    ClearedKeeps(s1, c);
    var s2 := Cleared(s1, c).0;
    var s' := DeployInfoAdded(s, now, c, ws, price, deadline).value;
    forall w
      ensures |ListOf(s'.deadlines, w)| <= s'.maxPerWorker
    {
      DistinctCounts(ws, w);
      AddCounts(s2.deadlines, ws, deadline, w, deadline);
      assert |ListOf(s'.deadlines, w)| == |ListOf(s2.deadlines, w)| + multiset(ws)[w];
      assert |ListOf(s2.deadlines, w)| <= |ListOf(s1.deadlines, w)| <= |ListOf(s.deadlines, w)|;
      if w in ws {
        var i :| 0 <= i < |ws| && ws[i] == w;
      }
    }
  }

  /** A list that names a worker twice overloads it: an empty deployer with a maximum of one takes it. */
  lemma {:induction false} CapBroken(now: BlockNumber, c: AccountId, ws: seq<WorkerId>, price: Balance,
                                     deadline: BlockNumber)
    requires !Distinct(ws)
    ensures var s := Index(map[], map[], [], 1);
      var r := DeployInfoAdded(s, now, c, ws, price, deadline);
      Valid(s) && Capped(s) && r.Ok? && !Capped(r.value)
  {
    var s := Index(map[], map[], [], 1);
    var i, j :| 0 <= i < j < |ws| && ws[i] == ws[j];
    assert Recycled(s, now) == Ok(s);
    assert Cleared(s, c).0 == s;
    assert Available(s, ws);
    AddCounts(s.deadlines, ws, deadline, ws[i], deadline);
    assert multiset(ws)[ws[i]] >= 2 by {
      assert ws == ws[..j] + [ws[j]] + ws[j + 1..];
      assert ws[i] == ws[..j][i];
      assert ws[i] in multiset(ws[..j]);
    }
    var r := DeployInfoAdded(s, now, c, ws, price, deadline);
    assert |ListOf(r.value.deadlines, ws[i])| == multiset(ws)[ws[i]];
  }

  /**
   The availability check guards the maximum for exactly the lists of distinct workers: such a list never
   overloads a worker, in any state; a list with a repeated worker does so in some state that accepts it.
   */
  lemma {:induction false} CapKeptIffDistinct(now: BlockNumber, c: AccountId, ws: seq<WorkerId>, price: Balance,
                                              deadline: BlockNumber)
    ensures Distinct(ws) <==>
      forall s :: Valid(s) && Capped(s) && DeployInfoAdded(s, now, c, ws, price, deadline).Ok? ==>
        Capped(DeployInfoAdded(s, now, c, ws, price, deadline).value)
  {
    if Distinct(ws) {
      forall s | Valid(s) && Capped(s) && DeployInfoAdded(s, now, c, ws, price, deadline).Ok?
        ensures Capped(DeployInfoAdded(s, now, c, ws, price, deadline).value)
      {
        CapKept(s, now, c, ws, price, deadline);
      }
    } else {
      CapBroken(now, c, ws, price, deadline);
    }
  }
}
