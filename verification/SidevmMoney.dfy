/**
 The deployer's money in plain arithmetic: when a message goes through, what it costs, what comes back, and
 which instances there are afterwards.
 */
module SidevmMoney {
  import opened Options
  import opened Sums
  import opened SidevmIndex
  import opened SidevmDeployer

  // The largest 128-bit and 32-bit values, and the size of a page.
  const LARGEST: nat := 0xFFFF_FFFF_FFFF_FFFF_FFFF_FFFF_FFFF_FFFF
  const LAST_BLOCK: nat := 0xFFFF_FFFF
  const PAGE: nat := 65536

  /* ---------- the workers of a call ---------- */

  /** The places at which a list changes: each element that differs from the one before it. */
  function Changes(ws: seq<WorkerId>): seq<WorkerId>
  {
    if ws == [] then []
    else
      var n := |ws| - 1;
      Changes(ws[..n]) + if n == 0 || ws[n] != ws[n - 1] then [ws[n]] else []
  }

  lemma {:induction false} ChangesSnoc(ws: seq<WorkerId>, w: WorkerId)
    ensures Changes(ws + [w]) == Changes(ws) + if ws == [] || ws[|ws| - 1] != w then [w] else []
  {
    var all := ws + [w];
    assert all[..|all| - 1] == ws;
  }

  lemma {:induction false} ChangesFromFront(ws: seq<WorkerId>)
    requires |ws| >= 2
    ensures Changes(ws) == (if ws[0] == ws[1] then [] else [ws[0]]) + Changes(ws[1..])
    decreases |ws|
  {
    var front, last := ws[..|ws| - 1], ws[|ws| - 1];
    assert ws == front + [last];
    ChangesSnoc(front, last);
    ChangesSnoc(front[1..], last);
    assert ws[1..] == front[1..] + [last];
    if |ws| == 2 {
      ChangesSnoc([], ws[0]);
      assert front == [] + [ws[0]];
    } else {
      ChangesFromFront(front);
    }
  }

  lemma {:induction false} DedupKeepsChanges(ws: seq<WorkerId>)
    ensures Dedup(ws) == Changes(ws)
    decreases |ws|
  {
    if |ws| == 1 {
      assert ws[..0] == [];
    } else if |ws| >= 2 {
      ChangesFromFront(ws);
      DedupKeepsChanges(ws[1..]);
    }
  }

  /** How often an instance names a worker. */
  function Namings(w: WorkerId): Instance -> int
  {
    (i: Instance) => multiset(i.workers)[w]
  }

  /** A multiset of deadlines that counts the namings deadline by deadline has as many elements as namings. */
  lemma {:induction false} NamingsCount(m: multiset<BlockNumber>, instances: map<AccountId, Instance>, w: WorkerId)
    requires forall d :: m[d] == MapSum(instances, Names(w, d))
    ensures |m| == MapSum(instances, Namings(w))
    decreases |instances|
  {
    if instances == map[] {
      assert m == multiset{};
    } else {
      var c :| c in instances;
      var i, rest := instances[c], instances - {c};
      var k := multiset(i.workers)[w];
      MapSumRemove(instances, Namings(w), c);
      MapSumRemove(instances, Names(w, i.deadline), c);
      OtherNamings(rest, w, i.deadline);
      var m' := m[i.deadline := m[i.deadline] - k];
      forall d
        ensures m'[d] == MapSum(rest, Names(w, d))
      {
        MapSumRemove(instances, Names(w, d), c);
      }
      NamingsCount(m', rest, w);
    }
  }

  lemma {:induction false} OtherNamings(instances: map<AccountId, Instance>, w: WorkerId, d: BlockNumber)
    ensures MapSum(instances, Names(w, d)) >= 0
  {
    MapSumNonNegative(instances, Names(w, d));
  }

  /** A worker's list is as long as the namings of the worker are many. */
  lemma {:induction false} ListLength(s: Index, w: WorkerId)
    requires Valid(s)
    ensures |ListOf(s.deadlines, w)| == MapSum(s.instances, Namings(w))
  {
    forall d
      ensures Listed(s.deadlines, w)[d] == MapSum(s.instances, Names(w, d))
    {
      assert ListedRight(s.deadlines, s.instances, w, d);
    }
    NamingsCount(Listed(s.deadlines, w), s.instances, w);
  }

  /* ---------- deploying ---------- */

  /** The price of one block on all workers; `Times` is multiplication. */
  function Price(s: Deployer, call: DeployCall): nat
  {
    Times(s.vmPrice + Times(s.memPrice, call.memoryPages * PAGE + call.codeSize), |Changes(call.workers)|)
  }

  /** The price of all blocks asked for. */
  function Cost(s: Deployer, call: DeployCall): nat
  {
    Times(Price(s, call), call.blocksToLive)
  }

  /** The worth of the blocks, after the next one, that the caller's old instance has left. */
  function Credit(s: Deployer, c: AccountId): nat
  {
    if c in s.index.instances && s.index.instances[c].deadline > s.now + 1
    then Times(s.index.instances[c].price, s.index.instances[c].deadline - s.now - 1)
    else 0
  }

  /** Apart from expired instances and the caller's own, each named worker carries fewer than the maximum. */
  ghost predicate HasRoom(s: Deployer, call: DeployCall)
  {
    forall w :: w in call.workers ==> MapSum(Kept(s.index, s.now, call.caller), Namings(w)) < s.index.maxPerWorker
  }

  ghost predicate GoesThrough(s: Deployer, call: DeployCall)
  {
    && call.inTransaction && call.workers != [] && call.memoryPages > 0 && call.blocksToLive > 0
    && Cost(s, call) <= LARGEST
    && Cost(s, call) <= call.paid + Credit(s, call.caller)
    && HasRoom(s, call)
    && call.systemAccepts
  }

  lemma {:induction false} ChangesMembers(ws: seq<WorkerId>)
    ensures Changes(ws) == [] <==> ws == []
    ensures forall w :: w in Changes(ws) <==> w in ws
    ensures ws != [] ==> Changes(ws) != [] && Changes(ws)[|Changes(ws)| - 1] == ws[|ws| - 1]
    decreases |ws|
  {
    if ws != [] {
      var n := |ws| - 1;
      ChangesMembers(ws[..n]);
      assert ws == ws[..n] + [ws[n]];
    }
  }

  lemma {:induction false} RoomIff(s: Deployer, call: DeployCall)
    requires Good(s)
    ensures Recycled(s.index, s.now).Ok?
    ensures var s2 := Cleared(Recycled(s.index, s.now).value, call.caller).0;
      Available(s2, Changes(call.workers)) <==> HasRoom(s, call)
  {
    RecycledKeeps(s.index, s.now);
    var s1 := Recycled(s.index, s.now).value;
    ClearedKeeps(s1, call.caller);
    var s2 := Cleared(s1, call.caller).0;
    assert s2.instances == Kept(s.index, s.now, call.caller);
    ChangesMembers(call.workers);
    forall w
      ensures |ListOf(s2.deadlines, w)| == MapSum(Kept(s.index, s.now, call.caller), Namings(w))
    {
      ListLength(s2, w);
    }
    var ws := Changes(call.workers);
    if HasRoom(s, call) {
      assert forall i :: 0 <= i < |ws| ==> ws[i] in call.workers;
    }
    if Available(s2, ws) {
      forall w | w in call.workers
        ensures MapSum(Kept(s.index, s.now, call.caller), Namings(w)) < s.index.maxPerWorker
      {
        var i :| 0 <= i < |ws| && ws[i] == w;
      }
    }
  }

  lemma {:induction false} CreditIsRemaining(s: Deployer, c: AccountId)
    ensures RemainingTimeToValue(s, c) == AtMost(Credit(s, c), LARGEST)
  {
    if c in s.index.instances && s.index.instances[c].deadline > s.now + 1 {
      assert s.index.instances[c].deadline - (s.now + 1) == s.index.instances[c].deadline - s.now - 1;
    }
  }

  lemma {:induction false} StagedPrice(vmPrice: Balance, memPrice: Balance, codeSize: U32, memoryPages: U32, n: U32)
    requires n >= 1
    ensures var price := Times(vmPrice + Times(memPrice, memoryPages * PAGE + codeSize), n);
      CalcPricePerBlock(vmPrice, memPrice, codeSize, memoryPages, n)
      == if price <= LARGEST then Some(price) else None
  {
    var one := vmPrice + Times(memPrice, memoryPages * PAGE + codeSize);
    TimesGrows(one, 1, n);
    assert Times(one, 1) == Times(one, 0) + one;
  }

  lemma {:induction false} FitsWord(n: nat)
    requires n <= LAST_BLOCK
    ensures n % (MAX_U32 + 1) == n
  {
  }

  lemma {:induction false} QuoteIsPrice(s: Deployer, call: DeployCall)
    requires 1 <= |Changes(call.workers)| <= LAST_BLOCK
    ensures Quoted(s, call) == if Price(s, call) <= LARGEST then Some(Price(s, call)) else None
  {
    DedupKeepsChanges(call.workers);
    var n := |Changes(call.workers)|;
    FitsWord(n);
    assert Quoted(s, call) == CalcPricePerBlock(s.vmPrice, s.memPrice, call.codeSize, call.memoryPages, n);
    StagedPrice(s.vmPrice, s.memPrice, call.codeSize, call.memoryPages, n);
  }

  /** A price of all blocks that fits means that the price of one does. */
  lemma {:induction false} PriceFits(s: Deployer, call: DeployCall)
    requires call.blocksToLive > 0 && Cost(s, call) <= LARGEST
    ensures Price(s, call) <= LARGEST
  {
    TimesGrows(Price(s, call), 1, call.blocksToLive);
    assert Times(Price(s, call), 1) == Times(Price(s, call), 0) + Price(s, call);
  }

  /** The instance a successful deployment leaves its caller with. */
  function Bought(s: Deployer, call: DeployCall): Instance
    requires Price(s, call) <= LARGEST
  {
    Instance(Changes(call.workers), AtMost(s.now + call.blocksToLive, LAST_BLOCK), Price(s, call))
  }

  /** The settling step in plain arithmetic. */
  lemma {:induction false} SettledExactly(s: Deployer, call: DeployCall, i: Instance, required: nat)
    requires Good(s) && i.workers == Changes(call.workers)
    ensures Settled(s, call, i, required).Ok? <==>
      && required <= LARGEST && required <= call.paid + Credit(s, call.caller)
      && HasRoom(s, call) && call.systemAccepts
    ensures var r := Settled(s, call, i, required);
      r.Ok? ==>
        && r.value == s.(index := r.value.index, balance := r.value.balance)
        && r.value.index.maxPerWorker == s.index.maxPerWorker
        && r.value.index.instances == Kept(s.index, s.now, call.caller)[call.caller := i]
        && r.value.balance == s.balance + call.paid + required - AtMost(call.paid + Credit(s, call.caller), LARGEST)
  {
    CreditIsRemaining(s, call.caller);
    KeptObligation(s, call.caller);
    RoomIff(s, call);
    DeployInfoAddedKeeps(s.index, s.now, call.caller, i.workers, i.price, i.deadline);
  }

  /**
   The law of deploying. The message goes through if and only if it is a transaction for some workers, pages
   and blocks, whose price fits and is covered by the payment and the credit together, all named workers have
   room and the system accepts. The balance then grows by the price less the credit, up to what the
   saturating sum of payment and credit cuts off; expired instances are gone, the caller's is the one bought,
   and nothing else has changed.
   */
  lemma {:induction false} DeployLaw(s: Deployer, call: DeployCall)
    requires Good(s) && |Changes(call.workers)| <= LAST_BLOCK
    ensures Deployed(s, call).Ok? <==> GoesThrough(s, call)
    ensures GoesThrough(s, call) ==>
      var s' := Deployed(s, call).value;
      var available := AtMost(call.paid + Credit(s, call.caller), LARGEST);
      && Price(s, call) <= LARGEST
      && s'.balance - s.balance == Cost(s, call) + call.paid - available
      && s'.index.instances == Kept(s.index, s.now, call.caller)[call.caller := Bought(s, call)]
      && s' == s.(index := s'.index, balance := s'.balance) && s'.index.maxPerWorker == s.index.maxPerWorker
  {
    ChangesMembers(call.workers);
    DedupKeepsChanges(call.workers);
    if call.workers != [] && call.blocksToLive > 0 {
      QuoteIsPrice(s, call);
      if Price(s, call) <= LARGEST {
        SettledExactly(s, call, Bought(s, call), Cost(s, call));
      } else if Cost(s, call) <= LARGEST {
        PriceFits(s, call);
      }
    }
  }

  /** Without saturation: what the deployer keeps is the price less the credit. */
  lemma {:induction false} DeployKeepsPriceLessCredit(s: Deployer, call: DeployCall)
    requires Good(s) && |Changes(call.workers)| <= LAST_BLOCK && GoesThrough(s, call)
    requires call.paid + Credit(s, call.caller) <= LARGEST
    ensures Deployed(s, call).Ok?
    ensures Deployed(s, call).value.balance - s.balance == Cost(s, call) - Credit(s, call.caller)
  {
    DeployLaw(s, call);
  }

  /** A deployment that does not go through names the first thing that is missing. */
  lemma {:induction false} DeployErrors(s: Deployer, call: DeployCall)
    requires Good(s) && |Changes(call.workers)| <= LAST_BLOCK && !GoesThrough(s, call)
    ensures Deployed(s, call) == Err(
      if !call.inTransaction then TransactionRequired
      else if call.workers == [] then NoWorkers
      else if call.memoryPages == 0 then NoMemory
      else if call.blocksToLive == 0 then LiveTooShort
      else if Cost(s, call) > LARGEST then Overflow
      else if call.paid + Credit(s, call.caller) < Cost(s, call) then NotEnoughValue
      else if !HasRoom(s, call) then NoAvailableWorkers
      else SystemError)
  {
    ChangesMembers(call.workers);
    DedupKeepsChanges(call.workers);
    if call.workers != [] && call.blocksToLive > 0 {
      QuoteIsPrice(s, call);
      if Price(s, call) <= LARGEST {
        SettledExactly(s, call, Bought(s, call), Cost(s, call));
        SettledError(s, call, Bought(s, call), Cost(s, call));
      } else if Cost(s, call) <= LARGEST {
        PriceFits(s, call);
      }
    }
  }

  lemma {:induction false} SettledError(s: Deployer, call: DeployCall, i: Instance, required: nat)
    requires Good(s) && i.workers == Changes(call.workers)
    ensures var r := Settled(s, call, i, required);
      r.Ok? || r == Err(
        if required > LARGEST then Overflow
        else if call.paid + Credit(s, call.caller) < required then NotEnoughValue
        else if !HasRoom(s, call) then NoAvailableWorkers
        else SystemError)
  {
    CreditIsRemaining(s, call.caller);
    KeptObligation(s, call.caller);
    RoomIff(s, call);
    DeployInfoAddedKeeps(s.index, s.now, call.caller, i.workers, i.price, i.deadline);
  }

  /* ---------- moving a deadline ---------- */

  /** The deadline a call asks for; the past counts as now. */
  function Asked(s: Deployer, call: UpdateCall): BlockNumber
  {
    if call.deadline > s.now then call.deadline else s.now
  }

  /** The worth, for a caller with an instance, of moving its deadline; negative when time is given up. */
  function Worth(i: Instance, deadline: BlockNumber): int
  {
    if deadline >= i.deadline then Times(i.price, deadline - i.deadline) else 0 - Times(i.price, i.deadline - deadline)
  }

  predicate MoveGoesThrough(s: Deployer, call: UpdateCall)
  {
    && call.inTransaction
    && call.caller in s.index.instances
    && var i, deadline := s.index.instances[call.caller], Asked(s, call);
       deadline == i.deadline ||
       (&& Worth(i, deadline) <= LARGEST && 0 <= call.paid - Worth(i, deadline) <= LARGEST
        && (deadline == s.now || call.systemAccepts))
  }

  /**
   The law of moving a deadline, ending an instance included: when the message goes through, the contract's
   balance moves by exactly the worth of the move, and the instance is at the deadline asked for, or gone if
   that is now.
   */
  lemma {:induction false} MoveLaw(s: Deployer, call: UpdateCall)
    requires Good(s)
    ensures DeadlineUpdated(s, call).Ok? <==> MoveGoesThrough(s, call)
    ensures MoveGoesThrough(s, call) ==>
      var s', c := DeadlineUpdated(s, call).value, call.caller;
      var i, deadline := s.index.instances[c], Asked(s, call);
      && s'.balance - s.balance == Worth(i, deadline)
      && s'.index.instances == (if deadline == i.deadline then s.index.instances
                                else if deadline == s.now then s.index.instances - {c}
                                else s.index.instances[c := i.(deadline := deadline)])
      && s' == s.(index := s'.index, balance := s'.balance) && s'.index.maxPerWorker == s.index.maxPerWorker
  {
    var c := call.caller;
    if c in s.index.instances {
      var i, deadline := s.index.instances[c], Asked(s, call);
      OwedCovers(s, c);
      ClearedKeeps(s.index, c);
      RefundIsOwed(i, call.paid, deadline, s.now);
      if deadline != i.deadline {
        MovedKeeps(s.index, c, deadline);
      }
    }
  }

  /** A move that does not go through names the first thing that is missing. */
  lemma {:induction false} MoveErrors(s: Deployer, call: UpdateCall)
    requires Good(s) && !MoveGoesThrough(s, call)
    ensures DeadlineUpdated(s, call) == Err(
      if !call.inTransaction then TransactionRequired
      else if call.caller !in s.index.instances then NoInstances
      else
        var worth := Worth(s.index.instances[call.caller], Asked(s, call));
        if worth > LARGEST || call.paid - worth > LARGEST then Overflow
        else if worth > call.paid then NotEnoughValue
        else SystemError)
  {
    var c := call.caller;
    if c in s.index.instances {
      var i, deadline := s.index.instances[c], Asked(s, call);
      OwedCovers(s, c);
      RefundIsOwed(i, call.paid, deadline, s.now);
      if deadline != i.deadline {
        MovedKeeps(s.index, c, deadline);
      }
    }
  }
}
