/**
 Paid sidevm deployment: prepaid time and refunds, on values. The balance always covers the
 time still owed, so no refund can fail.
 */
module SidevmDeployer {
  import opened Options
  import opened Sums
  import opened SidevmIndex

  /** The contract's storage with the block number and the contract's own balance. */
  datatype Deployer = Deployer(index: Index, vmPrice: Balance, memPrice: Balance, now: BlockNumber, balance: nat)

  datatype DeployCall = DeployCall(
    caller: AccountId,
    inTransaction: bool,
    paid: Balance,
    codeSize: U32,
    workers: seq<WorkerId>,
    memoryPages: U32,
    blocksToLive: U32,
    systemAccepts: bool)

  datatype UpdateCall = UpdateCall(
    caller: AccountId,
    inTransaction: bool,
    paid: Balance,
    deadline: BlockNumber,
    systemAccepts: bool)

  const PAGE_SIZE: nat := 64 * 1024

  /* ---------- prices ---------- */

  function AtMost(n: nat, limit: nat): (r: nat)
    ensures r <= n && r <= limit && (r == n || r == limit)
  {
    if n <= limit then n else limit
  }

  function Checked(n: nat): Option<Balance>
  {
    if n <= MAX_BALANCE then Some(n) else None
  }

  /** Multiplication, as a function with the laws below, so that the proofs stay linear. */
  function Times(price: nat, n: nat): nat
    decreases n
  {
    if n == 0 then 0 else Times(price, n - 1) + price
  }

  lemma {:induction false} TimesIsProduct(price: nat, n: nat)
    ensures Times(price, n) == price * n
    decreases n
  {
    if n > 0 {
      TimesIsProduct(price, n - 1);
    }
  }

  lemma {:induction false} TimesSplits(price: nat, a: nat, b: nat)
    ensures Times(price, a + b) == Times(price, a) + Times(price, b)
    decreases b
  {
    if b > 0 {
      TimesSplits(price, a, b - 1);
      assert a + b - 1 == a + (b - 1);
    }
  }

  lemma {:induction false} TimesGrows(price: nat, a: nat, b: nat)
    requires a <= b
    ensures Times(price, a) <= Times(price, b)
  {
    TimesSplits(price, a, b - a);
    assert a + (b - a) == b;
  }

  function CalcPricePerBlock(vmPrice: Balance, memPrice: Balance, codeSize: U32, memoryPages: U32, nWorkers: U32)
    : Option<Balance>
  {
    var memSize := memoryPages * PAGE_SIZE + codeSize;
    match Checked(Times(memPrice, memSize))
    case None => None
    case Some(memory) =>
      match Checked(vmPrice + memory)
      case None => None
      case Some(price) => Checked(Times(price, nWorkers))
  }

  /** For at least one worker the staged overflow checks refuse exactly the prices that do not fit. */
  lemma {:induction false} PriceIsExact(vmPrice: Balance, memPrice: Balance, codeSize: U32, memoryPages: U32,
                                        nWorkers: U32)
    requires nWorkers >= 1
    ensures var exact := (vmPrice + memPrice * (memoryPages * 65536 + codeSize)) * nWorkers;
      CalcPricePerBlock(vmPrice, memPrice, codeSize, memoryPages, nWorkers)
      == if exact <= MAX_BALANCE then Some(exact) else None
  {
    var memSize := memoryPages * PAGE_SIZE + codeSize;
    var perWorker := vmPrice + Times(memPrice, memSize);
    TimesIsProduct(memPrice, memSize);
    TimesIsProduct(perWorker, nWorkers);
    TimesGrows(perWorker, 1, nWorkers);
    assert Times(perWorker, 1) == Times(perWorker, 0) + perWorker;
  }

  /** `Vec::dedup`: only neighbouring repetitions go. */
  function Dedup(ws: seq<WorkerId>): seq<WorkerId>
  {
    if |ws| <= 1 then ws
    else if ws[0] == ws[1] then Dedup(ws[1..])
    else [ws[0]] + Dedup(ws[1..])
  }

  function RemainingTimeToValue(s: Deployer, c: AccountId): Balance
  {
    if c !in s.index.instances then 0
    else
      var i := s.index.instances[c];
      var current := AtMost(s.now + 1, MAX_U32);
      if i.deadline <= current then 0
      else AtMost(Times(i.price, i.deadline - current), MAX_BALANCE)
  }

  /* ---------- the messages, on values: an error or a panic leaves the state as it was ---------- */

  function Quoted(s: Deployer, call: DeployCall): Option<Balance>
  {
    var n := |Dedup(call.workers)| % (MAX_U32 + 1);
    CalcPricePerBlock(s.vmPrice, s.memPrice, call.codeSize, call.memoryPages, n)
  }

  function Deployed(s: Deployer, call: DeployCall): Result<Deployer>
  {
    DeployedAt(s, call, Quoted(s, call))
  }

  function DeployedAt(s: Deployer, call: DeployCall, quote: Option<Balance>): Result<Deployer>
  {
    var workers := Dedup(call.workers);
    if !call.inTransaction then Err(TransactionRequired)
    else if workers == [] then Err(NoWorkers)
    else if call.memoryPages == 0 then Err(NoMemory)
    else if call.blocksToLive == 0 then Err(LiveTooShort)
    else if quote.None? then Err(Overflow)
    else
      var deadline := AtMost(s.now + call.blocksToLive, MAX_U32);
      Settled(s, call, Instance(workers, deadline, quote.value), Times(quote.value, call.blocksToLive))
  }

  /** Takes the price of an instance out of the payment and the time left, and enters the instance. */
  function Settled(s: Deployer, call: DeployCall, i: Instance, required: nat): Result<Deployer>
  {
    var available := AtMost(call.paid + RemainingTimeToValue(s, call.caller), MAX_BALANCE);
    if required > MAX_BALANCE then Err(Overflow)
    else if available < required then Err(NotEnoughValue)
    else
      var refund := available - required;
      var funds := s.balance + call.paid;
      if refund > funds then Err(Panicked)
      else
        var index :- DeployInfoAdded(s.index, s.now, call.caller, i.workers, i.price, i.deadline);
        if !call.systemAccepts then Err(SystemError)
        else Ok(s.(index := index, balance := funds - refund))
  }

  /** What a move of the deadline pays back out of the payment and the time given up. */
  function Refund(i: Instance, paid: Balance, deadline: BlockNumber): Result<Balance>
  {
    if deadline > i.deadline then
      var cost := Times(i.price, deadline - i.deadline);
      if cost > MAX_BALANCE then Err(Overflow)
      else if paid < cost then Err(NotEnoughValue)
      else Ok(paid - cost)
    else
      var value := Times(i.price, i.deadline - deadline);
      if value > MAX_BALANCE || paid + value > MAX_BALANCE then Err(Overflow) else Ok(paid + value)
  }

  function DeadlineUpdated(s: Deployer, call: UpdateCall): Result<Deployer>
  {
    var c := call.caller;
    if !call.inTransaction then Err(TransactionRequired)
    else if c !in s.index.instances then Err(NoInstances)
    else
      var i := s.index.instances[c];
      var deadline: BlockNumber := Max(call.deadline, s.now);
      var funds := s.balance + call.paid;
      if deadline == i.deadline then Ok(s)
      else
        var refund :- Refund(i, call.paid, deadline);
        if refund > funds then Err(Panicked)
        else if deadline == s.now then Ok(s.(index := Cleared(s.index, c).0, balance := funds - refund))
        else
          var deadlines :- MoveDeadlines(s.index.deadlines, i.workers, i.deadline, deadline);
          if !call.systemAccepts then Err(SystemError)
          else
            var instances := s.index.instances[c := i.(deadline := deadline)];
            Ok(s.(index := s.index.(deadlines := deadlines, instances := instances), balance := funds - refund))
  }

  /* ---------- solvency ---------- */

  function BlocksLeft(deadline: BlockNumber, now: BlockNumber): nat
  {
    if deadline > now then deadline - now else 0
  }

  /** The value of the time an instance has paid for and not yet had. */
  function Owed(now: BlockNumber): Instance -> int
  {
    (i: Instance) => Times(i.price, BlocksLeft(i.deadline, now))
  }

  ghost function Obligation(s: Deployer): int
  {
    MapSum(s.index.instances, Owed(s.now))
  }

  ghost predicate Solvent(s: Deployer)
  {
    s.balance >= Obligation(s)
  }

  ghost predicate Good(s: Deployer)
  {
    Valid(s.index) && Solvent(s)
  }

  lemma {:induction false} OwedCovers(s: Deployer, c: AccountId)
    requires c in s.index.instances
    ensures var i := s.index.instances[c];
      && RemainingTimeToValue(s, c) <= Owed(s.now)(i) <= Obligation(s)
      && MapSum(s.index.instances - {c}, Owed(s.now)) == Obligation(s) - Owed(s.now)(i)
  {
    var i := s.index.instances[c];
    if i.deadline > s.now + 1 {
      TimesGrows(i.price, i.deadline - (s.now + 1), i.deadline - s.now);
    }
    OwedNonNegative(s.index.instances, s.now);
    MapSumAtLeast(s.index.instances, Owed(s.now), c);
    MapSumRemove(s.index.instances, Owed(s.now), c);
  }

  lemma {:induction false} OwedNonNegative(instances: map<AccountId, Instance>, now: BlockNumber)
    ensures forall c :: c in instances ==> Owed(now)(instances[c]) >= 0
    ensures MapSum(instances, Owed(now)) >= 0
  {
    MapSumNonNegative(instances, Owed(now));
  }

  /** What stays owed after recycling and after giving up the caller's old instance. */
  lemma {:induction false} KeptObligation(s: Deployer, c: AccountId)
    ensures MapSum(Kept(s.index, s.now, c), Owed(s.now)) <= Obligation(s) - RemainingTimeToValue(s, c)
    ensures RemainingTimeToValue(s, c) <= Obligation(s)
  {
    var rest := s.index.instances - {c};
    OwedNonNegative(s.index.instances, s.now);
    OwedNonNegative(rest, s.now);
    MapSumShrinks(Kept(s.index, s.now, c), Owed(s.now), rest, Owed(s.now));
    if c in s.index.instances {
      OwedCovers(s, c);
    } else {
      assert rest == s.index.instances;
    }
  }

  /** What is owed once the caller's instance has been replaced by one at `price`. */
  lemma {:induction false} ObligationAfter(s: Deployer, c: AccountId, ws: seq<WorkerId>, price: Balance,
                                           blocksToLive: U32)
    ensures var deadline := AtMost(s.now + blocksToLive, MAX_U32);
      MapSum(Kept(s.index, s.now, c)[c := Instance(ws, deadline, price)], Owed(s.now))
        <= Obligation(s) - RemainingTimeToValue(s, c) + Times(price, blocksToLive)
  {
    KeptObligation(s, c);
    var deadline := AtMost(s.now + blocksToLive, MAX_U32);
    var kept := Kept(s.index, s.now, c);
    assert c !in kept;
    MapSumSet(kept, Owed(s.now), c, Instance(ws, deadline, price));
    TimesGrows(price, BlocksLeft(deadline, s.now), blocksToLive);
  }

  lemma {:induction false} SettledKeeps(s: Deployer, call: DeployCall, i: Instance, required: nat)
    requires Good(s)
    requires MapSum(Kept(s.index, s.now, call.caller)[call.caller := i], Owed(s.now))
          <= Obligation(s) - RemainingTimeToValue(s, call.caller) + required
    requires RemainingTimeToValue(s, call.caller) <= Obligation(s)
    ensures match Settled(s, call, i, required)
      case Ok(s') => Good(s')
      case Err(e) => e != Panicked
  {
    DeployInfoAddedKeeps(s.index, s.now, call.caller, i.workers, i.price, i.deadline);
  }

  lemma {:induction false} DeployedAtKeeps(s: Deployer, call: DeployCall, quote: Option<Balance>)
    requires Good(s)
    ensures match DeployedAt(s, call, quote)
      case Ok(s') => Good(s')
      case Err(e) => e != Panicked
  {
    KeptObligation(s, call.caller);
    if quote.Some? {
      var workers := Dedup(call.workers);
      var deadline := AtMost(s.now + call.blocksToLive, MAX_U32);
      ObligationAfter(s, call.caller, workers, quote.value, call.blocksToLive);
      SettledKeeps(s, call, Instance(workers, deadline, quote.value), Times(quote.value, call.blocksToLive));
    }
  }

  /** A deployment keeps the indexes and the funds in order, and can always pay its refund. */
  lemma {:induction false} DeployedKeeps(s: Deployer, call: DeployCall)
    requires Good(s)
    ensures match Deployed(s, call)
      case Ok(s') => Good(s')
      case Err(e) => e != Panicked
  {
    DeployedAtKeeps(s, call, Quoted(s, call));
  }

  /** A move of the deadline keeps the indexes and the funds in order, and can always pay its refund. */
  lemma {:induction false} UpdatedKeeps(s: Deployer, call: UpdateCall)
    requires Good(s)
    ensures match DeadlineUpdated(s, call)
      case Ok(s') => Good(s')
      case Err(e) => e != Panicked && e != NoDeadline && (e == NoInstances ==> call.caller !in s.index.instances)
  {
    var c := call.caller;
    if c in s.index.instances {
      var i := s.index.instances[c];
      var deadline: BlockNumber := Max(call.deadline, s.now);
      OwedCovers(s, c);
      ClearedKeeps(s.index, c);
      if deadline != i.deadline {
        MovedKeeps(s.index, c, deadline);
        MapSumSet(s.index.instances, Owed(s.now), c, i.(deadline := deadline));
        RefundIsOwed(i, call.paid, deadline, s.now);
      }
    }
  }

  /** The refund never exceeds the payment plus the owed time given up. */
  lemma {:induction false} RefundIsOwed(i: Instance, paid: Balance, deadline: BlockNumber, now: BlockNumber)
    requires now <= deadline
    ensures var r := Refund(i, paid, deadline);
      r.Ok? ==> r.value <= paid + Owed(now)(i) - Owed(now)(i.(deadline := deadline))
    ensures Owed(now)(i.(deadline := deadline)) >= 0
    ensures Refund(i, paid, deadline).Err? ==> Refund(i, paid, deadline).error in {Overflow, NotEnoughValue}
  {
    if deadline > i.deadline {
      if i.deadline >= now {
        TimesSplits(i.price, i.deadline - now, deadline - i.deadline);
        assert i.deadline - now + (deadline - i.deadline) == deadline - now;
      } else {
        TimesGrows(i.price, deadline - now, deadline - i.deadline);
      }
    } else {
      TimesSplits(i.price, deadline - now, i.deadline - deadline);
      assert deadline - now + (i.deadline - deadline) == i.deadline - now;
    }
  }

  /* ---------- whole runs ---------- */

  datatype Event =
    | Deploy(deploy: DeployCall)
    | Update(update: UpdateCall)
    | SetVmPrice(price: Balance)
    | SetMemPrice(price: Balance)
    | SetMax(maxPerWorker: nat)
    | NextBlock(blocks: nat)
    | Receive(amount: nat)

  predicate Reverts(s: Deployer, e: Event)
  {
    match e
    case Deploy(call) => Deployed(s, call).Err?
    case Update(call) => DeadlineUpdated(s, call).Err?
    case NextBlock(blocks) => s.now + blocks > MAX_U32
    case _ => false
  }

  function Next(s: Deployer, e: Event): Deployer
  {
    if Reverts(s, e) then s
    else match e
      case Deploy(call) => Deployed(s, call).value
      case Update(call) => DeadlineUpdated(s, call).value
      case SetVmPrice(price) => s.(vmPrice := price)
      case SetMemPrice(price) => s.(memPrice := price)
      case SetMax(n) => s.(index := s.index.(maxPerWorker := n))
      case NextBlock(blocks) => s.(now := s.now + blocks)
      case Receive(amount) => s.(balance := s.balance + amount)
  }

  function Run(s: Deployer, es: seq<Event>): Deployer
    decreases |es|
  {
    if es == [] then s else Run(Next(s, es[0]), es[1..])
  }

  function New(vmPrice: Balance, memPrice: Balance, maxPerWorker: nat, now: BlockNumber, balance: nat): Deployer
  {
    Deployer(Index(map[], map[], [], maxPerWorker), vmPrice, memPrice, now, balance)
  }

  lemma {:induction false} NextKeeps(s: Deployer, e: Event)
    requires Good(s)
    ensures Good(Next(s, e))
  {
    match e
    case Deploy(call) => DeployedKeeps(s, call);
    case Update(call) => UpdatedKeeps(s, call);
    case NextBlock(blocks) =>
      var s' := Next(s, e);
      OwedNonNegative(s.index.instances, s.now);
      forall c | c in s.index.instances
        ensures Owed(s'.now)(s.index.instances[c]) <= Owed(s.now)(s.index.instances[c])
      {
        var i := s.index.instances[c];
        TimesGrows(i.price, BlocksLeft(i.deadline, s'.now), BlocksLeft(i.deadline, s.now));
      }
      MapSumShrinks(s.index.instances, Owed(s'.now), s.index.instances, Owed(s.now));
    case _ =>
  }

  /**
   Solvency and index agreement over whole runs: whatever mix of deployments, deadline moves, price
   changes and blocks has gone before, the balance covers all time owed, the three indexes agree, and no
   call then made can panic: neither a refund nor an index lookup fails.
   */
  lemma {:induction false} SolventOverRun(s: Deployer, es: seq<Event>, deploy: DeployCall, update: UpdateCall)
    requires Good(s)
    ensures Good(Run(s, es))
    ensures Deployed(Run(s, es), deploy) != Err(Panicked)
    ensures DeadlineUpdated(Run(s, es), update) !in {Err(Panicked), Err(NoDeadline)}
    decreases |es|
  {
    if es == [] {
      DeployedKeeps(s, deploy);
      UpdatedKeeps(s, update);
    } else {
      NextKeeps(s, es[0]);
      SolventOverRun(Next(s, es[0]), es[1..], deploy, update);
    }
  }

  lemma {:induction false} NewIsGood(vmPrice: Balance, memPrice: Balance, maxPerWorker: nat, now: BlockNumber,
                                     balance: nat)
    ensures var s := New(vmPrice, memPrice, maxPerWorker, now, balance); Good(s) && Capped(s.index)
  {
  }

  /** With distinct workers in each deployment and a fixed maximum, no worker ever exceeds it. */
  lemma {:induction false} CappedOverRun(s: Deployer, es: seq<Event>)
    requires Good(s) && Capped(s.index)
    requires forall i :: 0 <= i < |es| ==> !es[i].SetMax? && (es[i].Deploy? ==> Distinct(Dedup(es[i].deploy.workers)))
    ensures Capped(Run(s, es).index)
    decreases |es|
  {
    if es != [] {
      NextKeeps(s, es[0]);
      NextKeepsCap(s, es[0]);
      CappedOverRun(Next(s, es[0]), es[1..]);
    }
  }

  lemma {:induction false} DeployedAtKeepsCap(s: Deployer, call: DeployCall, quote: Option<Balance>)
    requires Good(s) && Capped(s.index) && Distinct(Dedup(call.workers)) && DeployedAt(s, call, quote).Ok?
    ensures Capped(DeployedAt(s, call, quote).value.index)
  {
    var workers, deadline := Dedup(call.workers), AtMost(s.now + call.blocksToLive, MAX_U32);
    CapKept(s.index, s.now, call.caller, workers, quote.value, deadline);
  }

  /** A free deployment on `ws`, sent to a new deployer that gives no worker more than one instance. */
  function FreeCall(c: AccountId, ws: seq<WorkerId>): DeployCall
  {
    DeployCall(c, true, 0, 0, ws, 1, 1, true)
  }

  /** If `dedup` leaves a worker named twice, the message goes through and overloads it. */
  lemma {:induction false} OverloadHappens(c: AccountId, ws: seq<WorkerId>)
    requires !Distinct(Dedup(ws))
    ensures var s := New(0, 0, 1, 0, 0);
      var r := Deployed(s, FreeCall(c, ws));
      Good(s) && Capped(s.index) && r.Ok? && !Capped(r.value.index)
  {
    var s := New(0, 0, 1, 0, 0);
    var n := |Dedup(ws)| % (MAX_U32 + 1);
    TimesIsProduct(0, PAGE_SIZE);
    TimesIsProduct(0, n);
    TimesIsProduct(0, 1);
    assert Quoted(s, FreeCall(c, ws)) == Some(0);
    CapBroken(0, c, Dedup(ws), 0, 1);
  }

  /** The shortest such list: a worker, another one, and the first again. */
  lemma {:induction false} ShortestOverload(c: AccountId, a: WorkerId, b: WorkerId)
    requires a != b
    ensures Dedup([a, b, a]) == [a, b, a]
    ensures var s := New(0, 0, 1, 0, 0);
      var r := Deployed(s, FreeCall(c, [a, b, a]));
      Good(s) && Capped(s.index) && r.Ok? && !Capped(r.value.index)
  {
    var ws := [a, b, a];
    assert ws[1..] == [b, a] && [b, a][1..] == [a];
    assert Dedup([b, a]) == [b] + Dedup([a]) == [b, a];
    assert Dedup(ws) == [a] + Dedup([b, a]) == ws;
    assert !Distinct(ws) by {
      assert ws[0] == ws[2];
    }
    OverloadHappens(c, ws);
  }

  /** Whatever the state and the other arguments, a deployment on `ws` overloads no worker. */
  ghost predicate NeverOverloads(ws: seq<WorkerId>)
  {
    forall s: Deployer, call: DeployCall ::
      call.workers == ws && Good(s) && Capped(s.index) && Deployed(s, call).Ok? ==>
        Capped(Deployed(s, call).value.index)
  }

  /**
   The message guards the maximum for exactly the worker lists in which no worker is left twice once equal
   neighbours are merged.
   */
  lemma {:induction false} OverloadsIffRepeated(c: AccountId, ws: seq<WorkerId>)
    ensures NeverOverloads(ws) <==> Distinct(Dedup(ws))
  {
    if Distinct(Dedup(ws)) {
      forall s: Deployer, call: DeployCall |
        call.workers == ws && Good(s) && Capped(s.index) && Deployed(s, call).Ok?
        ensures Capped(Deployed(s, call).value.index)
      {
        DeployedAtKeepsCap(s, call, Quoted(s, call));
      }
    } else {
      OverloadHappens(c, ws);
    }
  }

  lemma {:induction false} NextKeepsCap(s: Deployer, e: Event)
    requires Good(s) && Capped(s.index)
    requires !e.SetMax? && (e.Deploy? ==> Distinct(Dedup(e.deploy.workers)))
    ensures Capped(Next(s, e).index)
  {
    if !Reverts(s, e) {
      match e
      case Deploy(call) =>
        DeployedAtKeepsCap(s, call, Quoted(s, call));
      case Update(call) =>
        var i := s.index.instances[call.caller];
        var deadline: BlockNumber := Max(call.deadline, s.now);
        ClearedKeeps(s.index, call.caller);
        if deadline != i.deadline {
          MovedKeeps(s.index, call.caller, deadline);
        }
      case _ =>
    }
  }

  /** What a longer life costs is what giving it up again pays back. */
  lemma {:induction false} RefundInverse(i: Instance, paid: Balance, later: BlockNumber)
    requires i.deadline < later && Refund(i, paid, later).Ok?
    ensures Refund(i.(deadline := later), 0, i.deadline) == Ok(paid - Refund(i, paid, later).value)
  {
  }

  /** Buying time and giving it back in the same block restores the instance and the contract's balance. */
  lemma {:induction false} ExtendThenShorten(s: Deployer, c: AccountId, paid: Balance, later: BlockNumber)
    requires Good(s) && c in s.index.instances
    requires s.now < s.index.instances[c].deadline < later
    requires DeadlineUpdated(s, UpdateCall(c, true, paid, later, true)).Ok?
    ensures var s1 := DeadlineUpdated(s, UpdateCall(c, true, paid, later, true)).value;
      var back := DeadlineUpdated(s1, UpdateCall(c, true, 0, s.index.instances[c].deadline, true));
      back.Ok? && back.value.index.instances == s.index.instances && back.value.balance == s.balance
  {
    var i := s.index.instances[c];
    var call := UpdateCall(c, true, paid, later, true);
    var s1 := DeadlineUpdated(s, call).value;
    UpdatedKeeps(s, call);
    assert s1.index.instances == s.index.instances[c := i.(deadline := later)];
    RefundInverse(i, paid, later);
    MovedKeeps(s1.index, c, i.deadline);
    assert s1.index.instances[c := i] == s.index.instances;
  }
}
