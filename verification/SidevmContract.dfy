/** The sidevm deployer contract: storage updated in place, loop by loop, against the value functions. */
module SidevmContract {
  import opened Options
  import opened SidevmIndex
  import opened SidevmDeployer

  datatype Info = Info(
    blockNumber: BlockNumber,
    vmPrice: Balance,
    memPrice: Balance,
    maxPerWorker: nat,
    instances: map<AccountId, Instance>,
    workers: map<WorkerId, seq<BlockNumber>>)

  class SidevmOp {
    var vmPrice: Balance
    var memPrice: Balance
    var deadlines: map<WorkerId, seq<BlockNumber>>
    var instances: map<AccountId, Instance>
    var running: seq<AccountId>
    var maxPerWorker: nat
    // The environment: the current block and the contract's own account.
    var now: BlockNumber
    var balance: nat

    ghost function IndexView(): Index
      reads this
    {
      Index(deadlines, instances, running, maxPerWorker)
    }

    ghost function View(): Deployer
      reads this
    {
      Deployer(IndexView(), vmPrice, memPrice, now, balance)
    }

    constructor (vmPrice: Balance, memPrice: Balance, maxPerWorker: nat, now: BlockNumber, balance: nat)
      ensures View() == New(vmPrice, memPrice, maxPerWorker, now, balance) && Good(View())
    {
      this.vmPrice, this.memPrice, this.maxPerWorker := vmPrice, memPrice, maxPerWorker;
      this.now, this.balance := now, balance;
      deadlines, instances, running := map[], map[], [];
      new;
      NewIsGood(vmPrice, memPrice, maxPerWorker, now, balance);
    }

    /** `position` and `remove` on one list. */
    static method TakeOut(ds: seq<BlockNumber>, d: BlockNumber) returns (rest: seq<BlockNumber>, found: bool)
      ensures found <==> d in ds
      ensures rest == RemoveFirst(ds, d)
    {
      var k := 0;
      while k < |ds| && ds[k] != d
        invariant k <= |ds|
        invariant d !in ds[..k]
        invariant RemoveFirst(ds, d) == ds[..k] + RemoveFirst(ds[k..], d)
      {
        assert ds[k..][1..] == ds[k + 1..];
        k := k + 1;
      }
      if k < |ds| {
        rest, found := ds[..k] + ds[k + 1..], true;
        assert ds[k..][1..] == ds[k + 1..];
      } else {
        rest, found := ds, false;
      }
    }

    method Retain(c: AccountId)
      modifies this`running
      ensures running == Without(old(running), c)
    {
      var kept: seq<AccountId> := [];
      var k := 0;
      while k < |running|
        invariant k <= |running|
        invariant running == old(running)
        invariant Without(old(running), c) == kept + Without(old(running)[k..], c)
      {
        assert running[k..][1..] == running[k + 1..];
        if running[k] != c {
          kept := kept + [running[k]];
        }
        k := k + 1;
      }
      running := kept;
    }

    method ClearContract(c: AccountId) returns (ok: bool)
      modifies this`running, this`instances, this`deadlines
      ensures (IndexView(), ok) == Cleared(old(IndexView()), c)
    {
      Retain(c);
      if c !in instances {
        return false;
      }
      var i := instances[c];
      instances := instances - {c};
      var k := 0;
      while k < |i.workers|
        invariant k <= |i.workers|
        invariant ReleaseWorkers(deadlines, i.workers[k..], i.deadline)
               == ReleaseWorkers(old(deadlines), i.workers, i.deadline)
        invariant running == Without(old(running), c) && instances == old(instances) - {c}
      {
        var worker := i.workers[k];
        assert i.workers[k..][1..] == i.workers[k + 1..];
        if worker !in deadlines {
          return false;
        }
        var list, _ := TakeOut(deadlines[worker], i.deadline);
        if list == [] {
          deadlines := deadlines - {worker};
        } else {
          deadlines := deadlines[worker := list];
        }
        k := k + 1;
      }
      ok := true;
    }

    /** The contracts whose deadline has passed; the lookup cannot fail. */
    static method CollectExpired(instances: map<AccountId, Instance>, running: seq<AccountId>, now: BlockNumber)
      returns (toRemove: seq<AccountId>)
      requires AllKnown(instances, running)
      ensures toRemove == Expired(instances, running, now)
    {
      toRemove := [];
      for k := 0 to |running|
        invariant toRemove == Expired(instances, running[..k], now)
      {
        assert running[..k + 1][..k] == running[..k];
        if instances[running[k]].deadline < now {
          toRemove := toRemove + [running[k]];
        }
      }
      assert running[..|running|] == running;
    }

    /** Clears contract after contract; none of the clearings fails. */
    method ClearEach(toRemove: seq<AccountId>)
      requires ClearedAll(IndexView(), toRemove).Ok?
      modifies this`running, this`instances, this`deadlines
      ensures ClearedAll(old(IndexView()), toRemove) == Ok(IndexView())
    {
      var k := 0;
      while k < |toRemove|
        invariant k <= |toRemove|
        invariant ClearedAll(IndexView(), toRemove[k..]) == ClearedAll(old(IndexView()), toRemove)
      {
        assert toRemove[k..][1..] == toRemove[k + 1..];
        var ok := ClearContract(toRemove[k]);
        assert ok;
        k := k + 1;
      }
    }

    method Recycle()
      requires Valid(IndexView())
      modifies this`running, this`instances, this`deadlines
      ensures Recycled(old(IndexView()), now) == Ok(IndexView())
      ensures Valid(IndexView())
    {
      RecycledKeeps(IndexView(), now);
      var toRemove := CollectExpired(instances, running, now);
      ClearEach(toRemove);
    }

    method EnsureAvailable(workers: seq<WorkerId>) returns (ok: bool)
      ensures ok <==> Available(IndexView(), workers)
    {
      for k := 0 to |workers|
        invariant forall i :: 0 <= i < k ==> |ListOf(deadlines, workers[i])| < maxPerWorker
      {
        var list := if workers[k] in deadlines then deadlines[workers[k]] else [];
        if |list| >= maxPerWorker {
          return false;
        }
      }
      return true;
    }

    method AddDeployInfo(c: AccountId, workers: seq<WorkerId>, price: Balance, deadline: BlockNumber)
      returns (r: Result<()>)
      requires Valid(IndexView())
      modifies this`running, this`instances, this`deadlines
      ensures Recycled(old(IndexView()), now).Ok?
      ensures match DeployInfoAdded(old(IndexView()), now, c, workers, price, deadline)
        case Ok(s) => r == Ok(()) && IndexView() == s
        case Err(e) => r == Err(e) && IndexView() == Cleared(Recycled(old(IndexView()), now).value, c).0
    {
      RecycledKeeps(IndexView(), now);
      Recycle();
      var _ := ClearContract(c);
      var available := EnsureAvailable(workers);
      if !available {
        return Err(NoAvailableWorkers);
      }
      ghost var s2 := IndexView();
      var i := Instance(workers, deadline, price);
      instances := instances[c := i];
      var k := 0;
      while k < |workers|
        invariant k <= |workers|
        invariant AddDeadlines(deadlines, workers[k..], deadline) == AddDeadlines(s2.deadlines, workers, deadline)
        invariant instances == s2.instances[c := i] && running == s2.running
      {
        assert workers[k..][1..] == workers[k + 1..];
        var list := if workers[k] in deadlines then deadlines[workers[k]] else [];
        deadlines := deadlines[workers[k] := list + [deadline]];
        k := k + 1;
      }
      running := running + [c];
      r := Ok(());
    }

    /**
     Takes the price out of the payment and the time left, pays the rest back and enters the instance. An
     error reverts storage and payment, as the contract runtime does.
     */
    method Settle(call: DeployCall, i: Instance, required: nat) returns (r: Result<()>)
      requires Good(View())
      modifies this
      ensures match Settled(old(View()), call, i, required)
        case Ok(s) => r == Ok(()) && View() == s
        case Err(e) => r == Err(e) && View() == old(View())
    {
      KeptObligation(View(), call.caller);
      var index := Index(deadlines, instances, running, maxPerWorker);
      var remaining := RemainingTimeToValue(Deployer(index, vmPrice, memPrice, now, balance), call.caller);
      var available := AtMost(call.paid + remaining, MAX_BALANCE);
      if required > MAX_BALANCE {
        return Err(Overflow);
      }
      if available < required {
        return Err(NotEnoughValue);
      }
      var saved := (deadlines, instances, running, balance);
      balance := balance + call.paid;
      if available > required {
        assert available - required <= balance;
        balance := balance - (available - required);
      }
      r := AddDeployInfo(call.caller, i.workers, i.price, i.deadline);
      if r.Ok? && !call.systemAccepts {
        r := Err(SystemError);
      }
      if r.Err? {
        deadlines, instances, running, balance := saved.0, saved.1, saved.2, saved.3;
      }
    }

    method DeployToWorkers(call: DeployCall) returns (r: Result<()>)
      requires Good(View())
      modifies this
      ensures match Deployed(old(View()), call)
        case Ok(s) => r == Ok(()) && View() == s
        case Err(e) => r == Err(e) && View() == old(View())
      ensures Good(View()) && r != Err(Panicked)
    {
      ghost var s := View();
      if !call.inTransaction {
        return Err(TransactionRequired);
      }
      var workers := Dedup(call.workers);
      if workers == [] {
        return Err(NoWorkers);
      }
      if call.memoryPages == 0 {
        return Err(NoMemory);
      }
      if call.blocksToLive == 0 {
        return Err(LiveTooShort);
      }
      var quote := CalcPricePerBlock(vmPrice, memPrice, call.codeSize, call.memoryPages, |workers| % (MAX_U32 + 1));
      if quote == None {
        return Err(Overflow);
      }
      var price := quote.value;
      var deadline := AtMost(now + call.blocksToLive, MAX_U32);
      r := Settle(call, Instance(workers, deadline, price), Times(price, call.blocksToLive));
      DeployedKeeps(s, call);
    }

    method UpdateDeadline(call: UpdateCall) returns (r: Result<()>)
      requires Good(View())
      modifies this
      ensures match DeadlineUpdated(old(View()), call)
        case Ok(s) => r == Ok(()) && View() == s
        case Err(e) => r == Err(e) && View() == old(View())
      ensures Good(View()) && r !in {Err(Panicked), Err(NoDeadline)}
    {
      ghost var s := View();
      UpdatedKeeps(s, call);
      if !call.inTransaction {
        return Err(TransactionRequired);
      }
      if call.caller !in instances {
        return Err(NoInstances);
      }
      var current := instances[call.caller];
      var deadline: BlockNumber := Max(call.deadline, now);
      if deadline == current.deadline {
        return Ok(());
      }
      OwedCovers(s, call.caller);
      RefundIsOwed(current, call.paid, deadline, now);
      var refund := ComputeRefund(current, call.paid, deadline);
      if refund.Err? {
        return Err(refund.error);
      }
      if deadline == now {
        balance := balance + call.paid - refund.value;
        var _ := ClearContract(call.caller);
        return Ok(());
      }
      MovedKeeps(s.index, call.caller, deadline);
      var moved := MoveEach(deadlines, current.workers, current.deadline, deadline);
      if !call.systemAccepts {
        return Err(SystemError);
      }
      deadlines := moved;
      balance := balance + call.paid - refund.value;
      instances := instances[call.caller := current.(deadline := deadline)];
      r := Ok(());
    }

    static method ComputeRefund(current: Instance, paid: Balance, deadline: BlockNumber)
      returns (refund: Result<Balance>)
      ensures refund == Refund(current, paid, deadline)
    {
      if deadline > current.deadline {
        var cost := Times(current.price, deadline - current.deadline);
        if cost > MAX_BALANCE {
          return Err(Overflow);
        }
        if paid < cost {
          return Err(NotEnoughValue);
        }
        refund := Ok(paid - cost);
      } else {
        var value := Times(current.price, current.deadline - deadline);
        if value > MAX_BALANCE || paid + value > MAX_BALANCE {
          return Err(Overflow);
        }
        refund := Ok(paid + value);
      }
    }

    /** The update loop; neither of its lookups can fail. */
    static method MoveEach(before: DeadlineMap, workers: seq<WorkerId>, from: BlockNumber, to: BlockNumber)
      returns (dl: DeadlineMap)
      requires MoveDeadlines(before, workers, from, to).Ok?
      ensures MoveDeadlines(before, workers, from, to) == Ok(dl)
    {
      dl := before;
      var k := 0;
      while k < |workers|
        invariant k <= |workers|
        invariant MoveDeadlines(dl, workers[k..], from, to) == MoveDeadlines(before, workers, from, to)
      {
        assert workers[k..][1..] == workers[k + 1..];
        assert workers[k] in dl && from in dl[workers[k]];
        var rest, found := TakeOut(dl[workers[k]], from);
        dl := dl[workers[k] := rest + [to]];
        k := k + 1;
      }
    }

    /** Copies the lists of an instance's workers into the report. */
    method ReportWorkers(ws: seq<WorkerId>, before: DeadlineMap) returns (workers: DeadlineMap)
      requires forall w :: w in ws ==> w in deadlines
      requires forall w :: w in before ==> w in deadlines && before[w] == deadlines[w]
      ensures forall w :: w in workers <==> w in before || w in ws
      ensures forall w :: w in workers ==> w in deadlines && workers[w] == deadlines[w]
    {
      workers := before;
      for j := 0 to |ws|
        invariant forall w :: w in workers <==> w in before || w in ws[..j]
        invariant forall w :: w in workers ==> w in deadlines && workers[w] == deadlines[w]
      {
        workers := workers[ws[j] := deadlines[ws[j]]];
      }
    }

    method Report() returns (info: Info)
      requires forall i :: 0 <= i < |running| ==> running[i] in instances
      requires forall c, w :: c in instances && w in instances[c].workers ==> w in deadlines
      ensures info == Info(now, vmPrice, memPrice, maxPerWorker, info.instances, info.workers)
      ensures forall c :: c in info.instances <==> c in running
      ensures forall c :: c in running ==> info.instances[c] == instances[c]
      ensures forall w :: w in info.workers ==> w in deadlines && info.workers[w] == deadlines[w]
      ensures forall c, w :: c in running && w in instances[c].workers ==> w in info.workers
    {
      var seen: map<AccountId, Instance> := map[];
      var workers: map<WorkerId, seq<BlockNumber>> := map[];
      for k := 0 to |running|
        invariant forall c :: c in seen <==> c in running[..k]
        invariant forall c :: c in seen ==> c in instances && seen[c] == instances[c]
        invariant forall w :: w in workers ==> w in deadlines && workers[w] == deadlines[w]
        invariant forall c, w :: c in seen && w in seen[c].workers ==> w in workers
      {
        var c := running[k];
        var i := instances[c];
        workers := ReportWorkers(i.workers, workers);
        seen := seen[c := i];
      }
      info := Info(now, vmPrice, memPrice, maxPerWorker, seen, workers);
    }

    /** The report lists every instance and every worker list, and its lookups cannot fail. */
    method GetInfo() returns (info: Info)
      requires Valid(IndexView())
      ensures info == Info(now, vmPrice, memPrice, maxPerWorker, instances, deadlines)
    {
      ListsMatchNames(IndexView());
      info := Report();
    }
  }
}
