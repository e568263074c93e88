/**
 Stake bookkeeping: each user's stake on a contract, each contract's total, and the balances moved between
 users and the pallet account. Arithmetic is that of 128-bit words that wrap around.
 */
module StakeLedger {
  import opened Sums

  type AccountId(==, !new)
  type ContractId(==, !new)

  const WORD: nat := 0x1_0000_0000_0000_0000_0000_0000_0000_0000

  // The largest value of a word.
  const LARGEST: nat := 0xFFFF_FFFF_FFFF_FFFF_FFFF_FFFF_FFFF_FFFF

  type Balance = nat

  datatype StakeKey = StakeKey(user: AccountId, contract: ContractId)

  datatype Ledger = Ledger(
    stakes: map<StakeKey, Balance>,
    totals: map<ContractId, Balance>,
    balances: map<AccountId, nat>,
    minStake: Balance,
    pallet: AccountId)

  datatype Error = InvalidAmountOfStake | TransferFailed

  datatype Result = Ok(ledger: Ledger) | Err(error: Error)

  function StakeOf(l: Ledger, user: AccountId, contract: ContractId): Balance
  {
    if StakeKey(user, contract) in l.stakes then l.stakes[StakeKey(user, contract)] else 0
  }

  function TotalOf(l: Ledger, contract: ContractId): Balance
  {
    if contract in l.totals then l.totals[contract] else 0
  }

  function BalanceOf(l: Ledger, a: AccountId): nat
  {
    if a in l.balances then l.balances[a] else 0
  }

  /** Moves an amount, or fails for lack of funds. */
  function Transferred(l: Ledger, from: AccountId, to: AccountId, amount: nat): Result
  {
    if BalanceOf(l, from) < amount then Err(TransferFailed)
    else
      var debited := l.(balances := l.balances[from := BalanceOf(l, from) - amount]);
      Ok(debited.(balances := debited.balances[to := BalanceOf(debited, to) + amount]))
  }

  /** The new total as the code computes it, before the transfer is tried. */
  function NewTotal(l: Ledger, user: AccountId, contract: ContractId, amount: Balance): Balance
  {
    (TotalOf(l, contract) + amount - StakeOf(l, user, contract)) % WORD
  }

  /** Takes a raised stake from the user, or pays a lowered one back. */
  function Moved(l: Ledger, user: AccountId, orig: Balance, amount: Balance): Result
  {
    if amount > orig then Transferred(l, user, l.pallet, amount - orig)
    else Transferred(l, l.pallet, user, orig - amount)
  }

  function StakeAdjusted(l: Ledger, user: AccountId, contract: ContractId, amount: Balance): Result
  {
    if amount != 0 && amount < l.minStake then Err(InvalidAmountOfStake)
    else
      var total := NewTotal(l, user, contract, amount);
      match Moved(l, user, StakeOf(l, user, contract), amount)
      case Err(e) => Err(e)
      case Ok(l1) =>
        Ok(l1.(stakes := l.stakes[StakeKey(user, contract) := amount], totals := l.totals[contract := total]))
  }

  /* ---------- the invariant ---------- */

  function StakesOn(stakes: map<StakeKey, Balance>, contract: ContractId): map<StakeKey, Balance>
  {
    map k | k in stakes && k.contract == contract :: stakes[k]
  }

  function Amount(n: nat): int { n }

  ghost predicate TotalRight(l: Ledger, contract: ContractId)
  {
    TotalOf(l, contract) == MapSum(StakesOn(l.stakes, contract), Amount)
  }

  ghost predicate Inv(l: Ledger)
  {
    && (forall c :: TotalRight(l, c))
    && BalanceOf(l, l.pallet) >= MapSum(l.totals, Amount)
    && MapSum(l.balances, Amount) < WORD
  }

  lemma {:induction false} TransferKeepsIssuance(l: Ledger, from: AccountId, to: AccountId, amount: nat)
    requires Transferred(l, from, to, amount).Ok?
    ensures MapSum(Transferred(l, from, to, amount).ledger.balances, Amount) == MapSum(l.balances, Amount)
  {
    var debited := l.(balances := l.balances[from := BalanceOf(l, from) - amount]);
    MapSumSet<AccountId, nat>(l.balances, Amount, from, BalanceOf(l, from) - amount);
    MapSumSet<AccountId, nat>(debited.balances, Amount, to, BalanceOf(debited, to) + amount);
  }

  lemma {:induction false} StakeIsInTotal(l: Ledger, user: AccountId, contract: ContractId)
    requires Inv(l)
    ensures StakeOf(l, user, contract) <= TotalOf(l, contract) <= BalanceOf(l, l.pallet)
  {
    assert TotalRight(l, contract);
    var on := StakesOn(l.stakes, contract);
    MapSumNonNegative(on, Amount);
    if StakeKey(user, contract) in l.stakes {
      MapSumAtLeast(on, Amount, StakeKey(user, contract));
    }
    MapSumNonNegative(l.totals, Amount);
    if contract in l.totals {
      MapSumAtLeast(l.totals, Amount, contract);
    }
  }

  /** Two accounts together never hold more than all accounts. */
  lemma {:induction false} TwoBalances(l: Ledger, a: AccountId, b: AccountId)
    requires a != b
    ensures BalanceOf(l, a) + BalanceOf(l, b) <= MapSum(l.balances, Amount)
  {
    MapSumNonNegative(l.balances, Amount);
    if a in l.balances {
      MapSumRemove(l.balances, Amount, a);
      MapSumNonNegative(l.balances - {a}, Amount);
      if b in l.balances {
        MapSumAtLeast(l.balances - {a}, Amount, b);
      }
    } else if b in l.balances {
      MapSumAtLeast(l.balances, Amount, b);
    }
  }

  /** In a call that goes through, neither the addition nor the subtraction on the total wraps. */
  lemma {:induction false} NoWrapWhenPaid(l: Ledger, user: AccountId, contract: ContractId, amount: Balance)
    requires Inv(l) && user != l.pallet
    requires amount > StakeOf(l, user, contract) ==> amount - StakeOf(l, user, contract) <= BalanceOf(l, user)
    ensures NewTotal(l, user, contract, amount) == TotalOf(l, contract) + amount - StakeOf(l, user, contract)
  {
    StakeIsInTotal(l, user, contract);
    TwoBalances(l, user, l.pallet);
  }

  /**
   The addition, done before the transfer, can wrap; it does so exactly when the raise does not fit above the
   total, and then the call fails and leaves the ledger alone.
   */
  lemma {:induction false} WrapIff(l: Ledger, user: AccountId, contract: ContractId, amount: Balance)
    requires Inv(l) && user != l.pallet && amount <= LARGEST
    ensures var raise := amount - StakeOf(l, user, contract);
      && (NewTotal(l, user, contract, amount) != TotalOf(l, contract) + raise <==>
            raise > LARGEST - TotalOf(l, contract))
      && (raise > LARGEST - TotalOf(l, contract) ==> StakeAdjusted(l, user, contract, amount).Err?)
  {
    StakeIsInTotal(l, user, contract);
    TwoBalances(l, user, l.pallet);
  }

  /** The wrap does happen: a user with nothing asks for the largest stake beside an existing one. */
  lemma {:induction false} WrapHappens(alice: AccountId, bob: AccountId, pallet: AccountId, contract: ContractId)
    requires alice != bob && alice != pallet && bob != pallet
    ensures var l := Ledger(map[StakeKey(alice, contract) := 2], map[contract := 2], map[pallet := 2], 0, pallet);
      Inv(l) && NewTotal(l, bob, contract, LARGEST) == 1
  {
    var l := Ledger(map[StakeKey(alice, contract) := 2], map[contract := 2], map[pallet := 2], 0, pallet);
    forall c
      ensures TotalRight(l, c)
    {
      if c == contract {
        assert StakesOn(l.stakes, c) == l.stakes;
        SingleSum(l.stakes, StakeKey(alice, contract));
      } else {
        assert StakesOn(l.stakes, c) == map[];
      }
    }
    SingleSum(l.totals, contract);
    SingleSum(l.balances, pallet);
  }

  lemma {:induction false} SingleSum<K>(m: map<K, nat>, k: K)
    requires m.Keys == {k}
    ensures MapSum(m, Amount) == m[k]
  {
    MapSumRemove(m, Amount, k);
    assert m - {k} == map[];
  }

  lemma {:induction false} TotalsAfter(l: Ledger, user: AccountId, contract: ContractId, amount: Balance, l': Ledger)
    requires Inv(l)
    requires NewTotal(l, user, contract, amount) == TotalOf(l, contract) + amount - StakeOf(l, user, contract)
    requires l'.stakes == l.stakes[StakeKey(user, contract) := amount]
    requires l'.totals == l.totals[contract := NewTotal(l, user, contract, amount)]
    ensures forall c :: TotalRight(l', c)
    ensures MapSum(l'.totals, Amount) == MapSum(l.totals, Amount) + amount - StakeOf(l, user, contract)
  {
    MapSumSet<ContractId, nat>(l.totals, Amount, contract, NewTotal(l, user, contract, amount));
    forall c
      ensures TotalRight(l', c)
    {
      assert TotalRight(l, c);
      if c == contract {
        MapSumSet<StakeKey, nat>(StakesOn(l.stakes, c), Amount, StakeKey(user, contract), amount);
        assert StakesOn(l'.stakes, c) == StakesOn(l.stakes, c)[StakeKey(user, contract) := amount];
      } else {
        assert StakesOn(l'.stakes, c) == StakesOn(l.stakes, c);
      }
    }
  }

  lemma {:induction false} AdjustedKeeps(l: Ledger, user: AccountId, contract: ContractId, amount: Balance)
    requires Inv(l) && user != l.pallet && StakeAdjusted(l, user, contract, amount).Ok?
    ensures var l' := StakeAdjusted(l, user, contract, amount).ledger;
      && Inv(l') && l'.pallet == l.pallet
      && StakeOf(l', user, contract) == amount
      && BalanceOf(l', user) + amount == BalanceOf(l, user) + StakeOf(l, user, contract)
  {
    var l' := StakeAdjusted(l, user, contract, amount).ledger;
    var orig := StakeOf(l, user, contract);
    NoWrapWhenPaid(l, user, contract, amount);
    TotalsAfter(l, user, contract, amount, l');
    if amount > orig {
      TransferKeepsIssuance(l, user, l.pallet, amount - orig);
    } else {
      TransferKeepsIssuance(l, l.pallet, user, orig - amount);
    }
  }

  /**
   A call goes through if and only if the amount is zero or at least the minimum, and the stake it replaces
   and the user's balance together cover it; otherwise the error names which of the two fails.
   */
  lemma {:induction false} AdjustedIff(l: Ledger, user: AccountId, contract: ContractId, amount: Balance)
    requires Inv(l) && user != l.pallet
    ensures var r := StakeAdjusted(l, user, contract, amount);
      var allowed := amount == 0 || amount >= l.minStake;
      && (r.Ok? <==> allowed && amount <= StakeOf(l, user, contract) + BalanceOf(l, user))
      && (r.Err? ==> r.error == if allowed then TransferFailed else InvalidAmountOfStake)
  {
    StakeIsInTotal(l, user, contract);
  }

  /** What a call that goes through changes: one stake, one total, two balances, each by the same difference. */
  lemma {:induction false} AdjustedExactly(l: Ledger, user: AccountId, contract: ContractId, amount: Balance)
    requires Inv(l) && user != l.pallet && StakeAdjusted(l, user, contract, amount).Ok?
    ensures var l' := StakeAdjusted(l, user, contract, amount).ledger;
      var raise := amount - StakeOf(l, user, contract);
      && (forall u, c :: StakeOf(l', u, c) == if u == user && c == contract then amount else StakeOf(l, u, c))
      && (forall c :: TotalOf(l', c) == TotalOf(l, c) + if c == contract then raise else 0)
      && (forall a :: BalanceOf(l', a)
           == BalanceOf(l, a) + if a == user then -raise else if a == l.pallet then raise else 0)
      && l'.minStake == l.minStake && l'.pallet == l.pallet
  {
    NoWrapWhenPaid(l, user, contract, amount);
  }

  /** A user can always lower a stake, down to nothing: the pallet account never lacks the funds. */
  lemma {:induction false} AlwaysWithdrawable(l: Ledger, user: AccountId, contract: ContractId, amount: Balance)
    requires Inv(l) && amount <= StakeOf(l, user, contract) && (amount == 0 || amount >= l.minStake)
    ensures StakeAdjusted(l, user, contract, amount).Ok?
  {
    StakeIsInTotal(l, user, contract);
  }

  /* ---------- whole runs ---------- */

  datatype Event =
    | Adjust(user: AccountId, contract: ContractId, amount: Balance)
    | SetMinStake(amount: Balance)
    | Pay(from: AccountId, to: AccountId, funds: nat)

  /** Nobody signs for the pallet account. */
  predicate Enabled(l: Ledger, e: Event)
  {
    match e
    case Adjust(user, _, _) => user != l.pallet
    case SetMinStake(_) => true
    case Pay(from, _, _) => from != l.pallet
  }

  /** A failed call leaves the ledger as it was. */
  function Next(l: Ledger, e: Event): Ledger
  {
    match e
    case Adjust(user, contract, amount) =>
      var r := StakeAdjusted(l, user, contract, amount);
      if r.Ok? then r.ledger else l
    case SetMinStake(amount) => l.(minStake := amount)
    case Pay(from, to, funds) =>
      var r := Transferred(l, from, to, funds);
      if r.Ok? then r.ledger else l
  }

  predicate Legal(l: Ledger, es: seq<Event>)
    decreases |es|
  {
    es == [] || (Enabled(l, es[0]) && Legal(Next(l, es[0]), es[1..]))
  }

  function Run(l: Ledger, es: seq<Event>): Ledger
    decreases |es|
  {
    if es == [] then l else Run(Next(l, es[0]), es[1..])
  }

  lemma {:induction false} NextKeeps(l: Ledger, e: Event)
    requires Inv(l) && Enabled(l, e)
    ensures Inv(Next(l, e)) && Next(l, e).pallet == l.pallet
  {
    match e
    case Adjust(user, contract, amount) =>
      if StakeAdjusted(l, user, contract, amount).Ok? {
        AdjustedKeeps(l, user, contract, amount);
      }
    case SetMinStake(amount) =>
      assert forall c :: TotalRight(l, c) ==> TotalRight(Next(l, e), c);
    case Pay(from, to, funds) =>
      if Transferred(l, from, to, funds).Ok? {
        TransferKeepsIssuance(l, from, to, funds);
        assert forall c :: TotalRight(l, c) ==> TotalRight(Next(l, e), c);
      }
  }

  /**
   Stake conservation: in every run each contract's total is the sum of its users' stakes, the pallet account
   covers all totals, and every user can take every stake back.
   */
  lemma {:induction false} StakesOverRun(l: Ledger, es: seq<Event>, user: AccountId, contract: ContractId)
    requires Inv(l) && Legal(l, es)
    ensures var l' := Run(l, es);
      Inv(l') && l'.pallet == l.pallet && StakeAdjusted(l', user, contract, 0).Ok?
    decreases |es|
  {
    if es == [] {
      AlwaysWithdrawable(l, user, contract, 0);
    } else {
      NextKeeps(l, es[0]);
      StakesOverRun(Next(l, es[0]), es[1..], user, contract);
    }
  }

  /* ---------- the pallet object ---------- */

  class PhatTokenomic {
    const pallet: AccountId
    var stakes: map<StakeKey, Balance>
    var totals: map<ContractId, Balance>
    var balances: map<AccountId, nat>
    var minStake: Balance

    ghost function View(): Ledger
      reads this
    {
      Ledger(stakes, totals, balances, minStake, pallet)
    }

    constructor (pallet: AccountId, balances: map<AccountId, nat>, minStake: Balance)
      requires MapSum(balances, Amount) < WORD
      ensures View() == Ledger(map[], map[], balances, minStake, pallet) && Inv(View())
    {
      this.pallet, this.balances, this.minStake := pallet, balances, minStake;
      stakes, totals := map[], map[];
      new;
      forall c
        ensures TotalRight(View(), c)
      {
        assert StakesOn(stakes, c) == map[];
      }
    }

    method Transfer(from: AccountId, to: AccountId, amount: nat) returns (ok: bool)
      modifies this`balances
      ensures match Transferred(old(View()), from, to, amount)
        case Ok(l) => ok && View() == l
        case Err(_) => !ok && View() == old(View())
    {
      var have := if from in balances then balances[from] else 0;
      if have < amount {
        return false;
      }
      balances := balances[from := have - amount];
      var there := if to in balances then balances[to] else 0;
      balances := balances[to := there + amount];
      return true;
    }

    /** `total += delta` or `total -= delta`, on words. */
    method AdjustedTotal(contract: ContractId, orig: Balance, amount: Balance) returns (total: Balance)
      ensures total == (TotalOf(View(), contract) + amount - orig) % WORD
    {
      total := if contract in totals then totals[contract] else 0;
      if amount > orig {
        total := (total + (amount - orig)) % WORD;
      } else {
        total := (total - (orig - amount)) % WORD;
      }
    }

    method Move(user: AccountId, orig: Balance, amount: Balance) returns (ok: bool)
      modifies this`balances
      ensures match Moved(old(View()), user, orig, amount)
        case Ok(l) => ok && View() == l
        case Err(_) => !ok && View() == old(View())
    {
      if amount > orig {
        ok := Transfer(user, pallet, amount - orig);
      } else {
        ok := Transfer(pallet, user, orig - amount);
      }
    }

    method AdjustStake(user: AccountId, contract: ContractId, amount: Balance) returns (ok: bool, error: Error)
      requires Inv(View()) && user != pallet
      modifies this
      ensures match StakeAdjusted(old(View()), user, contract, amount)
        case Ok(l) => ok && View() == l
        case Err(e) => !ok && error == e && View() == old(View())
      ensures Inv(View())
    {
      ok, error := false, InvalidAmountOfStake;
      if amount != 0 && amount < minStake {
        return;
      }
      ghost var l := View();
      var key := StakeKey(user, contract);
      var orig := if key in stakes then stakes[key] else 0;
      var total := AdjustedTotal(contract, orig, amount);
      assert total == NewTotal(l, user, contract, amount);
      ok := Move(user, orig, amount);
      if !ok {
        error := TransferFailed;
        return;
      }
      stakes := stakes[key := amount];
      totals := totals[contract := total];
      AdjustedKeeps(l, user, contract, amount);
    }
  }
}
