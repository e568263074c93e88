# Verified model of the Cyrux schedulers, queues, storage and ledgers

This project models the state machines at the centre of the Cyrux node and its off-chain worker, and proves what
they promise over whole runs.

| files | what they model |
|---|---|
| `RequestScheduler.dfy`, `RequestFairness.dfy`, `RequestCosts.dfy` | the start-time fair queue for requests |
| `TaskScheduler.dfy`, `TaskFairness.dfy`, `TaskCosts.dfy`, `TaskRuns.dfy` | the virtual-runtime task scheduler |
| `SidevmIndex.dfy`, `SidevmDeployer.dfy`, `SidevmMoney.dfy`, `SidevmContract.dfy` | the contract that sells sidevm time on workers |
| `MemoryDb.dfy`, `DrainOrder.dfy`, `TrieKeys.dfy` | the reference-counted trie database and its keyless serialised form |
| `SendQueue.dfy`, `IngressProtocol.dfy` | the off-chain send queue, the pallet's ingress counter, and the protocol between them |
| `Dispatcher.dfy`, `DispatcherObjects.dfy` | the in-process dispatcher and `select!` |
| `RcuDispatch.dfy` | read-copy-update block dispatch |
| `StakeLedger.dfy` | stake bookkeeping on contracts |
| `Allocator.dfy` | the counting allocator's lock-free peak |
| `Options.dfy`, `Sums.dfy`, `Counting.dfy`, `Quotients.dfy` | options and distinctness, sums over maps, counting of distinct pairs, rounded quotients |

Each component has its operations as functions on values, a `World` with events (`Enabled`, `Next`, `Legal`, `Run`),
an invariant kept by every event, and theorems by induction over runs. Where the program changes an object in place
there is a class with the same fields; each of its methods ends in the state that the function gives. The table below
names the whole operations among them; their small steps carry contracts of the same kind. What the functions
themselves compute is pinned down by laws in plain arithmetic and by invariants. Automatic induction is switched off in
every lemma.

Where an entry of an ordered multimap may stand among entries with an equal key, the model takes the place as a
parameter (`slot`), and the theorems hold for every choice. Guards are tokens, and measured costs, signatures, block
numbers and the acceptance by the system contract are inputs. `Times` in `SidevmDeployer.dfy` is multiplication,
which `TimesIsProduct` states.

## Where the code falls short of the plain statement

- Adding a repeated worker: `Vec::dedup` only removes neighbours, so [a, b, a] names a worker twice and exceeds the
  maximum; the message keeps the maximum exactly for lists that `dedup` leaves without repetition
  (`SidevmDeployer.OverloadsIffRepeated`, `SidevmDeployer.ShortestOverload`).
- Raising a stake: the total is added up before the transfer and can wrap in a call that then fails
  (`StakeLedger.WrapIff`, `StakeLedger.WrapHappens`); it never wraps in a call that goes through.
- Consolidating a zero count: whether a hash is left behind depends on the drain order exactly when its counts cancel
  out and zero and non-zero counts for it stand side by side (`DrainOrder.PresenceIgnoresOrderIff`,
  `MemoryDb.ZeroCountShowsOrder`); every lookup agrees all the same (`MemoryDb.LookupsIgnoreOrder`).
- Serialising a negative count: the key is not recoverable (`MemoryDb.RoundTripIff`, `MemoryDb.NegativeCountIsLost`).
- Polling an exited task again while an old guard or queue entry remains breaks the core accounting, and nothing else
  does (`TaskScheduler.PolledKeepsIffFresh`, `TaskRuns.StaleEntryHappens`, `TaskRuns.StaleGuardHappens`).
- The clock reset does not rebase queued keys (`TaskFairness.ResetKeepsRuntimesIff`,
  `TaskFairness.ResetKeepsReachIff`, `TaskRuns.StrandedKeyHappens`).
- More than 64 side effects during one dispatch: the surplus is dropped (`RcuDispatch.EffectsKeptIff`,
  `RcuDispatch.LossHappens`).
- Overlapping `stats` calls can lose the peak, which is safe exactly with at most one calling thread
  (`Allocator.PeakKeptIffOneCaller`, `Allocator.TwoCallersLoseThePeak`).

## Model

| member | source | states |
|---|---|---|
| `RequestFairness.FairnessBound` | crates/cyrux-scheduler/src/request_scheduler.rs:196-275 | After any history, over any stretch in which two flows both always have a waiting request, the costs dispatched for them in the stretch differ by at most the largest cost the one has had dispatched plus the largest the other has had. |
| `RequestFairness.RefusalIsInvisible` | crates/cyrux-scheduler/src/request_scheduler.rs:208-227 | After a refused `acquire`, exactly the same continuations are possible as without it, and each ends with the same backlog, dispatches, guards, virtual time and next start tag of every flow. |
| `RequestFairness.RunKeeps` | crates/cyrux-scheduler/src/request_scheduler.rs:196-275 | Every run keeps all of: the tag invariants; serving guards = `serving`; no flow ahead of virtual time by more than the largest cost it has had dispatched; per flow and globally total = dropped + waiting + serving + released; the global counters, `time` too, are the sums of the flows' counters. |
| `RequestFairness.HistoryGrows` | crates/cyrux-scheduler/src/request_scheduler.rs:248-275 | A run only appends to the history of dispatches. |
| `RequestFairness.HeadOverStretch` | crates/cyrux-scheduler/src/request_scheduler.rs:208-275 | While a flow keeps a request waiting, the start tag of its oldest one advances by exactly the cost dispatched for the flow. |
| `RequestFairness.NotFarAheadKept` | crates/cyrux-scheduler/src/request_scheduler.rs:208-212 | One event keeps the start tag of a flow's oldest waiting request within the largest dispatched cost of virtual time. |
| `RequestFairness.GloballyAccountedKept` | crates/cyrux-scheduler/src/request_scheduler.rs:214-236 | One event keeps the global counters equal to the sums over the flows and to dropped + waiting + serving + released. |
| `RequestFairness.SimilarRuns` | crates/cyrux-scheduler/src/request_scheduler.rs:196-275 | Two queues that differ only in finish tags hidden below virtual time allow the same runs and stay alike. |
| `RequestCosts.ChargedByWeight` | crates/cyrux-scheduler/src/request_scheduler.rs:208-212 | An accepted request moves its flow's finish tag past its start tag by a charge c with c = 1 or c x max(weight, 1) at most the flow's average cost, which is below (c + 1) x max(weight, 1). |
| `RequestCosts.HeavierIsCheaper` | crates/cyrux-scheduler/src/request_scheduler.rs:209-210 | A larger weight never costs more. |
| `RequestCosts.AverageMoves` | crates/cyrux-scheduler/src/request_scheduler.rs:257-261 | A release moves its flow's average a with the actual cost to a new a' where 5a' is at most 4a + cost, which is below 5(a' + 1), and a' lies between a and the cost; no other average moves. |
| `RequestCosts.RefusedIff` | crates/cyrux-scheduler/src/request_scheduler.rs:217-227 | The code refuses exactly when the backlog is full and no waiting request starts later than the new one would. |
| `RequestCosts.RefusalOutcome` | crates/cyrux-scheduler/src/request_scheduler.rs:217-227 | A refusal changes no waiting request, no service and no virtual time, and is counted once as dropped. |
| `RequestCosts.StartOutcome` | crates/cyrux-scheduler/src/request_scheduler.rs:248-250 | With a free place an accepted request is served at once, and virtual time is its start tag. |
| `RequestCosts.JoinOutcome` | crates/cyrux-scheduler/src/request_scheduler.rs:251-253 | With all places taken and room in the backlog, exactly the new request is added to those waiting. |
| `RequestCosts.EvictOutcome` | crates/cyrux-scheduler/src/request_scheduler.rs:228-253 | With no room, a waiting request with the latest start tag, later than the new one's, is exchanged for the new one and counted as dropped. |
| `RequestCosts.ReleaseOutcome` | crates/cyrux-scheduler/src/request_scheduler.rs:257-275 | A release with requests waiting takes out one with the earliest start tag and serves it; virtual time is its start tag. |
| `RequestCosts.IdleRelease` | crates/cyrux-scheduler/src/request_scheduler.rs:257-271 | A release with nobody waiting frees one place and moves nothing else. |
| `RequestScheduler.EvictionUndoes` | crates/cyrux-scheduler/src/request_scheduler.rs:228-236 | The evicted request belongs to another flow than the arriving one, is the newest its flow has waiting, and the subtraction puts its flow's finish tag at exactly its start tag, never below virtual time. |
| `RequestScheduler.EvictionCommutes` | crates/cyrux-scheduler/src/request_scheduler.rs:208-236 | Counting the arrival before the eviction gives the same queue and the same new request as the other way round. |
| `RequestScheduler.RejectKeeps` | crates/cyrux-scheduler/src/request_scheduler.rs:217-227 | A refusal keeps the invariants and leaves the flow's finish tag at the tag its next request would start from anyway. |
| `RequestScheduler.AcquireKeeps` | crates/cyrux-scheduler/src/request_scheduler.rs:196-255 | Every `acquire` keeps: waiting tags at least virtual time, backlog sorted and within its cap, a non-empty backlog only at full depth, each flow's waiting requests end to end up to its finish tag; virtual time does not go back. |
| `RequestScheduler.ReleaseKeeps` | crates/cyrux-scheduler/src/request_scheduler.rs:257-271 | Every `release` of a serving request keeps the same invariants, and virtual time does not go back. |
| `RequestScheduler.AcquiredEffect` | crates/cyrux-scheduler/src/request_scheduler.rs:196-255 | For each of the four branches, what an `acquire` does to every flow's waiting requests and finish tag. |
| `RequestScheduler.HeadAfterAcquire` | crates/cyrux-scheduler/src/request_scheduler.rs:208-252 | Only a request started at once moves virtual time and its flow's head; a held or refused one leaves the head of every waiting flow where it was. |
| `RequestScheduler.HeadAfterRelease` | crates/cyrux-scheduler/src/request_scheduler.rs:257-275 | A release moves the head of the flow it starts past exactly that request, and no other head. |
| `RequestScheduler.FairQueue.Acquire` | crates/cyrux-scheduler/src/request_scheduler.rs:196-255 | The in-place `acquire` is the value-level one, keeps the invariants, and refuses exactly when the backlog is full of tags no larger than the new one. |
| `RequestScheduler.FairQueue.Release` | crates/cyrux-scheduler/src/request_scheduler.rs:257-265 | The in-place `release` is the value-level one and keeps the invariants. |
| `TaskFairness.StarvationBound` | crates/cyrux-scheduler/src/task_scheduler.rs:115-227 | Below the clock reset, over any continuation of polls of `ids` and guard drops, a task ready at key k sees at most (n - 1)(k - clock + 1) wake-ups of other tasks before its own. |
| `TaskFairness.ClockOverRun` | crates/cyrux-scheduler/src/task_scheduler.rs:115-227 | Below the reset the clock never goes back, and every ready key lies between the clock and the clock plus its task's last charge. |
| `TaskFairness.ResetKeepsRuntimesIff` | crates/cyrux-scheduler/src/task_scheduler.rs:206-213 | The reset rebases runtimes but not queue keys: queued keys remain their tasks' runtimes, and with that the clock invariant holds on, if and only if no live task is queued. |
| `TaskFairness.ResetKeepsReachIff` | crates/cyrux-scheduler/src/task_scheduler.rs:206-213 | After the reset every queued task's key lies between the clock and the clock plus its last charge if and only if each queued task's last charge alone reaches its key. |
| `TaskRuns.StrandedKeyHappens` | crates/cyrux-scheduler/src/task_scheduler.rs:206-213 | A run on one core reaches a state past the threshold with all keys in reach, after whose reset a queued task's key is neither its runtime nor in reach of the clock. |
| `TaskFairness.CoresOverRun` | crates/cyrux-scheduler/src/task_scheduler.rs:104-213 | In every run, resets included, `running_tasks` is the number of ToRun and Running tasks and at most the cores, each Ready task has exactly one queue entry, guards match Running tasks, and no core idles while an entry waits. |
| `TaskFairness.GuardDropIsSafe` | crates/cyrux-scheduler/src/task_scheduler.rs:168-185 | In every run, dropping a live guard never meets a task that is not Running, so `park` cannot panic. |
| `TaskFairness.StretchOverRun` | crates/cyrux-scheduler/src/task_scheduler.rs:115-227 | Over a stretch, the keys at which one task is woken strictly grow, and until the watched task is woken it stays queued and nothing with a larger key is woken. |
| `TaskFairness.WakeupsBounded` | crates/cyrux-scheduler/src/task_scheduler.rs:187-204 | Such wake-ups are distinct (task, key) pairs of a bounded range, which bounds their number. |
| `TaskCosts.TurnCharges` | crates/cyrux-scheduler/src/task_scheduler.rs:216-227 | Polled to run with some weight, and its guard dropped after anything else has happened, a task has its runtime raised by a c with c = 1 or c x max(weight, 1) at most the actual cost, which is below (c + 1) x max(weight, 1). |
| `TaskCosts.DropCharges` | crates/cyrux-scheduler/src/task_scheduler.rs:168-185 | The same for one guard drop, with the weight the guard carries; what is woken afterwards does not touch the task. |
| `TaskCosts.GuardKeepsWeight` | crates/cyrux-scheduler/src/task_scheduler.rs:150-160 | In every run a guard keeps the weight of the poll that handed it out until it is dropped. |
| `TaskCosts.HeavierRunsLonger` | crates/cyrux-scheduler/src/task_scheduler.rs:224-225 | A larger weight never costs a task more. |
| `TaskCosts.ResetKeepsLeads` | crates/cyrux-scheduler/src/task_scheduler.rs:206-213 | The clock starts again exactly when it has passed half of the 128-bit range; every task keeps its state and its lead over the clock. |
| `TaskCosts.PollQueuesAtLead` | crates/cyrux-scheduler/src/task_scheduler.rs:115-138 | A poll of an idle task on full cores adds exactly one queue entry, its lead ahead of the clock. |
| `TaskCosts.StaleEntryIgnored` | crates/cyrux-scheduler/src/task_scheduler.rs:187-204 | A queue entry of a task that is gone is dropped without a trace. |
| `TaskScheduler.PolledKeepsIffFresh` | crates/cyrux-scheduler/src/task_scheduler.rs:115-166 | A poll keeps the core accounting if and only if the id is known or has neither an old guard nor an old queue entry. |
| `TaskRuns.StaleEntryHappens` | crates/cyrux-scheduler/src/task_scheduler.rs:104-138 | A run reaches a task that has exited while queued; polling it again puts it into the queue a second time and breaks the accounting. |
| `TaskRuns.StaleGuardHappens` | crates/cyrux-scheduler/src/task_scheduler.rs:104-185 | A run reaches a task that has exited while its guard lives; after polling it again, dropping that guard is a panic in `park`. |
| `TaskScheduler.PolledKeeps` | crates/cyrux-scheduler/src/task_scheduler.rs:115-166 | A poll keeps core accounting, guards and work conservation. |
| `TaskScheduler.ScheduledKeeps` | crates/cyrux-scheduler/src/task_scheduler.rs:187-204 | The scheduling loop keeps the accounting and ends with full cores or an empty queue. |
| `TaskScheduler.ScheduledNeverRuns` | crates/cyrux-scheduler/src/task_scheduler.rs:187-204 | The scheduling loop never makes a task Running. |
| `TaskScheduler.ParkedKeeps` | crates/cyrux-scheduler/src/task_scheduler.rs:168-185 | Parking the task of a live guard is legal and keeps accounting, guards and work conservation. |
| `TaskScheduler.ExitedKeeps` | crates/cyrux-scheduler/src/task_scheduler.rs:104-113 | An exit keeps accounting, guards and work conservation. |
| `TaskScheduler.Scheduler.Schedule` | crates/cyrux-scheduler/src/task_scheduler.rs:187-204 | The while loop computes the value-level schedule. |
| `TaskScheduler.Scheduler.MaybeResetClock` | crates/cyrux-scheduler/src/task_scheduler.rs:206-213 | The rebasing loop computes the value-level reset. |
| `TaskScheduler.Scheduler.PollResume` | crates/cyrux-scheduler/src/task_scheduler.rs:115-166 | For every id that is not running, exited ones included, the in-place poll is the value-level one, keeps the queue sorted, and returns a guard exactly for a woken task. |
| `TaskScheduler.Scheduler.Park` | crates/cyrux-scheduler/src/task_scheduler.rs:168-185 | The in-place park is the value-level one. |
| `TaskScheduler.Scheduler.Exit` | crates/cyrux-scheduler/src/task_scheduler.rs:104-113 | The in-place exit is the value-level one. |
| `SidevmDeployer.SolventOverRun` | crates/pink-drivers/sidevm_deployer/lib.rs:180-458 | In every run of deployments, deadline updates, price and limit changes, payments in and block advances, the balance is at least the sum over instances of price x max(0, deadline - now), the three indexes agree, and no later deployment or update can panic or miss a deadline entry. |
| `SidevmDeployer.CappedOverRun` | crates/pink-drivers/sidevm_deployer/lib.rs:221-232 | With distinct worker ids after `dedup` and a fixed maximum, no worker ever carries more instances than the maximum. |
| `SidevmMoney.DeployLaw` | crates/pink-drivers/sidevm_deployer/lib.rs:300-362 | The deploy message goes through if and only if it is a transaction for some workers, pages and blocks whose price, as a product, fits and is covered by payment and credit, every named worker has room apart from expired instances and the caller's own, and the system accepts. Then the balance grows by the price less the credit, the caller has exactly the instance bought, expired instances are gone and nothing else changes. |
| `SidevmMoney.DeployKeepsPriceLessCredit` | crates/pink-drivers/sidevm_deployer/lib.rs:344-348 | Unless payment and credit saturate, what the contract keeps is exactly the price less the credit for the caller's old instance. |
| `SidevmMoney.DeployErrors` | crates/pink-drivers/sidevm_deployer/lib.rs:300-362 | A deployment that does not go through names the first thing missing. |
| `SidevmMoney.MoveLaw` | crates/pink-drivers/sidevm_deployer/lib.rs:382-458 | The update message goes through if and only if the caller has an instance, the payment covers the worth of the move, the sums fit and the system accepts (or is not asked). Then the balance moves by exactly that worth, price x (new deadline - old deadline), and the instance is at the new deadline, or gone if that is now. |
| `SidevmMoney.MoveErrors` | crates/pink-drivers/sidevm_deployer/lib.rs:382-458 | An update that does not go through names the first thing missing. |
| `SidevmMoney.DedupKeepsChanges` | crates/pink-drivers/sidevm_deployer/lib.rs:309-310 | `dedup` keeps exactly the elements that differ from the one before them. |
| `SidevmMoney.ListLength` | crates/pink-drivers/sidevm_deployer/lib.rs:221-232 | A worker's deadline list is as long as the instances' namings of the worker are many. |
| `SidevmDeployer.OverloadsIffRepeated` | crates/pink-drivers/sidevm_deployer/lib.rs:300-362 | Whatever the state and the other arguments, the message overloads no worker if and only if its worker list, once `dedup` has merged equal neighbours, names none twice. |
| `SidevmDeployer.OverloadHappens` | crates/pink-drivers/sidevm_deployer/lib.rs:300-362 | For every list that `dedup` leaves with a repetition, a free deployment on it goes through on a new deployer with maximum one and exceeds the maximum. |
| `SidevmDeployer.ShortestOverload` | crates/pink-drivers/sidevm_deployer/lib.rs:310 | The workers [a, b, a] pass `dedup` unchanged and overload a. |
| `SidevmDeployer.DeployedKeeps` | crates/pink-drivers/sidevm_deployer/lib.rs:300-362 | A deployment keeps indexes and solvency and can always pay its refund. |
| `SidevmDeployer.UpdatedKeeps` | crates/pink-drivers/sidevm_deployer/lib.rs:382-458 | A deadline update keeps indexes and solvency, can always pay its refund, and reports a missing instance only for a caller without one. |
| `SidevmDeployer.OwedCovers` | crates/pink-drivers/sidevm_deployer/lib.rs:263-273 | The value credited for an instance's remaining time is at most what is owed for it, which is at most all that is owed. |
| `SidevmDeployer.ObligationAfter` | crates/pink-drivers/sidevm_deployer/lib.rs:263-273 | Replacing an instance raises what is owed by no more than the price taken minus the credit given. |
| `SidevmDeployer.RefundIsOwed` | crates/pink-drivers/sidevm_deployer/lib.rs:412-437 | A refund never exceeds the payment plus the owed time given up; it fails only for overflow or too small a payment. |
| `SidevmDeployer.RefundInverse` | crates/pink-drivers/sidevm_deployer/lib.rs:412-432 | What a longer life costs is exactly what giving it up again pays back. |
| `SidevmDeployer.ExtendThenShorten` | crates/pink-drivers/sidevm_deployer/lib.rs:382-458 | Buying time and giving it back in the same block succeeds and restores the instances and the contract's balance. |
| `SidevmDeployer.PriceIsExact` | crates/pink-drivers/sidevm_deployer/lib.rs:468-485 | For at least one worker the staged overflow checks refuse exactly the prices that do not fit 128 bits, and otherwise give the exact price. |
| `SidevmIndex.ClearedKeeps` | crates/pink-drivers/sidevm_deployer/lib.rs:180-202 | Clearing succeeds if and only if the contract has an instance, forgets exactly that contract, keeps index agreement and lengthens no worker's list. |
| `SidevmIndex.RecycledKeeps` | crates/pink-drivers/sidevm_deployer/lib.rs:204-219 | Recycling never panics, forgets exactly the instances with deadlines behind now, and keeps index agreement. |
| `SidevmIndex.DeployInfoAddedKeeps` | crates/pink-drivers/sidevm_deployer/lib.rs:234-261 | Entering a deployment fails only for want of room; otherwise exactly the expired instances and the caller's old one are gone, the new one is in, and the indexes agree. |
| `SidevmIndex.MovedKeeps` | crates/pink-drivers/sidevm_deployer/lib.rs:441-455 | Moving a deadline finds every worker's list and entry, keeps index agreement and every list's length. |
| `SidevmIndex.ListsMatchNames` | crates/pink-drivers/sidevm_deployer/lib.rs:119-136 | The workers that have a deadline list are exactly those some instance names, so `info` cannot fail. |
| `SidevmIndex.CapKept` | crates/pink-drivers/sidevm_deployer/lib.rs:221-261 | A deployment on distinct workers leaves no worker above the maximum. |
| `SidevmIndex.CapBroken` | crates/pink-drivers/sidevm_deployer/lib.rs:221-261 | For every list with a repetition, an empty index with maximum one accepts it and exceeds the maximum. |
| `SidevmIndex.CapKeptIffDistinct` | crates/pink-drivers/sidevm_deployer/lib.rs:221-261 | The availability check protects the maximum in all states if and only if the list it is given has no repetition. |
| `SidevmContract.SidevmOp.ClearContract` | crates/pink-drivers/sidevm_deployer/lib.rs:180-202 | The in-place clearing is the value-level one, result included. |
| `SidevmContract.SidevmOp.Recycle` | crates/pink-drivers/sidevm_deployer/lib.rs:204-219 | The in-place recycling is the value-level one and cannot panic. |
| `SidevmContract.SidevmOp.EnsureAvailable` | crates/pink-drivers/sidevm_deployer/lib.rs:221-232 | True if and only if every named worker has room. |
| `SidevmContract.SidevmOp.AddDeployInfo` | crates/pink-drivers/sidevm_deployer/lib.rs:234-261 | The in-place entry is the value-level one; for want of room it leaves the indexes recycled and the caller's old instance cleared. |
| `SidevmContract.SidevmOp.DeployToWorkers` | crates/pink-drivers/sidevm_deployer/lib.rs:300-362 | The whole message: same result and state as the value-level one, invariants kept, no panic. |
| `SidevmContract.SidevmOp.UpdateDeadline` | crates/pink-drivers/sidevm_deployer/lib.rs:382-458 | The whole message: same result and state as the value-level one, invariants kept, no panic and no missing deadline. |
| `SidevmContract.SidevmOp.GetInfo` | crates/pink-drivers/sidevm_deployer/lib.rs:118-145 | `info` reports the block, the prices, the maximum, every instance and every worker's list, and its lookups cannot fail. |
| `MemoryDb.ConsolidatedCounts` | crates/cyrux-trie-storage/src/memdb.rs:264-288 | For every drain order, each hash ends with its old count plus the sum of the counts of all prefixes carrying it. |
| `MemoryDb.ConsolidatedPreimages` | crates/cyrux-trie-storage/src/memdb.rs:264-288 | If the entries with non-negative counts hold preimages of their keys in the database and in the transaction, they do so afterwards. |
| `MemoryDb.LookupsIgnoreOrder` | crates/cyrux-trie-storage/src/memdb.rs:264-288 | Two drain orders give databases that answer every `get` alike. |
| `DrainOrder.PresenceIgnoresOrderIff` | crates/cyrux-trie-storage/src/memdb.rs:264-288 | Whether a hash is left in the database is the same for all drain orders if and only if it is not the case that its old count and the transaction's counts cancel out while the transaction carries it with both zero and non-zero counts. |
| `DrainOrder.PresenceIsSettled` | crates/cyrux-trie-storage/src/memdb.rs:264-288 | Outside that case, for every order, a hash is left exactly when its counts do not cancel out, or when it is carried with zero counts only and their number, odd or even, puts it in or leaves it in. |
| `DrainOrder.BothHappen` | crates/cyrux-trie-storage/src/memdb.rs:264-288 | In that case two orders of the whole transaction disagree: zero last leaves the hash, non-zero last removes it. |
| `MemoryDb.PresenceIgnoresOrder` | crates/cyrux-trie-storage/src/memdb.rs:264-288 | Without zero counts anywhere, two drain orders leave entries under the same keys. |
| `MemoryDb.ZeroCountShowsOrder` | crates/cyrux-trie-storage/src/memdb.rs:264-288 | With counts +1, -1 and 0 for one hash, `raw` finds an entry of count zero after one order and nothing after another. |
| `MemoryDb.RunCounts` | crates/cyrux-trie-storage/src/memdb.rs:168-189 | Over any run of inserts, removals, purges and consolidations the count of a hash is the old one plus what each operation contributes, known without the database; preimages are kept. |
| `MemoryDb.RunLookup` | crates/cyrux-trie-storage/src/memdb.rs:404-423 | From the empty database, a lookup finds a value if and only if the key is the null node's or its references sum to more than zero; the value is a preimage; `contains` agrees with `get`. |
| `MemoryDb.NextCounts` | crates/cyrux-trie-storage/src/memdb.rs:425-477 | One operation changes each hash's count by exactly its contribution. |
| `TrieKeys.InsertedIsFound` | crates/cyrux-trie-storage/src/memdb.rs:448-456 | After any run from the empty database, `insert` returns the value's hash, and `get` of it then succeeds if and only if it is the null node's hash or its references were not negative; what it finds has that hash. |
| `TrieKeys.InsertedValueIsFound` | crates/cyrux-trie-storage/src/memdb.rs:448-456 | On collision-free values it finds the value inserted. |
| `TrieKeys.PurgeReturns` | crates/cyrux-trie-storage/src/memdb.rs:168-189 | After any run, `remove_and_purge` returns a value if and only if the key has exactly one reference and is not the null node's; it is what `get` found, a preimage of the key, and nothing is left. |
| `TrieKeys.InsertThenPurge` | crates/cyrux-trie-storage/src/memdb.rs:168-189 | Inserting a value not yet there and purging the returned key gives the value back and restores the database. |
| `TrieKeys.RawAfterInsert` | crates/cyrux-trie-storage/src/memdb.rs:425-446 | What `raw` shows after an insert: one more, gone at zero, and the new value where there was no positive count. |
| `TrieKeys.RawAfterRemove` | crates/cyrux-trie-storage/src/memdb.rs:458-477 | What `raw` shows after a removal: one less, gone at zero, and a debt of one with an empty value for a missing key. |
| `TrieKeys.PurgeLeavesWhatRemoveLeaves` | crates/cyrux-trie-storage/src/memdb.rs:168-189 | `remove_and_purge` leaves the same database as `remove`. |
| `TrieKeys.GetIsPositiveRaw` | crates/cyrux-trie-storage/src/memdb.rs:404-414 | `get` is `raw` cut down to positive counts; the null node shows with count one. |
| `TrieKeys.NullNodeIsFixed` | crates/cyrux-trie-storage/src/memdb.rs:208-223 | The null node goes in and out without a trace; by default it is the single byte 0. |
| `TrieKeys.LaterValueWins` | crates/cyrux-trie-storage/src/lib.rs:88-103 | Of two serialised values with one hash the later is restored. |
| `MemoryDb.RoundTripIff` | crates/cyrux-trie-storage/src/lib.rs:74-103 | Rehashing the keyless list restores the map if and only if every value, whatever its count, hashes to its key. |
| `MemoryDb.RoundTripOverRun` | crates/cyrux-trie-storage/src/lib.rs:74-103 | Every database reached from the default one with no negative count comes back whole, with its root. |
| `MemoryDb.NegativeCountIsLost` | crates/cyrux-trie-storage/src/memdb.rs:313-324 | Removing a hash never inserted leaves a database that does not survive the round trip. |
| `MemoryDb.TrieStorage.Emplace` | crates/cyrux-trie-storage/src/memdb.rs:425-446 | The in-place operation is the value-level one. |
| `MemoryDb.TrieStorage.Insert` | crates/cyrux-trie-storage/src/memdb.rs:448-456 | The in-place operation is the value-level one, returned hash included. |
| `MemoryDb.TrieStorage.Remove` | crates/cyrux-trie-storage/src/memdb.rs:458-477 | The in-place operation is the value-level one. |
| `MemoryDb.TrieStorage.RemoveAndPurge` | crates/cyrux-trie-storage/src/memdb.rs:168-189 | The in-place operation is the value-level one, returned value included. |
| `MemoryDb.TrieStorage.Consolidate` | crates/cyrux-trie-storage/src/memdb.rs:264-288 | The drain loop, taking keys in any order, is the value-level consolidation for some order of all keys. |
| `MemoryDb.TrieStorage.ApplyChanges` | crates/cyrux-trie-storage/src/lib.rs:156-163 | Consolidates the transaction and sets the new root. |
| `IngressProtocol.ExactlyOnceInOrder` | pallets/cyrux/src/mq.rs:66-95 | For any number of replicas and any mix of pushes, dummy toggling, purges, dumps, loads and submissions in any order, the accepted log of an origin has exactly one entry for each number below the expected one, in order, and entry s is the s-th push of some replica. |
| `IngressProtocol.ReplicasAgree` | crates/phactory/src/prpc_service.rs:350-364 | If all replicas push along one common sequence, the accepted log is a prefix of that sequence. |
| `IngressProtocol.RunKeeps` | crates/cyrux-mq/src/send_queue.rs:53-139 | In every run each channel counts its pushes, everything signed is a push under its own number, and every origin's log is right. |
| `IngressProtocol.NothingLostOverRun` | crates/cyrux-mq/src/send_queue.rs:53-129 | With no dummy mode and purges that never pass the chain's expected number, every replica and every dumped state still queues, in order and without gaps, every push the chain has not accepted. |
| `IngressProtocol.NothingLostBeforeAcceptance` | crates/cyrux-mq/src/send_queue.rs:53-129 | After any such run from the start, every push of a replica numbered from the expected number on is in its queue, signed under its number, and the queue has no gaps. |
| `IngressProtocol.OutstandingIsQueued` | crates/cyrux-mq/src/send_queue.rs:123-129 | Every push numbered from the expected number on is in such a queue, signed under its number. |
| `IngressProtocol.RelayCatchesUp` | pallets/cyrux/src/mq.rs:83-95 | Submitting the outstanding part of such a queue brings the chain level with the channel. |
| `IngressProtocol.SignedOverRun` | crates/cyrux-mq/src/send_queue.rs:53-82 | In every run everything in a queue or a dumped channel is signed: nothing pushed in dummy mode is queued. |
| `SendQueue.PushesByMode` | crates/cyrux-mq/src/send_queue.rs:53-88 | After setting the mode, any pushes use up as many numbers, and queue nothing in dummy mode and every message under its number otherwise; no other channel changes. |
| `SendQueue.PurgedExactly` | crates/cyrux-mq/src/send_queue.rs:123-129 | A purge keeps in every channel exactly the messages numbered from that channel's own purge point on, and its counter and mode. |
| `SendQueue.DumpThenLoad` | crates/cyrux-mq/src/send_queue.rs:131-139 | A sender's channel, dumped and loaded anywhere, is the same channel, and no other changes. |
| `SendQueue.RetainedGapless` | crates/cyrux-mq/src/send_queue.rs:123-129 | A purge leaves a suffix, without gaps, whose first number is the larger of the old first one and the purge point. |
| `SendQueue.PurgeKeepsIff` | crates/phactory/src/lib.rs:126-129 | A purge loses nothing the chain expects if and only if it is given no more than the expected number or nothing is outstanding. |
| `SendQueue.MessageSendQueue.EnqueueMessage` | crates/cyrux-mq/src/send_queue.rs:53-82 | Numbers the message and queues it, or in dummy mode uses up the number only. |
| `SendQueue.MessageSendQueue.Purge` | crates/cyrux-mq/src/send_queue.rs:123-129 | The loop over the channels purges each one and changes nothing else. |
| `MqPallet.SyncedExactly` | pallets/cyrux/src/mq.rs:66-102 | A message is accepted if and only if its submission is signed, its sender is off-chain, its topic valid, its number the expected one and its signature valid; then exactly the sender's number goes up, subscribers get it once, and it goes out unless its topic starts with ^. |
| `MqPallet.TopicsThatLeave` | crates/cyrux-mq/src/types.rs:146-172 | The topics that leave the chain, and the valid ones, by their first character. |
| `MqPallet.QueuedForOneBlock` | pallets/cyrux/src/mq.rs:162-186 | A queued message is handed on and sent out in the next block, behind those queued before, and never again. |
| `MqPallet.MqStorage.SyncOffchainMessage` | pallets/cyrux/src/mq.rs:66-102 | Accepts exactly a signed submission of an off-chain sender's validly signed message with a valid topic and the expected number; a refusal names the first failing check and changes nothing; only an accepted gatekeeper message is free of charge. |
| `MqPallet.MqStorage.DispatchMessage` | pallets/cyrux/src/mq.rs:138-147 | Hands every message to the chain's subscribers and appends those for off-chain topics to the outbound list. |
| `MqPallet.MqStorage.OnInitialize` | pallets/cyrux/src/mq.rs:174-186 | A block starts by handing the messages queued before to the subscribers, in order; the outbound list is exactly their outgoing ones, and the queue is empty. |
| `Dispatcher.MergeOrder` | crates/cyrux-mq/src/dispatcher.rs:90-121 | However dispatches and selects interleave, what was selected is a prefix of the messages dispatched to the topics, each once and in dispatch order; when a select finds nothing it is all of them. |
| `Dispatcher.DrainEnds` | crates/cyrux-mq/src/dispatcher.rs:222-259 | As many selects as messages dispatched return everything and end with a select that finds nothing. |
| `Dispatcher.ChosenIsFirstSmallest` | crates/cyrux-mq/src/dispatcher.rs:225-240 | The running-minimum scan chooses the last receiver whose senders are gone, if any; otherwise the first with the smallest number; and nothing only if all are empty with senders left. |
| `Dispatcher.SmallestHeadIsNext` | crates/cyrux-mq/src/dispatcher.rs:225-240 | No message still to be selected was dispatched before the smallest head. |
| `DispatcherObjects.Channel.Send` | crates/cyrux-mq/src/simple_mpsc.rs:35-44 | Appends the item if a receiver is left, else fails and changes nothing. |
| `DispatcherObjects.Channel.TryNext` | crates/cyrux-mq/src/simple_mpsc.rs:79-87 | Takes the first item; an empty channel reports whether the senders are gone. |
| `DispatcherObjects.Select` | crates/cyrux-mq/src/dispatcher.rs:222-259 | Takes one item from the chosen receiver and touches no other. |
| `DispatcherObjects.MessageDispatcher.Subscribe` | crates/cyrux-mq/src/dispatcher.rs:71-80 | Adds a fresh channel at the end of the topic's list. |
| `DispatcherObjects.MessageDispatcher.Dispatch` | crates/cyrux-mq/src/dispatcher.rs:90-108 | Numbers the message, delivers it to the topic's live subscribers only, drops the dead ones, and counts the deliveries. |
| `DispatcherObjects.MessageDispatcher.Clear` | crates/cyrux-mq/src/dispatcher.rs:115-121 | Empties all channels and returns the total number of messages dropped. |
| `DispatcherObjects.SelectStep` | crates/cyrux-mq/src/dispatcher.rs:222-259 | One `select!` on the objects is one select of the model. |
| `DispatcherObjects.Drain` | crates/cyrux-mq/src/dispatcher.rs:222-259 | Selecting until nothing is left ends, and returns exactly the messages still outstanding, in dispatch order. |
| `DispatcherObjects.DispatchStep` | crates/cyrux-mq/src/dispatcher.rs:90-108 | One dispatch on the objects is one dispatch of the model. |
| `RcuDispatch.EveryRunIsSerial` | crates/phactory/src/prpc_service.rs:1416-1459 | After any interleaving of locked and copied dispatches and side effects, the shared state is that of the serial order in which each dispatch is followed by the effects that arrived during it; at most one dispatch is in flight. |
| `RcuDispatch.EffectsKeptIff` | crates/phactory/src/lib.rs:775-794 | The effects applied or pending are all effects that arrived, in arrival order, if and only if none arrived at a full list of 64. |
| `RcuDispatch.FloodKeeps` | crates/phactory/src/lib.rs:775-794 | Of the effects that arrive during one dispatch exactly the first 64 are kept, and the run overflows exactly when there are more. |
| `RcuDispatch.LossHappens` | crates/phactory/src/lib.rs:775-794 | A dispatch with 65 arrivals: the last one is neither applied nor pending, in the serial order and in the shared state. |
| `RcuDispatch.ReplayIsExec` | crates/phactory/src/prpc_service.rs:1443-1457 | Replaying the queued effects on the written-back state is executing them in order. |
| `RcuDispatch.RpcService.ApplySideEffects` | crates/phactory/src/lib.rs:775-794 | Queues the effect during a dispatch (drops it at 64), else applies it. |
| `RcuDispatch.RpcService.BeginDispatch` | crates/phactory/src/prpc_service.rs:1418-1432 | Refused while a dispatch runs; otherwise hands out the clone and marks the state, in one locked step. |
| `RcuDispatch.RpcService.FinishDispatch` | crates/phactory/src/prpc_service.rs:1443-1457 | Writes the clone back and replays what was pending. |
| `StakeLedger.StakesOverRun` | pallets/cyrux/src/phat_tokenomic.rs:98-121 | In every run of stakings, transfers and limit changes each contract's total is the sum of its users' stakes, the pallet account covers all totals, and every user can take every stake back. |
| `StakeLedger.AdjustedKeeps` | pallets/cyrux/src/phat_tokenomic.rs:98-121 | A staking that goes through keeps those invariants, sets the stake and conserves the user's balance plus stake. |
| `StakeLedger.AdjustedIff` | pallets/cyrux/src/phat_tokenomic.rs:98-121 | A call goes through if and only if the amount is zero or at least the minimum and is covered by the old stake plus the user's balance; otherwise the error says which fails. |
| `StakeLedger.AdjustedExactly` | pallets/cyrux/src/phat_tokenomic.rs:109-121 | A call that goes through changes one stake, one total and two balances by the same difference, and nothing else. |
| `StakeLedger.NoWrapWhenPaid` | pallets/cyrux/src/phat_tokenomic.rs:110-120 | When the transfer can be paid, neither the addition to nor the subtraction from the total wraps. |
| `StakeLedger.WrapIff` | pallets/cyrux/src/phat_tokenomic.rs:110-114 | The addition, done before the transfer, wraps if and only if the raise does not fit above the total; the call then fails. |
| `StakeLedger.WrapHappens` | pallets/cyrux/src/phat_tokenomic.rs:110-114 | A ledger and a call for which the addition wraps. |
| `StakeLedger.AlwaysWithdrawable` | pallets/cyrux/src/phat_tokenomic.rs:115-119 | Lowering a stake to nothing or to an allowed amount always succeeds. |
| `StakeLedger.PhatTokenomic.AdjustStake` | pallets/cyrux/src/phat_tokenomic.rs:98-121 | The in-place call is the value-level one, keeps the invariants, and leaves the ledger alone when it fails. |
| `Allocator.PeakOverRun` | crates/cyrux-allocator/src/lib.rs:32-69 | Under every interleaving of the atomic steps in which `stats` calls do not overlap, each finished allocation's total is at most the maximum of `peak`, `spike` and the value swapped out and not stored; that maximum only grows and is zero or a total really reached. |
| `Allocator.QuiescentPeak` | crates/cyrux-allocator/src/lib.rs:32-42 | Between `stats` calls the larger of `peak` and `spike` covers every finished allocation. |
| `Allocator.CurrentIsNet` | crates/cyrux-allocator/src/lib.rs:46-48 | In every run `current` is the bytes allocated less the bytes freed, and the totals reached are its values after each allocation. |
| `Allocator.ResizeBalances` | crates/cyrux-allocator/src/lib.rs:88-101 | `realloc` moves the bytes in use by the difference of the sizes. |
| `Allocator.QuietStats` | crates/cyrux-allocator/src/lib.rs:32-42 | An undisturbed `stats` call folds `spike` into `peak` and starts `spike` from zero. |
| `Allocator.PeakKeptIffOneCaller` | crates/cyrux-allocator/src/lib.rs:32-69 | In all interleavings with `stats` callers from a given set, every finished total is covered by `peak` or `spike` between `stats` calls, if and only if the set has at most one thread. |
| `Allocator.OneCallerNeverOverlaps` | crates/cyrux-allocator/src/lib.rs:32-42 | The `stats` calls of one thread never overlap. |
| `Allocator.TwoCallersLoseThePeak` | crates/cyrux-allocator/src/lib.rs:32-42 | With two overlapping `stats` callers a run ends with a finished total of 10 and nothing above 5 recorded. |

## Left out

- `purge_inactive_flows` of the request scheduler: it removes flows that still have waiting requests, so the tag invariants are stated without it.
- A waiting receiver that is gone at dispatch in the request scheduler: receivers are taken to be alive.
- RequestScheduler.FairQueue.Acquire: for a backlog capacity of at least one; with zero the code panics on the first request.
- Wakers, oneshot channels, async polling and the wall clock in both schedulers.
- Overflow of the schedulers' 128-bit tags, runtimes and costs, of 64-bit sequence numbers, 32-bit reference counts and machine-word sizes: these are unbounded integers. The deployer's 32-bit and 128-bit arithmetic and the stakes' 128-bit arithmetic are modelled.
- RequestScheduler.FairQueue.FindSlot: the red-black tree is a sorted sequence; where it puts equal keys is left open rather than modelled.
- TaskScheduler.Scheduler.FindSlot: as for the request scheduler, the place among equal keys is left open.
- TaskFairness.StarvationBound: for runs below the clock reset and without exits, since the reset leaves stale keys in the queue.
- Allocator.PeakOverRun: for `stats` calls that do not overlap and sequentially consistent steps; the weaker memory orderings of `stats` are not modelled, and the allocator is a machine of atomic steps rather than a class.
- Owner and whitelist checks, `set_code` and the plain `deploy` message of the sidevm deployer: single-branch facts.
- The caller of the sidevm deployer is not the deployer itself, and nobody signs for the staking pallet's account.
- SidevmMoney.DeployLaw: for lists of fewer than 2^32 workers after merging neighbours; a longer one has its length cut to 32 bits.
- Existential deposits and account reaping: balances have a zero minimum.
- Signatures, hashing and encodings: a signature is valid exactly on what some replica has signed, and the hash is any function, free of collisions only on the values a theorem names.
- The trie built on the database, `load`, `load_proof` and the serialisation formats themselves.
- What the pallet's subscribers do with a message they are handed, the transaction extension that checks message order, and other ways to push on-chain messages.
- Decoding errors of typed receivers in `select!`; the reference counts of channels change only by subscription and dispatch here.
- Dispatcher.MergeOrder: receivers stay alive and on distinct topics within one reset period.
- RcuDispatch.EveryRunIsSerial: the clone is a full copy; the message queues the two share by reference, other remote calls allowed during a copied dispatch, and a panic of the dispatching thread are not modelled.
- Missing chain storage or system when an effect is applied: part of the effect's own meaning.
