# Verified model of the Taiyi chain library

A Dafny model of the state machines in `libraries/chain`: what each step does, and proofs of what every run keeps.
`dafny verify dfyconfig.toml` checks everything. Modules follow the library's components. Every class
with an invariant has a constructor that establishes it, so what every step keeps holds over every run.

* **Producer scheduling** (`Uint128`, `SimingSchedule`). The virtual-time lap scheduler in wrapping 128-bit arithmetic. The
  invariant, which the code never states: each siming's last update is not after the current virtual time, its scheduled time
  is not before it, and position plus adores times the span between the two never exceeds a lap. It survives adore changes, rounds
  and overflow resets, so the subtraction in the adore adjustment never wraps.
* **Slots** (`SlotClock`). Slot arithmetic, the 128-slot participation window and the turns of the scheduled producers.
* **Proxied adoration** (`ProxyGraph`, `Adoration`, `AdorationLedger`, `AdorationExamples`). The per-depth cache of proxied Qi against its meaning, the
  sum of the Qi exactly k hops below, and each siming's adores against the weights of its adorers.
* **Blocks** (`Blocks`, `ForkDatabase`, `ChainReplay`, `ChainIndex`, `ForkSwitch`, `SwitchOutcome`, `ChainDatabase`, `BranchArrival`,
  `ChainExamples`, `PendingTransactions`, `Irreversibility`, `Finality`, `FinalityExample`, `BlockLog`). Fork choice and fork switching over an undo stack, the last
  irreversible block, the block log with its index, and the requeueing of transactions.
  Applying a block is a deterministic partial function from state and block to state; the node runs on top of it.
* **Qi** (`QiLedger`, `FivePhase`, `Cultivation`, `NfaTick`, `MaterialWear`, `Withdrawal`). Every ledger step conserves Qi and
  keeps the global totals equal to what the holders have; cultivation, heartbeats, wear and withdrawals are built on these steps.
* **Housekeeping** (`Ownership`, `ProposalRemoval`). Ownership propagation over arbitrary parent links, and the removal of expired
  proposals within a budget.
* `Wrappers`, `Entities`, `Percent`, `Sets`, `MapSums` and `Arithmetic` hold what the others share.

Where the code does not do what one would expect, the model follows the code, a contract gives the exact condition, and a lemma
gives an input:

* A higher branch that fails is not always undone. If the fork is below the log, or the blocks that did apply have made something
  above the fork irreversible, nothing is left to undo; the fork database's head still goes down until its predecessor is no
  longer stored, and the node is left with what it had logged (`ChainDatabase.Chain.PushBlock`, `ChainExamples.StrandedExample`).
* The last irreversible height is part of the state that a switch undoes, and the new branch need not raise it again. It falls
  exactly if it was lower at the fork and no block of the branch makes the old height irreversible; then the log is longer than
  the height (`ChainDatabase.Chain.PushBlock`, `Finality.SwitchedLib`, `FinalityExample.FallingExample`). It can also fall when a
  node is stranded. What has been logged stays on the chain.
* A failed block stays the fork database's head. Blocks pushed then are applied to the chain's head whatever they build on, and a
  re-sent block that fails is forgotten even if it belongs to the chain (`ChainIndex.Forgotten`, `ChainExamples.ResentExample`).
* Claiming Feigang propagates it twice along the proxy chain (`Adoration.ClaimConsistent`, `Adoration.ClaimSupplyCheck`,
  `AdorationExamples.ClaimExample`), the first time before the total grows, so that a claim can be refused although the rewards
  are there (`AdorationLedger.Ledger.ClaimRewardBalance`, `AdorationExamples.FullAdorationExample`).
* A withdrawal credits the receivers of Qi before it charges the sender. If a siming has too many adores for that, the block that
  carries the withdrawal out fails (`AdorationLedger.Ledger.WithdrawQi`, `AdorationExamples.FullAdorationExample`).
* A withdrawal plan whose routes pay back to its own account can take more than was asked for (`Withdrawal.OverdrawnIf`,
  `Withdrawal.OverdrawnExample`), or stop taking anything without ending (`Withdrawal.StuckIf`, `Withdrawal.StuckForever`,
  `Withdrawal.StuckExample`).
* Withdrawals can lower the YANG-equivalent of the pool (`Withdrawal.Withdrawals.Withdraw`, `Withdrawal.DustExample`).
* Rebuilding the index of a log with exactly one block writes nothing (`BlockLog.BlockLog.ConstructIndex`,
  `BlockLog.OneBlockExample`).
* An index that has been cut inside an entry can be taken for a whole one, and then nothing more can be appended
  (`BlockLog.CutRepaired`, `BlockLog.CutExample`).
* Cleaning stops at most one expired cultivation per block (`Cultivation.Cultivations.Clean`, `Cultivation.LeftOverExample`).
* A removal threshold of 32767 does not limit anything, because the 16-bit counter wraps first (`ProposalRemoval.KeepsToThreshold`,
  `ProposalRemoval.CounterWrapsExample`).
* A soul-bound NFA cannot be transferred by itself but is handed over with the NFA that contains it (`Ownership.Nfas.Transfer`,
  `Ownership.TakenAlongExample`).
* An NFA whose allowance for a material is a positive multiple of 2^32 makes the code divide by zero (`MaterialWear.Store.Wear`,
  `MaterialWear.CutExample`).

## Model

| member | source | states |
|---|---|---|
| Uint128.AddWraps | libraries/chain/siming_schedule.cpp:116-121 | a wrapped sum is smaller than its operand exactly when the true sum reaches 2^128, which is the overflow test of the lap loop |
| SimingSchedule.LapEnd | libraries/chain/database.cpp:958-962 | the computed lap end never lies before now, never overshoots the lap, and is the last such time or the maximum value |
| SimingSchedule.AdjustmentIsIdeal | libraries/chain/database.cpp:950-963 | the wrapping 128-bit adjustment of a siming on its lap equals the adjustment over unbounded integers, with no wrapped subtraction, and leaves it on its lap |
| SimingSchedule.Scheduler.AdjustSimingAdore | libraries/chain/database.cpp:947-964 | fails exactly when the new adores exceed the total Qi; otherwise one siming changes, by the ideal adjustment, and the schedule invariant is kept |
| SimingSchedule.Scheduler.CreateSiming | libraries/chain/siming_objects.hpp:96-125 | a new siming starts with the default schedule and keeps the invariant |
| SimingSchedule.WaitOnLap | libraries/chain/siming_schedule.cpp:89-108 | a siming not yet due stays on its lap while virtual time advances up to its scheduled time |
| SimingSchedule.LappedOnLap | libraries/chain/siming_schedule.cpp:116-126 | a lap started at the new time without overflow is a proper lap |
| SimingSchedule.LapsOnLap | libraries/chain/siming_schedule.cpp:112-127 | if no processed lap overflows, every siming is on its lap at the new virtual time, processed or not |
| SimingSchedule.RestartedOnLap | libraries/chain/siming_schedule.cpp:11-27 | after the overflow reset every siming is on its lap at time zero |
| SimingSchedule.TimeAdvances | libraries/chain/siming_schedule.cpp:89-96 | the round's virtual time is never before the current one: nobody was scheduled in the past |
| SimingSchedule.LapsMean | libraries/chain/siming_schedule.cpp:112-127 | the overflow test fires exactly if some processed siming's lap would not end in time; if not, each starts a lap of the right length and nobody else changes |
| SimingSchedule.RestartMeans | libraries/chain/siming_schedule.cpp:11-27 | after a restart every siming is on a new lap from zero whose length is that of one lap at one more than its adores |
| SimingSchedule.Scheduler.ResetVirtualScheduleTime | libraries/chain/siming_schedule.cpp:11-27 | sets time to zero and starts a new lap for every siming there: one more than its adores runs it no further than a lap until its scheduled time, and further one step later; establishes the invariant from any sized state |
| SimingSchedule.Scheduler.SelectElected | libraries/chain/siming_schedule.cpp:77-85 | marks exactly the elected: signing, distinct, no more than allowed, and nobody of higher rank is passed over |
| SimingSchedule.Scheduler.SelectTimeshare | libraries/chain/siming_schedule.cpp:89-108 | marks exactly the timeshare producers: signing, not elected, and nobody due earlier is passed over while seats are left |
| SimingSchedule.Scheduler.StartLaps | libraries/chain/siming_schedule.cpp:112-127 | reports an overflow exactly when some lap would not end within 128 bits of time; otherwise every processed siming starts a new lap of the length that its adores give it |
| SimingSchedule.Scheduler.AdvanceTime | libraries/chain/siming_schedule.cpp:112-133 | either all processed laps start at the new time or, on overflow, everything restarts at zero; the invariant holds in both cases |
| SimingSchedule.Shuffle | libraries/chain/siming_schedule.cpp:215-230 | the in-place swaps with the generator's indices are a permutation of the seated part and touch nothing else |
| SimingSchedule.Scheduler.Seat | libraries/chain/siming_schedule.cpp:202-230 | seats the chosen producers, clears the other seats and shuffles; at least one seat counts as scheduled |
| SimingSchedule.Scheduler.UpdateSimingSchedule | libraries/chain/siming_schedule.cpp:67-238 | one round from any state that satisfies the invariant, which it keeps: the highest in adores are elected while there is room, the others take turns by lap end; the processed start new laps of the length that their adores give them and the rest run on, or, exactly if one of these laps would not end in time, everyone starts anew at zero; all chosen are seated, in a shuffle, and the other seats are empty |
| SimingSchedule.SelectionSize | libraries/chain/siming_schedule.cpp:72-110 | a round chooses distinct producers, as many as there are signing simings up to the maximum of 21 |
| SlotClock.SlotTimeGalois | libraries/chain/database.cpp:810-841 | for slots from one on, the slot's time is at most t exactly when the slot is at most the slot at t |
| SlotClock.ShiftKeepsCount | libraries/chain/database.cpp:2106-2111 | shifting the 128-slot window changes the count of filled slots by the bit pushed out and the bit pushed in |
| SlotClock.WindowBits | libraries/chain/database.cpp:2085-2111 | bit k of the window after m missed slots is 0 for k below m, 1 for k equal to m, and bit k - m - 1 of the old window above |
| SlotClock.FullWindow | libraries/chain/database.cpp:1455-1456 | the participation of a window with every bit set is its length, for any length |
| SlotClock.Clock.UpdateGlobalDynamicData | libraries/chain/database.cpp:2076-2119 | the block lies in the slot that its time says; afterwards the latest slots of the window are the missed ones, not filled, before them the block's own, filled, and before that the old window, and participation_count is the number of filled ones |
| SlotClock.RunTelescopes | libraries/chain/database.cpp:2103-2119 | over any run of blocks current_aslot grows by the difference of the head slots, and the count stays exact |
| SlotClock.SameTurn | libraries/chain/database.cpp:802-808 | whose turn a slot is does not depend on the block from which it is counted |
| SlotClock.OneSlotEach | libraries/chain/database.cpp:802-808 | any n consecutive slots give every scheduled producer exactly one turn per seat it has |
| ProxyGraph.AncInjective | libraries/chain/database.cpp:915-934 | on an acyclic proxy graph an account appears at one depth of a chain only |
| ProxyGraph.LinkKeepsAcyclic | libraries/chain/taiyi_evaluator.cpp:491-503 | setting a proxy whose chain does not come back to the account keeps the graph acyclic |
| ProxyGraph.CutHopSum | libraries/chain/database.cpp:1272-1285 | removing a proxy edge takes exactly the subtree's Qi, level by level, from each account above |
| Adoration.EdgeWorth | libraries/chain/database.cpp:888-913 | at every account and depth, what a proxy edge is worth in the cache is what the delta array delivers there |
| Adoration.QiChangeKeepsConsistent | libraries/chain/database.cpp:915-945 | the single-delta propagation keeps both invariants: cached sums equal the Qi k hops below, siming adores equal the adorers' weights |
| Adoration.DetachKeepsConsistent | libraries/chain/database.cpp:888-913 | the negated delta array, with the proxy link and records removed, keeps both invariants |
| Adoration.OwnSlotsKept | libraries/chain/taiyi_evaluator.cpp:484-515 | the propagation up the old chain never changes the moved account's own cached sums, so the same array can be added to the new chain |
| Adoration.AttachKeepsConsistent | libraries/chain/taiyi_evaluator.cpp:505-515 | the delta array added to the new chain, with the new link, keeps both invariants |
| Adoration.RecordKeepsConsistent | libraries/chain/taiyi_evaluator.cpp:539-562 | adding or removing an adore record together with the account's weight keeps both invariants |
| Adoration.CheckedTotal | libraries/chain/database.cpp:2690-2699 | the depth-capped weights that the invariant check adds up total exactly all accounts' Qi |
| Adoration.AdorationBounded | libraries/chain/database.cpp:2668-2669 | no siming has negative adores or more adores than there is Qi |
| Adoration.ClaimConsistent | libraries/chain/taiyi_evaluator.cpp:773-785 | claiming rewards keeps the invariants if and only if no Feigang is claimed, or the account has no proxy and no records: Feigang is propagated twice |
| Adoration.ClaimSupplyCheck | libraries/chain/taiyi_evaluator.cpp:773-785 | after a claim the node's own weight check passes if and only if no Feigang was claimed by an account with a proxy |
| AdorationLedger.Ledger.CreateAccount | libraries/chain/database.cpp:1429-1434 | a new account without Qi, with the right to adore, keeps the invariant |
| AdorationLedger.Ledger.CreateSiming | libraries/chain/database.cpp:1444-1448 | a new siming that nobody adores keeps the invariant |
| AdorationLedger.Ledger.AdjustSimingAdores | libraries/chain/database.cpp:936-957 | credits every siming the account adores and no other, and fails exactly if that gives one more adores than the total Qi |
| AdorationLedger.Ledger.AdjustProxiedSimingAdores | libraries/chain/database.cpp:915-957 | the recursion adds the delta to slot k of the k-th proxy up to the depth cap and credits the root's simings if the root is near enough; fails exactly if one of those has no room |
| AdorationLedger.Ledger.AdjustProxiedSimingAdoresBy | libraries/chain/database.cpp:888-957 | the array form delivers entry i at slot i plus depth along the chain, and the part that reaches the root to its simings; fails exactly if one of those has no room |
| AdorationLedger.RoomWithin | libraries/chain/database.cpp:956 | a propagation that leads to exact books, with accounts that the total covers, meets the assertion on the way |
| AdorationLedger.Ledger.ChangeQi | libraries/chain/database.cpp:1045-1049 | a change of Qi followed by the propagation keeps the books exact; it fails exactly if a siming that the root adores has no room below the total |
| AdorationLedger.Ledger.CreateQi | libraries/chain/database.cpp:846-877 | creating Qi never trips the assertion, because the total grows first |
| AdorationLedger.Ledger.ReceiveFromNfa | libraries/chain/contract_nfa_handler.cpp:475-480 | a contract's payment from an NFA to an account never trips the assertion, because the total has covered the NFA |
| AdorationLedger.Ledger.PayToNfa | libraries/chain/contract_nfa_handler.cpp:532-537 | a contract's payment to an NFA never trips the assertion and keeps books and total valid |
| AdorationLedger.Ledger.RewardFeigang | libraries/chain/database_contract.cpp:194-214 | a Feigang reward never trips the assertion, although the adores follow before the total |
| AdorationLedger.Ledger.ClearSimingAdores | libraries/chain/database.cpp:966-980 | removes exactly the account's records and resets its counter |
| AdorationLedger.Ledger.Withdraw | libraries/chain/database.cpp:1273-1285 | taking an account out of its chain keeps the invariant and its own cached sums |
| AdorationLedger.Ledger.DeclineAdoring | libraries/chain/database.cpp:1271-1285 | declining cuts the proxy, removes the records and the right to adore, and keeps the invariant, in which nobody without that right adores or lends |
| AdorationLedger.Ledger.ProcessDeclineAdoringRights | libraries/chain/database.cpp:1264-1290 | processes exactly the due requests, in order: those who made them are left without proxy, record and right, everyone else as before; keeps the invariant |
| AdorationLedger.Ledger.ProxyChainIsClear | libraries/chain/taiyi_evaluator.cpp:491-503 | the walk accepts exactly those proxies whose chain is short enough and does not come back to the account |
| AdorationLedger.Ledger.SetProxy | libraries/chain/taiyi_evaluator.cpp:478-524 | succeeds exactly when the proxy changes, the account may adore and the new chain is short and does not come back to it, and then moves the whole subtree; a refused change leaves everything as it was; the invariant is kept |
| AdorationLedger.Ledger.Attach | libraries/chain/taiyi_evaluator.cpp:505-515 | putting an account below a proxy keeps the invariant |
| AdorationLedger.Ledger.AdoreSiming | libraries/chain/taiyi_evaluator.cpp:526-565 | succeeds exactly when the account has no proxy and drops a record that it has or, having the right to adore and fewer than 30 records, makes one that it has not; then one record and the counter change, and the adores follow by the account's weight |
| AdorationLedger.DeclinedForGood | libraries/chain/taiyi_evaluator.cpp:482-532 | in every state that the operations reach, an account without the right to adore has no proxy and no adore record |
| AdorationLedger.RoomAgain | libraries/chain/taiyi_evaluator.cpp:776-785 | after the total has grown, the second propagation of a claim has room exactly if the first had |
| AdorationLedger.Ledger.ClaimRewardBalance | libraries/chain/taiyi_evaluator.cpp:757-788 | goes through if and only if the rewards suffice and every siming that the root adores has room for the Feigang below the total; the ledger is valid afterwards if and only if no Feigang was claimed, or the account has no proxy and no records; a refusal changes nothing |
| AdorationLedger.Ledger.VestRoutes | libraries/chain/database.cpp:1028-1054 | crediting the receivers of a withdrawal goes through if and only if no siming gets more adores than the total Qi from all of them together |
| AdorationLedger.Ledger.WithdrawQi | libraries/chain/database.cpp:1018-1116 | a withdrawal trips the assertion if and only if its deposits lift a siming above the total before the sender is charged; otherwise books and total are valid again |
| AdorationExamples.ClaimExample | libraries/chain/taiyi_evaluator.cpp:773-785 | a claim of 1 Feigang after which the books, exact before, are not exact |
| AdorationExamples.FullAdorationExample | libraries/chain/database.cpp:1045-1049 | a siming adored with all Qi: no Feigang can be claimed below it, and a withdrawal routed to its adorer fails with its block |
| Blocks.Ancestor | libraries/chain/fork_database.cpp:213-222 | the ancestor at a height has that height and, below the start, is stored under its own id |
| Blocks.CommonBelow | libraries/chain/fork_database.cpp:170-211 | below a common ancestor the two branches are the same, so the deepest one decides |
| ForkDatabase.Forks.PopBlock | libraries/chain/fork_database.cpp:17-23 | the head moves to its predecessor exactly when that is stored or still held by the caller |
| ForkDatabase.Forks.PushBlock | libraries/chain/fork_database.cpp:36-72 | refused exactly when too old for the window or not linked; otherwise stored, and the head if higher |
| ForkDatabase.Forks.SetMaxSize | libraries/chain/fork_database.cpp:95-124 | keeps exactly the blocks inside the window below the head |
| ForkDatabase.Forks.FetchBranchFrom | libraries/chain/fork_database.cpp:170-211 | succeeds exactly when both heads and a common strict ancestor are reachable; the two branches are linked chains from the heads whose last blocks share the deepest common strict ancestor |
| ForkDatabase.Forks.WalkMainBranchToNum | libraries/chain/fork_database.cpp:213-222 | the head's ancestor at that height, or nothing |
| ForkDatabase.Forks.FetchBlockOnMainBranchByNumber | libraries/chain/fork_database.cpp:224-232 | the shortcut and the walk; that the answer is the main branch's block wherever the node asks is `ChainIndex.Lookup` |
| ChainReplay.ReplayNumbers | libraries/chain/database.cpp:1603-1613 | blocks that apply in turn are numbered from one and linked, and the state's head is the last |
| ChainReplay.ReplayPrefix | libraries/chain/database.cpp:2177-2182 | a prefix of an applied chain applies and its last irreversible block is no later |
| ChainReplay.UndoKeeps | libraries/chain/database.cpp:717-727 | undoing restores exactly the state before the last block |
| ChainReplay.ApplyKeeps | libraries/chain/database.cpp:2193-2240 | applying, logging and committing keep state, log and undo stack in step with the chain |
| ChainIndex.TrimmedIs | libraries/chain/database.cpp:2185-2236 | applying a block forgets exactly the stored blocks that are more than one below the last irreversible one |
| ChainIndex.Lookup | libraries/chain/fork_database.cpp:224-232 | the main-branch lookup finds the chain's block at every reversible height, even from a failed block that is still the fork head |
| ForkSwitch.ForksApart | libraries/chain/fork_database.cpp:196-209 | the two branches above the deepest common ancestor have no block in common |
| ChainIndex.Forgotten | libraries/chain/database.cpp:664-668 | forgetting a failed block harms the stored chain if and only if it is one of the chain's own reversible blocks |
| ChainReplay.GoodFails | libraries/chain/database.cpp:613-637 | the good part of a branch applies, and the block after it is its first that does not |
| ChainReplay.StillApplies | libraries/chain/database.cpp:640-647 | the old branch applied before, so all of it applies again on the same base |
| Finality.ConfirmationIsLawful | libraries/chain/database.cpp:2138-2183 | block application whose irreversible height follows the confirmations moves that height forwards and never past the head, block by block, as the chain database assumes |
| Finality.BranchBelow | libraries/chain/database.cpp:2138-2183 | over any branch of applied blocks a height stays reversible if and only if it was at the base and no block of the branch makes it irreversible, by distance or by a quorum |
| Finality.LibByDistance | libraries/chain/database.cpp:2144-2151 | until adoring has started the irreversible height of every chain is 21 below its head |
| Finality.SwitchedLib | libraries/chain/database.cpp:609-625 | after a switch the irreversible height has fallen if and only if it was lower at the fork and no block of the new branch makes the old height irreversible; it never falls while the old head is below the height at which adoring starts |
| FinalityExample.FallingExample | libraries/chain/database.cpp:599-652 | a running node whose rules follow real confirmations: block P by one siming makes a height irreversible, two rival blocks on the same predecessor replace it, and the height is one lower |
| Blocks.ForkHeightIs | libraries/chain/fork_database.cpp:170-211 | the fork height is that of the deepest common strict ancestor, and there is none exactly if the branches have none |
| Blocks.BranchUp | libraries/chain/fork_database.cpp:170-211 | a fetched branch turned round is the stored blocks from the fork up to the tip |
| ForkSwitch.FoundFork | libraries/chain/fork_database.cpp:196-209 | the deepest common ancestor is where the new branch leaves the chain: below it both are the chain, the first blocks above it differ |
| ForkSwitch.SwitchMeans | libraries/chain/database.cpp:599-650 | a higher branch is unconnected exactly if it has no fork with the chain, and switched to exactly if the fork is not below the log and the whole branch applies on it |
| SwitchOutcome.BelowLog | libraries/chain/database.cpp:609-611 | a fork below the log: the chain goes back to the log, the fork head goes past the chain, and the node is never in order afterwards |
| SwitchOutcome.AboveFork | libraries/chain/database.cpp:626-638 | a failing branch that has become irreversible above the fork: the node keeps what it has logged of it, the fork head is below, and the node is in order only if the chain had one block and nothing was logged |
| SwitchOutcome.FailMeans | libraries/chain/database.cpp:613-650 | a branch of which k blocks apply and the next does not comes to the old chain if those k make nothing above the fork irreversible, and otherwise to what they make irreversible |
| ChainExamples.StrandedExample | libraries/chain/database.cpp:613-648 | two blocks, a rival for the second that makes itself irreversible, and its invalid successor: the running node is stranded |
| ChainExamples.ResentExample | libraries/chain/database.cpp:655-669 | a running node loses its own first block from the fork database when that is re-sent after a failed block |
| ChainDatabase.Chain.constructor | libraries/chain/database.cpp:107-114 | opening a state whose head is the log's head, or one without blocks, gives a running node; if there is a head the fork database has the same |
| ChainDatabase.Chain.PopBlock | libraries/chain/database.cpp:717-731 | fails exactly without a head block or a stored predecessor of the fork head; otherwise the fork head steps down and the block's transactions are queued, and the chain loses its block exactly if something can still be undone |
| ChainDatabase.Chain.BlocksToWrite | libraries/chain/database.cpp:2214-2224 | what is written to the log are the chain's blocks from the log's head to the last irreversible one |
| ChainDatabase.Chain.MigrateIrreversibleState | libraries/chain/database.cpp:2193-2240 | the log becomes the chain up to the last irreversible block, the undo stack loses what can no longer be undone, the index keeps the window |
| ChainDatabase.Chain.ApplyBlock | libraries/chain/database.cpp:1554-1601 | succeeds exactly when the block applies; a failure changes nothing |
| ChainDatabase.Chain.PopTo | libraries/chain/database.cpp:609-611 | unwinding reaches the fork if and only if it is not below the log, and then leaves the chain up to it and queues all popped transactions in order; else all that can be undone is undone and the fork head goes down to the end of its stored predecessors |
| ChainDatabase.Chain.PushBranch | libraries/chain/database.cpp:613-625 | applies exactly the blocks of a branch below its first failing one |
| ChainDatabase.Chain.FetchFork | libraries/chain/database.cpp:606-607 | finds a fork exactly if stored blocks lead to one; the branch fetched is that of the tip above it and, unless the fork is below the log, the old branch is the end of the chain |
| ChainDatabase.Chain.RemoveFrom | libraries/chain/database.cpp:629-634 | removes the failed block and those above it and nothing else |
| ChainDatabase.Chain.PutBack | libraries/chain/database.cpp:626-648 | after a failure the bad suffix is forgotten, and the old chain is back if and only if nothing above the fork has been logged |
| ChainDatabase.Chain.TryBranch | libraries/chain/database.cpp:613-650 | at the fork: the new branch becomes the chain, or the chain is put back, or the node is stranded, as the replay of the branch says |
| ChainDatabase.Chain.SwitchTo | libraries/chain/database.cpp:599-652 | which of four ends a higher branch comes to, told from the state before; an attempt that fails restores chain, state and both heads if and only if the fork is not below the log and the good blocks make nothing above the fork irreversible |
| ChainDatabase.Chain.PushLinear | libraries/chain/database.cpp:658-669 | a block applied on the head, also while a failed block is still the fork head; after a failure state and chain are unchanged and the block is forgotten |
| ChainDatabase.Chain.PushBlock | libraries/chain/database.cpp:589-672 | which pushes to a running node are refused (too old for the window or not linked), applied, kept aside (linked, not on the head, no higher than the chain), unconnected or switched to (the whole branch from the fork applies and the fork is not below the log), what each outcome changes and leaves, and exactly which pushes the node's invariant survives; the log only grows and is the chain up to the irreversible height exactly if it was no longer than that; the height falls only if a node is stranded or switches, and then exactly when the confirmations say; a failed attempt restores chain, state and both heads if and only if it is reversible, and logs what its good blocks made irreversible; what stays stored of the other branches is stated for each outcome |
| BranchArrival.RivalFound | libraries/chain/fork_database.cpp:157-211 | once such a branch is stored, fetching finds its fork where it left the chain, and the branch itself |
| BranchArrival.PushBelowTip | libraries/chain/fork_database.cpp:54-71 | the blocks below the tip of such a branch are stored one by one, and nothing else of the node changes |
| BranchArrival.PushInOrder | libraries/chain/database.cpp:589-672 | a branch one block higher whose blocks link and lie in the window, pushed in order from its fork: it becomes the chain if and only if all its blocks apply on the fork; if only k apply, the old chain and state are back if these make nothing above the fork irreversible, with the rest of the branch forgotten and nothing else from the fork up, and otherwise the node has what they made irreversible; transactions of what is undone are queued in chain order |
| PendingTransactions.QueueKeepsOrder | libraries/chain/db_with.hpp:62-122 | the refilled queue is a subsequence of popped then pending transactions, and whatever is missing was known or failed in time |
| PendingTransactions.CulledIf | libraries/chain/db_with.hpp:62-122 | a transaction is culled exactly if it is looked at in time and the state that the others before it lead to knows it already or it fails there |
| PendingTransactions.AllRequeued | libraries/chain/db_with.hpp:62-122 | the queue is exactly popped then pending if and only if none was culled |
| PendingTransactions.PendingQueue.RestorePending | libraries/chain/db_with.hpp:55-128 | the two loops refill the queue with popped transactions first, and clear the popped ones |
| Irreversibility.NthElement | libraries/chain/database.cpp:2170-2173 | rearranges the scheduled simings so that the one at the offset is in its sorted place |
| Irreversibility.OffsetIsHighestQuorum | libraries/chain/database.cpp:2164-2175 | a height has a quorum if and only if it is at most the height of the siming at the offset |
| Irreversibility.QuorumsMeet | libraries/chain/database.cpp:2168 | two quorums of one schedule share at least half of it |
| Irreversibility.QuorumIs | libraries/chain/database.cpp:2150-2175 | a height has a quorum if and only if all but a quarter of the schedule, rounded down, has built on it |
| Irreversibility.LibBounds | libraries/chain/database.cpp:2138-2183 | following the confirmations the irreversible height does not fall and does not pass the head |
| Irreversibility.Confirmations.UpdateLastIrreversibleBlock | libraries/chain/database.cpp:2138-2183 | before adoring starts the height lags by 21; afterwards it never goes down, a raised one has a quorum, and nothing higher has |
| Irreversibility.Confirmations.Reschedule | libraries/chain/siming_schedule.cpp:202-235 | a new round's schedule leaves the heights and the invariant as they are |
| Irreversibility.Confirmations.ApplyBlock | libraries/chain/database.cpp:2127-2183 | over every run of applied blocks the last irreversible height never decreases and never passes the head; before adoring starts it lags by 21, afterwards a raised one has a quorum and nothing higher has; `Finality.SwitchedLib` says what undoing blocks does to it |
| BlockLog.WordRoundTrip | libraries/chain/block_log.cpp:202-203 | a position below 2^64 survives being written and read as eight little-endian bytes |
| BlockLog.LittleEndianDigit | libraries/chain/block_log.cpp:202-203 | the bytes of a position are its digits to base 256, the lowest first |
| BlockLog.Record | libraries/chain/block_log.cpp:184-208 | each record is the packed block followed by the position it starts at, and the next record starts right after |
| BlockLog.Entry | libraries/chain/block_log.cpp:203 | entry i of the index is the position of block i |
| BlockLog.UnpackRecord | libraries/chain/block_log.cpp:235-244 | unpacking at a block's position gives that block and its length, whatever follows |
| BlockLog.BlockLog.Append | libraries/chain/block_log.cpp:184-208 | refused exactly when the index is not at the block's number; otherwise both files are those of one block more |
| BlockLog.BlockLog.ReadBlock | libraries/chain/block_log.cpp:235-244 | reads the block at its position and gives the position of the next |
| BlockLog.BlockLog.GetBlockPos | libraries/chain/block_log.cpp:277-287 | the position of a block by number, or none outside the log |
| BlockLog.BlockLog.ReadBlockByNum | libraries/chain/block_log.cpp:246-263 | random access by number gives the block, or none outside the log |
| BlockLog.BlockLog.ReadHead | libraries/chain/block_log.cpp:289-304 | the last word of the file leads to the last block |
| BlockLog.BlockLog.ReadForward | libraries/chain/database.cpp:203-239 | following next positions from zero gives all blocks in order |
| BlockLog.BlockLog.ReadBackward | libraries/chain/block_log.cpp:300-303 | following trailing positions from the end gives all blocks in order |
| BlockLog.BlockLog.ConstructIndex | libraries/chain/block_log.cpp:318-342 | the rebuilt index is the appended one if and only if the log does not have exactly one block; for one block it is empty |
| BlockLog.BlockLog.Open | libraries/chain/block_log.cpp:91-172 | opens the head, keeps an index that ends at the last block, drops one without a log and rebuilds any other; afterwards the index is right if and only if it was, or is noticed to be wrong beside two or more blocks, or there is no block; fails exactly on an index of one to seven bytes beside a log |
| BlockLog.OneBlockExample | libraries/chain/block_log.cpp:318-342 | the index that belongs to a log of one block is eight zero bytes, and not empty |
| BlockLog.WrongLengthNoticed | libraries/chain/block_log.cpp:133-156 | the index of a shorter or longer prefix of the chain, in whole entries, never ends at the last block's position, so opening notices it |
| BlockLog.CutInside | libraries/chain/block_log.cpp:133-156 | an index cut inside an entry is kept if and only if the end of one entry and the start of the next read as the last block's position |
| BlockLog.CutRepaired | libraries/chain/block_log.cpp:133-156 | for every number of bytes left of the index of two or more blocks: opening leaves the right index if and only if the cut is not one of those |
| BlockLog.CutExample | libraries/chain/block_log.cpp:133-156 | three blocks whose index cut to 15 bytes is kept as it is |
| QiLedger.Ledger.RewardFeigangFromAccount | libraries/chain/database_contract.cpp:194-214 | conserves all Qi; goes through exactly for a positive amount that the account has |
| QiLedger.Ledger.RewardFeigangFromNfa | libraries/chain/database_contract.cpp:216-236 | conserves all Qi; goes through exactly for a positive amount that the NFA has |
| QiLedger.Ledger.DepositByContract | libraries/chain/contract_nfa_handler.cpp:513-551 | conserves all Qi; goes through exactly for a non-negative amount that the account has |
| QiLedger.Ledger.WithdrawByContract | libraries/chain/contract_nfa_handler.cpp:456-494 | conserves all Qi; goes through exactly for a non-negative amount that the NFA has |
| QiLedger.Ledger.ConvertQiToResource | libraries/chain/contract_nfa_handler.cpp:114-193 | buys as many whole units as the amount pays and charges exactly their price; worth and all totals are conserved |
| QiLedger.Ledger.ConvertResourceToQi | libraries/chain/contract_nfa_handler.cpp:195-271 | gives back exactly the price; worth and all totals are conserved |
| QiLedger.Ledger.CreateQi | libraries/chain/database.cpp:846-877 | worth grows by exactly the Qi created, in the balance or among the unclaimed rewards |
| QiLedger.Ledger.ClaimRewardBalance | libraries/chain/taiyi_evaluator.cpp:757-782 | moves claims to free Qi and keeps every total equal to its holders |
| QiLedger.Ledger.Stake | libraries/chain/database_cultivation.cpp:97-117 | takes the stake out of free Qi; exactly when nothing is staked and the Qi is there |
| QiLedger.Ledger.Unstake | libraries/chain/database_cultivation.cpp:67-95 | every stake is returned in full and the totals follow |
| QiLedger.Ledger.PayBeneficiaries | libraries/chain/database_cultivation.cpp:142-181 | the fund pays exactly rv, each beneficiary its share rounded down, the last one the rest too |
| QiLedger.TotalsAreHeld | libraries/chain/database.cpp:2653-2756 | in every state that the steps reach, free Qi, rewards, Feigang, stakes and each resource add up to their totals, and nobody has less than nothing |
| QiLedger.PaidOutExactly | libraries/chain/database_cultivation.cpp:146-169 | rounding leaves less than one unit per beneficiary, and never overpays |
| QiLedger.PaidEach | libraries/chain/database_cultivation.cpp:142-181 | each beneficiary but the last gains its share rounded down, the last what the others leave, and nobody else anything |
| Cultivation.ParticipantsArePartition | libraries/chain/database_cultivation.cpp:97-117 | participant sets are pairwise disjoint and together are exactly the NFAs with something staked |
| Cultivation.Cultivations.Advance | libraries/chain/database.cpp:2113-2117 | the invariant carries over to the next block |
| Cultivation.Cultivations.Create | libraries/chain/database_cultivation.cpp:43-65 | created exactly when there is time to prepare, every beneficiary exists with a positive share, and the shares are 100% |
| Cultivation.Cultivations.Participate | libraries/chain/database_cultivation.cpp:97-117 | joins exactly when not started, nothing staked and enough Qi; the partition of participants is kept |
| Cultivation.Cultivations.Start | libraries/chain/database_cultivation.cpp:119-129 | starts exactly when not started and somebody takes part |
| Cultivation.Cultivations.Tally | libraries/chain/database_cultivation.cpp:236-253 | the loop's sums of stakes and materials are the sums over the participants |
| Cultivation.Cultivations.Update | libraries/chain/database_cultivation.cpp:216-314 | adds the reward for the time since the last update, at most the maximum, from the zone's energy, the stakes and the efficiency, and if that is more than nothing makes this block the last update |
| Cultivation.GrowthBounds | libraries/chain/database_cultivation.cpp:255-306 | an update is never negative and at most the zone's energy and the stake at full efficiency |
| Cultivation.CountedOnce | libraries/chain/database_cultivation.cpp:216-314 | time that has been counted is not counted again: a second update in the same block adds nothing |
| Cultivation.Cultivations.Dissolve | libraries/chain/database_cultivation.cpp:67-95 | stakes return in full, the participants are gone, all Qi is conserved |
| Cultivation.Cultivations.Stop | libraries/chain/database_cultivation.cpp:131-185 | the fund loses exactly the lesser of itself and what has accumulated, beneficiaries get it by shares, and every stake returns in full |
| Cultivation.Cultivations.NextByStart | libraries/chain/database_cultivation.cpp:204-205 | the first cultivation after a place in the order by start and number |
| Cultivation.Cultivations.CleanLapsed | libraries/chain/database_cultivation.cpp:192-201 | dissolves exactly the cultivations not started by their deadline |
| Cultivation.Cultivations.CleanExpired | libraries/chain/database_cultivation.cpp:203-210 | stops one cultivation exactly if any has run its full time, namely the one that started first, by number among equals, and no other in the same block |
| Cultivation.Cultivations.Clean | libraries/chain/database_cultivation.cpp:187-214 | removes exactly the lapsed ones and the one stopped; none that has run its full time is left if and only if at most one had; the invariant and all Qi are kept |
| Cultivation.ExpiredLeft | libraries/chain/database_cultivation.cpp:203-210 | stopping one expired cultivation leaves none exactly if there was no other |
| Cultivation.LeftOverExample | libraries/chain/database_cultivation.cpp:203-210 | of two valid cultivations, with a participant each, that started in one block the second is left |
| FivePhase.CycleBound | libraries/chain/database_cultivation.cpp:258-262 | neighbouring products on a 5-cycle are at most a quarter of the squared total |
| FivePhase.JointBound | libraries/chain/database_cultivation.cpp:258-296 | inner and outer harmony compete for the same materials: their weighted sum stays within the product of the squared and the zone total |
| FivePhase.PhaseCycles | libraries/chain/database_cultivation.cpp:258-288 | which phase feeds and which overcomes which: wood, fire, earth, metal, water and wood, earth, water, fire, metal |
| FivePhase.PhasesAdd | libraries/chain/database_cultivation.cpp:258-288 | feeding and overcoming are additive in the phases that act |
| FivePhase.ZoneEnergyBounds | libraries/chain/database_zone.cpp:169-199 | zone energy lies between 3/8 and 13/8 of the base, truncation included |
| FivePhase.ZoneEnergyRounds | libraries/chain/database_zone.cpp:169-199 | zone energy is the sum of the materials and two and a half times the surplus of feeding over overcoming per unit, to within one unit after both truncations |
| FivePhase.ZoneEnergyExtremes | libraries/chain/database_zone.cpp:169-199 | both bounds are reached |
| FivePhase.EfficiencyBounds | libraries/chain/database_cultivation.cpp:255-300 | efficiency lies between 10% and 350% for all materials |
| FivePhase.EfficiencyRounds | libraries/chain/database_cultivation.cpp:255-300 | efficiency is 100% plus 250% of the participants' own surplus and of the zone's surplus over them, each to within a hundredth of a percent, and at least 10% |
| FivePhase.EfficiencyExtremes | libraries/chain/database_cultivation.cpp:255-300 | both bounds are reached |
| FivePhase.RewardBounds | libraries/chain/database_cultivation.cpp:305 | a reward is non-negative and at most (N+Q) at the efficiency, so the mixed product stays well-signed |
| FivePhase.RewardRounds | libraries/chain/database_cultivation.cpp:305 | the three truncating divisions give the exact quotient rounded down once |
| NfaTick.QueueShrinks | libraries/chain/database_nfa.cpp:275-290 | while a due NFA waits, every block takes a full round from those ahead of it |
| NfaTick.DueWithinPeriod | libraries/chain/database_nfa.cpp:270-326 | an NFA due at block t is visited or switched off within the P blocks from t on, for any number of NFAs and with NFAs created meanwhile |
| NfaTick.RunNumIs | libraries/chain/database_nfa.cpp:276 | the number for one block is the least that gives more visits in a period than there are NFAs |
| NfaTick.OnlyDue | libraries/chain/database_nfa.cpp:274-290 | only due NFAs are visited, at most one in a hundred and one more; a due one that is not visited comes after that many others |
| NfaTick.WaitsWhileOthersAhead | libraries/chain/database_nfa.cpp:275-290 | an NFA with a full round ahead of it is not visited |
| NfaTick.Ticker.ListDue | libraries/chain/database_nfa.cpp:274-290 | lists exactly the first due NFAs in tick order up to the number for one block |
| NfaTick.Ticker.SettleDebt | libraries/chain/database_nfa.cpp:296-314 | old debt is paid in full exactly when the NFA has the Qi |
| NfaTick.Ticker.Bill | libraries/chain/database_nfa.cpp:357-394 | Qi paid plus recorded debt equals the metered cost; owner and treasury are credited by the 80/20 rule; all Qi is conserved |
| NfaTick.Ticker.HeartBeat | libraries/chain/database_nfa.cpp:316-396 | an NFA without debt: its next tick, Qi, debt and creditor after the beat, and what the contract's owner and the treasury gain |
| NfaTick.Ticker.Charge | libraries/chain/database_nfa.cpp:357-396 | a beat leaves debt exactly if it costs more than the NFA has; the NFA then has nothing, and owes the difference to the contract's owner; owner and treasury get their parts |
| NfaTick.PartsMean | libraries/chain/database_nfa.cpp:357-384 | of what an NFA pays for a beat the contract's owner gets four fifths of the use, or of all that is left if that is too little, rounded up, and the treasury the rest |
| NfaTick.EarnedIs | libraries/chain/database_nfa.cpp:306-394 | from a visit the old creditor gains the old debt, the contract's owner and the treasury their parts, and nobody gains anything if the old debt cannot be paid |
| NfaTick.Ticker.Visit | libraries/chain/database_nfa.cpp:292-396 | old debt goes to its creditor in full or ticking ends; the contract's owner and the treasury get their parts of the beat, and what the NFA cannot pay is owed to that owner; ticking ends exactly when the debt cannot be paid, there is no heartbeat entry, the beat fails or it cannot be paid |
| NfaTick.Ticker.ProcessNfaTick | libraries/chain/database_nfa.cpp:270-397 | one block is a step of the scheduler as the wait bound assumes: for each visited NFA the next tick, the Qi, the debt and the creditor follow from its own state, owner and beat, nothing changes for the others, every account earns exactly what the visits pay it, and all Qi is conserved |
| MaterialWear.WearBelowBase | libraries/chain/database_nfa.cpp:82-141 | all materials together lose less Qi than a fiftieth of the least worth |
| MaterialWear.WornIs | libraries/chain/database_nfa.cpp:82-141 | a material's allowance is its part of the base by worth; it loses the whole units in the remainder of luck by the allowance cut to 32 bits, or all there is |
| MaterialWear.CutExample | libraries/chain/database_nfa.cpp:95-98 | an NFA with one unit of food whose allowance is cut to a zero divisor |
| MaterialWear.Store.Wear | libraries/chain/database_nfa.cpp:58-176 | each material loses the units that luck and its allowance say, the treasury gains them, and the loss stays below the base; it cannot be carried out exactly if an allowance is a positive multiple of 2^32 |
| Ownership.ClosedHasAll | libraries/chain/database_nfa.cpp:503-528 | a set with the children of the root and of its members has everything inside the root |
| Ownership.Nfas.ModifyChildrenOwner | libraries/chain/database_nfa.cpp:503-528 | terminates for any parent links; what is newly visited is inside the NFA, has its children visited, and changes owner, and nothing else does |
| Ownership.Nfas.PropagateOwner | libraries/chain/database_nfa.cpp:503-528 | from an empty visited set the owner changes for exactly what is inside the NFA at one or more steps |
| Ownership.TakenAlongExample | libraries/chain/contract_handler.cpp:470-488 | a child of an outermost NFA is inside it, so a transfer takes it along whatever its symbol |
| Ownership.Nfas.Transfer | libraries/chain/contract_handler.cpp:464-488 | goes through exactly for an outermost NFA that is not soul-bound, from its owner to another account; then the NFA and exactly everything inside it changes hands, soul-bound or not |
| ProposalRemoval.OneStep | libraries/chain/proposal_helper.hpp:68-82 | erasing one object leaves one fewer to erase and no vote without its proposal |
| ProposalRemoval.Resumed | libraries/chain/proposal_helper.hpp:68-82 | erasing a and then b objects is erasing a + b |
| ProposalRemoval.WholeDeletion | libraries/chain/proposal_processor.cpp:34-44 | the whole deletion removes exactly the expired proposals and their votes |
| ProposalRemoval.ExpiredFirst | libraries/chain/proposal_processor.cpp:34-44 | the proposals counted as expired are exactly those whose end date has come |
| ProposalRemoval.OnlyExpired | libraries/chain/proposal_processor.cpp:26-45 | however much has been erased: the proposals that are gone are the first and had expired, and one that has lost votes had expired and lost its first ones |
| ProposalRemoval.RepeatedCalls | libraries/chain/proposal_processor.cpp:37-44 | n calls with threshold T erase the first nT objects, so with T of at least one enough calls do what one unlimited call does |
| ProposalRemoval.KeepsToThreshold | libraries/chain/proposal_helper.hpp:26-63 | a call erases at most the threshold if and only if that is below 32767 or no more is pending |
| ProposalRemoval.CounterWrapsExample | libraries/chain/proposal_helper.hpp:26-63 | with 40001 objects pending, a threshold of 32766 is kept and one of 32767 is not |
| ProposalRemoval.Proposals.RemoveFirst | libraries/chain/proposal_helper.hpp:67-82 | erases the first proposal's votes in order and then the proposal, until the budget is used up |
| ProposalRemoval.Proposals.RemoveProposals | libraries/chain/proposal_processor.cpp:26-45 | one call erases the first min(threshold, pending) objects, or all without a limit; the proposals that go had expired, as had those that lose votes, none that has expired is left if the budget suffices, and no vote is left without its proposal |
| Withdrawal.NeverOverdrawn | libraries/chain/database.cpp:1088-1089 | with route percents of at most 100% in all, what is deposited never exceeds what is withdrawn, so the assertion cannot fail |
| Withdrawal.DustBounds | libraries/chain/database.cpp:1064-1091 | the Qi lost to rounding is less than one YANG per payout |
| Withdrawal.Withdrawals.PayQi | libraries/chain/database.cpp:1028-1054 | the first pass adds each vesting share to its account and returns their sum |
| Withdrawal.Withdrawals.PayYang | libraries/chain/database.cpp:1056-1086 | the second pass pays each other share as YANG, rounded down, to the account of its route, and takes the Qi from the total |
| Withdrawal.CashedTo | libraries/chain/database.cpp:1060-1077 | what an account gains from the YANG routes is the sum of the shares of the routes to it, each rounded down to whole YANG |
| Withdrawal.Withdrawals.TakeOut | libraries/chain/database.cpp:1018-1113 | one withdrawal keeps every total equal to its holders; every account gains in Qi and in YANG the rounded shares of the routes to it, and the sender the rounded rest less what it is charged; the Qi pool loses what is not vested and the YANG grows by the payouts |
| Withdrawal.Withdrawals.Withdraw | libraries/chain/database.cpp:999-1119 | every account gains in Qi and in YANG the rounded shares of the routes to it, the sender also the rounded rest; the amount is the rate, or the remainder by it, or all there is, and the plan moves on or ends; the YANG-equivalent never rises, falls by at most one per payout, and is unchanged if and only if the pool's remainder covers the dust |
| Withdrawal.DustExample | libraries/chain/database.cpp:1064-1091 | a withdrawal of all 1000 Qi, half of it routed as YANG, pays nothing and costs the supply one YANG |
| Withdrawal.WithdrawalIsDeposits | libraries/chain/database.cpp:1028-1116 | what the routes do to the accounts' Qi is what the adoration ledger credits and charges |
| Withdrawal.PlanCompletes | libraries/chain/database.cpp:1018-1113 | over every sequence of withdrawals, whatever happens to the account in between: a plan that pays nothing back to the account takes the full rate each time while it runs, ends within four, never takes more than was asked for, and takes less only if the account was emptied |
| Withdrawal.RateIs | libraries/chain/taiyi_evaluator.cpp:398-407 | the rate is the least with which four withdrawals take it all |
| Withdrawal.Withdrawals.RunPlan | libraries/chain/database.cpp:1018-1113 | withdrawing until the plan ends takes at most four withdrawals and exactly what was asked for, or all the account has |
| Withdrawal.OverdrawnIf | libraries/chain/database.cpp:1019-1023 | a withdrawal takes more than is left of its plan if and only if that is less than the remainder of the whole by the rate and the account has it; never while full rates have been taken |
| Withdrawal.PaidBack | libraries/chain/database.cpp:1028-1054 | a single route that pays everything back as Qi leaves the account with what it had |
| Withdrawal.OverdrawnExample | libraries/chain/database.cpp:1019-1023 | with everything paid back, a plan for 11 Qi takes 12 |
| Withdrawal.StuckIf | libraries/chain/database.cpp:1019-1023 | a withdrawal takes nothing from an account with Qi if and only if less than the rate is left of its plan and the rate divides the whole; never while full rates have been taken |
| Withdrawal.StuckForever | libraries/chain/database.cpp:1019-1113 | such a plan takes nothing more and does not end, for as long as the account does not run empty |
| Withdrawal.StuckExample | libraries/chain/database.cpp:1019-1113 | with everything paid back, a plan for 12 Qi takes 10 and then nothing |

## Left out

- ChainDatabase.Chain.MigrateIrreversibleState: the checks for the skip flags, flushing and the undo-history limit are not modelled.
- ForkDatabase.Forks.FetchBranchFrom: a predecessor is looked up by id in the index, or among the blocks that the caller holds; the code holds a weak reference, which also stays empty when a removed block is pushed again.
- ForkDatabase.Forks.PushBlock: the cache of unlinked blocks and the invalid flag are never filled or set by the code and are left out. A block id is taken to determine its block.
- BlockLog.BlockLog.Append: files are byte sequences shorter than 2^64; streams, locks and flushing are left out. The codec is a parameter of which only prefix-decodability is assumed.
- PendingTransactions.PendingQueue.RestorePending: the wall clock is a parameter, the number of transactions looked at before time runs out.
- SimingSchedule.Scheduler.UpdateSimingSchedule: the two index orders are parameters that must be sorted as the indexes are; version votes and the median properties of producers are left out.
- SlotClock.Clock.UpdateGlobalDynamicData: missed-block counters and the shutdown of absent producers are left out.
- Adoration.QiChangeKeepsConsistent: transfers between accounts by contract do not adjust adores in the code and are not steps of the model.
- QiLedger.Ledger.ConvertQiToResource: resources are those of NFAs; accounts' resources and NFA materials take no part in conversions. Permission checks of the handlers are left out.
- Cultivation.Cultivations.Create: the sum of the shares is an unbounded integer, where the code adds 32-bit numbers.
- Cultivation.Cultivations.Update: the hashed random share, the zone and the materials are parameters.
- NfaTick.Ticker.Visit: a heartbeat is a cost and an outcome; what the contract itself does with Qi are separate ledger steps.
- NfaTick.Ticker.ProcessNfaTick: NFAs that contracts create or switch off during the block are not part of the step.
- NfaTick.DueWithinPeriod: switching an NFA on in between is excluded, as such an NFA goes to the front of the order.
- MaterialWear.Store.Wear: the hashes are parameters, and a division by zero is an outcome that changes nothing, where the process ends.
- Withdrawal.Withdrawals.Withdraw: one account's withdrawal; the walk over all due accounts is left out.
- Withdrawal.Withdrawals.PayQi: the effect on adores is `AdorationLedger.Ledger.VestRoutes`.
- Withdrawal.Withdrawals.TakeOut: the effect on adores is `AdorationLedger.Ledger.WithdrawQi`; `Withdrawal.WithdrawalIsDeposits` connects the two.
- ChainDatabase.Chain.PushBlock: a block id is taken to determine its block.
- QiLedger.Ledger.ClaimRewardBalance: the YANG part of a claim, which moves between two balances of one account, is left out.
- 32-bit and 64-bit overflow elsewhere than in the scheduler, the log's positions and the removal counter: integers are unbounded.
- Rewards by inflation, delegation, recovery, hardforks, actors, names and geography: they have no hard property of their own.
- The Lua machine, contract data access, signatures, hashes, Merkle roots, plugins and the object store.
