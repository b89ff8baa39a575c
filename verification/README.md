# Neutron token generation event: model and proofs

This project models the contracts that move one pool of tokens through the Neutron token generation event, and proves
what they keep. Users deposit USDC and ATOM into the **auction**; it sizes two liquidity pools, lets users lock parts
of their future LP tokens, mirrors these locks into the **XYK lockdrop**, initialises the pools, and hands the unlocked
rest to two **vesting** contracts. The lockdrop passes on generator rewards and one-time NTRN rewards, and its positions
can move, one callback after the other, to the **PCL lockdrop**, which passes on several reward tokens. LP vesting
accounts move from **vesting-lp** to **vesting-lp-pcl**. The **credits** contract backs a vesting token one to one, and
the **oracle** averages prices from accumulators that wrap around.

`dafny verify dfyconfig.toml` checks everything.

## How to read it

- Each contract has a module with its storage as a datatype `State` and one function per message
  (`LockdropXyk`, `LockdropPcl`, `Auction`, `Vesting`, `VestingLp`, `Credits`, `Oracle`). A rejected message is an `Err`
  and changes nothing. Numbers are `nat`; `FixedPoint` has the 128-bit overflow checks and the decimals with 18 digits
  after the point, and every division is an explicit floor. Other contracts (generator, incentives, pairs, bank, price
  feed) appear only as a `Ledger` of amounts and as arbitrary amounts in the messages.
- `Tge` puts the auction, both lockdrops and the two vesting contracts of its LP tokens together: a transaction with all
  messages and callbacks that it causes is one step, and takes effect as a whole or not at all. An event is a transaction
  and the time since the one before, so every sequence of events is a run. `TgeInvariant` has the invariant, `TgeTheorems`
  what holds in every run, `TgeAccepts` exactly when messages take effect, `TgeHistory` that stored amounts are the sums of
  the messages, `PoolTerms` what the pool sizes are, `LockTerms` when positions unlock, `TgeVesting` what the vesting contracts
  get and when they accept it, `TgeVestingTerms` how it vests, `TgeProgress` exactly when claims and migrations succeed,
  `TgeBlocked` when they never do, and `TgeStaking` when the LP tokens of a PCL pool are staked; `TgeExamples` has two short
  runs. `MigratedRecords` and `MigratedRewards` say what the PCL lockdrop knows of a migrated position and when a claim in it
  succeeds, and `MigrationRefinement` compares a migration with the claims that it stands for. `HandOver` has the messages to
  the vesting contracts, `HandOverProofs` what a vesting contract does with them.
- Vesting with its change logs, the LP vesting contracts, the credits and the oracle have runs of their own
  (`VestingRuns`, `VestingLpRuns`, `CreditsRuns`, `Oracle`); `VestingTerms` and `CreditsTerms` say what their messages do to a
  single account.
- The modules ending in `Contract` have the contracts as classes: the stored fields, and the handlers with their loops
  over schedules, positions, tokens, users and price pairs. Each handler is proved to do exactly what the function says.
  `TgeContract.Contracts.Serve`, `CreditsContract.Contract.Serve` and `VestingHistory.Contract.Serve` say that a whole
  run of the classes is a run of the model, so all theorems about runs apply to them.
- Totals over storage maps are `Sums.Total`; storage iteration in ascending key order is `Ordered` and `PositionKeys`.

## Assumptions

- `SetTokenInfo` runs before the first lockup, because it resets both pools
  (`contracts/lockdrop/src/contract.rs:699-721`). Addresses and denoms are set, and stay; each denom appears once in the
  sent funds.
- Claims in the XYK lockdrop and migrations start only after the pools are initialised and the lockdrop's windows have
  closed (`Tge.Started`). The second half is checked by the claim handler, and neither by the migration handler.
- Nobody else sends LP tokens to a lockdrop or stakes for it. Each reward asset is listed once when a PCL pool claims,
  because the code takes what arrived of each listed asset from the same two balances.
- The two LP vesting contracts know the auction as a manager, have their LP tokens set, and get accounts from nobody else.
  The hand-over and the claims of what vests are part of `Tge`; the later migration of LP vesting accounts is not, and is
  studied from empty contracts in `VestingLpRuns`.
- The auction's withdrawal window is positive (see the last point of the next section).
- A transfer of an amount that the sender holds succeeds, also for an amount of zero. For the credits this is not
  assumed: their token library is not part of this model, so whether it accepts an amount of zero is the parameter
  `acceptsZero`.

## What the proofs brought up

- A position's weight is rounded down at each increase, but its reward is computed from the rounded weight of the
  whole. With the coefficient 1/2, one unit locked twice counts 2 in the pool and 3 in the position: its one-time reward
  is 150 of 100 (`LockdropXykRewards.BudgetCanBeExceeded`), and taking out both units at once is refused although the
  limit allows it (`LockupWithdrawals.AllowedWithdrawalCanFail`). `TgeTheorems.OneTimeRewardsWithDrift` bounds the excess,
  `TgeTheorems.OneTimeRewardsBeyondIncentives` says how far the weights must drift for the incentives to be exceeded
  (between the two, `LockdropXykRewards.PoolRewardsBetween` leaves the rewards open by less than 1 + incentives / 10^18 for
  each position), and
  `LockupWithdrawals.AllowedWithdrawals` says exactly when an allowed withdrawal is refused; with whole-number
  coefficients neither can happen.
- A migration computes a position's new generator debt but does not store it. The position is closed at once, so this is
  the only difference to an unlock, for one position (`LockdropXykPositions.MigrationRefinesUnlock`,
  `MigrationRefinement.MigrationRefinesClaim`) and for a whole user in every run
  (`MigrationRefinement.MigrationLooksLikeClaims`). A migration does not wait for the end of the lock, but the lock then
  goes on in the PCL lockdrop (`LockTerms.NothingLeavesEarly`).
- The dust path of the LP vesting migration sends the share to the user and empties the account, but does not lower the
  granted total as the other path does: afterwards the reported total is too high by exactly the dust.
  `compute_share` leaves out schedules without an end point; what they granted stays in the XYK contract without an
  owner. A migration also replaces whatever account the user already had in the PCL contract. Each of the three happens
  in a short run (`VestingLpRuns.DustHappens`, `StrandedHappens`, `OverwriteHappens`), and
  `VestingLpRuns.MigrationConserves` says exactly which migrations make books and balances part.
- With a vesting duration of zero, which the auction accepts, no hand-over that has something to vest ever happens,
  because the vesting contracts refuse its schedules (`TgeVesting.HandOverHappens`, `TgeVesting.EveryoneIsVestedOnce`).
- A user with credits but without an allocation cannot claim in the lockdrop, because the queries about the user's
  credits fail. If amounts of zero are refused, the same happens to a user without one-time rewards while nothing has
  vested (`Credits.LockdropBurnIsCovered`, `CreditsRuns.LockdropBurnSucceeds`).
- The PCL pool's LP tokens are staked only by a migration that takes the last open units out of the XYK pool. If the last
  units leave by a user's own unlock, the PCL pool is never staked, and its positions never earn anything
  (`TgeStaking.LastOneDecides`, `TgeStaking.UnstakedEarnsNothing`; a run: `TgeExamples.UnlockLeavesUnstaked`).
- A position without units is accepted. Once its pool has no open units, it can be neither claimed nor migrated, and none
  of the user's other positions can be migrated any more (`TgeBlocked.BlockedForEver`; a run:
  `TgeExamples.EmptyPositionBlocks`). `TgeProgress.MigrationSucceeds` has the exact condition of a migration.
- With a withdrawal window of zero length, half of a deposit may still be withdrawn at the moment at which the windows
  count as closed (`Windows.ClosedMeansNothing`).

## Model

| member | source | states |
|---|---|---|
| FixedPoint.MulFloorBounds | packages/astroport_periphery/src/utils.rs:9-24 | the product of a decimal and an integer is rounded down by less than one unit |
| FixedPoint.PartBounds | packages/astroport_periphery/src/utils.rs:9-24 | a fraction rounded down times a whole, rounded down again, is never too much, and too little by less than 1 + whole / 10^18 |
| RestrictedVector.IncreaseAdds | packages/astroport/src/restricted_vector.rs:36-57 | an update adds to the amount of its key, leaves all other amounts, and the key is present afterwards |
| RestrictedVector.IncreaseAt | packages/astroport/src/restricted_vector.rs:36-50 | the update changes the first entry with the key in place, or appends one; a sum beyond 128 bits is refused |
| RestrictedVector.Update | packages/astroport/src/restricted_vector.rs:36-50 | the search loop computes that update |
| Windows.PercentNeverRises | contracts/auction/src/contract.rs:469-497 | at a later time never a larger share may be withdrawn, and never more than all |
| Windows.KeepsHalf | contracts/lockdrop/src/contract.rs:1125-1154 | after the deposit window at least half stays; after the whole window everything |
| Windows.ClosedMeansNothing | contracts/auction/src/contract.rs:469-497 | after the whole window exactly nothing is allowed, except half at the end of a window of zero length |
| Windows.AllowedByTime | contracts/auction/src/contract.rs:469-497 | all may be withdrawn before the deposit window closes, half until the middle of the withdrawal window, then a part that falls in a straight line to nothing at the end, with exact bounds for the rounding |
| LockdropXykSolvency.AccrueKeepsPool | contracts/lockdrop/src/contract.rs:1378-1447 | spreading received rewards keeps a pool solvent: paid and claimable stay within received |
| LockdropXykSolvency.LpShareIsUnits | contracts/lockdrop/src/contract.rs:1496-1518 | a position's share of the staked balance is exactly its units |
| LockdropXykSolvency.ClaimKeepsPool | contracts/lockdrop/src/contract.rs:1169-1311 | a claim, with or without unlock, keeps each pool's totals, debts and solvency |
| LockdropXykSolvency.MigrateKeepsPool | contracts/lockdrop/src/contract.rs:1684-1933 | the migration callbacks keep them as well |
| LockdropXykSolvency.ResizeKeepsPool | contracts/lockdrop/src/contract.rs:935-990 | a growing, shrinking or disappearing position keeps them |
| LockdropXykSolvency.PendingIsCovered | contracts/lockdrop/src/contract.rs:1520-1549 | an open position's pending reward is not negative and is covered by what is received and not yet paid |
| RewardFairness.AccrueSpreadsAll | contracts/lockdrop/src/contract.rs:1411-1421 | received generator rewards raise what open positions may claim by the received amount, less than 10^-18 per LP token short |
| RewardFairness.ClaimPaysEarned | contracts/lockdrop/src/contract.rs:1520-1637 | the claim callback pays all that the position has earned above its debt, sets the debt to it, and an unlock returns exactly the units |
| LockdropXykPositions.ClaimKeepsUserTotals | contracts/lockdrop/src/contract.rs:1607-1637 | after a claim the totals per pool and user are the sums of the open positions |
| LockdropXykPositions.MigrateKeepsUserTotals | contracts/lockdrop/src/contract.rs:1909-1933 | the same after a migrated position |
| LockdropXykPositions.WithdrawOnceKeepsHalf | contracts/lockdrop/src/contract.rs:1014-1118 | after the lock window a withdrawal needs an unset flag, sets it, and leaves at least half; the position is not removed |
| LockdropXykPositions.FirstEntryCounts | contracts/lockdrop/src/contract.rs:2360-2371 | of a list with several durations the first entry with the duration counts, as 1 + coefficient, and a duration without an entry not at all |
| LockdropXykPositions.IncreaseDrift | contracts/lockdrop/src/contract.rs:935-938 | an increase keeps the accumulated weight within one unit per increase of the exact weight, and equal to it for whole coefficients |
| LockdropXykPositions.WithdrawDrift | contracts/lockdrop/src/contract.rs:1077-1081 | a withdrawal keeps these bounds, with one unit per withdrawal in the other direction |
| LockdropXykPositions.MigrationRefinesUnlock | contracts/lockdrop/src/contract.rs:512-520 | for a staked pool, migrating a position succeeds exactly when the unlock callbacks do, and leaves the same state except for the debt of the closed position |
| MigrationRefinement.MigrationRefinesClaim | contracts/lockdrop/src/contract.rs:1169-1311 | the same for the whole claim handler with unlock: once the lock is over, it succeeds exactly when the rewards can be computed and the position can be migrated, with the same state up to that debt |
| MigrationRefinement.MigrationLooksLikeUnlocks | contracts/lockdrop/src/contract.rs:512-573 | migrating all positions of a user succeeds exactly when the user's claims with unlock of all open ones do, one after the other, and leaves the same state except for debts of closed positions |
| MigrationRefinement.MigrationLooksLikeClaims | contracts/lockdrop/src/contract.rs:512-573 | in every run, once a user's locks are over, a migration changes nothing but the PCL lockdrop and debts of closed positions in comparison with a run of the user's claims |
| LockdropXykProgress.ClaimSucceeds | contracts/lockdrop/src/contract.rs:1169-1311 | in a state with the invariant a claim succeeds exactly under checks that can be made before, among them that the windows are over: no subtraction and no transfer in it fails |
| LockdropXykProgress.MigrateSucceeds | contracts/lockdrop/src/contract.rs:1684-1933 | the same for migrating one position, which takes exactly its units from its pool |
| LockdropXykRewards.Budget | contracts/lockdrop/src/contract.rs:2335-2351 | if floored position weights are within the accumulated ones, all one-time rewards due, over both pools, are within the incentives |
| LockdropXykRewards.IncentivesBound | contracts/lockdrop/src/contract.rs:2335-2351 | a one-time reward is the exact share of the incentives, rounded down by less than 1 + incentives / 10^18, and zero without shares or weights |
| LockdropXykRewards.PoolBudgetWithDrift | contracts/lockdrop/src/contract.rs:2335-2371 | in general a pool's rewards exceed its part at most by the factor (W + increases) / W |
| LockdropXykRewards.BudgetExceeded | contracts/lockdrop/src/contract.rs:2335-2371 | the converse: if the floored weights exceed the accumulated ones by more than the rounding, over both pools, the one-time rewards due exceed the incentives |
| LockdropXykRewards.PoolRewardsBetween | contracts/lockdrop/src/contract.rs:2335-2371 | a pool's one-time rewards from above and below by its floored weights; the two bounds differ by less than 1 + incentives / 10^18 for each position |
| LockdropXykRewards.BudgetCanBeExceeded | contracts/lockdrop/src/contract.rs:935-938 | two messages after which a position is due 150 out of incentives of 100 |
| LockdropXykRewards.PaymentsWithinIncentives | contracts/lockdrop/src/contract.rs:1640-1672 | one-time payments to all users are within the rewards due for all positions |
| LockdropXykRewards.FinalizeKeepsOneTime | contracts/lockdrop/src/contract.rs:2382-2434 | recorded rewards are exactly those due, and a recorded user total is their sum |
| LockdropXykRewards.ClaimKeepsOneTime | contracts/lockdrop/src/contract.rs:1640-1672 | after a claim whoever is marked as paid got exactly the rewards due, once, and others nothing |
| LockdropXykRewards.MigrateKeepsOneTime | contracts/lockdrop/src/contract.rs:1797-1825 | the same after a migrated position, whose user is then marked |
| LockdropXykRun.IncreaseKeeps | contracts/lockdrop/src/contract.rs:892-999 | an increase keeps the whole lockdrop invariant: totals, debts, weights, one-time rewards |
| LockdropXykRun.WithdrawKeeps | contracts/lockdrop/src/contract.rs:1014-1118 | a withdrawal from a lockup keeps it |
| LockdropXykRun.InitializeKeeps | contracts/lockdrop/src/contract.rs:789-838 | pool initialisation with the locked amount keeps it |
| LockdropXykRun.ClaimKeeps | contracts/lockdrop/src/contract.rs:1169-1311 | a claim keeps it, and leaves weights, units and shares alone |
| LockdropXykRun.MigrateKeeps | contracts/lockdrop/src/contract.rs:1684-1948 | a migrated position keeps it; the user is marked as paid |
| LockupWithdrawals.AllowedWithdrawals | contracts/lockdrop/src/contract.rs:1014-1118 | in every run up to initialisation: position counts are right and within the limit, and an allowed withdrawal is accepted if and only if its weight is within the accumulated weight, which whole coefficients guarantee |
| LockupWithdrawals.AllowedWithdrawalCanFail | contracts/lockdrop/src/contract.rs:1077-1081 | two increases after which an allowed withdrawal is refused by the weight subtraction |
| LockdropPclSolvency.FinishKeepsPool | contracts/lockdrop-pcl/src/contract.rs:868-942 | recording a migrated position keeps pool totals and LP balances in step |
| LockdropPclSolvency.FinishKeepsUserTotals | contracts/lockdrop-pcl/src/contract.rs:868-942 | and the totals per pool and user |
| LockdropPclSolvency.AccrueTokensKeep | contracts/lockdrop-pcl/src/contract.rs:609-648 | spreading a list of received tokens keeps every token of every pool solvent |
| LockdropPclSolvency.PayTokenSettles | contracts/lockdrop-pcl/src/contract.rs:694-767 | a token's pending amount is not negative and is covered; adding only it to the debt leaves exactly what the position has earned |
| RewardFairness.AccrueTokenSpreadsAll | contracts/lockdrop-pcl/src/contract.rs:629-642 | the received amount of each token is spread over the staked LP tokens, up to the same rounding |
| RewardFairness.PayTokensPayUp | contracts/lockdrop-pcl/src/contract.rs:694-767 | after the loop nothing is owed of any listed token, and the payments are exactly the changes of the debts |
| LockdropPclSolvency.ClaimKeeps | contracts/lockdrop-pcl/src/contract.rs:434-863 | a claim, with or without unlock, keeps pool totals and the solvency of every token |
| LockdropPclSolvency.ClaimKeepsUserTotals | contracts/lockdrop-pcl/src/contract.rs:665-863 | and the totals per pool and user |
| LockdropPclSolvency.ClaimKeepsRecords | contracts/lockdrop-pcl/src/contract.rs:434-863 | a claim removes no position, changes no units, unlock time or flag, and lowers no debt of any token |
| LockdropPclProgress.AccrueAdds | contracts/lockdrop-pcl/src/contract.rs:609-648 | every listed token is received and spread over the staked LP tokens, entry by entry, also when the list has zeros or repeats a token |
| LockdropPclProgress.ClaimSucceeds | contracts/lockdrop-pcl/src/contract.rs:434-863 | in a state with the invariants a claim succeeds exactly under checks that can be made before: no subtraction and no transfer in it fails |
| LockdropPclProgress.ClaimPays | contracts/lockdrop-pcl/src/contract.rs:434-863 | a claim in a staked pool pays of every listed token what the position has earned above its debt, after all received rewards were spread, and nothing of other tokens; an unlock hands out just the units; no other position changes |
| LockdropPclProgress.ClaimPaysOnce | contracts/lockdrop-pcl/src/contract.rs:826-858 | a claim pays a user who is not marked the recorded one-time rewards, or their sum if none are recorded, and marks the user; a marked user gets none |
| AuctionProofs.DepositKeepsPool | contracts/auction/src/contract.rs:170-223 | a deposit keeps totals equal to the sums over users |
| AuctionProofs.WithdrawKeepsPool | contracts/auction/src/contract.rs:377-462 | a withdrawal keeps them |
| AuctionProofs.PoolSizesSplitNtrn | contracts/auction/src/contract.rs:522-600 | the NTRN is split without loss; each LP size is the integer square root of the product less the minimum liquidity |
| AuctionProofs.UsdcPartFits | contracts/auction/src/contract.rs:571-577 | the USDC pool's part never exceeds the NTRN, so the subtraction for the other part cannot fail |
| AuctionProofs.SplitByValue | contracts/auction/src/contract.rs:571-577 | the USDC pool gets the NTRN in proportion to the deposited USDC among all deposits valued in USDC at the oracle's rates, with exact bounds for the rounding |
| AuctionProofs.SetPoolSizeSplits | contracts/auction/src/contract.rs:571-587 | the stored sizes of the two pools split the NTRN by the value of the USDC and of the ATOM deposit, and each LP size is the geometric mean of the two amounts of its own pool less 1000; nothing else changes |
| AuctionProofs.PartBound | contracts/auction/src/contract.rs:944-967 | a user's part is half of the pro-rata share of the LP size, with exact bounds for the three roundings |
| AuctionProofs.PartsWithinHalf | contracts/auction/src/contract.rs:944-967 | the users' parts, rounded down three times, add up to at most half of the LP size |
| AuctionProofs.LockKeepsPool | contracts/auction/src/contract.rs:976-1053 | locking keeps the locked totals and never lets a user lock more than the entitlement |
| AuctionProofs.WithdrawLpKeepsPool | contracts/auction/src/contract.rs:1062-1118 | taking back keeps them |
| AuctionVesting.InitPoolEstablishes | contracts/auction/src/contract.rs:679-776 | initialisation distributes the minted LP tokens without loss |
| AuctionVesting.InitPoolNeverShort | contracts/auction/src/contract.rs:609-776 | if at least the computed sizes are minted, reserve and lockdrop can be served |
| AuctionVesting.MigrateKeeps | contracts/auction/src/contract.rs:778-886 | a hand-over marks exactly the next users, gives each the unlocked rest, and loses no LP token |
| AuctionVesting.BatchIsFirst | contracts/auction/src/contract.rs:786-806 | a batch has as many users as the pack size allows, in ascending order, and nobody who waits comes before any of them |
| AuctionVesting.AuctionPartSucceeds | contracts/auction/src/contract.rs:778-886 | if enough was minted, the auction's own part of a hand-over succeeds if and only if the pools are initialised, the pack size is positive and somebody waits |
| HandOverProofs.BatchIsAccepted | contracts/auction/src/contract.rs:808-883 | the sent amount is what the auction gives away, and the vesting contract accepts the schedules with it if and only if the vesting duration is positive or nothing is to vest |
| HandOverProofs.RegisteredBatch | packages/vesting-base/src/handlers.rs:123-185 | an accepted batch leaves every user of it with one schedule for exactly the rest, and all other accounts as they were |
| TgeInvariant.MigrateLiquidityKeeps | contracts/lockdrop/src/contract.rs:521-573 | migrating a user keeps the invariant of all three contracts and closes all positions of the user |
| TgeInvariant.ExecuteKeeps | contracts/auction/src/contract.rs:122-155 | every transaction keeps the invariant and the agreements between the contracts |
| TgeInvariant.RunKeeps | contracts/lockdrop/src/contract.rs:155-232 | every run keeps it |
| TgeTheorems.XykRewardsAreCovered | contracts/lockdrop/src/contract.rs:1411-1549 | in every run paid generator rewards are within received ones, and every pending amount is non-negative and covered |
| TgeTheorems.PclRewardsAreCovered | contracts/lockdrop-pcl/src/contract.rs:629-767 | the same for every pool and reward token, and after a payment the debt equals what was earned |
| TgeTheorems.LockedAmountsAgree | contracts/auction/src/contract.rs:1010-1110 | until initialisation the auction's locked total, its users' sum, the lockdrop's total and its positions' sum are equal, per user as well |
| TgeTheorems.DepositTotalsAreSums | contracts/auction/src/contract.rs:170-462 | in every run deposit totals are the sums over the users |
| TgeTheorems.InitPoolStakesLocked | contracts/auction/src/contract.rs:739-766 | initialisation sends and stakes exactly the locked amounts |
| PoolTerms.SizesAndShares | contracts/auction/src/contract.rs:522-766 | in every run the stored sizes split the NTRN by the value of the deposits as they are, and after initialisation each pool with locked tokens has its own NTRN size as its share of the incentives, and any other pool none |
| TgeHistory.MessagesAddUp | contracts/auction/src/contract.rs:170-462 | in every run a user's deposit in each pool, locked amount and position are what this user's own accepted messages put there less what they took back, and the incentives are those added |
| TgeHistory.MarkedIfLate | contracts/lockdrop/src/contract.rs:1049-1094 | in every run a user, or a position, is marked as withdrawn exactly if a withdrawal was made from it after the deposit window, or after the lock window |
| TgeHistory.InitialisedOnce | contracts/auction/src/contract.rs:609-776 | in every run the pools are initialised exactly if such a message was accepted; its time and the minted LP tokens are recorded once and stay |
| TgeAccepts.AcceptedExactly | contracts/auction/src/contract.rs:122-155 | in every run, exactly when each deposit, withdrawal, pool size, lock, withdrawal from a lock, initialisation and increase of the incentives takes effect, as conditions on the state before: no subtraction in either contract fails |
| TgeTheorems.UnlocksAreExact | contracts/lockdrop/src/contract.rs:1607-1637 | after initialisation the staked amount is the sum of open positions, every closed one handed out exactly its units, and all together are what the auction locked |
| TgeTheorems.MigratedBooksAgree | contracts/lockdrop-pcl/src/contract.rs:889-939 | PCL totals are the sums of its open positions and equal its LP tokens; each position it has is closed in the XYK lockdrop; a pool is staked at most once, when no XYK units are left open |
| TgeTheorems.MigrationClosesAll | contracts/lockdrop/src/contract.rs:547-570 | migrating a user closes all positions and leaves both user totals at zero |
| TgeProgress.ClaimSucceeds | contracts/lockdrop/src/contract.rs:1169-1311 | in every run, exactly when a claim succeeds, as a condition on the state before: started, rewards recorded or recordable, position open and out of its lock, open units in its pool, amounts within 128 bits, something to pay |
| TgeProgress.MigrationSucceeds | contracts/lockdrop/src/contract.rs:521-573 | in every run, exactly when a user's migration succeeds: started, rewards recorded or recordable, and one position after the other finds open units in its pool, a duration that the PCL lockdrop offers, and amounts within 128 bits |
| MigratedRewards.ClaimPclSucceeds | contracts/lockdrop-pcl/src/contract.rs:434-863 | in every run, exactly when a claim in the PCL lockdrop succeeds: position there and open, past its unlock time if it is to be unlocked, open units in its pool, and in a staked pool rewards and payments within 128 bits and, without unlock, something to pay |
| LockTerms.NothingLeavesEarly | contracts/lockdrop-pcl/src/contract.rs:469-474 | in every run a position unlocks at the end of the lockdrop's windows plus its own duration, in both lockdrops; until then it is open in the XYK lockdrop, or has moved and is open in the PCL lockdrop; what the PCL lockdrop hands out afterwards is just its units |
| LockTerms.UnlocksWait | contracts/lockdrop/src/contract.rs:962-965 | in every run a claim with unlock in either lockdrop succeeds only once the windows and the position's own duration have passed |
| TgeBlocked.BlockedForEver | contracts/lockdrop/src/contract.rs:1496-1518 | in every run a position that is open in a pool without open units has no units, and neither a claim for it nor a migration of its user ever succeeds |
| TgeStaking.StakedByMigration | contracts/lockdrop/src/contract.rs:1985-2018 | in every run a PCL pool is staked if and only if some migration took the last open units out of its XYK pool |
| TgeStaking.LastOneDecides | contracts/lockdrop/src/contract.rs:1985-2018 | in every run the step that empties an XYK pool after initialisation is a migration or an unlock, none of its units ever come back, and the PCL pool is staked from then on if and only if it was a migration |
| TgeStaking.UnstakedEarnsNothing | contracts/lockdrop-pcl/src/contract.rs:434-544 | in every run a PCL pool that is not staked has received and paid no reward token |
| TgeExamples.SuitableStart | contracts/auction/src/contract.rs:56-97 | there is a start of all contracts from which the two example runs can be made |
| TgeExamples.UnlockLeavesUnstaked | contracts/lockdrop/src/contract.rs:2010-2013 | a run after which the XYK pool is empty and the PCL pool has LP tokens but is never staked |
| TgeExamples.EmptyPositionBlocks | contracts/auction/src/contract.rs:1001-1031 | a run after which a user's locked LP tokens can never be migrated because of a position without units in the other pool |
| MigratedRecords.TermsAreCarriedOver | packages/astroport_periphery/src/lockdrop_pcl.rs:346-358 | in every run a PCL position has the unlock time and withdrawal flag of the XYK position it comes from |
| MigratedRecords.MigrationBringsMinted | contracts/lockdrop-pcl/src/contract.rs:868-942 | in every run a migration records each open position of the user with just the LP tokens that the PCL pair minted for it |
| MigratedRecords.WeightsAddUp | contracts/lockdrop-pcl/src/contract.rs:896-911 | in every run the accumulated weight of a PCL pool has risen by the sum of the weights of its positions |
| MigratedRewards.RewardsAreCarriedOver | packages/astroport_periphery/src/lockdrop_pcl.rs:346-358 | in every run a PCL position has the one-time reward due for its XYK position, and a user's record has the number of positions, the sum of all rewards due, and the mark that they were paid |
| TgeTheorems.LpTokensAreConserved | contracts/auction/src/contract.rs:708-855 | half of the minted LP tokens is at the reserve, the locked ones are at the lockdrop, the rest is handed over or still held |
| TgeTheorems.InitPoolCannotRunShort | contracts/auction/src/contract.rs:609-776 | in every run initialisation cannot run short if the computed sizes are minted |
| TgeTheorems.LockedWithinEntitlement | contracts/auction/src/contract.rs:976-1053 | in every run nobody locks more than the entitlement |
| TgeVesting.GrantsAreRests | packages/vesting-base/src/handlers.rs:123-251 | in every run a vesting contract has an account exactly for users to whom the auction handed something over, with one schedule for exactly this amount; its total is what the auction handed over, and it holds that less what was claimed |
| TgeVestingTerms.VestsFromHandOver | contracts/auction/src/contract.rs:808-855 | in every run what was handed over vests on a straight line from the moment of the hand-over over the vesting duration, whatever happens later |
| TgeVesting.HandOverHappens | contracts/auction/src/contract.rs:778-886 | if the computed sizes are minted, a hand-over with its messages to both vesting contracts happens in any run if and only if the pools are initialised, the pack size is positive, somebody waits, and the vesting duration is positive or nothing is to vest for the next users |
| TgeVesting.EveryoneIsVestedOnce | contracts/auction/src/contract.rs:786-883 | in every run as many hand-overs as needed leave every user with locked and granted LP tokens equal to the entitlement, if and only if the vesting duration is positive or nothing is to vest for those who wait |
| TgeTheorems.WeightDriftIsBounded | contracts/lockdrop/src/contract.rs:2360-2371 | in every run accumulated and exact weight differ by at most one unit per increase or withdrawal, and not at all for whole coefficients |
| TgeTheorems.OneTimeRewardsWithinIncentives | contracts/lockdrop/src/contract.rs:2335-2434 | with whole coefficients, or whenever the weights allow it, rewards due, recorded and paid over both pools are within the incentives |
| TgeTheorems.OneTimeRewardsWithDrift | contracts/lockdrop/src/contract.rs:2335-2351 | for any coefficients the excess of a pool is bounded by its number of increases |
| TgeTheorems.OneTimeRewardsBeyondIncentives | contracts/lockdrop/src/contract.rs:2335-2434 | in every run the pools' shares add up to the total share, and if the floored weights exceed the accumulated ones by more than the rounding, over both pools, the rewards due exceed the incentives |
| TgeTheorems.OneTimePaidOnce | contracts/lockdrop-pcl/src/contract.rs:826-858 | in every run a user gets the one-time payment at most once, equal to the rewards due for all positions, and never from the PCL lockdrop, all of whose users are marked |
| TgeTheorems.RunLasts | contracts/lockdrop/src/contract.rs:1049-1094 | in every run, after the deposit or lock window users and positions withdraw at most once and keep half, positions do not disappear, closed windows freeze deposits, and PCL records keep units, terms and rewards and never lose debts |
| TgeTheorems.WithdrawalRule | contracts/auction/src/contract.rs:377-497 | the same between any two moments of a run |
| TgeContract.Contracts.MigratePositions | contracts/lockdrop/src/contract.rs:547-572 | the loop over a user's positions, with the callbacks of both lockdrops, does what the model says, or nothing |
| TgeContract.Contracts.MigrateToVesting | contracts/auction/src/contract.rs:778-886 | marking the users and registering them at both vesting contracts is one hand-over of the model, or nothing |
| TgeContract.Contracts.Handle | contracts/auction/src/contract.rs:122-155 | every transaction of the classes is the model's transaction |
| TgeContract.Contracts.Serve | contracts/lockdrop/src/contract.rs:155-232 | every run of the classes is a run of the model |
| PositionKeys.UserKeysComplete | contracts/lockdrop/src/contract.rs:2390-2403 | iterating over pools and durations lists exactly the user's positions, each once |
| PositionKeys.ListKeys | contracts/lockdrop/src/contract.rs:2390-2403 | the nested loops produce that list |
| Ordered.SortKeys | contracts/auction/src/contract.rs:786-794 | storage iteration visits the keys in ascending order |
| LockdropXykContract.LoopFinalizes | contracts/lockdrop/src/contract.rs:2382-2434 | the loop over a user's keys fixes the rewards of all of the user's positions and of no others, and adds up exactly them |
| LockdropXykContract.Contract.CheckIncrease | contracts/lockdrop/src/contract.rs:892-946 | the checks accept exactly the increases that the model accepts, with the same errors |
| LockdropXykContract.Contract.IncreaseLockupFor | contracts/lockdrop/src/contract.rs:892-999 | the handler stores what the model says, or nothing; `LockTerms.NothingLeavesEarly` and `TgeHistory.MessagesAddUp` say what that is |
| LockdropXykContract.Contract.CheckWithdrawal | contracts/lockdrop/src/contract.rs:1014-1081 | the checks accept exactly the withdrawals that the model accepts, with the same errors |
| LockdropXykContract.Contract.WithdrawFromLockup | contracts/lockdrop/src/contract.rs:1014-1118 | the handler stores what the model says, or nothing |
| LockdropXykContract.Contract.CalculateWeight | contracts/lockdrop/src/contract.rs:2360-2371 | the search for the duration's coefficient gives the model's weight |
| LockdropXykContract.Contract.InitializePool | contracts/lockdrop/src/contract.rs:789-838 | the handler stores what the model says, or nothing |
| LockdropXykContract.Contract.IncreaseIncentives | contracts/lockdrop/src/contract.rs:743-772 | the handler stores what the model says, or nothing |
| LockdropXykContract.Contract.UpdateUserLockupPositions | contracts/lockdrop/src/contract.rs:2382-2434 | the loop records the rewards of all listed positions and returns their sum, or stores nothing and returns the error of the first position that fails |
| LockdropXykContract.Contract.WithdrawRewards | contracts/lockdrop/src/contract.rs:1462-1677 | the callback pays, unlocks and records what the model says, or nothing |
| LockdropXykContract.Contract.ClaimRewardsAndOptionallyUnlock | contracts/lockdrop/src/contract.rs:1169-1311 | the handler with its callbacks does what the model says, or nothing |
| LockdropXykContract.Contract.MigratePosition | contracts/lockdrop/src/contract.rs:1684-1948 | the migration callbacks do what the model says, or nothing |
| LockdropPclContract.LoopSums | contracts/lockdrop-pcl/src/contract.rs:1272-1323 | the loop over a user's keys adds up exactly the user's recorded rewards |
| LockdropPclContract.Contract.CalculateWeight | contracts/lockdrop-pcl/src/contract.rs:1250-1261 | the search for the duration's coefficient gives the model's weight, or refuses the duration |
| LockdropPclContract.Contract.FinishMigration | contracts/lockdrop-pcl/src/contract.rs:868-942 | the callback records the position as handed over with its weight, and stakes when told to, or stores nothing |
| LockdropPclContract.Contract.Accrue | contracts/lockdrop-pcl/src/contract.rs:609-648 | the loop over the received tokens does what the model says, or nothing |
| LockdropPclContract.Contract.PayTokens | contracts/lockdrop-pcl/src/contract.rs:694-767 | the loop over the reward tokens does what the model says, or nothing |
| LockdropPclContract.Contract.ClaimRewardsAndOptionallyUnlock | contracts/lockdrop-pcl/src/contract.rs:434-544 | the handler with its callbacks does what the model says, or nothing; `MigratedRewards.ClaimPclSucceeds` and `LockdropPclProgress.ClaimPays` say what that is |
| AuctionContract.Contract.Deposit | contracts/auction/src/contract.rs:170-223 | the handler stores what the model says, or nothing; `TgeAccepts.AcceptedExactly` and `TgeHistory.MessagesAddUp` say what that is |
| AuctionContract.Contract.AllowedWithdrawalPercent | contracts/auction/src/contract.rs:469-497 | the code computes the share of the withdrawal rule |
| AuctionContract.Contract.Withdraw | contracts/auction/src/contract.rs:377-462 | the handler stores what the model says, or nothing |
| AuctionContract.Contract.SetPoolSize | contracts/auction/src/contract.rs:522-600 | the handler stores what the model says, or nothing; `AuctionProofs.SetPoolSizeSplits` says what that is |
| AuctionContract.Contract.UserLpInfo | contracts/auction/src/contract.rs:944-967 | the code computes a user's parts of both pools |
| AuctionContract.Contract.LockLp | contracts/auction/src/contract.rs:976-1053 | the handler stores what the model says, or nothing |
| AuctionContract.Contract.WithdrawLp | contracts/auction/src/contract.rs:1062-1118 | the handler stores what the model says, or nothing |
| AuctionContract.Contract.InitPool | contracts/auction/src/contract.rs:609-776 | the handler with its callback stores what the model says, or nothing |
| AuctionContract.Contract.CollectBatch | contracts/auction/src/contract.rs:808-855 | collecting the amounts of a batch and sending the sums is handing over user by user, and the collected schedules are those of the model |
| AuctionContract.Contract.MigrateToVesting | contracts/auction/src/contract.rs:778-886 | the handler hands over the next users in storage order and returns the schedules and amounts for both vesting contracts, or stores nothing |
| Vesting.VestedOfBounds | packages/vesting-base/src/handlers.rs:425-450 | a schedule's vested amount never falls, never exceeds its grant, and is the grant once it has ended |
| Vesting.VestedOnTheLine | packages/vesting-base/src/handlers.rs:425-450 | what has vested is exactly the point at this time on the straight line from start to end, rounded down: nothing before the start, the end amount from the end on, the start amount if there is no end |
| Vesting.VestedBounds | packages/vesting-base/src/handlers.rs:425-450 | the same for a list of schedules |
| Vesting.AddedSchedules | packages/vesting-base/src/handlers.rs:147-151 | added schedules add exactly their vested amounts and grants |
| Vesting.AccountWithinTotals | packages/vesting-base/src/handlers.rs:123-251 | no account has claimed more than has vested or is owed more than the balance |
| Vesting.RegisterKeeps | packages/vesting-base/src/handlers.rs:123-185 | a registration keeps totals equal to the sums over accounts and the balance to their difference |
| Vesting.ClaimKeeps | packages/vesting-base/src/handlers.rs:192-251 | a claim keeps them |
| Vesting.ClaimSucceeds | packages/vesting-base/src/handlers.rs:204-242 | a claim fails if and only if it asks for more than has vested and is not claimed |
| Vesting.RemoveAllKeeps | packages/vesting-base/src/ext_managed.rs:66-115 | a clawback of any list of accounts succeeds and keeps the ledger |
| VestingRuns.LedgerHolds | packages/vesting-base/src/handlers.rs:123-251 | in every run totals are sums, the balance is their difference and the sum of what is unclaimed, and claims and clawbacks succeed |
| VestingRuns.HistoryIsRight | packages/vesting-base/src/ext_historical.rs:51-83 | after any run the stored history gives, for every height, the accounts and totals that the block at this height found |
| VestingRuns.UnclaimedAddsUp | packages/vesting-base/src/ext_historical.rs:51-101 | at every height both queries succeed, and the accounts' unclaimed amounts add up to the reported total |
| VestingRuns.PathIndependence | packages/vesting-base/src/handlers.rs:204-242 | whatever partial claims came before, a full claim brings all payments to exactly the vested amount, and to the whole grant in the end |
| VestingRuns.PaymentsOnTheLine | packages/vesting-base/src/handlers.rs:204-242 | for an account with one schedule, a full claim brings all payments to the point on the schedule's line |
| VestingTerms.PartialClaimPays | packages/vesting-base/src/handlers.rs:204-242 | in every run a claim of an amount pays just this amount if it has vested and was not paid before, and nothing otherwise |
| VestingTerms.RegisterAdds | packages/vesting-base/src/handlers.rs:123-185 | exactly when a registration is accepted, and that every account then has its old schedules and those listed for it, with as much claimed as before |
| VestingTerms.RemoveAllRemoves | packages/vesting-base/src/ext_managed.rs:66-115 | a clawback removes exactly the listed accounts and leaves the others as they are |
| VestingTerms.SchedulesAreRegistered | packages/vesting-base/src/handlers.rs:123-251 | in every run an account has exactly the schedules that were registered for it since it was last removed |
| VestingRuns.DeliverKeepsPast | packages/vesting-base/src/handlers.rs:154-182 | the writes of a message, which are those of the code, keep the history in step with the state and change nothing that it reports for this height or earlier ones |
| VestingHistory.LoadAtHeight | packages/vesting-base/src/ext_historical.rs:51-83 | the search through a log finds the value that the block at a height found |
| VestingHistory.Contract.Deliver | packages/vesting-base/src/handlers.rs:123-251 | a handler with its writes to the logs is one step of the model with history, or nothing is stored |
| VestingHistory.Contract.Serve | packages/vesting-base/src/handlers.rs:123-251 | every run of the class is a run of the model with history |
| VestingHistory.Contract.UnclaimedAmountAtHeight | packages/vesting-base/src/ext_historical.rs:51-101 | the query reports what the model's history says of an account |
| VestingHistory.Contract.TotalUnclaimedAtHeight | packages/vesting-base/src/ext_historical.rs:74-83 | the query reports what the model's history says in total |
| VestingContract.AssertSchedules | packages/vesting-base/src/handlers.rs:401-415 | the loop accepts exactly the valid lists of schedules |
| VestingContract.AddGrants | packages/vesting-base/src/handlers.rs:138-145 | the loop adds up the grants, or overflows |
| VestingContract.AddVested | packages/vesting-base/src/handlers.rs:425-450 | the code for one schedule adds what it has vested, or overflows |
| VestingContract.ComputeAvailable | packages/vesting-base/src/handlers.rs:425-450 | the loop computes vested less claimed |
| VestingContract.ComputeUnclaimed | packages/vesting-base/src/ext_historical.rs:88-101 | the loop computes granted less claimed |
| VestingContract.Contract.Register | packages/vesting-base/src/handlers.rs:123-185 | the nested loops register all accounts, or nothing is stored |
| VestingContract.Contract.Claim | packages/vesting-base/src/handlers.rs:192-251 | the handler pays and stores what the model says, or nothing |
| VestingContract.Contract.RemoveAccounts | packages/vesting-base/src/ext_managed.rs:46-121 | the nested loops claw back all listed accounts, or nothing is stored |
| VestingLp.MigrateKeeps | contracts/vesting-lp/src/contract.rs:93-176 | a migration, dust path included, keeps the books of both contracts |
| VestingLp.TakeOutKeeps | contracts/vesting-lp/src/contract.rs:270-279 | taking a share off the granted total and emptying the account keeps the XYK books |
| VestingLp.HandOverKeeps | contracts/vesting-lp-pcl/src/contract.rs:136-170 | receiving a migrated account keeps the PCL books |
| VestingLpRuns.BalancesExplained | contracts/vesting-lp/src/contract.rs:119-431 | in every run of both contracts the exact difference between balances, totals and unclaimed amounts, and every account can claim what has vested |
| VestingLpRuns.NeverLoses | contracts/vesting-lp/src/contract.rs:363-435 | each kind of loss occurs in a run if and only if a migration in it takes effect while a guard holds that can be seen before the call |
| VestingLpRuns.MigrationConserves | contracts/vesting-lp/src/contract.rs:377-431 | the XYK balance is the sum of unclaimed amounts if and only if no grant is stranded, and its totals match it if and only if no dust is sent; the PCL totals match its balance if and only if no LP token arrives without a grant, and the balance is the sum of unclaimed amounts if and only if, besides, no account is overwritten |
| VestingLpRuns.EndPointsSuffice | contracts/vesting-lp/src/contract.rs:437-446 | if all schedules have end points nothing is stranded or arrives without a grant |
| VestingLpRuns.DustHappens | contracts/vesting-lp/src/contract.rs:377-431 | a run whose migration sends a share as dust and leaves the total too high |
| VestingLpRuns.StrandedHappens | contracts/vesting-lp/src/contract.rs:437-446 | a run whose migration leaves a grant without an owner, and minted LP tokens without a grant |
| VestingLpRuns.OverwriteHappens | contracts/vesting-lp-pcl/src/contract.rs:136-170 | a run whose migration overwrites an account |
| VestingLpRuns.MigrationMovesAccount | contracts/vesting-lp/src/contract.rs:363-435 | a migration takes the whole unclaimed share, empties the account, and grants exactly the minted LP tokens on a line from the start to the end of the account's last schedule |
| VestingLpRuns.MigratedOnce | contracts/vesting-lp/src/contract.rs:387-394 | a migrated account has nothing left to migrate |
| VestingLpContract.ComputeShare | contracts/vesting-lp/src/contract.rs:437-446 | the loop adds up the end points and subtracts what is claimed |
| VestingLpContract.Receive | contracts/vesting-lp-pcl/src/contract.rs:136-170 | the handler saves the account and raises the granted total, or stores nothing |
| VestingLpContract.MigrateLiquidity | contracts/vesting-lp/src/contract.rs:93-435 | the handler with its callbacks moves the account between both contracts, or stores nothing |
| Credits.VestedGrows | contracts/credits/src/contract.rs:620-640 | vested amounts never fall, never exceed the allocation, and reach it |
| Credits.MintKeeps | contracts/credits/src/contract.rs:378-389 | minting keeps the supply equal to the balances and backed |
| Credits.TransferKeeps | contracts/credits/src/contract.rs:212-228 | a transfer keeps them |
| Credits.AddVestingKeeps | contracts/credits/src/contract.rs:152-196 | a new allocation keeps supply, backing and withdrawn amounts in order |
| Credits.BurnKeeps | contracts/credits/src/contract.rs:586-600 | a burn succeeds if and only if the balance covers it and its amount is accepted, and keeps the backing |
| Credits.WithdrawKeeps | contracts/credits/src/contract.rs:245-288 | exactly when a withdrawal succeeds, and that it pays what has vested and was not withdrawn, or the balance |
| Credits.QueriesSplitBalance | contracts/credits/src/contract.rs:502-559 | the queries succeed exactly for users with an allocation and a balance, which they split in two |
| Credits.LockdropBurnAmount | contracts/lockdrop/src/contract.rs:1324-1365 | exactly when the lockdrop can compute the amount to burn, and that it is the balance or, if less, what may be withdrawn plus the rewards |
| Credits.LockdropBurnIsCovered | contracts/lockdrop/src/contract.rs:1640-1672 | exactly when the credits let a claim in the lockdrop pass, and that the user then gets the burned amount |
| CreditsRuns.AlwaysBacked | contracts/credits/src/contract.rs:78-106 | in every run NTRN held is at least the supply, which is the sum of balances, and withdrawn amounts are within vested ones |
| CreditsRuns.LockdropBurnSucceeds | contracts/credits/src/contract.rs:343-362 | after every run, exactly when the credits let a claim in the lockdrop pass, whatever was withdrawn before |
| CreditsRuns.WithdrawalsAddUp | contracts/credits/src/contract.rs:245-288 | in every run a user's withdrawals add up to at most what has vested, and to exactly that if the balance covers the last one |
| CreditsTerms.AddVestingVests | contracts/credits/src/contract.rs:152-196 | an accepted message gives an allocation of its amount that vests on the line from the message's start over its duration: nothing before, all after, and the point in between rounded down; nothing is withdrawn and nothing else changes |
| CreditsTerms.AllocationsVestAsAsked | contracts/credits/src/contract.rs:152-196 | in every run a user has an allocation exactly if such a message was accepted, and it keeps the terms of this message for ever |
| CreditsTerms.AcceptedExactly | contracts/credits/src/contract.rs:108-390 | in every run a message takes effect exactly if its sender may send it and it asks for no more than there is |
| CreditsTerms.SettingsChange | contracts/credits/src/contract.rs:108-150 | only the DAO changes settings, and exactly those that it gives; the DAO stays |
| CreditsTerms.BalancesAddUp | contracts/credits/src/contract.rs:212-390 | in every run a balance is what was minted and transferred to the user, less what the user transferred, withdrew or had burned |
| CreditsTerms.SurplusIsDonated | contracts/credits/src/contract.rs:245-390 | in every run no message takes NTRN that backs no credits |
| CreditsContract.ComputeWithdrawableAmount | contracts/credits/src/contract.rs:620-640 | the code computes vested less withdrawn |
| CreditsContract.Contract.Serve | contracts/credits/src/contract.rs:78-106 | every run of the class is a run of the model; from the start it keeps the supply backed and the sum of the balances, and what it paid to a user as withdrawals is recorded and within the vested amount |
| Oracle.WrapSubIsGrowth | contracts/astroport/oracle/src/contract.rs:152-158 | wrapping subtraction recovers growth below 2^128 |
| Oracle.UpdateIsRight | contracts/astroport/oracle/src/contract.rs:146-163 | an update lists each common pair once with its floored true average price |
| Oracle.AveragesAreTrue | contracts/astroport/oracle/src/contract.rs:131-174 | in every run with distinct pairs and growth below 2^128, every later update stores the true averages, however often the counters wrap |
| Oracle.UpdatesHappen | contracts/astroport/oracle/src/contract.rs:131-174 | in every run an update is accepted exactly if it is the first one or the period has passed since the last accepted one, and at the same time only if no pair is known already |
| OracleContract.Contract.Update | contracts/astroport/oracle/src/contract.rs:131-174 | the nested loops store what the model says, or nothing |

## Left out

- LockdropXykContract.Contract.WithdrawRewards: does not model the loop over proxy debts and the burn message to the credits, which has its own model in Credits.
- LockdropXykContract.Contract.ClaimRewardsAndOptionallyUnlock: does not model proxy rewards and the burn message to the credits, and does not say which error rejects it, because the first position that fails depends on the order of iteration.
- LockdropXykContract.Contract.MigratePosition: does not model proxy rewards and the burn message to the credits.
- LockdropPclContract.Contract.ClaimRewardsAndOptionallyUnlock: does not model the burn message to the credits, which no user of the PCL lockdrop can cause, because all of them are marked as paid.
- AuctionContract.Contract.MigrateToVesting: does not say which error rejects it, because the code compares the sums with the balance at the end.
- TgeTheorems.PclRewardsAreCovered: a reward token is identified by a number; how the incentives contract lists tokens is a parameter.
- The generator, the incentives contract, pairs, the factory, the price feed and the bank: ledgers and arbitrary amounts only; their own checks, such as a slippage limit, are not part of this model.
- The credits message inside lockdrop claims and migrations (`LockdropXykContract.Contract.WithdrawRewards`, `LockdropXykContract.Contract.MigratePosition`, `LockdropPclContract.Contract.ClaimRewardsAndOptionallyUnlock`) and the XYK proxy debts: they are outside these contracts and therefore outside the runs of `Tge`; `Credits.LockdropBurnIsCovered` and `CreditsRuns.LockdropBurnSucceeds` say when the burn lets a claim pass.
- XYK proxy rewards: new positions start with an empty debt vector and claims only go over existing entries.
- Lockup records of the first version and their conversion.
- The PCL lockdrop's own calculation of one-time rewards from its weights: its total incentives share is zero, so it gives nothing.
- 256-bit overflow of weights, products and decimals; 64-bit overflow of times.
- Sender checks of owners and managers outside the credits contract, ownership proposals, configuration setters, address validation, queries for display, pagination, events and JSON.
- Airdrop proofs, the price feed's messages and the USDC converter.
- Hand-overs when the auction was minted less than the computed sizes.
