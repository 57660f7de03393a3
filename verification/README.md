# Verified models of the money-keeping pallets

A Dafny model of five Substrate pallets of the Parallel Finance chain, with proofs about whole runs of
their calls: farming, crowdloans, the constant-product exchange (AMM), the bridge, and the asset registry.

Each pallet comes in three layers.

- The calls as functions on a state (`Farming`, `Crowdloans`, `Amm`, `Bridge`, `AssetRegistry`): the same
  checks in the same order, the same rounding, the same overflow conditions, `Result` for errors.
- The pallet as an object (`...Pallet`): a class whose fields are the storage items and whose methods update
  them step by step, with the loops of the original. Every method is proved to execute its function: the
  new storage on success, the old storage on error. This is what the transactional layer guarantees. Every
  call also keeps the `Valid()` of its class, which is the invariant proved of all runs.
- Runs (`...Runs` and the files beside them): a datatype of all calls, a run as a sequence of them in any
  order, failed calls and plain payments between accounts included, and theorems by induction over runs.

`Base`, `Sums` and `Assets` hold results and errors, sums over finite maps, and the ledger: balances per
asset and account, issuance per asset, transfer, mint and burn.

Main results:

- Farming: no pool ever promises more than was dispatched to it, and none forgets more than a stated loss; the
  accounts shared by pools always cover every payout, exactly when each call succeeds, which pools hold their
  stakes for good, what every user owns over any run, how long withdrawn stakes cool down, and the agreement of
  the stored reward index with block-by-block pro-rata sharing within an explicit bound.
- Crowdloans: conservation laws under every interleaving and repetition of calls and notifications, for the chain
  and for every single user, totals equal to their child storages, what flies against what is requested and
  exactly when a request can still land, out of which vaults and in which phases money is paid back, exactly when
  each call succeeds, the cap, the phases, and the exact progress of the batched loops.
- AMM: custody of all reserves in one account, value of a liquidity token, protocol fee against growth, exactly
  when liquidity can be removed and how long a pool is frozen, at which amounts it is added, losses of round trips,
  exactness of quotes along paths in both directions, and how far `get_amount_in` is from the least input.
- Bridge: the interval registry is the canonical form of a set, at most one outcome per nonce of a registered
  chain, what every decision rests on and that none is delayed, how long proposals live, exactly when votes and
  teleports succeed, and conservation of every bridged asset.
- Asset registry: list, price map and the two id maps in step, and where prices go.

Modelling decisions:

- The release profile switches overflow checks on (`Cargo.toml:5`), so unchecked `+` and `-` on machine
  integers trap; a trapped call has no effect and is the error `Trap`.
- Accounts derived from pallet ids are distinct from each other and from callers.
- Balances are 128-bit integers whose sum is the issuance (`Assets.Fits`); where a result needs that, it is part of
  the invariant (`FarmingExits.Liquid`, `CrowdloanProgress.Funded`).
- Big integers are natural numbers; conversions back to 128 bits fail when they do not fit. `Permill` is a number
  of millionths with exact floor and ceiling.
- `sort_unstable_by` is insertion by start. Stretching a canonical registry leaves all starts distinct, so the
  unstable sort has only one result there.
- A message to the relay chain gets the next query id. The order in which a child storage is iterated is a
  parameter of the two batched calls: any enumeration of its entries, each once.
- An observer's notes (exact shares, ballots, outcomes, supply at the last liquidity event) are computed beside
  the run and never influence it.

Where code and documentation differ, the model follows the code: `get_amount_in` adds one to be safe, yet can
still ask one unit too little (`QuoteFallsShort`); a fee settled without a snapshot can push the supply over
the root of the product (`SettlementOvershoots`) and a high one freezes the pool (`GetsFrozen`); a reward that is
large against the stakes sticks the index of a farming pool, and with it every stake (`GetsStuck`); a failed
crowdloan notification keeps its request, so it can be delivered again and strand another one (`TwoFlying`); the
relay token is accepted as a ctoken (`RelayAsCToken`); ctokens can be redeemed at a vault where they were not
claimed, which can leave that vault unable to pay a withdrawal (`RedeemedElsewhere`); a chain that is registered
again forgets its settled nonces (`SettledTwice`); `register_asset` and `update_asset_type` accept a type that is in
use, even the id's own (`ReusedType`). These inputs are runs from an empty chain.

## Model

| member | source | states |
|---|---|---|
| FarmingRuns.NeverOverpromised | pallets/farming/src/lib.rs:670-799 | In every reachable state of a pool, 10^12 times what was claimed, plus what every position is owed by the stored index, plus what is still to stream, is at most 10^12 times what was dispatched; and the pool total is the sum of the deposits |
| FarmingRuns.RunKeeps | pallets/farming/src/lib.rs:405-799 | Over any run of all calls and plain payments from a sound state the solvency of every pool is kept, and for every asset the shared account moves exactly in step with what all pools owe from it (stakes, locked items, dispatched less claimed) and with what is given to it |
| FarmingRuns.StepKeeps | pallets/farming/src/lib.rs:232-799 | The same for one step of any call, failed calls included |
| FarmingRuns.EveryPayoutIsCovered | pallets/farming/src/lib.rs:470-655 | After any run no claim, redemption or withdrawal can fail for lack of funds in the account shared by all pools of an asset |
| FarmingRuns.PayoutsCovered | pallets/farming/src/lib.rs:470-655 | The same in any single state whose accounts cover what is owed |
| FarmingRuns.RunCovered | pallets/farming/src/lib.rs:405-745 | From a chain without pools, every shared account covers what all its pools owe in every reachable state |
| FarmingExits.ClaimPayable | pallets/farming/src/lib.rs:614-655 | A claim fails exactly on a stuck pool: one with deposits whose stored index plus floor(blocks * rate * 10^12 / total) exceeds 128 bits; what a position earned always fits |
| FarmingExits.RedeemPayable | pallets/farming/src/lib.rs:558-602 | A redemption from an existing pool always succeeds, from a stuck one too |
| FarmingExits.WithdrawPayable | pallets/farming/src/lib.rs:470-546 | A withdrawal fails exactly for nothing or more than the deposit, on a stuck pool, before the unlock height, or with a cool-down and no room for a lock item |
| FarmingExits.DepositPayable | pallets/farming/src/lib.rs:405-457 | A deposit fails exactly for nothing, for more than the caller owns, on an inactive or on a stuck pool: totals never overflow |
| FarmingExits.DispatchPayable | pallets/farming/src/lib.rs:670-745 | A dispatch fails exactly for more than the payer owns, a duration of none or past the last block number, or on a stuck pool: what is left over never overflows |
| FarmingExits.SettlingSucceeds | pallets/farming/src/lib.rs:750-799 | Settling fails exactly where the index is stuck, for every position |
| FarmingExits.RunKeepsLiquid | pallets/farming/src/lib.rs:405-799 | Over any run every pool stays solvent, every account covers what is owed, and every balance fits 128 bits |
| FarmingExits.StuckForGood | pallets/farming/src/types.rs:66-92 | Over any run whatever a stuck pool stays stuck: every deposit and reward in it stays where it is, and nobody can deposit, withdraw, claim or dispatch |
| FarmingExits.GetsStuck | pallets/farming/src/types.rs:66-92 | A run from an empty chain to such a pool: one unit staked, 10^27 dispatched over one block; the unit can never be withdrawn again |
| FarmingOwners.RunOwned | pallets/farming/src/lib.rs:405-745 | Over any run from any state, what a user owns of an asset, in hand, staked and locked, moves only by rewards the user claims, rewards the user dispatches, and plain payments |
| FarmingOwners.StepOwned | pallets/farming/src/lib.rs:405-745 | The same for one step of any call by anybody |
| FarmingStream.NothingForgotten | pallets/farming/src/lib.rs:670-799 | Over any run from a chain without the pool, all that was dispatched is promised to someone, but for stated losses: less than 10^-12 of a unit per token and index update, less than a unit per settlement, less than a unit per block of a dispatch, and what streamed while nobody had deposited |
| FarmingStream.DispatchRate | pallets/farming/src/lib.rs:670-745 | A dispatch spreads what was left of the running period together with the new amount over the duration, rounded down to the unit per block, from now on |
| FarmingStream.DispatchSlack | pallets/farming/src/lib.rs:670-745 | One dispatch loses less than a unit per block of its duration, besides the index update |
| FarmingStream.UpdateSlack | pallets/farming/src/types.rs:66-102 | One index update loses at most 10^-12 of a unit per token deposited, or what streamed to nobody |
| FarmingLocks.CoolsDown | pallets/farming/src/lib.rs:470-602 | Over any run after a withdrawal with a cool-down, until the user redeems: the item is still locked, and a redemption in the end pays it out exactly if the block of the withdrawal plus the cool-down then in force has been reached |
| FarmingLocks.RedeemPays | pallets/farming/src/lib.rs:558-602 | A redemption takes exactly the items whose block plus the cool-down has been reached, keeps the others as often as they were there, and pays the caller the difference |
| FarmingLocks.WithdrawLocks | pallets/farming/src/lib.rs:470-546 | A withdrawal pays at once without a cool-down, and otherwise appends an item with the amount and the current block |
| FarmingLocks.RunLocks | pallets/farming/src/lib.rs:405-799 | Over any run without redemptions of the user, the user's lock items only grow at the end, whatever others do |
| FarmingLocks.OrderKept | pallets/farming/src/lib.rs:570-600 | Items that are all still cooling down stay as they are, in their order |
| FarmingLocks.LockedUntil | pallets/farming/src/lib.rs:362-392 | Over any run after the unlock height is reset, it is the block of the reset plus the lock duration, and until then nobody can withdraw |
| FarmingLocks.StepSettings | pallets/farming/src/lib.rs:277-392 | Status, cool-down and unlock height of a pool are what the last successful call that sets them said; nothing else moves them |
| FarmingLocks.SettingSucceeds | pallets/farming/src/lib.rs:232-392 | Creating a pool and setting its status, cool-down or unlock height succeed exactly within the configured maxima, for a value that differs, and past the old unlock height |
| FarmingLocks.NewPoolIsClosed | pallets/farming/src/lib.rs:232-264 | A new pool streams nothing, has the cool-down given, and takes no deposit before it is made active |
| FarmingLocks.RunKeepsLimits | pallets/farming/src/lib.rs:232-546 | In every reachable state durations and the number of lock items are within the configured maxima |
| FarmingRuns.DepositKeeps | pallets/farming/src/lib.rs:405-457 | A deposit keeps solvency and custody of every pool and asset |
| FarmingRuns.WithdrawKeeps | pallets/farming/src/lib.rs:470-546 | So does a withdrawal, paid at once or locked for the cool-down |
| FarmingRuns.RedeemKeeps | pallets/farming/src/lib.rs:558-602 | So does redeeming matured items |
| FarmingRuns.ClaimRewardKeeps | pallets/farming/src/lib.rs:614-655 | So does claiming the settled reward |
| FarmingRuns.DispatchRewardKeeps | pallets/farming/src/lib.rs:670-745 | So does a dispatch, also one that overlaps a period that still streams |
| FarmingRuns.CreateKeeps | pallets/farming/src/lib.rs:232-264 | So does creating a pool |
| FarmingSharing.IndexAgreesWithSharing | pallets/farming/src/types.rs:56-102 | After any run that ends in a settlement of the user, what the user's balance grew by in claims plus what is credited is never above the exact sum over blocks of rate * deposit / total, and below it by less than the sum over pool updates of deposit / 10^12 plus the number of settlements |
| FarmingSharing.RunWithin | pallets/farming/src/types.rs:56-102 | The same bound at every point of a run, with the blocks the index has not seen yet accounted separately |
| FarmingSharing.SettledInFull | pallets/farming/src/lib.rs:750-799 | A settling call leaves no block unseen and the position at the pool's index |
| FarmingSharing.UpdateAccounts | pallets/farming/src/types.rs:94-102 | One update of the index loses less than deposit / 10^12 of the exact share, and never exceeds it |
| FarmingSharing.SettleAccounts | pallets/farming/src/lib.rs:750-799 | One settlement loses less than one unit, and never credits more than is owed |
| FarmingPool.IndexStep | pallets/farming/src/types.rs:66-102 | The index moves by the floor of what streamed per share: between the exact quotient less one and the exact quotient |
| FarmingPool.PoolUpdateKeeps | pallets/farming/src/types.rs:94-102 | Moving the index turns streamed reward into claims without raising the promise |
| FarmingPool.SettleKeeps | pallets/farming/src/lib.rs:750-799 | Settling a position keeps the pool solvent |
| FarmingPool.SecondReadIsStored | pallets/farming/src/lib.rs:750-799 | Reading the index again after the update gives the stored one, so the position is settled at the index just stored |
| FarmingPool.AddDepositKeeps | pallets/farming/src/lib.rs:405-457 | Adding a deposit raises pool total and position alike and promises nothing for past blocks |
| FarmingPool.TakeDepositKeeps | pallets/farming/src/lib.rs:470-546 | Taking a deposit lowers both; the amount leaves at once or becomes a lock item |
| FarmingPool.TakeMaturedKeeps | pallets/farming/src/lib.rs:558-602 | What redeeming pays out is exactly what leaves the locked items, and solvency is kept; which items leave is FarmingLocks.RedeemPays |
| FarmingPool.LockedSplit | pallets/farming/src/lib.rs:558-602 | The loop of redeem splits the items: matured amounts plus the retained items make up what was locked, and exactly those items are retained whose block plus the cool-down, at most the last block number, is still ahead |
| FarmingPool.TakeRewardKeeps | pallets/farming/src/lib.rs:614-655 | Claiming moves the reward from owed to claimed |
| FarmingPool.FundKeeps | pallets/farming/src/lib.rs:670-745 | A dispatch folds what the old period still had to stream into the new rate: rate * duration <= left * old rate + amount < (rate + 1) * duration; and stays within what was dispatched |
| FarmingPool.RewardCovered | pallets/farming/src/lib.rs:614-655 | A solvent pool has dispatched at least what it has claimed plus any one settled reward |
| FarmingPallet.Pallet.Settle | pallets/farming/src/lib.rs:750-799 | The two-step update on the stored pool and position computes the settlement function; an overflow leaves the pool as it was |
| FarmingPallet.SplitItems | pallets/farming/src/lib.rs:570-600 | The loop over the lock items adds up exactly what has matured and keeps the others: an item stays, as often as it was there, exactly while its block plus the cool-down is ahead |
| FarmingPallet.Pallet.PutDeposit | pallets/farming/src/lib.rs:420-450 | The deposit after the settlement: pool total and position together, or nothing |
| FarmingPallet.Pallet.TakeOut | pallets/farming/src/lib.rs:490-540 | The withdrawal after the settlement: paid at once or locked, or nothing |
| FarmingPallet.Pallet.Create | pallets/farming/src/lib.rs:232-264 | Executes the create function and keeps every pool solvent, every account covered and every balance within 128 bits |
| FarmingPallet.Pallet.SetPoolStatus | pallets/farming/src/lib.rs:277-303 | Executes the status function and keeps every pool solvent, every account covered and every balance within 128 bits |
| FarmingPallet.Pallet.SetPoolCoolDown | pallets/farming/src/lib.rs:316-350 | Executes the cool-down function and keeps every pool solvent, every account covered and every balance within 128 bits |
| FarmingPallet.Pallet.ResetPoolUnlockHeight | pallets/farming/src/lib.rs:362-392 | Executes the unlock-height function, with the overflow trap of the block number, and keeps every pool solvent, every account covered and every balance within 128 bits |
| FarmingPallet.Pallet.Deposit | pallets/farming/src/lib.rs:405-457 | Executes the deposit function and keeps every pool solvent, every account covered and every balance within 128 bits |
| FarmingPallet.Pallet.Withdraw | pallets/farming/src/lib.rs:470-546 | Executes the withdraw function, keeps every pool solvent, every account covered and every balance within 128 bits, and never fails for lack of funds |
| FarmingPallet.Pallet.Redeem | pallets/farming/src/lib.rs:558-602 | Executes the redeem function, succeeds exactly on an existing pool, pays exactly the items whose block plus the cool-down has been reached, keeps the others, and keeps every pool solvent, every account covered and every balance within 128 bits |
| FarmingPallet.Pallet.ClaimReward | pallets/farming/src/lib.rs:614-655 | Executes the claim function, succeeds exactly on an existing pool that is not stuck, and keeps every pool solvent, every account covered and every balance within 128 bits |
| FarmingPallet.Pallet.RewardRate | pallets/farming/src/lib.rs:693-714 | Computes the new rate: rate * duration <= left-over of a running period + amount < (rate + 1) * duration |
| FarmingPallet.Pallet.DispatchReward | pallets/farming/src/lib.rs:670-745 | Executes the dispatch function, sets the rate within the same bounds, and keeps every pool solvent, every account covered and every balance within 128 bits |
| CrowdloanRuns.RunConserves | pallets/crowdloans/src/lib.rs:1376-1463 | Under every interleaving and repetition of calls, notifications and payments, whatever the ctokens are: the pot less everything pending and flying moves only by gifts, and for every asset its issuance, with all contributed totals if it is the relay token, less what its vaults hold beyond their entries, is constant |
| CrowdloanClaims.RunTally | pallets/crowdloans/src/lib.rs:1641-1857 | Over any run, for every asset, the relay token included: what the vaults with this ctoken hold beyond their entries grows by what is claimed as this asset and shrinks by what of it is redeemed |
| CrowdloanClaims.RelayConservedExactly | pallets/crowdloans/src/lib.rs:1641-1857 | Relay-token issuance plus the contributed totals of all vaults moves by what is claimed as relay tokens less what of that is redeemed, so it is the same after a run exactly when the two are equal |
| CrowdloanClaims.RelayConserved | pallets/crowdloans/src/lib.rs:1376-1463 | So it is constant over every run in which the relay token is never made a ctoken |
| CrowdloanClaims.ClaimMoves | pallets/crowdloans/src/lib.rs:1641-1705 | A claim moves that total only if the ctoken is the relay token, and then up by the amount claimed |
| CrowdloanClaims.RedeemMoves | pallets/crowdloans/src/lib.rs:1804-1857 | Redeeming moves it only if the ctoken is the relay token, and then down by the amount |
| CrowdloanInputs.RelayAsCToken | pallets/crowdloans/src/lib.rs:425-504 | A run from an empty chain with the relay token as ctoken: the total of 100 becomes 105 by a claim, and 100 again by redeeming after the slot has expired |
| CrowdloanLedger.RunKeepsBacked | pallets/crowdloans/src/lib.rs:590-1857 | Over any run the issuance of every asset stays the sum of its balances |
| CrowdloanRuns.RunKeepsInv | pallets/crowdloans/src/lib.rs:1262-1345 | In every reachable state pending and flying of every vault are the sums of their child storages, tries are pairwise distinct, and the ctoken of a vault is that of its lease |
| CrowdloanClaims.CTokensFromGenesis | pallets/crowdloans/src/lib.rs:1262-1345 | From a chain without vaults, for every asset, the relay token included: what is contributed to its vaults is what their storages hold plus what was claimed and not redeemed, and its issuance (with the contributions if it is the relay token) has grown by exactly that |
| CrowdloanOwners.RunWealth | pallets/crowdloans/src/lib.rs:590-1857 | Over any run from any state, for every user and asset: balance, with the user's entries in all vaults counted as relay tokens, moves only by plain payments and by what the user turned from entries into ctokens and from ctokens into relay tokens |
| CrowdloanOwners.RunEstate | pallets/crowdloans/src/lib.rs:590-1857 | So relay balance, own entries and ctoken balances of a user together move only by plain payments, with refusals repeated at will and also if the relay token is a ctoken |
| CrowdloanOwners.StepWealth | pallets/crowdloans/src/lib.rs:590-1857 | The same for one step of any call by anybody |
| CrowdloanOwners.RefuseWealth | pallets/crowdloans/src/lib.rs:1409-1437 | A refusal pays its contributor, and nobody else, what leaves their entry |
| CrowdloanOwners.RefundOneWealth | pallets/crowdloans/src/lib.rs:1776-1801 | So does a refund, minted or from the pot |
| CrowdloanRuns.StepEffect | pallets/crowdloans/src/lib.rs:425-1223 | Every step of any call leaves the books alone, creates an empty vault, dissolves an empty one, or moves money, vault total and child storage of one vault together |
| CrowdloanRuns.StepConserves | pallets/crowdloans/src/lib.rs:425-1223 | The conservation laws for one step |
| CrowdloanRuns.OthersKept | pallets/crowdloans/src/lib.rs:425-504 | Because tries are numbered apart, what happens at one vault reaches no other |
| CrowdloanRuns.CreatedKeepsInv | pallets/crowdloans/src/lib.rs:425-504 | A new vault starts with empty storages of its own |
| CrowdloanRuns.DissolvedConserves | pallets/crowdloans/src/lib.rs:1051-1091 | Dissolving removes only a vault without entries and without totals, so nothing is lost |
| CrowdloanEffects.UpdateEffect | pallets/crowdloans/src/lib.rs:1262-1345 | An update moves one vault total and one child storage by the same amount and nothing else |
| CrowdloanEffects.MigrateEffect | pallets/crowdloans/src/lib.rs:1348-1373 | A migration takes an amount from one storage and total to another |
| CrowdloanEffects.ConfirmBalanced | pallets/crowdloans/src/lib.rs:1386-1408 | A confirmed contribution is burnt from the pot and moves from flying to contributed; the vault's total is unchanged |
| CrowdloanEffects.RefuseBalanced | pallets/crowdloans/src/lib.rs:1409-1437 | A refused contribution leaves flying and is paid from the pot to its contributor; no other balance moves |
| CrowdloanEffects.NotifyBalanced | pallets/crowdloans/src/lib.rs:1376-1463 | Any notification keeps the books of its vault balanced, however often it comes; executed ones are forgotten and leave the vault's total unchanged, refused ones stay |
| CrowdloanEffects.ContributeBalanced | pallets/crowdloans/src/lib.rs:590-683 | A contribution raises pot, total and storage by its amount, and the total stays within the cap |
| CrowdloanEffects.ClaimBalanced | pallets/crowdloans/src/lib.rs:1641-1705 | A claim turns an entry into as many ctokens of the claimant; no other balance moves |
| CrowdloanEffects.WithdrawForBalanced | pallets/crowdloans/src/lib.rs:1723-1773 | A withdrawal after failure mints to the user what leaves the user's entry and the vault's total; no other balance moves |
| CrowdloanEffects.RedeemBalanced | pallets/crowdloans/src/lib.rs:1804-1857 | Redeeming happens only at an expired vault, burns ctokens of the user and mints as many relay tokens to the same user, out of the vault's contributed total; no other balance moves |
| CrowdloanEffects.RefundOneBalanced | pallets/crowdloans/src/lib.rs:1776-1801 | A refund pays the user from the pot what had not left, and mints to the user what had; no other balance moves |
| CrowdloanEffects.MigrateEachBalanced | pallets/crowdloans/src/lib.rs:911-968 | A batch of migrations keeps books and total, whatever its length |
| CrowdloanEffects.RefundEachBalanced | pallets/crowdloans/src/lib.rs:1000-1045 | A batch of refunds keeps the books and never raises the total |
| CrowdloanCaps.RunWithinCap | pallets/crowdloans/src/lib.rs:590-683 | In every reachable state contributed + flying + pending is at most the cap, over any run that never sets a cap below a total |
| CrowdloanCaps.RaisedCapsReach | pallets/crowdloans/src/lib.rs:510-558 | Runs that never lower a cap are such runs |
| CrowdloanCaps.LoweringTheCap | pallets/crowdloans/src/lib.rs:510-558 | An update breaks the bound exactly when its new cap is below the vault's total |
| CrowdloanCaps.GrowsOnlyByContribution | pallets/crowdloans/src/lib.rs:590-683 | If any step raises the total of a vault, it is a contribution to it, by exactly its amount and within the cap |
| CrowdloanCaps.StepTotals | pallets/crowdloans/src/lib.rs:590-1045 | Migration and executed notifications leave the total unchanged, every other call but contribute does not raise it, and only update_vault changes the cap |
| CrowdloanBatches.MigratePendingMoves | pallets/crowdloans/src/lib.rs:911-968 | One call moves exactly min(n, limit) of the n pending entries, each whole, to flying, sends one request for each, and reports that all was migrated exactly when no pending entry remains |
| CrowdloanBatches.MigrateAgainEmpties | pallets/crowdloans/src/lib.rs:911-968 | The pending storage is empty exactly once there have been ceil(n / limit) calls |
| CrowdloanBatches.MigrateAgainCounts | pallets/crowdloans/src/lib.rs:911-968 | After m calls max(0, n - m * limit) pending entries are left |
| CrowdloanBatches.MigrateOneMoves | pallets/crowdloans/src/lib.rs:926-945 | One turn removes the pending entry, adds its amount to the flying one, and sends a request with its amount and code under a fresh query id |
| CrowdloanBatches.RefundRemoves | pallets/crowdloans/src/lib.rs:1000-1045 | One call of refund removes the first min(n, limit) entries, contributed before flying before pending, leaves the others untouched, and reports completion exactly when no entry of the vault is left |
| CrowdloanProgress.RefundAgainEmpties | pallets/crowdloans/src/lib.rs:1000-1045 | All three storages are empty exactly once there have been ceil(n / limit) calls |
| CrowdloanProgress.RefundEachSucceeds | pallets/crowdloans/src/lib.rs:1776-1801 | In a funded state a batch of refunds succeeds exactly when the vault's contributed total covers the contributed entries among them |
| CrowdloanProgress.RefundSucceeds | pallets/crowdloans/src/lib.rs:1000-1045 | So a closed or failed vault whose contributed total covers its entries can always be refunded |
| CrowdloanProgress.RedeemLeaves | pallets/crowdloans/src/lib.rs:1804-1857 | Redeeming takes from what a vault holds beyond its entries, and leaves it short of them exactly when ctokens claimed at another vault of the lease exceed what was claimed here |
| CrowdloanProgress.MigrateEachSucceeds | pallets/crowdloans/src/lib.rs:1545-1589 | A batch of migrations succeeds unless the strategy needs a proxy and none is set |
| CrowdloanProgress.RunKeepsFunded | pallets/crowdloans/src/lib.rs:1376-1463 | A funded chain stays funded over any run in which the relay token is never made a ctoken |
| CrowdloanProgress.RunFundedExactly | pallets/crowdloans/src/lib.rs:1641-1857 | Whatever the ctokens are, it stays funded exactly as long as the relay tokens claimed and not redeemed leave room in 128 bits |
| CrowdloanProgress.WithdrawSucceeds | pallets/crowdloans/src/lib.rs:1723-1773 | On a funded chain a withdrawal from a failed vault succeeds exactly when the user has an entry and the vault's contributed total covers it |
| CrowdloanProgress.RunKeepsRefundable | pallets/crowdloans/src/lib.rs:1804-1857 | Over any run that redeems ctokens where they were claimed, every vault holds what its entries claim |
| CrowdloanProgress.RunCanRefund | pallets/crowdloans/src/lib.rs:1000-1045 | So over any such run every refund at a closed or failed vault succeeds |
| CrowdloanProgress.RefundEmpties | pallets/crowdloans/src/lib.rs:1000-1045 | ceil(n / limit) calls of refund exist, all succeed, and leave all three storages empty |
| CrowdloanProgress.MigrateEmpties | pallets/crowdloans/src/lib.rs:911-968 | ceil(n / limit) calls of migrate_pending exist, all succeed, and leave the pending storage empty |
| CrowdloanInputs.RedeemedElsewhere | pallets/crowdloans/src/lib.rs:1804-1857 | A run from an empty chain with two vaults of one lease: 5 ctokens claimed at the second are redeemed at the first, whose failure is confirmed late; the user whose 5 are listed there cannot withdraw them, because the vault holds nothing any more |
| CrowdloanProgress.UpdateSucceeds | pallets/crowdloans/src/lib.rs:1262-1345 | An update succeeds exactly when both the vault total and the user's entry can take it |
| CrowdloanRequests.RunStrandsNothing | pallets/crowdloans/src/lib.rs:1545-1589 | Under every interleaving and repetition, what a user has flying at a vault never exceeds what the outstanding requests for that user and vault ask for |
| CrowdloanRequests.FlyingHasRequest | pallets/crowdloans/src/lib.rs:1376-1463 | So someone with money flying has an outstanding request |
| CrowdloanRequests.RunMatches | pallets/crowdloans/src/lib.rs:1376-1463 | Over runs without refusals and refunds of flying contributions, what flies is exactly what is requested |
| CrowdloanLanding.RefusalLands | pallets/crowdloans/src/lib.rs:1409-1437 | On a funded chain a refusal succeeds exactly when its vault exists and its amount is still flying |
| CrowdloanLanding.ConfirmationLands | pallets/crowdloans/src/lib.rs:1386-1408 | A confirmation succeeds exactly when besides the user's contributed entry has room for the amount |
| CrowdloanLanding.Lands | pallets/crowdloans/src/lib.rs:1376-1463 | Where vaults hold what their entries claim, both succeed exactly when the amount is still flying |
| CrowdloanRefusals.RunLands | pallets/crowdloans/src/lib.rs:1376-1463 | Over any run in which no refused request is notified again, nothing flying is refunded and ctokens are redeemed where they were claimed, every outstanding request that was not refused can be confirmed, and can be refused |
| CrowdloanRefusals.RunAligned | pallets/crowdloans/src/lib.rs:1376-1463 | Over any run in which no refused request is notified again and nothing flying is refunded, everybody has flying exactly what their unrefused requests ask for |
| CrowdloanLanding.RefusedTwice | pallets/crowdloans/src/lib.rs:1409-1463 | A refusal delivered twice pays the second time out of another contribution, whose request can then be neither confirmed nor refused |
| CrowdloanInputs.TwoFlying | pallets/crowdloans/src/lib.rs:1409-1463 | A run from an empty chain to that: 5 and 8 fly, the refusal of 5 comes twice, 3 are left flying |
| CrowdloanAmounts.RunKeepsPositive | pallets/crowdloans/src/lib.rs:1262-1345 | In every reachable state every entry holds something and every contribution request asks for something |
| CrowdloanRequests.ConfirmTallied | pallets/crowdloans/src/lib.rs:1386-1408 | A confirmation takes as much from flying as the request it removes asked for |
| CrowdloanRequests.FlownAndSent | pallets/crowdloans/src/lib.rs:1545-1589 | A contribution starts flying together with its request, which overwrites no other |
| CrowdloanPhases.PhaseMoves | pallets/crowdloans/src/lib.rs:564-905 | Whatever changes the phase of a vault is one of open, close, reopen, auction_succeeded from their phases, or an executed withdrawal request of that vault |
| CrowdloanPhases.EndedStaysEnded | pallets/crowdloans/src/lib.rs:1438-1463 | Over any run, with notifications repeated or late, a failed or expired vault stays failed or expired until it is dissolved |
| CrowdloanPayouts.RunIssued | pallets/crowdloans/src/lib.rs:1376-1857 | Over any run in which the relay token is never made a ctoken: relay tokens are burnt exactly by confirmations, and every one minted is refunded from a vault that is closed or has failed, withdrawn from one that has failed, or redeemed from one that has expired; for ctokens only the last |
| CrowdloanPayouts.RunContributed | pallets/crowdloans/src/lib.rs:1376-1857 | Over any run, what a vault has contributed is what was confirmed for it, less what was refunded while it was closed or had failed, withdrawn once it had failed, and redeemed once it had expired |
| CrowdloanPayouts.KeptWhileRunning | pallets/crowdloans/src/lib.rs:1641-1857 | While a vault is pending, contributing or succeeded, nothing that it has contributed is paid out, whatever is called |
| CrowdloanPayouts.StepIssued | pallets/crowdloans/src/lib.rs:1376-1857 | The relay-token law for one step of any call |
| CrowdloanPayouts.StepContributed | pallets/crowdloans/src/lib.rs:1376-1857 | The law of the contributed total for one step of any call |
| CrowdloanPayouts.RunKeepsOneLive | pallets/crowdloans/src/lib.rs:425-504 | In every reachable state a parachain has at most one vault that has not failed or expired, and it is the current one |
| CrowdloanOutcomes.RedeemSucceeds | pallets/crowdloans/src/lib.rs:1804-1857 | On a funded chain redeeming succeeds exactly if the lease has a ctoken, the vault exists and has expired, and the amount is within the caller's ctokens and the vault's contributed total |
| CrowdloanOutcomes.ClaimSucceeds | pallets/crowdloans/src/lib.rs:1641-1705 | Claiming succeeds exactly if the lease has a ctoken, the vault exists and has succeeded or the claim is forced, the caller has a contributed entry, and the ctokens fit the issuance |
| CrowdloanOutcomes.WithdrawForSucceeds | pallets/crowdloans/src/lib.rs:1723-1773 | On a funded chain withdrawing succeeds exactly if the vault exists and has failed, and its contributed total covers the caller's entry, which is there |
| CrowdloanOutcomes.ContributeSucceeds | pallets/crowdloans/src/lib.rs:590-683 | Contributing succeeds exactly if the current vault is pending or contributing, its end block is not past, no VRF delay is in progress, the amount is positive, at least the minimum, owned by the caller and within the cap, and a proxy is set where one is needed |
| CrowdloanOutcomes.ContributeStores | pallets/crowdloans/src/lib.rs:640-683 | A contribution is added to the caller's entry under the code given, to the flying ones with a request for the same amount and code while the vault is contributing, to the pending ones without one before |
| CrowdloanOutcomes.MigrateTakesCode | pallets/crowdloans/src/lib.rs:1348-1373 | An amount takes its code along from one storage to the other |
| CrowdloanOutcomes.MigrateSucceeds | pallets/crowdloans/src/lib.rs:911-968 | Migrating succeeds exactly if the current vault is pending or contributing, no VRF delay is in progress, and a proxy is set where one is needed for anything to migrate |
| CrowdloanOutcomes.RefundSucceedsExactly | pallets/crowdloans/src/lib.rs:1000-1045 | On a funded chain refunding succeeds exactly if the vault exists, is closed or has failed, and its contributed total covers the contributed entries of the batch |
| CrowdloanOutcomes.RefundForSucceeds | pallets/crowdloans/src/lib.rs:1101-1137 | On a funded chain a single refund succeeds exactly if the vault exists and is closed, and the amount is within the entry, and within the contributed total if taken from there |
| CrowdloanOutcomes.DissolveSucceeds | pallets/crowdloans/src/lib.rs:1051-1091 | A vault can be dissolved exactly if it is closed, failed or expired, without entries and with nothing contributed left |
| CrowdloanOutcomes.CreateSucceeds | pallets/crowdloans/src/lib.rs:425-504 | A vault can be created exactly for a positive cap, a lease in order, the ctoken of the lease if it has one, a free key, no current vault that has not ended, an end block not past and a free trie number; it is then the current vault, pending and empty, on the terms given |
| CrowdloanOutcomes.UpdateSucceedsAndSets | pallets/crowdloans/src/lib.rs:510-558 | Terms are updated exactly for a positive cap and an end block not past, and only those given change |
| CrowdloanOutcomes.PassageSucceeds | pallets/crowdloans/src/lib.rs:564-777 | open, close, reopen and auction_succeeded succeed exactly in the phase they need and lead to the next one |
| CrowdloanOutcomes.AskSucceeds | pallets/crowdloans/src/lib.rs:784-905 | auction_failed and slot_expired succeed exactly in the phase they need and only ask the relay chain for all that is contributed |
| CrowdloanOutcomes.WithdrawalAnswered | pallets/crowdloans/src/lib.rs:1438-1463 | The answer to that turns the vault exactly if it is positive and the vault is still there; a negative one leaves everything as it is |
| CrowdloanOutcomes.StepFlags | pallets/crowdloans/src/lib.rs:689-1157 | The VRF flag, the proxy and the relay block are what the last call that sets them said |
| CrowdloanPallet.Pallet.DoUpdateContribution | pallets/crowdloans/src/lib.rs:1262-1345 | Executes the update function; an entry that reaches zero is removed; on error nothing changes |
| CrowdloanPallet.Pallet.DoMigrateContribution | pallets/crowdloans/src/lib.rs:1348-1373 | Executes the migration function, undone as a whole on error |
| CrowdloanPallet.Pallet.DoContribute | pallets/crowdloans/src/lib.rs:1545-1589 | Records one request under a fresh query id, or fails for want of a proxy |
| CrowdloanPallet.Pallet.DoRefundFor | pallets/crowdloans/src/lib.rs:1776-1801 | Executes the refund of one entry, undone as a whole on error |
| CrowdloanPallet.Pallet.MayCreate | pallets/crowdloans/src/lib.rs:425-480 | The checks of create_vault in order decide exactly whether it succeeds, and with which error it fails |
| CrowdloanPallet.Pallet.InsertVault | pallets/crowdloans/src/lib.rs:425-504 | Executes the create function on storage |
| CrowdloanPallet.Pallet.MayContribute | pallets/crowdloans/src/lib.rs:590-640 | Computes the checks of contribute, in order |
| CrowdloanPallet.Pallet.PutContribution | pallets/crowdloans/src/lib.rs:640-683 | Executes the rest of contribute: money to the pot, entry, and request, or nothing |
| CrowdloanPallet.Pallet.DoConfirm | pallets/crowdloans/src/lib.rs:1386-1408 | Executes a confirmation, undone as a whole on error |
| CrowdloanPallet.Pallet.DoRefuse | pallets/crowdloans/src/lib.rs:1409-1437 | Executes a refusal, undone as a whole on error |
| CrowdloanPallet.Pallet.SettleRequest | pallets/crowdloans/src/lib.rs:1376-1463 | Executes the notification function on storage for every kind of request and both results |
| CrowdloanPallet.Pallet.MigrateAll | pallets/crowdloans/src/lib.rs:911-968 | The loop with its counter and limit computes the batch and its report; the first failing turn undoes the call |
| CrowdloanPallet.Pallet.RefundAll | pallets/crowdloans/src/lib.rs:1000-1045 | The loop over the entries computes the batch and its report; the first failing turn undoes the call |
| CrowdloanPallet.Pallet.CreateVault | pallets/crowdloans/src/lib.rs:425-504 | Executes the create function with all its checks in order; keeps totals, storages and requests in step |
| CrowdloanPallet.Pallet.UpdateVault | pallets/crowdloans/src/lib.rs:510-558 | Executes the update function; keeps totals, storages and requests in step |
| CrowdloanPallet.Pallet.ChangePhase | pallets/crowdloans/src/lib.rs:1466-1482 | Moves the current vault from the one admissible phase to another, or nothing |
| CrowdloanPallet.Pallet.DoWithdraw | pallets/crowdloans/src/lib.rs:1592-1628 | Records a request to get the money back from the one admissible phase |
| CrowdloanPallet.Pallet.Open | pallets/crowdloans/src/lib.rs:564-583 | Executes open and keeps totals, storages and requests in step |
| CrowdloanPallet.Pallet.Close | pallets/crowdloans/src/lib.rs:708-727 | Executes close and keeps totals, storages and requests in step |
| CrowdloanPallet.Pallet.Reopen | pallets/crowdloans/src/lib.rs:733-752 | Executes reopen and keeps totals, storages and requests in step |
| CrowdloanPallet.Pallet.AuctionSucceeded | pallets/crowdloans/src/lib.rs:758-777 | Executes auction_succeeded and keeps totals, storages and requests in step |
| CrowdloanPallet.Pallet.AuctionFailed | pallets/crowdloans/src/lib.rs:784-802 | Executes auction_failed and keeps totals, storages and requests in step |
| CrowdloanPallet.Pallet.SlotExpired | pallets/crowdloans/src/lib.rs:887-905 | Executes slot_expired and keeps totals, storages and requests in step |
| CrowdloanPallet.Pallet.DissolveVault | pallets/crowdloans/src/lib.rs:1051-1091 | Executes the dissolve function; keeps totals, storages and requests in step |
| CrowdloanPallet.Pallet.Contribute | pallets/crowdloans/src/lib.rs:590-683 | Executes the contribute function, undone as a whole on error; succeeds exactly under the conditions of ContributeSucceeds; keeps totals, storages and requests in step |
| CrowdloanPallet.Pallet.MigratePending | pallets/crowdloans/src/lib.rs:911-968 | The loop with its counter and limit computes the batch and its report; the first failing turn undoes the call; totals, storages and requests stay in step |
| CrowdloanPallet.Pallet.Refund | pallets/crowdloans/src/lib.rs:1000-1045 | The loop over the three storages computes the batch and its report; the first failing turn undoes the call; totals, storages and requests stay in step |
| CrowdloanPallet.Pallet.RefundFor | pallets/crowdloans/src/lib.rs:1101-1137 | Executes the single refund; keeps totals, storages and requests in step |
| CrowdloanPallet.Pallet.NotificationReceived | pallets/crowdloans/src/lib.rs:1376-1463 | Executes the notification function for every kind of request and both results; keeps totals, storages and requests in step |
| CrowdloanPallet.Pallet.DoClaimFor | pallets/crowdloans/src/lib.rs:1641-1705 | Executes the claim function on storage |
| CrowdloanPallet.Pallet.ClaimFor | pallets/crowdloans/src/lib.rs:809-834 | The same as a call, which succeeds exactly at a succeeded vault (or forced) for someone with a contributed entry; keeps totals, storages and requests in step |
| CrowdloanPallet.Pallet.DoWithdrawFor | pallets/crowdloans/src/lib.rs:1723-1773 | Executes the withdraw function on storage |
| CrowdloanPallet.Pallet.WithdrawFor | pallets/crowdloans/src/lib.rs:840-865 | The same as a call; keeps totals, storages and requests in step |
| CrowdloanPallet.Pallet.DoRedeem | pallets/crowdloans/src/lib.rs:1804-1857 | Executes the redeem function on storage; success means that the lease has a ctoken, the vault has expired, and the amount is within the caller's ctokens and the vault's contributed total |
| CrowdloanPallet.Pallet.Redeem | pallets/crowdloans/src/lib.rs:871-881 | The same as a call, and on a funded chain it succeeds exactly then; keeps totals, storages and requests in step |
| AmmRuns.RunKeepsCustody | pallets/amm/src/lib.rs:836-861 | Over any run of create, add, remove, swap and fee changes, in either pair orientation, the pallet account never loses more of an asset than the reserves of all pools shrink by |
| AmmRuns.CustodyFromGenesis | pallets/amm/src/lib.rs:836-861 | From a chain without pools the one account always covers the reserves of all pools, for every asset |
| AmmRuns.RunKeepsInv | pallets/amm/src/lib.rs:373-443 | In every reachable state all pools are sorted, have positive reserves within 128 bits, liquidity tokens of their own and the minimum locked |
| AmmRuns.StepPerforms | pallets/amm/src/lib.rs:237-471 | Every step keeps that invariant and creates a pool, moves its liquidity after settling the fee, trades on it, or leaves pools and ledger alone |
| AmmValue.RunKeepsValue | pallets/amm/src/lib.rs:783-963 | Over any run that mints no protocol fee, base * quote / supply^2 of a pool never falls |
| AmmValue.RunWithinRoot | pallets/amm/src/lib.rs:783-1045 | supply^2 <= base * quote in every reachable state, also with protocol fees, as long as every settlement against a zero snapshot stays below the root |
| AmmValue.ZeroSnapshotFee | pallets/amm/src/lib.rs:966-1045 | Settled against a zero snapshot, the supply becomes supply + supply / scalar, whatever the pool has grown, and exceeds the root exactly when that does |
| AmmValue.SettledWithinRoot | pallets/amm/src/lib.rs:966-1045 | From a supply within the root, settling leaves it within the root exactly unless the fee is on, there is no snapshot, and supply + supply / scalar exceeds the root |
| AmmValue.NoMintFits | pallets/amm/src/lib.rs:783-1045 | Every run that mints no fee is such a run, so supply^2 <= base * quote holds in it |
| AmmInputs.SettlementOvershoots | pallets/amm/src/lib.rs:966-1045 | A run from an exchange without pools: a pool of supply and root 2010 created with the fee off, then 3 percent charged; removing nothing at all leaves supply 2072 over 2010 |
| AmmValue.SettlingKeepsRootPerToken | pallets/amm/src/lib.rs:966-1045 | In every reachable state with a snapshot, settling leaves the root per liquidity token at least what it was at the snapshot |
| AmmExits.SettlingSucceeds | pallets/amm/src/lib.rs:966-1045 | Settling fails exactly where more than half of the growth is charged without a snapshot, or the supply would exceed 128 bits; otherwise the supply grows by exactly what is due |
| AmmExits.RemoveSucceeds | pallets/amm/src/lib.rs:322-362 | In every reachable state anyone can remove any part of the liquidity they hold (with the fee just due, for its receiver), exactly as long as the pool is not frozen and the fee that is due fits |
| AmmExits.FrozenPool | pallets/amm/src/lib.rs:237-362 | On a pool charged more than half of its growth without a snapshot every call to add or remove liquidity fails, whoever makes it |
| AmmExits.StaysFrozen | pallets/amm/src/lib.rs:448-456 | One step of any call thaws a frozen pool exactly if it sets the fee to at most half |
| AmmExits.RunStaysFrozen | pallets/amm/src/lib.rs:322-362 | Over any run that does not lower the fee a frozen pool stays frozen and nobody can add or remove liquidity |
| AmmInputs.GetsFrozen | pallets/amm/src/lib.rs:322-362 | A run from an exchange without pools to a frozen one: a pool created with the fee off, then 60 percent charged; the holder of 1010 of 2010 liquidity tokens can take out none, whatever else is called, until the fee is lowered |
| AmmValue.RunKeepsSnapshots | pallets/amm/src/lib.rs:966-1045 | In every run a nonzero snapshot is the product of the moment liquidity last moved, the product has not fallen below it, and the supply is unchanged since |
| AmmValue.FeeWithinGrowth | pallets/amm/src/lib.rs:966-1045 | In every reachable state the minted fee f satisfies f * rootK * (s + 1) <= (S + f) * (rootK - rootKLast) with s + 1 = floor(1 / fee), S and rootKLast those of the snapshot |
| AmmLaws.FeeBoundedByGrowth | pallets/amm/src/lib.rs:966-1045 | The same bound for any two roots and supply |
| AmmLaws.FeeKeepsRoot | pallets/amm/src/lib.rs:966-1045 | Measured from a snapshot that covers the supply, the fee cannot push the supply over the root |
| AmmLaws.AddKeepsShares | pallets/amm/src/lib.rs:800-834 | Adding liquidity lowers neither reserve per liquidity token |
| AmmEffects.RemoveKeepsShares | pallets/amm/src/lib.rs:886-907 | Removing liquidity lowers neither reserve per liquidity token and never empties a reserve |
| AmmTrades.AddThenRemove | pallets/amm/src/lib.rs:783-963 | Removing at once the liquidity just bought pays out no more of either asset than was put in |
| AmmTrades.LiquidityRoundTrip | pallets/amm/src/lib.rs:237-362 | add_liquidity followed by remove_liquidity of what was bought, by anyone and in either orientation, leaves the pool with no less of either asset |
| AmmLaws.BuysGreatest | pallets/amm/src/lib.rs:800-834 | The liquidity bought is the greatest that dilutes neither reserve |
| AmmLaws.SellsGreatest | pallets/amm/src/lib.rs:886-907 | What a removal pays is the greatest amount within its share of each reserve |
| AmmLaws.FeeIsGreatest | pallets/amm/src/lib.rs:966-1045 | The fee minted is the greatest within the agreed part of the growth |
| AmmLaws.IdealAmountsFit | pallets/amm/src/lib.rs:531-552 | The ideal amounts use up one desired amount and the greatest part of the other that the ratio of the reserves allows |
| AmmTrades.NeverInsufficientIn | pallets/amm/src/lib.rs:264-281 | So the guard of add_liquidity against ideal amounts above the desired ones never fires; which price is refused is AmmOutcomes.AddRefused |
| AmmOutcomes.AddTerms | pallets/amm/src/lib.rs:237-313 | Adding liquidity takes of each asset, in whichever order they are named, between its minimum and its desired amount: of one all that is desired, and of the other the counter value at the reserves, rounded down |
| AmmOutcomes.AddRefused | pallets/amm/src/lib.rs:264-281 | The price is refused exactly if the ideal amount of one asset is below its minimum, unless the quote overflows first |
| AmmOutcomes.IdealRule | pallets/amm/src/lib.rs:531-552 | The ideal amounts take all of the base if the desired quote covers its counter value, and otherwise all of the quote; they exist exactly if that counter value fits 128 bits |
| AmmOutcomes.CreateSucceeds | pallets/amm/src/lib.rs:373-443 | A pool can be created exactly for two different assets without one, an unissued liquidity token, and owned amounts whose product makes up the square of the locked liquidity; each asset has then its amount as reserve |
| AmmOutcomes.SwapSucceeds | pallets/amm/src/lib.rs:1047-1132 | In every reachable state a swap succeeds exactly if the assets have a pool, the fee on the amount is worth at least a unit, the amount is the caller's and the reserve can take it |
| AmmOutcomes.StepSettings | pallets/amm/src/lib.rs:448-471 | Fee and receiver are what the last call that set them said; a fee above the whole is refused |
| AmmLaws.SwapGrowsProduct | pallets/amm/src/lib.rs:1047-1091 | A swap raises the product of the reserves by at least ceil(fee * amount_in) times the new outgoing reserve, which stays positive |
| AmmTrades.SwapsGrow | pallets/amm/src/lib.rs:1047-1091 | In any run of swaps the product grows by at least one per trade on the pool, so a run that trades on it never leaves both reserves at or below their start |
| AmmTrades.SwapBackLoses | pallets/amm/src/lib.rs:1047-1091 | Swapping straight back pays strictly less than was paid in |
| AmmTrades.QuoteRefinesTrade | pallets/amm/src/lib.rs:564-579 | For a path whose hops use pairwise different pools, the quoted amounts equal, hop by hop, the outputs of trading along the path, and no other pool is touched |
| AmmMath.AmountInWithinOne | pallets/amm/src/lib.rs:681-730 | For every fee of at most 50%, positive reserves and any output below the reserve, the amount asked is within one unit, either way, of the least input that yields the wanted output |
| AmmMath.LeastInIsLeast | pallets/amm/src/lib.rs:626-730 | An input yields at least the wanted output exactly when it reaches the least input |
| AmmMath.AmountInSuffices | pallets/amm/src/lib.rs:681-730 | Exactly when the amount asked does yield the wanted output |
| AmmMath.AmountInCanFallShort | pallets/amm/src/lib.rs:681-730 | Fee 0.25%, reserves 1000 and 10000, wanted 2855: 401 is asked and 2852 is paid |
| AmmMath.OutReaches | pallets/amm/src/lib.rs:626-669 | get_amount_out reaches a wanted output exactly when the input less its fee is large enough |
| AmmQuotes.ReverseQuote | pallets/amm/src/lib.rs:583-599 | The quote of get_amounts_in ends with the wanted amount, and at fees of at most 50% what it asks before every hop is within one unit of the least that brings what it asks after the hop, at the reserves of that hop |
| AmmQuotes.ReverseQuoteExists | pallets/amm/src/lib.rs:583-599 | There is a quote exactly if every hop can be quoted for what the next one needs; it is then that chain of amounts, the only one |
| AmmQuotes.BackAndForth | pallets/amm/src/lib.rs:564-599 | Where every hop suffices, quoting the asked input forwards brings at least the asked amount at every asset |
| AmmQuotes.TradeReaches | pallets/amm/src/lib.rs:564-599 | And trading it along a path of different pools pays at least the asked amount at every asset, so the wanted amount in the end |
| AmmQuotes.ForwardHop | pallets/amm/src/lib.rs:564-579 | Quoting forwards, a hop brings at least a wanted amount exactly if at least the least input for it comes in |
| AmmOutcomes.AmountInExists | pallets/amm/src/lib.rs:681-730 | get_amount_in refuses exactly an amount that is not below the reserve, and otherwise fails exactly where the input or its part left after the fee exceeds 128 bits |
| AmmOutcomes.OneHop | pallets/amm/src/lib.rs:564-599 | Over one hop the asked input brings the wanted amount exactly if the hop suffices |
| AmmInputs.QuoteFallsShort | pallets/amm/src/lib.rs:583-599 | A run from an exchange without pools to a pool of 1000 and 10000 at a fee of 0.25%: quoted backwards for 2855 it asks 401, quoted forwards 401 brings 2852 |
| AmmMath.SqrtBounds | pallets/amm/src/lib.rs:966-1045 | The integer square root r satisfies r^2 <= n < (r + 1)^2 |
| AmmEffects.CreateEffect | pallets/amm/src/lib.rs:373-443 | A new pool has the paid reserves, its supply is the root of their product, and among the users only the receiver pays them and gets the supply less the locked minimum |
| AmmEffects.AddEffect | pallets/amm/src/lib.rs:237-313 | Adding liquidity: fee settled first, reserves up by the paid amounts, snapshot taken if the fee is on, no share diluted, money in the pallet account; among the users only the caller pays and gets the new shares |
| AmmEffects.RemoveEffect | pallets/amm/src/lib.rs:322-362 | Removing liquidity: fee settled first, reserves stay positive, snapshot taken if the fee is on, no share diluted; among the users only the caller gives the shares and gets exactly what leaves the two reserves |
| AmmEffects.SwapEffect | pallets/amm/src/lib.rs:1047-1132 | A swap in either orientation moves the two reserves and the account alike, raises the product, and touches neither supply nor snapshot; among the users only the caller pays the amount in and gets the amount out |
| AmmEffects.FeeShape | pallets/amm/src/lib.rs:966-1045 | Settling the fee only mints liquidity tokens, to the fee receiver, or forgets the snapshot when the fee is off |
| AmmPallet.Pallet.DoMintProtocolFee | pallets/amm/src/lib.rs:966-1045 | Executes the fee function |
| AmmPallet.Pallet.DoAdd | pallets/amm/src/lib.rs:783-884 | Executes the liquidity function: locked minimum first, then the bought tokens and the payments |
| AmmPallet.Pallet.DoRemove | pallets/amm/src/lib.rs:910-963 | Executes the removal function |
| AmmPallet.Pallet.CreatePool | pallets/amm/src/lib.rs:373-443 | Executes the create function; keeps all pools sound and all reserves covered |
| AmmPallet.Pallet.AddLiquidity | pallets/amm/src/lib.rs:237-313 | Executes the add function, with the ideal amounts and both price checks; keeps all pools sound and all reserves covered |
| AmmPallet.Pallet.RemoveLiquidity | pallets/amm/src/lib.rs:322-362 | Executes the remove function; keeps all pools sound and all reserves covered |
| AmmPallet.Pallet.Swap | pallets/amm/src/lib.rs:1165-1172 | Executes the swap, keeps all pools sound and all reserves covered, and returns the amount paid out |
| AmmPallet.Pallet.DoSwap | pallets/amm/src/lib.rs:1047-1132 | Computes the swap on the stored pool and ledger, or leaves both as they were |
| AmmPallet.Pallet.UpdateProtocolFee | pallets/amm/src/lib.rs:448-456 | Sets the fee and keeps all pools sound and all reserves covered |
| AmmPallet.Pallet.UpdateProtocolFeeReceiver | pallets/amm/src/lib.rs:461-471 | Sets the receiver and keeps all pools sound and all reserves covered |
| AmmPallet.Pallet.GetAmountsOut | pallets/amm/src/lib.rs:564-579 | The loop that fills the vector of amounts computes the quote, and fails where it fails |
| AmmPallet.Pallet.GetAmountsIn | pallets/amm/src/lib.rs:583-599 | The loop from the back computes the amounts needed, and fails where they fail: they end with the wanted amount, each is get_amount_in of the next at the reserves of its hop, and at fees of at most 50% within one unit of the least that brings the next |
| BridgeRuns.RunKeepsRegistry | pallets/bridge/src/lib.rs:581-664 | Over any run, with rival calls on one nonce and expiry clean-up: the registry of each chain is the canonical form of the set of nonces settled since it was registered, and no (chain, nonce) has two outcomes while the chain stays registered |
| BridgeRuns.RunKeepsVotes | pallets/bridge/src/lib.rs:581-664 | Every approval rests on at least threshold-many distinct voters, each permitted when voting, none of them opposing, all before expiry, and every rejection on so many opponents that the threshold was out of reach; that no decision is delayed is BridgeVerdicts.RunKeepsRuled |
| BridgeRuns.FromGenesis | pallets/bridge/src/lib.rs:581-664 | Both hold in every state reachable from an empty bridge |
| BridgeRuns.RunCirculates | pallets/bridge/src/lib.rs:532-1015 | Over any run, plain payments included, what circulates of an asset outside the bridge is what circulated before, plus what approved outcomes released, less what was teleported and what was given to the pallet account, for foreign and native tokens alike |
| BridgeRuns.VoteCirculates | pallets/bridge/src/lib.rs:966-1015 | A vote moves money only by approving, and then exactly the described amount |
| BridgeRuns.TeleportEffect | pallets/bridge/src/lib.rs:532-565 | A teleport takes the whole amount from the caller, burns a foreign token except for the fee or keeps a native one, stays under the cap, and moves the chain's counter on by one |
| BridgeCaps.RunWithinCaps | pallets/bridge/src/lib.rs:747-885 | Over any run that sets no cap of the asset below its accumulated amount, what approved votes paid in of it since its last clean stays within the cap for it, and likewise what teleports took out |
| BridgeCaps.LoweringTheCap | pallets/bridge/src/lib.rs:471-493 | A step breaks that bound exactly when it sets a cap of the asset below what has accumulated |
| BridgeCaps.RunAccumulates | pallets/bridge/src/lib.rs:866-885 | Until cleaned, the accumulated amounts are exactly what approved votes paid in and what teleports took out |
| BridgeCaps.RunKeepsTokens | pallets/bridge/src/lib.rs:380-427 | In every reachable state each registered id has a token of its own |
| BridgeRuns.ReregisteringForgets | pallets/bridge/src/lib.rs:335-370 | Unregistering and registering a chain again opens every nonce once more, which is why outcomes are counted per registration |
| BridgeEpochs.SettledTwice | pallets/bridge/src/lib.rs:335-370 | A run from an empty bridge with two approved outcomes of one nonce, under two registrations of its chain, and both amounts paid |
| BridgeRuns.DecidingVoteTraps | pallets/bridge/src/lib.rs:843-862 | A deciding vote whose payout is possible fails exactly when the registry arithmetic traps, and then leaves no trace |
| BridgeRuns.VoteKeepsRegistry | pallets/bridge/src/lib.rs:581-649 | A vote settles its nonce at most once and only if it was open |
| BridgeRuns.VoteKeepsVotes | pallets/bridge/src/lib.rs:581-649 | A vote is recorded once, by a permitted voter, on a live proposal |
| BridgeRuns.ResolveEffect | pallets/bridge/src/lib.rs:941-1015 | Deciding stores the proposal, records its nonce if it is complete, and moves exactly the described amount if and only if it is approved |
| BridgeRuns.DecidedJustified | pallets/bridge/src/types.rs:52-62 | What try_to_complete decides is justified: approval by the threshold, rejection only out of its reach; the exact rule is BridgeVerdicts.CompletesByRule |
| BridgeVerdicts.RunKeepsRuled | pallets/bridge/src/types.rs:52-62 | Over any run between two changes of the relayers, every stored proposal is approved exactly if it has the threshold, rejected exactly if the relayers who have not opposed are fewer than the threshold, and open otherwise |
| BridgeVerdicts.VoteDecides | pallets/bridge/src/lib.rs:581-649 | After every successful vote the proposal has that one voter more, on the side voted for, and exactly the status of that rule; the nonce is closed by exactly the vote that decides; no other proposal changes |
| BridgeVerdicts.OutOfReach | pallets/bridge/src/lib.rs:581-649 | A vote that puts approval out of reach closes its nonce for good: until the chain is unregistered no vote on that nonce succeeds, for this or any other call |
| BridgeVerdicts.CompletesByRule | pallets/bridge/src/types.rs:52-62 | try_to_complete gives the status of that rule and changes nothing else |
| BridgeVerdicts.StaysClosed | pallets/bridge/src/lib.rs:834-862 | Over any run that keeps the chain registered a closed nonce stays closed |
| BridgeVerdicts.LivesUntilExpiry | pallets/bridge/src/lib.rs:654-664 | Over any run a stored proposal is there, with the expiry it had, at every block before its expiry |
| BridgeVerdicts.RunKeepsAlive | pallets/bridge/src/lib.rs:654-664 | In every reachable state no expired proposal is stored |
| BridgeVerdicts.ThresholdIsLeast | pallets/bridge/src/lib.rs:796-806 | The threshold is the least number that makes up the percentage of the relayers, and at most all of them |
| BridgeVerdicts.MembersChange | pallets/bridge/src/lib.rs:729-806 | A change of the relayers sets the threshold to that number if any of them is needed, and leaves it otherwise |
| BridgeOutcomes.VoteSucceeds | pallets/bridge/src/lib.rs:581-649 | A vote succeeds exactly if the voter is a relayer or root, the chain is registered and the nonce open, the token is registered, enabled and has room under its cap, the proposal is undecided, alive and without a vote of this voter, the money is there if the vote approves, and the registry can record the nonce if it decides |
| BridgeOutcomes.TeleportSucceeds | pallets/bridge/src/lib.rs:532-565 | A teleport succeeds exactly if chain and token are registered, the token is enabled, the amount is positive, covers the fee, is owned by the caller and fits under the cap, and the chain's counter has room |
| BridgeOutcomes.RunCounts | pallets/bridge/src/lib.rs:809-814 | Over any run that leaves a chain registered its counter moves on by one for each successful teleport to it, and by nothing else |
| BridgeOutcomes.StepChains | pallets/bridge/src/lib.rs:335-370 | A chain is registered exactly from its registration, never for this chain itself, until it is unregistered; its counter starts at zero |
| BridgeOutcomes.StepTokens | pallets/bridge/src/lib.rs:380-427 | A token is registered exactly for an asset and an id that are both free, as given, until its id is unregistered |
| BridgeOutcomes.EditedToken | pallets/bridge/src/lib.rs:433-517 | Each of the setters changes the one field it names, of the one token it names |
| BridgeOutcomes.OnlyEdits | pallets/bridge/src/lib.rs:433-1015 | No other call changes fee, status or caps of a token |
| BridgeRuns.CastRests | pallets/bridge/src/lib.rs:600-648 | A cast vote keeps voters distinct and the two sides disjoint |
| Intervals.RecordAdds | pallets/bridge/src/lib.rs:843-862 | Recording a nonce adds exactly that nonce to the denoted set and keeps the registry sorted with at least one missing nonce between neighbours |
| Intervals.CanonicalUnique | pallets/bridge/src/lib.rs:816-862 | Two canonical registries for the same set are equal |
| Intervals.RecordCommutes | pallets/bridge/src/lib.rs:843-862 | The order in which two nonces are settled leaves no trace |
| Intervals.MergeKeeps | pallets/bridge/src/lib.rs:816-832 | Merging sorted intervals keeps the set and leaves no overlap |
| Intervals.StretchedSet | pallets/bridge/src/lib.rs:847-853 | Stretching neighbours adds the nonce exactly when one is beside it |
| Intervals.SortSorts | pallets/bridge/src/lib.rs:817-817 | Sorting by start keeps exactly the given intervals |
| BridgePallet.MergeOverlappingIntervals | pallets/bridge/src/lib.rs:816-832 | The loop that grows a vector and changes its last element: same set, sorted and disjoint, for every list of proper intervals |
| BridgePallet.Bridged | pallets/bridge/src/lib.rs:834-840 | The search is membership in the denoted set |
| BridgePallet.AddToRegistry | pallets/bridge/src/lib.rs:843-862 | The in-place update with its overflow checks: canonical, and exactly the nonce added |
| BridgePallet.Pallet.RegisterChain | pallets/bridge/src/lib.rs:335-351 | Executes the register function; keeps registry and votes consistent with all that was observed |
| BridgePallet.Pallet.UnregisterChain | pallets/bridge/src/lib.rs:357-370 | Executes the unregister function; keeps registry and votes consistent with all that was observed |
| BridgePallet.Pallet.RegisterToken | pallets/bridge/src/lib.rs:380-408 | Executes the token registration; keeps registry and votes consistent with all that was observed |
| BridgePallet.Pallet.UnregisterToken | pallets/bridge/src/lib.rs:414-427 | Executes the token removal; keeps registry and votes consistent with all that was observed |
| BridgePallet.Pallet.EditToken | pallets/bridge/src/lib.rs:433-517 | Executes the changes of fee, status, caps and accumulated amounts; keeps registry and votes consistent with all that was observed |
| BridgePallet.Pallet.Teleport | pallets/bridge/src/lib.rs:532-565 | Executes the teleport function, with the cap, the fee and the nonce counter; keeps registry and votes consistent with all that was observed |
| BridgePallet.Pallet.UpdateBridgeRegistry | pallets/bridge/src/lib.rs:843-862 | Updates the stored registry of a registered chain, or traps without effect |
| BridgePallet.Pallet.PayOut | pallets/bridge/src/lib.rs:966-990 | Pays an approved transfer under the cap, minted or from the pallet account |
| BridgePallet.Pallet.ResolveProposal | pallets/bridge/src/lib.rs:941-1015 | Executes the decision with execute and cancel, undone as a whole on error; the stored status is the one the votes make: approved from the threshold on, rejected once those who have not opposed are fewer, open in between |
| BridgePallet.Pallet.Materialize | pallets/bridge/src/lib.rs:581-649 | Executes the vote with all its checks in order; after success the proposal has the status its votes make and the nonce is closed exactly if it is decided; keeps registry and votes consistent with all that was observed |
| BridgePallet.Pallet.DropExpired | pallets/bridge/src/lib.rs:654-664 | The loop drops exactly the expired proposals |
| BridgePallet.Pallet.OnInitialize | pallets/bridge/src/lib.rs:654-664 | A new block drops the expired proposals and nothing else; keeps registry and votes consistent with all that was observed |
| BridgePallet.Pallet.ChangeMembers | pallets/bridge/src/lib.rs:796-806 | The threshold follows the number of relayers, rounded up, where that is valid; keeps registry and votes consistent with all that was observed |
| AssetRegistry.RunKeepsInv | pallets/asset-registry/src/lib.rs:131-296 | In every reachable state the fee list is strictly sorted, its members are exactly the keys of the units map, and every type -> id entry has id -> type in the forward map |
| AssetRegistry.TypesApart | pallets/asset-registry/src/lib.rs:131-236 | So no two types share an id |
| AssetRegistry.StaysInvertible | pallets/asset-registry/src/lib.rs:131-236 | The two maps stay inverse to each other exactly as long as no call gives an id a type that is taken |
| AssetRegistry.ReusedType | pallets/asset-registry/src/lib.rs:131-151 | Registering one type twice: both ids lead to it, it leads back to the second only |
| AssetRegistry.LastPriceHolds | pallets/asset-registry/src/lib.rs:156-296 | Over any run after a price is set it is the price of the asset, through every change of its type, as long as nobody prices, gives up or takes away that type or makes it another asset's; and the type is in the fee list |
| AssetRegistry.StepPrice | pallets/asset-registry/src/lib.rs:156-296 | What one step makes of the price of a type: set, moved along with the id whose type changes, dropped with the id or given up, and otherwise kept |
| AssetRegistry.StepType | pallets/asset-registry/src/lib.rs:131-296 | What one step makes of the type of an id |
| AssetRegistry.CallSucceeds | pallets/asset-registry/src/lib.rs:131-296 | Registering succeeds exactly for a new id, pricing for a registered type, changing the type and deregistering for a registered id, giving up a price always |
| AssetRegistry.IncludeKeeps | pallets/asset-registry/src/lib.rs:156-184 | Inserting at the searched position keeps the list sorted and adds exactly the type |
| AssetRegistry.ExcludeKeeps | pallets/asset-registry/src/lib.rs:240-262 | Removing at the searched position keeps the list sorted and removes exactly the type |
| AssetRegistryPallet.BinarySearch | pallets/asset-registry/src/lib.rs:312-316 | Finds a type exactly if it is in the sorted list, and otherwise the place where it belongs |
| AssetRegistryPallet.Pallet.RegisterAsset | pallets/asset-registry/src/lib.rs:131-151 | Executes the registration and keeps the invariant |
| AssetRegistryPallet.Pallet.UpdateAssetUnitsPerSecond | pallets/asset-registry/src/lib.rs:156-184 | Executes the price update and keeps the invariant |
| AssetRegistryPallet.Pallet.UpdateAssetType | pallets/asset-registry/src/lib.rs:191-236 | Executes the change of type, moving price and list entry, and keeps the invariant |
| AssetRegistryPallet.Pallet.RemoveFeePaymentAsset | pallets/asset-registry/src/lib.rs:240-262 | Executes the removal from the list and keeps the invariant |
| AssetRegistryPallet.Pallet.DeregisterAsset | pallets/asset-registry/src/lib.rs:267-296 | Executes the removal of an asset and keeps the invariant |
| AssetRegistryPallet.Pallet.PaymentIsSupported | pallets/asset-registry/src/lib.rs:312-316 | The binary search decides exactly whether the type has a price |

## Left out

- Node, runtime wiring, RPC, weights, benchmarks, storage migrations, events and logs.
- Origin checks other than the relay members of the bridge: privileged calls are modelled as permitted.
- Existential deposits, dust and keep-alive flags of the ledger.
- XCM message construction, relay fees and failing sends: a failing send only makes its call fail without effect.
- Crowdloan bonus streams, `update_leases_bonus`, lending after redeeming, and `get_exchange_rate`, which uses floating-point powers.
- The price oracle of the AMM: only easy monotonicity would be added.
- The gift bonus of the bridge, and 32-bit overflow of vote counts, which needs 2^32 votes on one proposal.
- Hashing of storage and child-trie keys: maps keyed by trie index, kind and account stand for them.
- Interior of `sort_unstable_by` and `binary_search` of the standard library beyond what they return.
- Other pallets of the repository: loans, liquid staking, router, streaming, currency adapter, emergency shutdown, EVM signatures.
- CrowdloanPallet.Pallet.RefundAll: runs one loop over the three storages in order instead of two nested ones; the turns are the same.
- AmmRuns.RunKeepsCustody: an inequality, because a payment or a protocol fee may also raise the account.
