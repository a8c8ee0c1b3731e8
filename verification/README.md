# Blend: accounting proofs

A Dafny 4 model of the Blend lending protocol's accounting and proofs about it: the backstop (insurance)
module with its emissions, isolated lending pools with their interest, requests and auctions, emissions a
pool streams to its users, and the BLND emitter. `dafny verify dfyconfig.toml` checks everything.

## How the model is built

Integers are unbounded and every division carries its rounding direction (`FixedPoint`). A panic is an
`Abort`, and an aborted call leaves the state as it was (`Outcomes`). Storage is maps; sums over users and
pools are `Totals`.

Each contract appears twice. Transitions are functions on values: `BackstopLedger` and `BackstopWorld`,
`Interest`, `Reserves`, `PoolUsers`, `PoolStates`, `Health`, `LendingPools`, `Auctions`, `Liquidations`,
`PoolEmissions`, `PoolEmissionRuns`, `Emitters`. Classes then do what the contract's code does, field by field and loop by
loop: `UserBalance`, `PoolBalance`, `Backstop`, `Reserve`, `User`, `Actions`, `Contract` (the lending pool),
`EmissionStore`, `SettlingUser`, `Emitter`. Every method is proved to compute its transition, with the abort rolled back, and
the properties below are proved of the transitions and of every run built from them.

Amounts are stated on both sides. Where the code rounds, a lemma bounds the result from above and below by what it
should be in exact arithmetic (`FairMint`, `PartUp`, `PartDown`, `OnLeg`, `Covers`), so that nothing owed can quietly
shrink: what a stream emits is paid, owed or still streaming up to an explicit sum of roundings
(`EmissionsAreFunded`, `GivenIsAccounted`).

The lending pool's invariant has three parts, each kept on its own: the books (supplies are the sums of users'
balances, records are well formed), solvency (cash and liabilities cover supply and backstop credit) and the cover
of the backstop's credit (it is not negative and pays a stored interest lot). The books hold in every run; for the
other two the exact condition on a run is proved.

| file | contents |
|---|---|
| UserBalance, PoolBalance | the withdrawal queue and a pool's shares and tokens |
| BackstopLedger, BackstopLedgerProofs | one pool's users and its lazy emission index |
| BackstopWorld, BackstopWorldProofs, BackstopGulpProofs, BackstopClaimProofs, ZoneSplit | the whole backstop with its tokens, gulps and claims |
| BackstopRuns, BackstopHistory, BackstopFunding | solvency, what became of every emission, the 21-day lock and what was minted over whole runs |
| BackstopCalls | exactly when the backstop's calls go through |
| BackstopLimits, BackstopInputs | the rule for replacing a pool of the reward zone; runs after which a claim leaves the backstop short, or a deposit takes a gift |
| Backstop | the backstop contract as it runs |
| Interest, Reserve | the interest curve and reserve accrual |
| PoolUser, PoolState, Health, LendingPool | users' positions, health, the request loop, auctions, reserve configuration |
| LendingPoolProofs, LendingPoolAuctionProofs, LendingPoolRuns | books, solvency and covered interest lots over whole runs, each on its own |
| PositionWorth | what positions are worth exactly, and the rounded sums of a health check |
| LendingPoolFills, LendingPoolPrices, LendingPoolCalls | what fills store and hand over, what auctions ask and offer, when calls go through |
| LendingPoolLimits, LendingPoolBadDebt | exact conditions for fills and creation, auctions that get stuck, write-offs, health |
| LendingPoolInputs, LendingPoolBadDebtInputs | inputs at which promises fail |
| LendingPoolLoops, LendingPoolContract | the lending pool as it runs |
| Auctions, Liquidation | auction scaling and liquidation sizing |
| PoolEmissions, PoolEmissionRuns, PoolEmissionContract, PoolUserEmissions | a pool's emissions to its users |
| PoolJointRuns | a pool and its emissions together |
| Emitter | the emitter and its backstop swap |
| FundingChain, FundingInputs | emitter, backstop and lending pools together |

## Where promise and code differ

- `backstop/src/contract.rs:220` says adding to the reward zone fails if a distribution occurred in the last 48
  hours. The code (`backstop/src/emissions/manager.rs:46-52`) aborts when none occurred in the last 24 hours, and only
  when a pool is replaced. `AddRewardSucceeds` is the code's exact rule; `RecentDistributionAllows` and
  `OldDistributionRefuses` are inputs at which the documented one fails both ways.
- Deposit then withdrawal can return more than was deposited when a pool holds tokens but no shares, after a donation:
  the depositor gets the tokens that were there (`GiftIsTaken`). `DepositWithdrawNoGain` gives the exact condition.
- A claim for another address re-deposits shares that start at that address's old record, which can promise more
  BLND than there is (`ClaimForOtherBreaks`). `ClaimSolventExactly` says when: the promise of its re-deposits must fit
  into the surplus between the claim's loops. It is nothing for the claimant and for a recipient settled in every
  listed pool, and BLND solvency holds throughout a run if and only if every claim fits.
- `submit` ignores failed token transfers (`pool/src/pool/submit.rs:64-80`), so a supply can be credited that never
  arrives (`UnpaidSupplyBreaks`). `SubmitExact` says when the pool stays solvent: nothing missing may exceed what the
  asset has to spare. `PoolIsSolvent` is an equivalence with that condition; failed outgoing transfers need none.
- Lowering the backstop's take while an interest auction is stored can leave its lot without the credit to pay it, and
  a fill then makes the credit negative (`LoweredTakeBreaks`). `UpdateTakeExact` says when; `InterestLotIsCovered` is an
  equivalence with that condition, and solvency does not depend on it.
- An interest auction whose bid is used up, or that is 400 blocks old, can be neither filled nor replaced until its
  temporary storage entry runs out, because a fill looks up the backstop token in a scaled bid that no longer
  names it (`InterestFillSucceeds`, `StuckUntilItLapses`). Every unfilled auction gets there (`EveryAuctionGetsStuck`,
  `StuckIsReached`).
- A partial fill of a bad debt auction that finds the backstop nearly empty writes off all of its debt
  (`WriteOffClears`), but what is left of the auction is stored all the same. For 400 blocks from its start no part of it
  can be filled; from then on whoever comes is asked for nothing (`NothingToTakeOver`, `WriteOffLeavesAuction`).
  `BadDebtFillSucceeds` is the exact rule for fills.
- Creating a bad debt auction checks its bid and the value of the debt, not its lot. `LotOfNothing` says when nothing is
  offered; such an auction is never filled or replaced (`LotlessUntilItLapses`, `LotlessIsReached`).
- A repayment reads the reserve's utilisation for indexing after the balances are updated
  (`pool/src/pool/actions.rs:464-541`), which aborts it when the reserve has debt but no supply (`RepaySucceeds`), as
  after `DebtCannotBeRepaid`.
- A backstop that is replaced and later installed again counts the emissions of the time between, which the emitter minted
  for the other (`ReturningBreaks`). `ReinstalledSolventExactly` says when it has BLND enough for them.

## Model

| member | source | states |
|---|---|---|
| UserBalances.UserBalance.QueueSharesForWithdrawal | backstop/src/backstop/user.rs:53-68 | moves shares to the end of the queue with a lock of 21 days, or aborts on too few shares or a full queue with the balance as it was |
| UserBalances.UserBalance.DequeueSharesForWithdrawal | backstop/src/backstop/user.rs:81-115 | the loop that pops and trims entries from the front computes the recursive front removal; when it aborts, the shares are as they were and the popped entries are gone, as in the source, where the call that loaded the record is undone |
| UserBalances.TakeFrontSucceeds | backstop/src/backstop/user.rs:81-115 | on a sorted queue of non-negative entries, dequeuing n succeeds exactly when the (expired, if required) entries add up to at least n; asking for 0 fails only when expired shares are required and the first entry is still locked |
| UserBalances.TakeFrontRemovesOldest | backstop/src/backstop/user.rs:81-115 | exactly the n oldest shares go: at every time t the matured part shrinks by n, down to nothing |
| UserBalances.TakeFrontKeepsOrder | backstop/src/backstop/user.rs:81-115 | some k entries are dropped from the front and the others keep their lock ends in order |
| UserBalances.TakeFrontConserves | backstop/src/backstop/user.rs:81-115 | the queue shrinks by exactly n |
| UserBalances.QueueKeepsHolding | backstop/src/backstop/user.rs:53-68 | queueing keeps the queue sorted and at most 21 long, conserves shares plus queue, and matures the new shares after the lock and not before |
| UserBalances.DequeueKeepsHolding | backstop/src/backstop/user.rs:81-115 | dequeuing keeps the queue sorted and bounded, conserves shares plus queue, and takes from what matures first at every time |
| PoolBalances.PoolBalance.Deposit | backstop/src/backstop/pool.rs:134-137 | the stored balance after a deposit |
| PoolBalances.PoolBalance.Withdraw | backstop/src/backstop/pool.rs:144-151 | tokens, shares and queued shares go down together, or the call aborts when one of them is short |
| PoolBalances.PoolBalance.Queue | backstop/src/backstop/pool.rs:157-159 | the stored balance after queueing |
| PoolBalances.PoolBalance.Dequeue | backstop/src/backstop/pool.rs:165-170 | queued shares go down, or the call aborts when there are too few |
| PoolBalances.DepositKeepsShareValue | backstop/src/backstop/pool.rs:100-137 | a deposit or re-deposit never lowers tokens per share of a pool that has shares |
| PoolBalances.WithdrawKeepsShareValue | backstop/src/backstop/pool.rs:114-151 | a withdrawal of queued shares pays at most the tokens held, never fails for the pool record, and never lowers tokens per share |
| PoolBalances.DepositWithdrawNoGain | backstop/src/backstop/pool.rs:100-122 | deposit then withdrawal of the minted shares returns at most the deposit if and only if the pool had shares, or neither shares nor tokens |
| BackstopInputs.GiftIsTaken | backstop/src/backstop/pool.rs:100-122 | a concrete run from initialisation: a donation to a pool without shares, a deposit of one token, and after the lock a withdrawal of all there is |
| PoolBalances.NonQueuedTokensBounds | backstop/src/backstop/pool.rs:125-127 | the tokens outside the queue are never negative and at most all tokens |
| PoolBalances.MintIsFair | backstop/src/backstop/pool.rs:100-109 | shares minted are the tokens' part of the pool, rounded down by less than one share, or one each in a pool without shares; minting fails just for shares without tokens behind them |
| PoolBalances.PayoutIsFair | backstop/src/backstop/pool.rs:112-122 | tokens paid for shares are their part of the pool, rounded down by less than one token, and the conversion never fails |
| PoolBalances.NonQueuedIsRest | backstop/src/backstop/pool.rs:125-127 | the tokens outside the queue are the unqueued shares' part of the pool, rounded up by less than one token |
| PoolBalances.ThresholdIsExact | backstop/src/backstop/pool.rs:67-84 | the saturating product decides the pool threshold exactly as unbounded arithmetic would |
| BackstopLedgerProofs.UpdateEmissionDataKeeps | backstop/src/emissions/distributor.rs:72-106 | advancing the index keeps the ledger well formed, never lowers the index, and leaves what the pool may still pay out (stream left plus everything owed to all users) as it was, short by at most one unit of the index for each unqueued share |
| BackstopLedgerProofs.IndexIsCurrent | backstop/src/emissions/distributor.rs:72-106 | while a pool has shares, an update puts everything emitted by now into the index; without shares nothing moves |
| BackstopLedgerProofs.UpdateEmissionDataSucceeds | backstop/src/emissions/distributor.rs:72-106 | the update aborts exactly when shares exist, all of them are queued, and the stream is running |
| BackstopLedgerProofs.SettleAccountKeeps | backstop/src/emissions/distributor.rs:113-164 | settling never aborts on a well-formed record; what is paid plus what stays accrued is exactly what had accrued plus the floor of shares times index gain, so paid plus owed is what was owed, short by less than one token; a user without a record counts from index 0 |
| BackstopLedgerProofs.UpdateEmissionsKeeps | backstop/src/emissions/distributor.rs:16-64 | both updates together keep the ledger, touch no balance and no other user; what is due at the new index is paid or recorded exactly, and what is owed falls by what is paid, to the rounding of one update |
| BackstopLedgerProofs.SecondClaimPaysNothing | backstop/src/emissions/claim.rs:16-25 | claiming the same pool twice in one call pays 0 the second time and changes nothing |
| BackstopLedgerProofs.DepositKeeps | backstop/src/backstop/deposit.rs:8-33 | a deposit mints the depositor's fair part in shares, keeps pool and user records in agreement, changes one user only, and leaves what is owed as it was, to the rounding of one update |
| BackstopLedgerProofs.QueueKeeps | backstop/src/backstop/withdrawal.rs:8-29 | queueing keeps the records in agreement and what is owed as it was, to the rounding of one update |
| BackstopLedgerProofs.DequeueKeeps | backstop/src/backstop/withdrawal.rs:32-47 | cancelling keeps the records in agreement and what is owed as it was, to the rounding of one update; the late-joining shares start at the current index |
| BackstopLedgerProofs.WithdrawKeeps | backstop/src/backstop/withdrawal.rs:50-71 | a withdrawal pays the shares' fair part of the tokens and needs no emission update: it leaves every obligation exactly as it was |
| BackstopLedgerProofs.WithdrawSucceeds | backstop/src/backstop/withdrawal.rs:50-71 | a withdrawal succeeds if and only if enough of the user's shares have matured and they are worth at least one token; the pool-level checks never fail after the user-level one |
| BackstopLedgerProofs.DequeueSucceeds | backstop/src/backstop/withdrawal.rs:32-47 | a cancellation succeeds if and only if the emission update does and that many shares are queued |
| BackstopLedgerProofs.FundsMoveKeeps | backstop/src/backstop/fund_management.rs:14-41 | draw and donate keep the ledger and all obligations; a draw succeeds exactly up to the tokens held |
| BackstopLedgerProofs.SetEmissionConfigKeeps | backstop/src/emissions/manager.rs:153-190 | a new stream adds the new tokens to what the pool may pay out, whatever the old one carries over, less at most the rounding of the index, one token for each second of the week, and what was emitted while the pool had no shares |
| BackstopLedgerProofs.RedepositKeeps | backstop/src/emissions/claim.rs:55-75 | a re-deposit for a settled user mints the fair part in shares and owes nobody anything new |
| BackstopLedgerProofs.RedepositToOther | backstop/src/emissions/claim.rs:55-75 | a re-deposit for any user adds exactly the minted shares times the index gain since that user's record, so it is neutral if and only if nothing is minted or that user is settled |
| BackstopGulpProofs.ZoneAllotment | backstop/src/emissions/manager.rs:86-126 | for any number of pools the zone gets at most the amount, and at most n ten-millionths of it plus n units are lost to rounding |
| BackstopGulpProofs.SplitIsExact | backstop/src/emissions/manager.rs:78-93 | depositors get exactly seven tenths and pools exactly three tenths of what the emitter released |
| BackstopGulpProofs.GulpHasTotal | backstop/src/emissions/manager.rs:95-104 | a gulp succeeds only with a zone that holds tokens outside the queues |
| BackstopGulpProofs.GulpLoopKeeps | backstop/src/emissions/manager.rs:105-126 | the loop over the zone keeps every ledger, moves no tokens and adds at most the pools' allotments to what is owed |
| BackstopGulpProofs.GulpLoopIs | backstop/src/emissions/manager.rs:105-126 | every pool of the zone takes exactly one turn, with its own share, and no other pool changes |
| BackstopGulpProofs.GulpOneKeeps | backstop/src/emissions/manager.rs:110-125 | a pool's turn adds its allotment to its own emissions exactly, and its depositors' allotment to what it owes them, less at most what restarting a stream loses |
| BackstopGulpProofs.GulpHandsOut | backstop/src/emissions/manager.rs:78-126 | each pool of the zone gets three tenths, and its stream seven tenths, of what was released, in proportion to its tokens outside the queue, to two roundings down |
| BackstopGulpProofs.GulpStep | backstop/src/emissions/manager.rs:68-128 | a whole gulp keeps the ledgers and the BLND that covers them |
| BackstopClaimProofs.SettleAllKeeps | backstop/src/emissions/claim.rs:16-25 | the first loop takes off what is owed at least what it claims |
| BackstopClaimProofs.SettleAllRecords | backstop/src/emissions/claim.rs:16-25 | the recorded claims add up to at most what was claimed, and to exactly that when no pool is listed twice |
| BackstopClaimProofs.SettleAllPerPool | backstop/src/emissions/claim.rs:16-25 | pool by pool, a listed pool pays exactly what the caller is due at its new index, once however often it is listed, and owes that much less, to the rounding of one update; a pool not listed pays and loses nothing; no balance changes |
| BackstopClaimProofs.RedepositAllKeeps | backstop/src/emissions/claim.rs:55-75 | the second loop keeps every ledger for any recipient, adds exactly the re-deposited tokens and touches no withdrawal queue |
| BackstopClaimProofs.RedepositAllOwesNothing | backstop/src/emissions/claim.rs:55-75 | for a settled recipient the second loop adds nothing to any pool's debt |
| BackstopClaimProofs.RedepositAllPromises | backstop/src/emissions/claim.rs:55-75 | for any recipient the second loop adds to what is owed exactly the sum, over its turns, of minted shares times the index gain since the recipient's record, in all and pool by pool |
| BackstopClaimProofs.RedepositDust | backstop/src/emissions/claim.rs:51-75 | the pro-rata split re-deposits at most the LP tokens bought, and with distinct pools leaves less than one unit for each listed pool |
| BackstopWorldProofs.LpTransfersSucceed | backstop/src/backstop/withdrawal.rs:61-68 | a withdrawal or draw that the pool record allows never fails for lack of LP tokens |
| BackstopWorldProofs.AddRewardStep | backstop/src/emissions/manager.rs:18-64 | the pool added comes in front while there is room, and otherwise takes the place of just the pool named for removal; all others stay, and nothing else changes |
| BackstopWorldProofs.DepositStep | backstop/src/backstop/deposit.rs:8-33 | a deposit brings in exactly the LP tokens it credits, and sets free of the BLND only the rounding of one update |
| BackstopWorldProofs.WithdrawStep | backstop/src/backstop/withdrawal.rs:50-71 | a withdrawal sends exactly the LP tokens it takes off the pool, and sets no BLND free |
| BackstopWorldProofs.DrawStep | backstop/src/backstop/fund_management.rs:14-24 | a draw sends exactly the LP tokens it takes off the pool, and sets no BLND free |
| BackstopWorldProofs.DonateStep | backstop/src/backstop/fund_management.rs:27-41 | a donation brings in exactly the LP tokens it credits, and sets no BLND free |
| BackstopWorldProofs.AllowanceStep | backstop/src/emissions/manager.rs:131-150 | a pool that pulls uses up exactly as much of its allowance as BLND leaves; only a lapsed allowance sets BLND free |
| BackstopCalls.UpdateSucceeds | backstop/src/emissions/distributor.rs:16-106 | an emission update aborts exactly when shares exist, all of them queued, while a stream runs that is not up to date |
| BackstopCalls.DepositSucceeds | backstop/src/backstop/deposit.rs:8-33 | a deposit goes through if and only if the pool has shares or is the factory's, the depositor is neither pool nor backstop, the index can be advanced and the amount buys a share |
| BackstopCalls.QueueSucceeds | backstop/src/backstop/withdrawal.rs:8-29 | shares are queued if and only if the user has them unqueued, fewer than 21 entries wait and the index can be advanced |
| BackstopCalls.DonateSucceeds | backstop/src/backstop/fund_management.rs:27-41 | when a donation is taken |
| BackstopCalls.GulpLoopSucceeds | backstop/src/emissions/manager.rs:105-126 | the loop over the zone goes through if and only if every pool's index can be advanced |
| BackstopCalls.GulpSucceeds | backstop/src/emissions/manager.rs:68-128 | a gulp goes through if and only if there is a reward zone, more than an hour was emitted, tokens are outside the queues and every pool's index can be advanced |
| BackstopCalls.GulpPoolIs | backstop/src/emissions/manager.rs:131-150 | a pool's own emissions are handed over all at once, as allowance on top of what it has, exactly when there are any |
| BackstopCalls.SettleAllSucceeds | backstop/src/emissions/claim.rs:16-25 | the first loop of a claim goes through if and only if every listed pool's index can be advanced |
| BackstopCalls.RedepositAllSucceeds | backstop/src/emissions/claim.rs:55-75 | the second loop goes through if and only if no listed pool has shares without tokens behind them |
| BackstopCalls.ClaimSucceeds | backstop/src/emissions/claim.rs:11-78 | with sufficient BLND a claim goes through if and only if its list is not empty, both loops do, the second only when something is due |
| BackstopRuns.StepKeeps | backstop/src/contract.rs:285-453 | every entry point keeps ledgers and LP tokens sound; it keeps the BLND sufficient if and only if it is not a claim whose promise to the recipient exceeds the surplus between its two loops |
| BackstopRuns.ClaimStep | backstop/src/emissions/claim.rs:11-78 | any claim leaves exactly the surplus there is between its loops less what its re-deposits promise; settling never lowers the surplus, and a settled recipient is promised nothing |
| BackstopRuns.ClaimSolventExactly | backstop/src/emissions/claim.rs:11-78 | a whole claim leaves the BLND sufficient if and only if its promise fits into that surplus, as it does for the claimant and for any recipient settled in every listed pool |
| BackstopRuns.GenesisOk | backstop/src/contract.rs:285-320 | a freshly initialised backstop satisfies every invariant |
| BackstopRuns.ClaimsAreFunded | backstop/src/emissions/claim.rs:28-54 | while the BLND is sufficient a claim is never refused for lack of it |
| BackstopRuns.AllowancesAreFunded | backstop/src/emissions/manager.rs:131-150 | while the BLND is sufficient a pool can pull exactly up to its allowance |
| BackstopRuns.RunKeeps | backstop/src/contract.rs:285-453 | over any run: agreement and LP solvency whatever is called; BLND solvency in every state if and only if every claim fits, as when users claim for themselves |
| BackstopRuns.BackstopIsSolvent | backstop/src/emissions/claim.rs:11-78 | from initialisation, after any run: LP tokens held cover all pools together, each pool record is the sum of its users, queued shares are at most all shares; and the BLND held covers unsplit emissions, allowances, streams and everything accrued or unsettled in every state if and only if every claim fits into the surplus it finds |
| BackstopFunding.StepIsFunded | backstop/src/contract.rs:285-453 | no step lets more be called for or paid out than the emitter mints in it, except by what a re-deposit promises |
| BackstopFunding.PaymentsAreMinted | backstop/src/emissions/manager.rs:69-150 | from the emitter to the users, over any run: what depositors claimed and pools pulled for their users plus what is still owed is at most one BLND for every second up to the emitter's last distribution plus what re-deposits promise, which is nothing while users claim for themselves |
| BackstopInputs.ClaimForOtherBreaks | backstop/src/emissions/claim.rs:55-75 | a concrete run from initialisation, a week of emissions, after which a claim for an address without a record goes through and leaves the backstop short of BLND |
| BackstopLimits.AddRewardSucceeds | backstop/src/emissions/manager.rs:18-64 | a pool is added if and only if it is not in the zone, the LP token has a value, its tokens reach the threshold in exact arithmetic, and there is room or the pool to remove is in the zone with fewer tokens and emissions were distributed within the last 24 hours |
| BackstopLimits.RecentDistributionAllows | backstop/src/emissions/manager.rs:46-58 | a concrete full zone and a distribution one hour ago: replacing a pool goes through |
| BackstopLimits.OldDistributionRefuses | backstop/src/emissions/manager.rs:46-52 | the same zone with the last distribution three days ago: it aborts |
| BackstopHistory.EmissionsAreFunded | backstop/src/emissions/distributor.rs:72-147 | per pool and over any run: everything paid out plus everything still owed and streaming is what was owed before plus what gulps streamed in plus what re-deposits promise, which is nothing while users claim for themselves; it is never more, and less by no more than the explicit rounding of the steps taken |
| BackstopHistory.StepIsCovered | backstop/src/contract.rs:285-453 | the same for one step: the balance of every pool moves by what is streamed, promised and paid, up to that step's rounding |
| BackstopHistory.WithdrawalsWereLocked | backstop/src/backstop/user.rs:53-115 | over any run: what a user withdrew from a pool by now is at most what was queued at least 21 days ago, and the queue is sorted and at most 21 long |
| BackstopContract.Backstop.UpdateEmissionDataWithConfig | backstop/src/emissions/distributor.rs:72-106 | the stored index update is the transition the index lemmas speak of |
| BackstopContract.Backstop.SetUserEmissions | backstop/src/emissions/distributor.rs:149-164 | stores the settled record, or pays it out |
| BackstopContract.Backstop.UpdateUserEmissions | backstop/src/emissions/distributor.rs:113-147 | the branches on a missing record, an unchanged index and a zero balance; computes the settlement whose exact amounts SettleAccountKeeps states |
| BackstopContract.Backstop.UpdateEmissionsOf | backstop/src/emissions/distributor.rs:16-64 | update_emissions and claim_emissions, nothing before the first stream |
| BackstopContract.Backstop.Deposit | backstop/src/backstop/deposit.rs:8-33 | the whole new state of a deposit, or the state unchanged |
| BackstopContract.Backstop.QueueWithdrawal | backstop/src/backstop/withdrawal.rs:8-29 | the whole new state of queueing, or the state unchanged |
| BackstopContract.Backstop.DequeueWithdrawal | backstop/src/backstop/withdrawal.rs:32-47 | the whole new state of cancelling, or the state unchanged |
| BackstopContract.Backstop.Withdraw | backstop/src/backstop/withdrawal.rs:50-71 | the whole new state of a withdrawal, or the state unchanged |
| BackstopContract.Backstop.Draw | backstop/src/backstop/fund_management.rs:14-24 | the whole new state of a draw, or the state unchanged |
| BackstopContract.Backstop.Donate | backstop/src/backstop/fund_management.rs:27-41 | the whole new state of a donation, or the state unchanged |
| BackstopContract.Backstop.SetBackstopEmissionConfig | backstop/src/emissions/manager.rs:153-190 | restarts a stream step by step, carrying over what is left |
| BackstopContract.Backstop.AddReward | backstop/src/emissions/manager.rs:18-64 | size limit, threshold and swap rules of the reward zone; the code aborts when the last distribution is MORE than 24 hours old |
| BackstopContract.Backstop.CollectZone | backstop/src/emissions/manager.rs:95-103 | the first loop: balances of the zone and their sum outside the queues |
| BackstopContract.Backstop.GulpPool | backstop/src/emissions/manager.rs:105-126 | one turn of the second loop |
| BackstopContract.Backstop.GulpZone | backstop/src/emissions/manager.rs:105-126 | the second loop |
| BackstopContract.Backstop.GulpEmissions | backstop/src/emissions/manager.rs:68-128 | the whole gulp, or the state unchanged |
| BackstopContract.Backstop.GulpPoolEmissions | backstop/src/emissions/manager.rs:131-150 | hands a pool its emissions as an allowance |
| BackstopContract.Backstop.SettleListed | backstop/src/emissions/claim.rs:16-25 | the first loop of a claim |
| BackstopContract.Backstop.RedepositListed | backstop/src/emissions/claim.rs:55-75 | the second loop of a claim |
| BackstopContract.Backstop.Claim | backstop/src/emissions/claim.rs:11-78 | the whole claim, or the state unchanged |
| Interest.AccrualSucceeds | pool/src/pool/interest.rs:22-124 | for every accepted configuration and positive utilisation no branch divides by zero: accrual aborts exactly when the last leg's 32-bit rate sum overflows |
| Interest.RateOnLeg | pool/src/pool/interest.rs:29-68 | the rate on each leg lies between the rates at its two ends, so the legs meet in order |
| Interest.RateMonotone | pool/src/pool/interest.rs:29-68 | the rate never falls as utilisation rises, within and across the three legs, roundings included |
| Interest.AccrualMonotone | pool/src/pool/interest.rs:115-123 | the accrual ratio is at least one and rises with utilisation and with elapsed time |
| Interest.IrModBounded | pool/src/pool/interest.rs:79-113 | the modifier stays between 0.1 and 10 and never moves away from the side of the target utilisation |
| Interest.IrModReacts | pool/src/pool/interest.rs:70-113 | the modifier moves by elapsed seconds times distance from the target times reactivity, to less than one unit, unless it then stands at its clamp and that much was asked for |
| Interest.IrModMonotone | pool/src/pool/interest.rs:70-113 | more time, or more distance from the target on the same side, never moves the modifier less |
| Interest.ClockBehind | pool/src/pool/interest.rs:73-77 | a clock behind the last update counts as 500 seconds, or aborts before second 500 |
| Interest.RateFollowsCurve | pool/src/pool/interest.rs:29-68 | the rate is the curve: base rate up by r_one to the target, by r_two to the kink, both times the modifier, and by an unscaled r_three over the last twentieth, each to explicit rounding |
| Interest.RatioIsYearly | pool/src/pool/interest.rs:115-123 | a loan grows by the yearly rate times the elapsed part of a year, to less than one unit up and a billionth of the rate down |
| Reserves.Reserve.BringToNow | pool/src/pool/reserve.rs:62-113 | the fields after loading are those of the transition whose growth, modifier and credit LoadFollowsRate states, or the call aborts |
| Reserves.UtilizationDefined | pool/src/pool/reserve.rs:131-135 | utilisation is defined whenever there is supply, and zero exactly when there is no debt |
| Reserves.RateRebuilt | pool/src/pool/reserve.rs:107-109 | the b rate rebuilt from the floored supply never falls, pays out at most that supply and loses less than b_supply / SCALAR_9 + 1 units |
| Reserves.ApplyAccrualKeeps | pool/src/pool/reserve.rs:89-110 | both rates never fall, the backstop gets the floor of its share, and suppliers plus backstop receive at most the interest, short by less than b_supply / SCALAR_9 + 1 units |
| Reserves.LoadKeeps | pool/src/pool/reserve.rs:43-114 | loading at any later time keeps the reserve well formed and never raises what the pool's cash must cover |
| Reserves.LoadSucceeds | pool/src/pool/reserve.rs:43-114 | loading aborts exactly when interest is due at a utilisation above 95% whose 32-bit rate sum overflows |
| Reserves.LoadMonotone | pool/src/pool/reserve.rs:79-110 | the longer a stored reserve waits, the higher the debt rate and the backstop's credit it loads |
| Reserves.UtilizationIsShare | pool/src/pool/reserve.rs:131-135 | utilisation is debt over supply, rounded up by less than one unit |
| Reserves.IdleLoad | pool/src/pool/reserve.rs:62-76 | a reserve without supply or debt only notes the time |
| Reserves.LoadFollowsRate | pool/src/pool/reserve.rs:62-113 | loading a lent reserve moves the modifier by time, distance and reactivity, grows the debt by the curve's rate over the time, and credits the backstop the floor of its part of just that growth |
| UserEmissions.SettlingUser.AddSupply | pool/src/pool/user.rs:152-160 | emissions are brought up to date at the old balance and supply, then the balance and the reserve's supply move by the same amount, and the emission storage stays in agreement with both; it aborts for zero amounts or when the update does |
| UserEmissions.SettlingUser.AddCollateral | pool/src/pool/user.rs:109-122 | emissions are brought up to date at the old balance and supply, then the balance and the reserve's supply move by the same amount, and the emission storage stays in agreement with both; it aborts for zero amounts or when the update does |
| UserEmissions.SettlingUser.AddLiabilities | pool/src/pool/user.rs:68-80 | emissions are brought up to date at the old balance and supply, then the balance and the reserve's supply move by the same amount, and the emission storage stays in agreement with both; it aborts for zero amounts or when the update does |
| UserEmissions.SettlingUser.RemoveSupply | pool/src/pool/user.rs:164-178 | emissions are brought up to date at the old balance and supply, then the balance and the reserve's supply move by the same amount, and the emission storage stays in agreement with both; it aborts for zero amounts, overdrafts or when the update does |
| UserEmissions.SettlingUser.RemoveCollateral | pool/src/pool/user.rs:126-143 | emissions are brought up to date at the old balance and supply, then the balance and the reserve's supply move by the same amount, and the emission storage stays in agreement with both; it aborts for zero amounts, overdrafts or when the update does |
| UserEmissions.SettlingUser.RemoveLiabilities | pool/src/pool/user.rs:84-100 | emissions are brought up to date at the old balance and supply, then the balance and the reserve's supply move by the same amount, and the emission storage stays in agreement with both; it aborts for zero amounts, overdrafts or when the update does |
| PoolUsers.SupplySound | pool/src/pool/actions.rs:123-164 | supply, with and without collateral: user and reserve gain the same tokens, worth at most what is paid in |
| PoolUsers.WithdrawSound | pool/src/pool/actions.rs:138-258 | withdrawal, clamped to the balance: user and reserve lose the same tokens, worth at least what is paid out |
| PoolUsers.BorrowSound | pool/src/pool/actions.rs:341-350 | borrowing: user and reserve gain the same debt, worth at least what is lent |
| PoolUsers.RepaySound | pool/src/pool/actions.rs:428-464 | repaying: user and reserve lose the same debt, worth at most what is kept |
| PoolUsers.PerformSound | pool/src/pool/actions.rs:118-541 | all six: only the requested reserve moves, rates stand still, and what the cash must cover grows by at most what is paid in less what goes out |
| PoolUsers.RepaidWorth | pool/src/pool/actions.rs:434-448 | an over-repayment keeps exactly the worth of the debt and its refund is never negative |
| PoolUsers.RepaySucceeds | pool/src/pool/actions.rs:428-541 | a repayment succeeds if and only if there is debt, at least one d token is burned and the reserve has any supply; the negative-refund check never fires |
| PoolUsers.SupplyIs | pool/src/pool/actions.rs:123-164 | supply and collateral: mints the tokens the payment is worth, rounded down, to that balance of that reserve only, and aborts exactly when that is none |
| PoolUsers.WithdrawIs | pool/src/pool/actions.rs:138-258 | withdrawals: burn the tokens the amount is worth, rounded up, and pay the amount, or the whole balance at its worth rounded down; abort exactly without a balance or an amount |
| PoolUsers.BorrowIs | pool/src/pool/actions.rs:341-350 | a loan mints the debt it is worth, rounded up, and goes through if and only if it is not zero and leaves debt within the limit part of the supply |
| PoolUsers.RepayIs | pool/src/pool/actions.rs:428-464 | a repayment burns the debt it is worth, rounded down, up to all of it, and refunds exactly what exceeds the worth of the whole debt, rounded up |
| PoolUsers.PerformIs | pool/src/pool/actions.rs:118-541 | each request type moves its own balance in its own direction by a positive amount, and nothing else of the user's |
| PoolUsers.SupplyThenWithdraw | pool/src/pool/actions.rs:123-158 | supplying and then withdrawing any amount never leaves a user with more, the rest of the balance counted at its worth |
| PoolUsers.CollateralThenWithdraw | pool/src/pool/actions.rs:159-258 | the same of collateral |
| PoolUsers.BorrowThenRepay | pool/src/pool/actions.rs:341-464 | borrowing and then repaying any amount never leaves a user owing less than was borrowed, so clearing a loan costs at least the loan |
| LendingPoolContract.Actions.AddForSpenderTransfer | pool/src/pool/actions.rs:76-81 | accumulates a transfer in |
| LendingPoolContract.Actions.AddForPoolTransfer | pool/src/pool/actions.rs:84-89 | accumulates a transfer out |
| LendingPoolContract.Actions.Supply | pool/src/pool/actions.rs:123-128 | the arm's reserve, positions and transfers, or its abort |
| LendingPoolContract.Actions.Withdraw | pool/src/pool/actions.rs:138-149 | the arm's reserve, positions and transfers, or its abort |
| LendingPoolContract.Actions.SupplyCollateral | pool/src/pool/actions.rs:159-164 | the arm's reserve, positions and transfers, or its abort |
| LendingPoolContract.Actions.WithdrawCollateral | pool/src/pool/actions.rs:246-258 | the arm's reserve, positions and transfers, or its abort |
| LendingPoolContract.Actions.Borrow | pool/src/pool/actions.rs:341-350 | the arm's reserve, positions and transfers, or its abort |
| LendingPoolContract.Actions.Repay | pool/src/pool/actions.rs:428-541 | the arm's reserve, positions and transfers, or its abort; reading the utilisation for indexing aborts it when nothing is supplied |
| LendingPoolContract.Contract.LoadReserve | pool/src/pool/pool.rs:43-53 | a reserve from the cache, or loaded and accrued |
| LendingPoolContract.Contract.CacheReserve | pool/src/pool/pool.rs:59-61 | the cache entry is replaced |
| LendingPoolContract.Contract.PerformRequest | pool/src/pool/actions.rs:122-541 | a request loads, changes and caches one reserve |
| LendingPoolContract.Contract.HandOutLot | pool/src/auctions/backstop_interest_auction.rs:98-111 | the loop over the lot draws each entry from credit and cash, and succeeds exactly when all assets load and the cash covers all entries |
| LendingPoolContract.Contract.FillInterest | pool/src/auctions/auction.rs:165-205 | scaling, donation, lot and what is stored of an interest auction |
| LendingPoolContract.Contract.RemoveEach | pool/src/pool/user.rs:186-203 | a loop of rm_positions, reserve by reserve through the user's own methods: balances and supplies shrink by all amounts, or it aborts exactly when an amount is zero, a reserve does not load or a balance is short |
| LendingPoolContract.Contract.AddEach | pool/src/pool/user.rs:206-223 | a loop of add_positions likewise: balances and supplies grow by all amounts, or it aborts exactly when an amount is zero or a reserve does not load |
| LendingPoolContract.Contract.FillUserLiquidation | pool/src/auctions/user_liquidation_auction.rs:122-136 | the four loops take the filled part from the user and give it to the filler |
| LendingPoolContract.Contract.FillLiquidation | pool/src/auctions/auction.rs:165-205 | scaling and what is stored of a liquidation, the transition whose stored rest and moved balances FillLiquidationIs states |
| LendingPoolContract.Contract.WriteOff | pool/src/auctions/bad_debt_auction.rs:98-124 | the loop that collects the backstop's debt and its removal, when the backstop is nearly empty |
| LendingPoolContract.Contract.FillBadDebt | pool/src/auctions/bad_debt_auction.rs:72-140 | debt taken over, lot drawn, rest written off or kept, and what is stored of a bad debt auction |
| LendingPoolContract.Contract.DeleteLiquidation | pool/src/auctions/auction.rs:127-132 | removes the sender's liquidation, if there is one |
| LendingPoolContract.Contract.ProcessRequest | pool/src/pool/actions.rs:118-613 | one turn of the loop for all ten request types, with the checks on sign and pool status |
| LendingPoolContract.Contract.BuildActionsFromRequest | pool/src/pool/actions.rs:108-621 | the loop over a request list of any length |
| LendingPoolContract.Contract.ReceiveAll | pool/src/pool/submit.rs:65-69 | incoming transfers, failed ones ignored |
| LendingPoolContract.Contract.DeliverAll | pool/src/pool/submit.rs:76-80 | outgoing transfers, failed ones ignored |
| LendingPoolContract.Contract.Conclude | pool/src/pool/submit.rs:64-80 | transfers in, reserves and positions stored, transfers out |
| LendingPoolContract.Contract.Submit | pool/src/pool/submit.rs:24-83 | the whole submission with the health factor it computes, or the storage unchanged |
| LendingPoolContract.Contract.InterestLot | pool/src/auctions/backstop_interest_auction.rs:27-41 | the loop that collects lot and value without storing what it loads |
| LendingPoolContract.Contract.CreateInterestAuction | pool/src/auctions/backstop_interest_auction.rs:11-71 | lot, bid and start block of a new interest auction, or its abort |
| LendingPoolContract.Contract.DebtBid | pool/src/auctions/bad_debt_auction.rs:31-45 | the loop that collects the backstop's debt and its value |
| LendingPoolContract.Contract.CreateBadDebtAuction | pool/src/auctions/bad_debt_auction.rs:14-69 | bid, lot and start block of a new bad debt auction, or its abort |
| LendingPoolContract.Contract.TransferBadDebtToBackstop | pool/src/pool/bad_debt.rs:18-52 | the loop that hands each of a user's debts to the backstop, or the storage unchanged |
| LendingPoolContract.Contract.UpdatePool | pool/src/pool/config.rs:58-67 | the new take, or the storage unchanged when it is 100% or more |
| LendingPoolContract.Contract.RequireValidReserveMetadata | pool/src/pool/config.rs:168-182 | accepts exactly the configurations the accrual proofs assume |
| LendingPoolContract.Contract.SetReserve | pool/src/pool/config.rs:111-165 | accrues an existing reserve under its old configuration and keeps its index, or appends a new one |
| Auctions.ScaleAuction | pool/src/auctions/auction.rs:299-382 | the two loops at the modifiers of the block, whose path PricePath states, and the rule when nothing remains |
| Auctions.ScaleBid | pool/src/auctions/auction.rs:340-357 | the loop over the bid fills and keeps exactly the stated amounts |
| Auctions.ScaleLot | pool/src/auctions/auction.rs:358-375 | the loop over the lot fills and keeps exactly the stated amounts |
| Auctions.BasesBounded | pool/src/auctions/auction.rs:340-375 | a percentage of an amount is between nothing and all of it; rounding leaves at most the exact rest of a bid and at least that of a lot |
| Auctions.ScaledBounded | pool/src/auctions/auction.rs:316-375 | price modifiers only reduce what changes hands |
| Auctions.PricePath | pool/src/auctions/auction.rs:318-336 | the price path: all of the bid for 200 blocks, then a two-hundredth less a block to nothing; a two-hundredth of the lot more a block for 200 blocks, then all of it |
| Auctions.PercentTaken | pool/src/auctions/auction.rs:339-363 | a percentage of an amount, rounded up for a bid and down for a lot by less than one unit |
| Auctions.FillPaysPrice | pool/src/auctions/auction.rs:338-381 | asset by asset, what leaves the auction is the percentage of what was there, and of that part the bid's price is paid and the lot's received, each to less than one unit |
| Auctions.WaitingPays | pool/src/auctions/auction.rs:318-375 | the longer a fill waits, the less it pays of every bid and the more it receives of every lot |
| Auctions.ScaleSucceeds | pool/src/auctions/auction.rs:304-322 | a fill can be scaled if and only if it is for one to a hundred percent and not before the start block |
| Auctions.FillConserves | pool/src/auctions/auction.rs:338-381 | asset by asset, filled base and remainder add up exactly and what changes hands is at most the base |
| Auctions.FillsAreFair | pool/src/auctions/auction.rs:338-381 | no sequence of fills takes a larger fraction of any lot than of any bid, or more of a lot than was put up |
| Auctions.FullFillEnds | pool/src/auctions/auction.rs:377-381 | filling 100% always ends the auction |
| Auctions.BidIsNamed | pool/src/auctions/auction.rs:340-357 | a fill names a bid asset if and only if some of it is left and fewer than 400 blocks have passed |
| Auctions.LotIsNamed | pool/src/auctions/auction.rs:358-375 | a fill names a lot asset if and only if its part at the block's price comes to a whole unit |
| Auctions.LotIsMissing | pool/src/auctions/auction.rs:310-375 | so never when nothing is put up or at the start block; a whole fill 200 blocks later names all there is |
| LendingPoolProofs.AgedKeeps | pool/src/pool/reserve.rs:43-114 | a reserve as stored or as loaded: same tokens, no more owed, no less credit, and a lot its credit covers stays covered |
| LendingPoolProofs.LoadAllKeeps | pool/src/pool/pool.rs:43-61 | loading any reserves into the cache keeps the books, the funding and the cover of the credit, each on its own |
| LendingPoolProofs.PerformRequestKeeps | pool/src/pool/actions.rs:122-541 | one of the six requests keeps each of the three, counting the transfers gathered so far |
| LendingPoolAuctionProofs.FillLiquidationKeeps | pool/src/auctions/user_liquidation_auction.rs:122-136 | filling a liquidation keeps each of the three: every total stays as it was; what is stored and who gets what is FillLiquidationIs |
| LendingPoolAuctionProofs.MoveBetweenIs | pool/src/pool/user.rs:186-223 | the four loops that take positions from one user and give them to another succeed if and only if all reserves load and every balance suffices, and leave the reserves exactly as they load |
| LendingPoolAuctionProofs.WriteOffKeeps | pool/src/auctions/bad_debt_auction.rs:98-124 | writing off the backstop's debt keeps each of the three, its worth counted |
| LendingPoolAuctionProofs.FillBadDebtKeeps | pool/src/auctions/bad_debt_auction.rs:72-140 | filling a bad debt auction keeps each of the three, the worth of what is written off counted |
| LendingPoolAuctionProofs.FillsWithinLot | pool/src/auctions/auction.rs:358-375 | a fill takes at most the stored lot and stores at most what it leaves |
| LendingPoolAuctionProofs.DrawKeeps | pool/src/auctions/backstop_interest_auction.rs:98-111 | drawing takes from credit and cash alike whatever the credit; part of a covered lot is never more than the credit, and what remains stays covered |
| LendingPoolAuctionProofs.FillInterestKeeps | pool/src/auctions/backstop_interest_auction.rs:73-114 | filling an interest auction by any percentage keeps books, funding and cover, each on its own |
| LendingPoolFills.ScaleFills | pool/src/auctions/auction.rs:299-382 | an auction splits into what is filled and what stays stored; it ends if and only if nothing is left |
| LendingPoolFills.FillLiquidationIs | pool/src/auctions/auction.rs:165-199 | at every asset what stays stored plus the percentage filled is what was stored; the entry is gone if and only if nothing is left; other users' auctions stay; user and filler lose and gain exactly the filled amounts, index by index |
| LendingPoolFills.FillInterestIs | pool/src/auctions/backstop_interest_auction.rs:73-114 | the same of the interest auction, with the lot taken from cash and from each reserve's credit as it loads |
| LendingPoolFills.FillBadDebtIs | pool/src/auctions/bad_debt_auction.rs:72-140 | the same of the bad debt auction, with the debt filled moving from the backstop to the filler |
| LendingPoolFills.ProcessFills | pool/src/pool/actions.rs:108-621 | the requests of a submission leave a stored liquidation exactly as its fills among them do, in their order |
| LendingPoolFills.StoredIsAfterFills | pool/src/auctions/auction.rs:165-199 | over any run that does not start, withdraw or lose it, what is stored of a user's auction is what the fills made of it leave |
| LendingPoolFills.CreatedIsStored | pool/src/auctions/user_liquidation_auction.rs:12-120 | a new liquidation is stored for its user beside the others, within the user's positions, starting at the next block |
| LendingPoolFills.AuctionsStayOk | pool/src/auctions/auction.rs:165-199 | in every state of every run no stored auction names a negative amount |
| LendingPoolCalls.FillLiquidationSucceeds | pool/src/auctions/user_liquidation_auction.rs:122-136 | a fill goes through if and only if it is of another user's stored auction, for a valid percentage from its start block on, the reserves load and both balances hold what it moves |
| LendingPoolCalls.DeleteLiquidationIs | pool/src/auctions/auction.rs:127-132 | a sender withdraws exactly the own liquidation, and the health check is then due |
| LendingPoolCalls.TurnTakes | pool/src/pool/actions.rs:118-121 | a request goes through if and only if the pool's status takes its type and its arm does |
| LendingPoolCalls.StatusIsKept | pool/src/pool/pool.rs:78-85 | a submission goes through only if the status takes every one of its requests: no borrowing or withdrawing a liquidation on ice, no supplying when frozen |
| LendingPoolCalls.SetReserveIs | pool/src/pool/config.rs:111-165 | re-configuring accrues first, keeps index and decimals, and resets the modifier exactly when a point of the curve moves; a new reserve is appended at rates of one; no other reserve changes |
| LendingPoolCalls.SetReserveSucceeds | pool/src/pool/config.rs:111-165 | when a reserve can be configured |
| LendingPoolCalls.MoveBadDebtIs | pool/src/pool/bad_debt.rs:18-52 | the backstop gains exactly the debts a user without collateral loses, and no other balance moves |
| LendingPoolCalls.MoveBadDebtSucceeds | pool/src/pool/bad_debt.rs:18-52 | when that goes through: for anyone but the backstop with debts and no collateral, all of listed reserves that load and none of them zero |
| LendingPoolRuns.ProcessKeeps | pool/src/pool/actions.rs:108-621 | any list of requests keeps books, funding and cover, each on its own |
| LendingPoolRuns.SubmitExact | pool/src/pool/submit.rs:24-83 | a submission leaves every asset exactly what it had to spare, which is never negative, less what is missing of it: payments credited but not received and debt written off; so it keeps the pool solvent if and only if nothing missing exceeds what is to spare |
| LendingPoolRuns.SubmitBooks | pool/src/pool/submit.rs:24-83 | any submission, whatever fails to arrive, keeps the books in order and the credit covered |
| LendingPoolRuns.SubmitShortfall | pool/src/pool/submit.rs:64-80 | whatever transfers fail and debt is written off, each asset is short by at most what is missing of it |
| LendingPoolRuns.SubmitKeeps | pool/src/pool/submit.rs:24-83 | in particular a submission whose incoming transfers succeed and that writes nothing off keeps all of the invariant |
| LendingPoolRuns.CreateInterestKeeps | pool/src/auctions/backstop_interest_auction.rs:28-41 | a new lot is what its reserves load, although nothing is stored in them |
| LendingPoolRuns.CoveredLater | pool/src/auctions/backstop_interest_auction.rs:28-41 | a lot entry covered now stays covered at every later time |
| LendingPoolRuns.UpdateTakeExact | pool/src/pool/config.rs:58-67 | any change of the take keeps books and solvency; it keeps a stored lot covered if and only if every entry is at most the credit there is plus, when interest is due and accrues, the floor of the new take's part of it |
| LendingPoolRuns.UpdateTakeKeeps | pool/src/pool/config.rs:58-67 | in particular all of the invariant holds after a change with no interest auction stored, or to a take that is no lower |
| LendingPoolRuns.SetReserveKeeps | pool/src/pool/config.rs:111-165 | re-configuring or adding a reserve keeps books, solvency and cover, each on its own |
| LendingPoolRuns.MoveBadDebtKeeps | pool/src/pool/bad_debt.rs:18-52 | handing bad debt to the backstop keeps books, solvency and cover, each on its own |
| LendingPoolRuns.GenesisOk | pool/src/pool/config.rs:16-55 | an initialised pool without reserves satisfies every invariant |
| LendingPoolRuns.RunKeeps | pool/src/pool/actions.rs:108-621 | the books are in order in every state of every run; the pool is solvent throughout if and only if no submission misses more than there is to spare, and the credit covered throughout if and only if every change of the take fits the stored lot |
| LendingPoolRuns.PoolIsSolvent | pool/src/pool/actions.rs:118-541 | from initialisation, in every state of every run: supplies are the sums of users' balances and no reserve is ahead of the clock; and cash plus liabilities cover supply plus backstop credit, stored or loaded, throughout a run if and only if no submission misses more than there is to spare, whatever happens to the take |
| LendingPoolRuns.CompleteRunsAreSolvent | pool/src/pool/submit.rs:64-83 | in particular every state of a run is solvent in which all payments arrive and no fill of bad debt finds the backstop nearly empty |
| LendingPoolRuns.InterestLotIsCovered | pool/src/auctions/backstop_interest_auction.rs:98-111 | from initialisation, throughout a run: the backstop's credit is not negative and each entry of a stored interest lot is at most the credit its reserve loads, if and only if every change of the take fits the stored lot, whatever transfers fail |
| LendingPoolLimits.InterestFillSucceeds | pool/src/auctions/backstop_interest_auction.rs:84-96 | given an open auction, a willing backstop, reserves that load and cash for the lot, a fill succeeds if and only if bid is left and fewer than 400 blocks have passed |
| LendingPoolLimits.CreateInterestSucceeds | pool/src/auctions/backstop_interest_auction.rs:43-71 | creation succeeds if and only if none is open, the value passes the minimum and the backstop token has a price; the check for an empty or worthless lot never fires |
| LendingPoolPrices.InterestLotIs | pool/src/auctions/backstop_interest_auction.rs:27-41 | the lot is the whole credit of every listed asset that has some, and its value what that is worth at the oracle's prices, rounded down by at most a unit an asset |
| LendingPoolPrices.InterestAuctionIs | pool/src/auctions/backstop_interest_auction.rs:43-71 | the bid is backstop tokens worth 1.4 times the lot's value, and nothing else |
| LendingPoolPrices.DebtValueIs | pool/src/auctions/bad_debt_auction.rs:31-45 | the value of the debt put up is what it is worth at the oracle's prices, rounded down by at most a unit a reserve |
| LendingPoolPrices.BadDebtAuctionIs | pool/src/auctions/bad_debt_auction.rs:46-69 | the lot is backstop tokens worth 1.4 times that, or all there are |
| LendingPoolPrices.CreateBadDebtSucceeds | pool/src/auctions/bad_debt_auction.rs:14-69 | a bad debt auction is created if and only if none is open, the debts are of listed reserves, worth something, and a backstop token has a price |
| LendingPoolLimits.StuckUntilItLapses | pool/src/auctions/backstop_interest_auction.rs:16-18 | otherwise, in every run, the auction is never filled, replaced or removed and no other interest auction can be created, until its temporary storage runs out |
| LendingPoolLimits.EveryAuctionGetsStuck | pool/src/auctions/backstop_interest_auction.rs:84-96 | every interest auction created is stuck once 401 blocks have passed unfilled |
| LendingPoolBadDebt.BadDebtAuctionIsExact | pool/src/auctions/bad_debt_auction.rs:14-69 | a new bad debt auction asks for exactly the debt the backstop holds, reserve by reserve, and offers at most the tokens there are |
| LendingPoolBadDebt.LotOfNothing | pool/src/auctions/bad_debt_auction.rs:43-68 | given amounts that are not negative, a new auction offers nothing if and only if the debt with 40 percent on top is worth less than one unit of the backstop token |
| LendingPoolBadDebt.WriteOffThreshold | pool/src/pool/status.rs:129-148 | saturation does not matter: debt is written off when, in exact arithmetic, the product constant is below three ten-millionths of the threshold |
| LendingPoolBadDebt.WriteOffSucceeds | pool/src/auctions/bad_debt_auction.rs:96-124 | a write-off goes through if and only if there is no debt, or enough behind the pool not to need one, or every debt is positive and of a listed reserve that loads |
| LendingPoolBadDebt.WriteOffClears | pool/src/auctions/bad_debt_auction.rs:98-124 | a write-off leaves the backstop without debt |
| LendingPoolBadDebt.WriteOffCounts | pool/src/auctions/bad_debt_auction.rs:98-124 | what suppliers lose by it, asset by asset, is exactly what the liabilities lose against the reserves as they load |
| LendingPoolBadDebt.BadDebtFillSucceeds | pool/src/auctions/bad_debt_auction.rs:72-140 | a fill goes through if and only if its sender is not the backstop, the auction is open and the percentage valid, the draw is paid, the scaled lot names the backstop token, the reserves of the scaled bid load, the backstop holds the debt asked for, and what must then be written off can be |
| LendingPoolBadDebt.LotlessFillAborts | pool/src/auctions/bad_debt_auction.rs:90 | no part of an auction without a lot, nor of any auction at its start block, can be filled |
| LendingPoolBadDebt.LotlessUntilItLapses | pool/src/auctions/bad_debt_auction.rs:14-18 | in every run an auction without a lot is never filled, replaced or removed, until its temporary storage runs out |
| LendingPoolBadDebt.NothingToTakeOver | pool/src/auctions/bad_debt_auction.rs:84-86 | once the backstop has no debt, a fill of a stored auction that asks for some goes through if and only if 400 blocks have passed since its start, when nothing is asked for, and the lot is named |
| LendingPoolLimits.UncheckedNeverRisks | pool/src/pool/actions.rs:108-621 | if no request of a list sets the health check, none of the sender's debts has grown and no collateral has shrunk |
| LendingPoolLimits.SubmitLeavesHealthy | pool/src/pool/submit.rs:41-62 | once health is enforced, a submission that goes through left no debt larger and no collateral smaller, or leaves no debt, or what the pool then stores says that the sender's collateral, tokens times rates times collateral factors summed over all reserves, is worth at least 1.00001 times the debt, tokens times rates over liability factors |
| LendingPoolLimits.HealthDecides | pool/src/pool/submit.rs:41-62 | a submission whose requests go through aborts only where health is enforced and the collateral does not clearly cover the debt, by more than rounding can take; and where it is enforced and goes through, it covers it |
| LendingPoolInputs.LoweredTakeUncovers | pool/src/pool/config.rs:58-67 | a concrete reserve whose lot is covered at a take of 20% and not at one of 0 |
| LendingPoolInputs.LoweredTakeBreaks | pool/src/pool/config.rs:58-67 | a concrete sound pool with an interest auction that lowering the take to 0 leaves uncovered, and the fill after which the backstop's credit is negative |
| LendingPoolInputs.StuckIsReached | pool/src/auctions/backstop_interest_auction.rs:11-71 | a concrete sound pool whose newly created interest auction is stuck 401 blocks later |
| LendingPoolInputs.DebtCannotBeRepaid | pool/src/pool/actions.rs:464-541 | a concrete sound pool from which a withdrawal leads to another one with debt and no supply, in which repaying any amount aborts |
| LendingPoolInputs.UnpaidSupplyBreaks | pool/src/pool/submit.rs:64-69 | a concrete submission whose failed transfer is ignored and leaves a sound pool owing tokens it never received |
| LendingPoolBadDebtInputs.WriteOffLeavesAuction | pool/src/auctions/bad_debt_auction.rs:72-140 | a concrete run of sound pools: half of a bad debt auction is filled and repaid, the other half of the debt written off, and no part of what stays stored can be filled, whatever is answered |
| LendingPoolBadDebtInputs.LotlessIsReached | pool/src/auctions/bad_debt_auction.rs:14-69 | a concrete sound pool that creates an auction without a lot, which then stays in every run |
| Health.CalculateFromPositions | pool/src/pool/health_factor.rs:27-92 | the loop over the reserve list computes the four sums that CalculateIsWorth and CalculateIsRaw bound on both sides, or aborts as its first failing reserve does |
| PositionWorths.CollateralIsPart | pool/src/pool/reserve.rs:193-198 | a reserve's collateral counts tokens times rate times collateral factor, rounded down by less than two units |
| PositionWorths.DebtIsPart | pool/src/pool/reserve.rs:181-186 | a reserve's debt counts tokens times rate over liability factor, rounded up by no more than an explicit bound |
| PositionWorths.CalculateIsWorth | pool/src/pool/health_factor.rs:36-83 | the weighted sums are those worths over all reserves, collateral rounded down by less than two units a reserve and debt up by no more than its bounds |
| PositionWorths.CalculateIsRaw | pool/src/pool/health_factor.rs:36-83 | the raw sums are tokens times rates over all reserves, to one and two units a reserve |
| PositionWorths.CheckIsCover | pool/src/pool/health_factor.rs:95-128 | passing a check on the rounded sums means being covered in exact worth, and being clearly covered passes it |
| Liquidations.CollateralWeight | pool/src/pool/reserve.rs:193-198 | weighted collateral is the collateral factor's part of the asset and the asset the rate's part of the tokens, each rounded down by less than one unit, so never more than the asset |
| Liquidations.LiabilityWeight | pool/src/pool/reserve.rs:181-186 | weighted debt is the asset over the liability factor and the asset the rate's part of the tokens, each rounded up by less than one unit, so never less than the asset; a factor of zero aborts |
| Liquidations.CalculateKeeps | pool/src/pool/health_factor.rs:36-83 | for any positions in any reachable pool, weighted collateral is at most raw collateral and weighted debt at least raw debt |
| Liquidations.IncentiveInRange | pool/src/auctions/user_liquidation_auction.rs:43-58 | with collateral and debt present the incentive is defined and between one and one and a half, rounded up |
| Liquidations.IncentiveIsFair | pool/src/auctions/user_liquidation_auction.rs:43-58 | the incentive is one plus half of what the ratio of the averaged factors, as a fraction of the sums themselves, falls short of one, to three halves of a unit |
| Liquidations.QuoteIsSized | pool/src/auctions/user_liquidation_auction.rs:40-71 | the debt's part is the percentage; the collateral withdrawn is that part of the debt with the incentive on top; its part of the collateral is rounded up and at most all |
| Liquidations.LiquidationIsSized | pool/src/auctions/user_liquidation_auction.rs:12-120 | every auction created asks for the percentage of every debt and offers the sized part of every collateral, each rounded up by less than one unit |
| Liquidations.Portions | pool/src/auctions/user_liquidation_auction.rs:73-93 | the loops that fill lot and bid |
| Liquidations.QuotedWithin | pool/src/auctions/user_liquidation_auction.rs:40-93 | for any weighted data, lot is at most the collateral and bid at most the liabilities, reserve by reserve |
| Liquidations.LiquidationWithin | pool/src/auctions/user_liquidation_auction.rs:12-120 | every auction created in a reachable pool stays within the user's positions, and one of 100% takes exactly all of them |
| Liquidations.HealthFactorMeaning | pool/src/pool/health_factor.rs:95-128 | the floored health factor reaches a bound exactly when the products compare |
| Liquidations.LiquidationLeavesHealth | pool/src/auctions/user_liquidation_auction.rs:95-118 | a partial liquidation is accepted only if, filled in whole, it leaves collateral worth at least 1.03 times the debt, in sums of balances, rates and factors, and not clearly 1.15 times or more |
| Liquidations.LiquidationAccepted | pool/src/auctions/user_liquidation_auction.rs:95-118 | and is accepted if collateral is worth no more than debt before and clearly between those bounds after, provided the amounts can be computed and taken |
| Liquidations.HealthyAreSafe | pool/src/auctions/user_liquidation_auction.rs:35-38 | no user whose collateral is clearly worth more than the debt can be liquidated |
| Liquidations.FillWithin | pool/src/auctions/user_liquidation_auction.rs:122-136 | a fill finds the positions it moves, and what is left of the auction is within what is left of them |
| Liquidations.LiquidationNeverUnderflows | pool/src/auctions/auction.rs:340-375 | no sequence of fills underflows positions not reduced since the auction was created |
| PoolEmissions.UpdateDataKeeps | pool/src/emissions/distributor.rs:198-240 | the index update never aborts, never lowers the index and leaves what may still be paid out as it was, short by at most one unit of the index for each token held |
| PoolEmissions.IndexIsCurrent | pool/src/emissions/distributor.rs:198-240 | while the token is held, an update puts everything emitted by now into the index; while it is not, nothing moves |
| PoolEmissions.NeverBackwards | pool/src/emissions/distributor.rs:221-281 | with a clock that never runs backwards the branches for time or index going backwards are never taken |
| PoolEmissions.SettleKeeps | pool/src/emissions/distributor.rs:242-304 | settling pays or keeps exactly what had accrued plus the floor of balance times index gain, less than one unit short of what was owed; a holder without a record counts from index 0 |
| PoolEmissions.UpdateKeeps | pool/src/emissions/distributor.rs:109-184 | update and claim never abort, touch one holder's record and no balance, pay or record exactly what is due, and lower what is owed by what is paid, to the rounding of one update |
| PoolEmissions.ChangeBalanceKeeps | pool/src/pool/user.rs:68-178 | a balance change as pool users make it, emissions first, leaves what may be paid out as it was, to the rounding of one update, and fails only for a negative balance |
| PoolEmissions.RestreamKeeps | pool/src/emissions/manager.rs:87-141 | a new stream adds the new tokens, whatever the old one carried over, less at most the rounding of the index, one unit for each second of the week, and what was emitted while nobody held the token |
| PoolEmissionRuns.SharesBounded | pool/src/emissions/manager.rs:35-54 | the shares stored add up to at most the sum that is checked, tokens listed twice included |
| PoolEmissionRuns.SetPoolEmissionsIs | pool/src/emissions/manager.rs:35-54 | shares are set if and only if every entry names a token of a listed reserve and they add up to at most one; a token then has the share of its last entry, one without an entry none |
| PoolEmissionRuns.GulpIsCovered | pool/src/emissions/manager.rs:70-85 | the allotments of one gulp are not negative and add up to at most what was gulped |
| PoolEmissionRuns.GulpGives | pool/src/emissions/manager.rs:70-85 | each token is given its share of the new emissions, rounded down by less than one unit |
| PoolEmissionRuns.GulpSucceeds | pool/src/emissions/manager.rs:70-85 | a gulp goes through if and only if at least one whole token is new |
| PoolEmissionRuns.ClaimSucceeds | pool/src/emissions/distributor.rs:16-93 | a claim goes through if and only if every token listed is of a listed reserve |
| PoolEmissionRuns.GulpKeeps | pool/src/emissions/manager.rs:70-141 | a gulp keeps every token's payouts and debts within what it was given |
| PoolEmissionRuns.ClaimAllKeeps | pool/src/emissions/distributor.rs:16-93 | a claim over any list of tokens, repeats included, keeps that and pays what it reports |
| PoolEmissionRuns.ClaimsAreFunded | pool/src/emissions/distributor.rs:16-304 | over any run, per token: claimed plus owed plus streaming is at most what gulps gave it; and all claims together are at most all that was gulped |
| PoolEmissionRuns.GivenIsAccounted | pool/src/emissions/distributor.rs:16-304 | and over any run, per token, what gulps gave it is claimed, owed or still streaming, short by no more than the explicit rounding of the calls made |
| PoolJointRuns.SuppliesAgree | pool/src/pool/user.rs:229-249 | the supplies emission indexes are computed from are the reserves' own |
| PoolJointRuns.LogExists | pool/src/pool/user.rs:68-178 | every call of the lending pool is accounted for by balance changes that bring emissions up to date first, and none of them aborts a call the pool accepts |
| PoolJointRuns.EmissionsFollowPositions | pool/src/emissions/distributor.rs:109-184 | over any run of a lending pool with its emissions: every token's supply and every holder's balance are those of the pool, each token pays out at most what gulps gave it and all at most what was gulped |
| FundingChain.Reinstalled | emitter/src/backstop_manager.rs:66-91 | installing a backstop again raises what may be called for by exactly the emissions of the time it was not installed |
| FundingChain.StepKeeps | emitter/src/emitter.rs:6-18 | no call of emitter, backstop or listed pools lets more be paid or called for than was minted, but for what is counted as unfunded; emitter and backstop agree on the last distribution |
| FundingChain.UsersArePaidFromMinting | pool/src/emissions/distributor.rs:76-93 | from initialisation, over any run of emitter, backstop and lending pools with their gulps and claims: what depositors and all pools' users were paid is at most one BLND for every second of the emitter, unless a claim goes to someone else or the backstop is installed again; each pool pays at most what its users claimed, and that is at most what it gulped |
| FundingChain.PayoutExact | pool/src/emissions/distributor.rs:74-85 | with sufficient BLND a claim's transfer arrives if and only if it is within the pool's allowance |
| FundingChain.UsersGetWhatTheyClaim | pool/src/emissions/distributor.rs:14-94 | a failed transfer would go unnoticed, but over any run in which no claim of a depositor goes to someone else, the backstop is not installed again and no allowance runs out, every pool has paid its users exactly what they claimed, and the next claim is paid in full |
| FundingInputs.ReinstalledSolventExactly | emitter/src/backstop_manager.rs:66-91 | a backstop installed again has sufficient BLND if and only if it can spare the emissions of the time between |
| FundingInputs.ReturningBreaks | emitter/src/backstop_manager.rs:66-91 | a concrete run in which a backstop is replaced, installed again and left short of BLND |
| PoolEmissionContract.EmissionStore.UpdateEmissionDataWithConfig | pool/src/emissions/distributor.rs:198-240 | the stored index update |
| PoolEmissionContract.EmissionStore.UpdateUserEmissions | pool/src/emissions/distributor.rs:242-282 | the branches on record, index and balance |
| PoolEmissionContract.EmissionStore.SetUserEmissions | pool/src/emissions/distributor.rs:284-304 | stores the settled record, or pays it out |
| PoolEmissionContract.EmissionStore.UpdateEmissions | pool/src/emissions/distributor.rs:109-184 | both updates, nothing without a stream |
| PoolEmissionContract.EmissionStore.ExecuteClaim | pool/src/emissions/distributor.rs:28-72 | the claim loop, or the storage unchanged |
| PoolEmissionContract.EmissionStore.SetPoolEmissions | pool/src/emissions/manager.rs:35-54 | the loop over the share list, or the shares unchanged |
| PoolEmissionContract.EmissionStore.UpdateReserveEmissionConfig | pool/src/emissions/manager.rs:87-141 | restarts a token's stream step by step |
| PoolEmissionContract.EmissionStore.DoGulpEmissions | pool/src/emissions/manager.rs:70-85 | the loop over the shares, or the storage unchanged |
| Emitters.Emitter.ExecuteDistribute | emitter/src/emitter.rs:6-18 | one token for every second since the last distribution to the backstop |
| Emitters.Emitter.ExecuteDrop | emitter/src/emitter.rs:21-44 | the sum, the limit, the mints and the mark, or the state unchanged |
| Emitters.Emitter.ExecuteQueueSwapBackstop | emitter/src/backstop_manager.rs:27-49 | queues a swap when none is queued and the new backstop holds more of the current backstop token than the current backstop |
| Emitters.Emitter.ExecuteCancelSwapBackstop | emitter/src/backstop_manager.rs:52-63 | removes a queued swap whose backstop no longer holds more |
| Emitters.Emitter.ExecuteSwapBackstop | emitter/src/backstop_manager.rs:66-91 | pays the old backstop, installs the new one if it still holds more, and starts its clock |
| Emitters.EmissionsAreExact | emitter/src/emitter.rs:6-44 | over any run with any swaps: distributions minted exactly SCALAR_7 times the seconds from the start to the current backstop's last distribution, and each backstop dropped at most 50 million tokens |
| Emitters.DropsOnce | emitter/src/emitter.rs:21-44 | a backstop that has dropped never drops again |
| Emitters.DropIs | emitter/src/emitter.rs:21-44 | a drop goes through if and only if the current backstop asks, for the first time, within the limit and without negative entries, and mints exactly the sum of the list |
| Emitters.DropSumIs | emitter/src/emitter.rs:27-34 | the sum checked against the limit is that of the list's entries |
| Emitters.SwapResolves | emitter/src/backstop_manager.rs:27-91 | in every reachable state: when a swap can be queued, cancelled and carried out; once its delay is over, always exactly one of the last two |
| Emitters.SwapsWait | emitter/src/backstop_manager.rs:27-91 | a swap that goes through was queued at least 31 days earlier; the queued swap and the current backstop are the same in every state between, and the new backstop held more of its token both times |

## Left out

- Integer widths: sums and products are unbounded, so aborts by i128 or u64 overflow do not appear. The 32-bit sum
  of the rates on the last leg of the interest curve, the saturating pool threshold, the 64-bit truncation of a
  fill percentage and the signs of subtractions are modelled.
- Authorisation, events, deployment, upgrades, and storage lifetimes other than the lapse of auctions.
- The indexing output of this fork: retroshade records, USDC conversion through oracles, auction telemetry, claim ratios.
  Of their aborts only the utilisation read after a repayment is kept.
- Token contracts, the Comet pool and price feeds: transfers are exact, `lpOut` is what a claim's LP purchase minted, and
  prices, decimals and backstop value are inputs of an interest auction.
- The order in which a Soroban map is iterated, and with it which of several failing entries aborts a loop over a lot or over shares.
- Pool status transitions: the status is any number an action sets. The seven-day reserve queue and its timelock: only the
  validated configuration reaches `SetReserve`.
- The backstop's side of a bad debt fill and of an interest fill: whether it pays a draw or takes a donation, and the BLND
  and USDC then behind the pool, are answers to a submission; the backstop's own calls are modelled in `BackstopWorld`.
- The limit on the number of positions, which this fork computes and does not enforce (`pool/src/pool/pool.rs:86-101`).
- BackstopRuns.BackstopIsSolvent: for runs in which the backstop stays the emitter's backstop; being replaced and installed
  again is part of the runs of `FundingChain`.
- Initial BLND drops requested by the backstop, as far as the backstop's own funding goes; the emitter's side is modelled.
- The LP token's value update and the pool data it feeds: blnd and usdc per token are any numbers an action sets.
- The request loop of `LendingPoolContract` changes positions through `User`, whose methods leave the emission update out;
  `SettlingUser` has both, and `PoolJointRuns` joins the two states for any log of balance changes that accounts for a call.
