/** The backstop over whole runs: any interleaving of calls by any users, any other transfers, any
    passage of time. */
module BackstopRuns {
  import opened Outcomes
  import opened FixedPoint
  import opened Totals
  import opened PoolBalances
  import opened BackstopLedger
  import opened BackstopLedgerProofs
  import opened BackstopWorld
  import opened BackstopWorldProofs
  import opened BackstopGulpProofs
  import opened BackstopClaimProofs

  // ----- claims -----

  /** A claim as its two loops. */
  lemma ClaimIsLoops(w: World, from: Address, ids: seq<Address>, to: Address, lpOut: nat)
    requires ExecuteClaim(w, from, ids, to, lpOut).Ok?
    ensures SettleAll(w.pools, ids, |ids|, w.now, from).Ok?
    ensures var s := SettleAll(w.pools, ids, |ids|, w.now, from).value;
      var v := ExecuteClaim(w, from, ids, to, lpOut).value.0;
      if s.claimed > 0 then
        var r := RedepositAll(s, ids, |ids|, lpOut, to);
        r.Ok? && v == w.(pools := r.value, blnd := w.blnd - s.claimed, lp := w.lp + lpOut)
      else v == w.(pools := s.pools)
  {
    hide SettleAll;
    hide RedepositAll;
  }

  lemma ListedPoolsSettled(pools: map<Address, PoolLedger>, ids: seq<Address>, now: nat, user: Address)
    requires AllDone(pools, ids, |ids|, now, user)
    ensures AllSettled(pools, ids, user)
  {
    hide UpdateEmissions;
    hide Settled;
  }

  /** The world between the two loops of a claim: settled and paid, nothing re-deposited. */
  ghost function Settling(w: World, from: Address, ids: seq<Address>): World
    requires SettleAll(w.pools, ids, |ids|, w.now, from).Ok?
  {
    var s := SettleAll(w.pools, ids, |ids|, w.now, from).value;
    w.(pools := s.pools, blnd := w.blnd - s.claimed)
  }

  /** What the re-deposits of a claim newly owe the recipient. */
  ghost function ClaimPromise(w: World, from: Address, ids: seq<Address>, to: Address, lpOut: nat): int
    requires SettleAll(w.pools, ids, |ids|, w.now, from).Ok?
  {
    var s := SettleAll(w.pools, ids, |ids|, w.now, from).value;
    if s.claimed > 0 then Promised(s, ids, |ids|, lpOut, to) else 0
  }

  /** The worlds after settling and after re-depositing, from sums alone. */
  lemma ClaimSums(w: World, settled: map<Address, PoolLedger>, pools: map<Address, PoolLedger>,
                  claimed: int, moreLp: int, redeposited: int, promise: int)
    requires WorldOk(w) && LedgersOk(pools, w.now)
    requires TokenTotal(pools) == TokenTotal(w.pools) + redeposited && redeposited <= moreLp
    requires LiabilityTotal(settled) + Scaled(claimed) <= LiabilityTotal(w.pools)
    requires LiabilityTotal(pools) == LiabilityTotal(settled) + promise
    ensures var v := w.(pools := pools, blnd := w.blnd - claimed, lp := w.lp + moreLp);
      var between := w.(pools := settled, blnd := w.blnd - claimed);
      && WorldOk(v) && Surplus(between) >= Surplus(w) && Surplus(v) == Surplus(between) - promise
  {
    hide LedgersOk;
    hide TokenTotal;
    hide LiabilityTotal;
  }

  /** What the two loops of a claim that pays something do to the sums. */
  lemma PaidClaimSums(w: World, from: Address, ids: seq<Address>, to: Address, lpOut: nat)
    requires LedgersOk(w.pools, w.now) && SettleAll(w.pools, ids, |ids|, w.now, from).Ok?
    requires var s := SettleAll(w.pools, ids, |ids|, w.now, from).value;
      s.claimed > 0 && RedepositAll(s, ids, |ids|, lpOut, to).Ok?
    ensures var s := SettleAll(w.pools, ids, |ids|, w.now, from).value;
      var pools := RedepositAll(s, ids, |ids|, lpOut, to).value;
      && LedgersOk(pools, w.now)
      && TokenTotal(pools) == TokenTotal(w.pools) + Redeposited(s, ids, |ids|, lpOut)
      && Redeposited(s, ids, |ids|, lpOut) <= lpOut
      && LiabilityTotal(s.pools) + Scaled(s.claimed) <= LiabilityTotal(w.pools)
      && LiabilityTotal(pools) == LiabilityTotal(s.pools) + Promised(s, ids, |ids|, lpOut, to)
      && Promised(s, ids, |ids|, lpOut, to) >= 0
      && (AllSettled(s.pools, ids, to) ==> Promised(s, ids, |ids|, lpOut, to) == 0)
      && AllSettled(s.pools, ids, from)
  {
    hide SettleAll;
    hide RedepositAll;
    hide LedgersOk;
    hide TokenTotal;
    hide LiabilityTotal;
    hide AllDone;
    hide HasClaims;
    hide Listed;
    hide Redeposited;
    hide AllSettled;
    hide Promised;
    hide PromisedIn;
    var n := |ids|;
    SettleAllKeeps(w.pools, ids, n, w.now, from);
    SettleAllRecords(w.pools, ids, n, w.now, from);
    var s := SettleAll(w.pools, ids, n, w.now, from).value;
    RedepositAllKeeps(s, ids, n, lpOut, to, w.now, 0);
    RedepositDust(w.pools, ids, w.now, from, lpOut);
    ListedPoolsSettled(s.pools, ids, w.now, from);
    RedepositAllPromises(s, ids, n, lpOut, to, w.now, 0);
  }

  /** Any claim keeps the ledgers and the LP tokens sound. It leaves exactly the surplus there is between
      its loops less what its re-deposits promise, and settling alone never lowers the surplus; a recipient
      settled in every listed pool, as the claimant is, is promised nothing. */
  lemma {:induction false} ClaimStep(w: World, from: Address, ids: seq<Address>, to: Address, lpOut: nat)
    requires WorldOk(w) && ExecuteClaim(w, from, ids, to, lpOut).Ok?
    ensures SettleAll(w.pools, ids, |ids|, w.now, from).Ok?
    ensures var v := ExecuteClaim(w, from, ids, to, lpOut).value.0;
      var settled := SettleAll(w.pools, ids, |ids|, w.now, from).value.pools;
      && WorldOk(v)
      && Surplus(Settling(w, from, ids)) >= Surplus(w)
      && Surplus(v) == Surplus(Settling(w, from, ids)) - ClaimPromise(w, from, ids, to, lpOut)
      && ClaimPromise(w, from, ids, to, lpOut) >= 0
      && (to == from || AllSettled(settled, ids, to) ==> ClaimPromise(w, from, ids, to, lpOut) == 0)
  {
    hide ExecuteClaim;
    hide SettleAll;
    hide RedepositAll;
    hide LedgersOk;
    hide TokenTotal;
    hide LiabilityTotal;
    hide Redeposited;
    hide Promised;
    hide AllSettled;
    hide Surplus;
    ClaimIsLoops(w, from, ids, to, lpOut);
    SettleAllKeeps(w.pools, ids, |ids|, w.now, from);
    var s := SettleAll(w.pools, ids, |ids|, w.now, from).value;
    if s.claimed > 0 {
      PaidClaimSums(w, from, ids, to, lpOut);
      var pools := RedepositAll(s, ids, |ids|, lpOut, to).value;
      ClaimSums(w, s.pools, pools, s.claimed, lpOut, Redeposited(s, ids, |ids|, lpOut), Promised(s, ids, |ids|, lpOut, to));
    } else {
      ClaimSums(w, s.pools, s.pools, 0, 0, 0, 0);
      assert w.(pools := s.pools, blnd := w.blnd - 0, lp := w.lp + 0) == w.(pools := s.pools);
    }
  }

  /** The claim's promise fits into the surplus there is between its loops. */
  ghost predicate ClaimFits(w: World, from: Address, ids: seq<Address>, to: Address, lpOut: nat)
    requires SettleAll(w.pools, ids, |ids|, w.now, from).Ok?
  {
    ClaimPromise(w, from, ids, to, lpOut) <= Surplus(Settling(w, from, ids))
  }

  /** A claim leaves the BLND sufficient exactly when its promise fits; one for the claimant, or for a
      recipient settled in every listed pool, always does. */
  lemma {:induction false} ClaimSolventExactly(w: World, from: Address, ids: seq<Address>, to: Address, lpOut: nat)
    requires WorldOk(w) && ExecuteClaim(w, from, ids, to, lpOut).Ok?
    ensures SettleAll(w.pools, ids, |ids|, w.now, from).Ok?
    ensures BlndSolvent(ExecuteClaim(w, from, ids, to, lpOut).value.0) <==> ClaimFits(w, from, ids, to, lpOut)
    ensures BlndSolvent(w) && (to == from || AllSettled(SettleAll(w.pools, ids, |ids|, w.now, from).value.pools, ids, to))
      ==> ClaimFits(w, from, ids, to, lpOut)
  {
    hide ExecuteClaim;
    hide SettleAll;
    hide ClaimPromise;
    hide Settling;
    hide WorldOk;
    hide LiabilityTotal;
    hide AllSettled;
    ClaimStep(w, from, ids, to, lpOut);
  }

  /** While the BLND is sufficient, a claim is never refused for lack of it. */
  lemma ClaimsAreFunded(w: World, from: Address, ids: seq<Address>)
    requires WorldOk(w) && BlndSolvent(w) && SettleAll(w.pools, ids, |ids|, w.now, from).Ok?
    ensures SettleAll(w.pools, ids, |ids|, w.now, from).value.claimed <= w.blnd
  {
    hide SettleAll;
    hide LiabilityTotal;
    hide TokenTotal;
    hide LedgersOk;
    SettleAllKeeps(w.pools, ids, |ids|, w.now, from);
    LiabilityIsNonNegative(SettleAll(w.pools, ids, |ids|, w.now, from).value.pools, w.now);
    TotalNonNeg(w.allowances);
  }

  /** Likewise for a pool pulling its allowance. */
  lemma AllowancesAreFunded(w: World, pool: Address, amount: int, to: Address)
    requires WorldOk(w) && BlndSolvent(w)
    ensures PullAllowance(w, pool, amount, to).Ok? <==> 0 <= amount <= AllowanceOf(w, pool)
  {
    hide LiabilityTotal;
    hide TokenTotal;
    hide LedgersOk;
    LiabilityIsNonNegative(w.pools, w.now);
    TotalNonNeg(w.allowances);
  }

  lemma LiabilityIsNonNegative(pools: map<Address, PoolLedger>, now: nat)
    requires LedgersOk(pools, now)
    ensures LiabilityTotal(pools) >= 0
  {
    hide LedgerOk;
    hide Obligation;
    forall p | p in pools
      ensures LiabilityBy(pools)[p] >= 0
    {
      LedgerSums(pools[p], now);
      LedgerTokens(pools[p], now);
    }
    TotalNonNeg(LiabilityBy(pools));
  }

  // ----- one step -----

  /** Claims go to the claimant. */
  predicate OwnClaim(a: Action)
  {
    a.Claim? ==> a.to == a.from
  }

  /** A claim that goes through fits into the surplus. */
  ghost predicate Fits(w: World, a: Action)
  {
    a.Claim? && SettleAll(w.pools, a.ids, |a.ids|, w.now, a.from).Ok? && Step(w, a).Ok? ==>
      ClaimFits(w, a.from, a.ids, a.to, a.lpOut)
  }

  lemma SolventIsSurplus(w: World)
    ensures BlndSolvent(w) <==> Surplus(w) >= 0
  {
    hide LiabilityTotal;
    hide Total;
  }

  /** Every call but a claim keeps the ledgers in agreement and the LP tokens sufficient, and leaves no less BLND
      to spare. */
  lemma {:induction false} OtherStepKeeps(w: World, a: Action)
    requires WorldOk(w) && !a.Claim?
    ensures MovesTokens(w, After(w, a))
  {
    hide WorldOk;
    hide Surplus;
    hide ExecuteDeposit;
    hide ExecuteQueue;
    hide ExecuteDequeue;
    hide ExecuteWithdraw;
    hide ExecuteDraw;
    hide ExecuteDonate;
    hide ExecuteDistribute;
    hide ExecuteGulp;
    hide AddToRewardZone;
    if Step(w, a).Ok? {
      match a
      case Tick(seconds) => TickStep(w, seconds);
      case EmitterDistributes => DistributeStep(w);
      case GulpEmissions => GulpStep(w);
      case GulpPoolEmissions(pool) => GulpPoolStep(w, pool);
      case AddReward(toAdd, toRemove) => AddRewardStep(w, toAdd, toRemove);
      case DepositTokens(from, pool, amount) => DepositStep(w, from, pool, amount);
      case QueueForExit(from, pool, amount) => QueueStep(w, from, pool, amount);
      case CancelQueued(from, pool, amount) => DequeueStep(w, from, pool, amount);
      case WithdrawShares(from, pool, amount) => WithdrawStep(w, from, pool, amount);
      case DrawTokens(pool, amount, to) => DrawStep(w, pool, amount, to);
      case DonateTokens(from, pool, amount) => DonateStep(w, from, pool, amount);
      case PoolPulls(pool, amount, to) => AllowanceStep(w, pool, amount, to);
      case AllowanceExpires(pool) => AllowanceStep(w, pool, 0, 0);
      case TokensArrive(moreBlnd, moreLp) => ArrivalStep(w, moreBlnd, moreLp);
      case TokenValueMoves(blndPerToken, usdcPerToken) => ValueStep(w, blndPerToken, usdcPerToken);
    }
  }

  /** Every call keeps the ledgers in agreement and the LP tokens sufficient; it keeps the BLND sufficient
      exactly when it is not a claim whose promise does not fit. */
  lemma {:induction false} StepKeeps(w: World, a: Action)
    requires WorldOk(w)
    ensures WorldOk(After(w, a))
    ensures BlndSolvent(w) ==> (BlndSolvent(After(w, a)) <==> Fits(w, a))
    ensures BlndSolvent(w) && OwnClaim(a) ==> Fits(w, a)
  {
    hide WorldOk;
    hide BlndSolvent;
    hide ClaimFits;
    hide ExecuteClaim;
    hide SettleAll;
    hide Surplus;
    if !a.Claim? {
      OtherStepKeeps(w, a);
      SolventIsSurplus(w);
      SolventIsSurplus(After(w, a));
    } else if Step(w, a).Ok? {
      ClaimStep(w, a.from, a.ids, a.to, a.lpOut);
      ClaimSolventExactly(w, a.from, a.ids, a.to, a.lpOut);
    }
    hide After;
  }

  lemma ArrivalStep(w: World, moreBlnd: nat, moreLp: nat)
    requires WorldOk(w)
    ensures MovesTokens(w, w.(blnd := w.blnd + moreBlnd, lp := w.lp + moreLp))
  {
    hide LedgersOk;
    hide TokenTotal;
    hide LiabilityTotal;
  }

  lemma ValueStep(w: World, blndPerToken: nat, usdcPerToken: nat)
    requires WorldOk(w)
    ensures MovesTokens(w, w.(lpTokenVal := Some((blndPerToken, usdcPerToken))))
  {
    hide LedgersOk;
    hide TokenTotal;
    hide LiabilityTotal;
  }

  // ----- whole runs -----

  predicate OwnClaims(actions: seq<Action>)
  {
    forall i :: 0 <= i < |actions| ==> OwnClaim(actions[i])
  }

  lemma GenesisOk(w: World)
    requires IsGenesis(w)
    ensures WorldOk(w) && BlndSolvent(w)
  {
    TotalOfNothing(TokensBy(w.pools));
    TotalOfNothing(LiabilityBy(w.pools));
    TotalOfNothing(w.allowances);
    hide Total;
  }

  /** Every claim of a run that goes through fits into the surplus it finds. */
  ghost predicate RunFits(w: World, actions: seq<Action>)
    decreases |actions|
  {
    actions == [] || (Fits(w, actions[0]) && RunFits(After(w, actions[0]), actions[1..]))
  }

  /** The BLND is sufficient in every state of a run. */
  ghost predicate SolventThroughout(w: World, actions: seq<Action>)
    decreases |actions|
  {
    BlndSolvent(w) && (actions == [] || SolventThroughout(After(w, actions[0]), actions[1..]))
  }

  /** LP solvency and ledger agreement hold in every reachable state, whatever is called. BLND solvency holds
      in every state of a run exactly when every claim fits, as it does while users claim for themselves. */
  lemma {:induction false} RunKeeps(w: World, actions: seq<Action>)
    requires WorldOk(w)
    ensures WorldOk(Run(w, actions))
    ensures BlndSolvent(w) ==> (SolventThroughout(w, actions) <==> RunFits(w, actions))
    ensures SolventThroughout(w, actions) ==> BlndSolvent(Run(w, actions))
    ensures BlndSolvent(w) && OwnClaims(actions) ==> RunFits(w, actions)
    decreases |actions|
  {
    hide WorldOk;
    hide BlndSolvent;
    hide After;
    hide OwnClaim;
    hide Fits;
    if actions != [] {
      StepKeeps(w, actions[0]);
      RunKeeps(After(w, actions[0]), actions[1..]);
    }
  }

  /** From a freshly initialised backstop, after any run: the LP tokens held cover the sum over all
      pools, and every pool's record is the sum of its users' records. The BLND held covers everything
      owed in every state of the run exactly when every claim fits into the surplus it finds. */
  lemma {:induction false} BackstopIsSolvent(w: World, actions: seq<Action>)
    requires IsGenesis(w)
    ensures var v := Run(w, actions);
      && v.lp >= TokenTotal(v.pools)
      && (forall p :: p in v.pools ==> SumsAgree(v.pools[p].balance, v.pools[p].accounts) && PoolHoldingOk(v.pools[p].balance))
      && (SolventThroughout(w, actions) <==> RunFits(w, actions))
      && (RunFits(w, actions) ==> BlndSolvent(v))
      && (OwnClaims(actions) ==> RunFits(w, actions))
  {
    hide BlndSolvent;
    hide IsGenesis;
    hide Run;
    hide OwnClaims;
    hide RunFits;
    hide SolventThroughout;
    GenesisOk(w);
    RunKeeps(w, actions);
    var v := Run(w, actions);
    forall p | p in v.pools
      ensures SumsAgree(v.pools[p].balance, v.pools[p].accounts) && PoolHoldingOk(v.pools[p].balance)
    {
      assert LedgerOk(v.pools[p], v.now);
      LedgerSums(v.pools[p], v.now);
    }
  }
}
