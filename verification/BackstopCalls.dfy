/** Exactly when the backstop's calls go through, in every state it can reach. */
module BackstopCalls {
  import opened FixedPoint
  import opened Totals
  import opened PoolBalances
  import opened BackstopLedger
  import opened BackstopLedgerProofs
  import opened BackstopWorld
  import opened BackstopWorldProofs
  import opened BackstopGulpProofs
  import opened BackstopClaimProofs
  import opened BackstopRuns
  import opened ZoneSplit

  /** A pool's emission index can be advanced unless shares exist, all of them queued, while a stream runs that has not
      been brought up to date. */
  ghost predicate CanUpdate(l: PoolLedger, now: nat)
  {
    l.config.Some? && l.data.Some? ==>
      !(&& l.balance.shares > 0 && l.balance.q4w == l.balance.shares && l.config.value.eps > 0
        && l.data.value.lastTime < now && l.data.value.lastTime < l.config.value.expiration)
  }

  lemma UpdateSucceeds(l: PoolLedger, now: nat, user: Address, claim: bool)
    requires LedgerOk(l, now)
    ensures UpdateEmissions(l, now, user, claim).Ok? <==> CanUpdate(l, now)
  {
    hide Obligation;
    hide UpdateUserEmissions;
    if l.config.Some? {
      UpdateEmissionDataSucceeds(l, now);
      if UpdateEmissionData(l, now).Ok? {
        UpdateEmissionDataKeeps(l, now);
        UpdateUserKeeps(UpdateEmissionData(l, now).value, now, user, claim);
      }
    }
    hide UpdateEmissionData;
    hide SumsAgree;
    hide AccountsOk;
    hide DueAt;
  }

  /** An amount buys at least one share. */
  predicate BuysShares(b: PoolHolding, amount: int)
  {
    if b.shares == 0 then amount > 0 else b.tokens > 0 && amount * b.shares >= b.tokens
  }

  lemma MintSucceeds(b: PoolHolding, amount: int)
    requires PoolHoldingOk(b) && amount >= 0
    ensures ConvertToShares(b, amount).Ok? && ConvertToShares(b, amount).value != 0 <==> BuysShares(b, amount)
  {
    MintIsFair(b, amount);
    if b.shares > 0 && b.tokens > 0 {
      MintedNonNegative(b, amount);
      var minted := ConvertToShares(b, amount).value;
      if minted >= 1 {
        MulMono(1, minted, b.tokens);
      }
      hide ConvertToShares;
    }
  }

  /** A deposit goes through exactly for a pool that has shares or comes from the factory, from an account that is neither
      the pool nor the backstop, once the index can be advanced and the amount buys a share. */
  lemma {:induction false} DepositSucceeds(w: World, from: Address, pool: Address, amount: int)
    requires WorldOk(w)
    ensures ExecuteDeposit(w, from, pool, amount).Ok? <==>
      && amount >= 0 && from != pool && from != w.self
      && (PoolOf(w, pool).balance.shares > 0 || pool in w.deployed)
      && CanUpdate(PoolOf(w, pool), w.now) && BuysShares(PoolOf(w, pool).balance, amount)
  {
    hide UpdateEmissions;
    hide LedgerOk;
    hide Obligation;
    hide CanUpdate;
    hide Mint;
    PoolIsOk(w.pools, w.now, pool);
    var l := PoolOf(w, pool);
    LedgerSums(l, w.now);
    UpdateSucceeds(l, w.now, from, false);
    if amount >= 0 {
      MintSucceeds(l.balance, amount);
      if UpdateEmissions(l, w.now, from, false).Ok? {
        UpdateKeepsHoldings(l, w.now, from, false);
      }
    }
    hide ConvertToShares;
    hide BuysShares;
  }

  /** Shares can be queued exactly if the user has them unqueued and fewer than 21 entries wait. */
  lemma {:induction false} QueueSucceeds(w: World, from: Address, pool: Address, amount: int)
    requires WorldOk(w)
    ensures ExecuteQueue(w, from, pool, amount).Ok? <==>
      && 0 <= amount <= AccountOf(PoolOf(w, pool), from).holding.shares
      && |AccountOf(PoolOf(w, pool), from).holding.q4w| < 21
      && CanUpdate(PoolOf(w, pool), w.now)
  {
    hide UpdateEmissions;
    hide LedgerOk;
    hide Obligation;
    hide CanUpdate;
    PoolIsOk(w.pools, w.now, pool);
    var l := PoolOf(w, pool);
    UpdateSucceeds(l, w.now, from, false);
    if UpdateEmissions(l, w.now, from, false).Ok? {
      UpdateKeepsHoldings(l, w.now, from, false);
    }
  }

  lemma DonateSucceeds(w: World, from: Address, pool: Address, amount: int)
    requires WorldOk(w)
    ensures ExecuteDonate(w, from, pool, amount).Ok? <==>
      amount >= 0 && from != pool && from != w.self && (PoolOf(w, pool).balance.shares > 0 || pool in w.deployed)
  {
    hide LedgerOk;
    hide Obligation;
    PoolIsOk(w.pools, w.now, pool);
    LedgerSums(PoolOf(w, pool), w.now);
  }

  // ----- gulps -----

  lemma RestartSucceeds(l: PoolLedger, now: nat, share: int, toPools: int, toBackstop: int)
    requires LedgerOk(l, now) && share >= 0 && toPools >= 0 && toBackstop >= 0
    ensures GulpOne(l, now, share, toPools, toBackstop).Ok? <==> CanUpdate(l, now)
  {
    hide Floor;
    hide Obligation;
    MulMono(0, share, toPools);
    MulMono(0, share, toBackstop);
    FloorNonNeg(share * toPools, SCALAR_7);
    FloorNonNeg(share * toBackstop, SCALAR_7);
    var more := l.(poolEmissions := l.poolEmissions + Floor(share * toPools, SCALAR_7));
    PoolEmissionsGrow(l, now, Floor(share * toPools, SCALAR_7));
    if l.config.Some? {
      UpdateEmissionDataSucceeds(more, now);
      if UpdateEmissionData(more, now).Ok? {
        UpdateEmissionDataKeeps(more, now);
        LeftNonNeg(more, now);
      }
    }
    hide UpdateEmissionData;
    hide LedgerOk;
    FloorNonNeg(Floor(share * toBackstop, SCALAR_7), EMISSION_WINDOW);
    if l.config.Some? {
      StreamStarts(more, now, Floor(share * toBackstop, SCALAR_7));
    }
  }

  lemma LeftNonNeg(l: PoolLedger, now: nat)
    requires LedgerOk(l, now) && l.config.Some?
    ensures l.data.Some?
    ensures l.config.value.expiration > now ==> l.config.value.eps * (l.config.value.expiration - now) >= 0
  {
    hide SumsAgree;
    hide AccountsOk;
    if l.config.value.expiration > now {
      MulMono(0, l.config.value.eps, l.config.value.expiration - now);
    }
  }

  lemma StreamStarts(l: PoolLedger, now: nat, tokens: int)
    requires l.config.Some? && tokens >= 0
    requires l.config.value.expiration > now ==> l.config.value.eps * (l.config.value.expiration - now) >= 0
    ensures var left := tokens + if l.config.value.expiration > now then l.config.value.eps * (l.config.value.expiration - now) else 0;
      left >= 0 && Floor(left, EMISSION_WINDOW) >= 0
  {
    hide Floor;
    FloorNonNeg(tokens + if l.config.value.expiration > now then l.config.value.eps * (l.config.value.expiration - now) else 0, EMISSION_WINDOW);
  }

  lemma {:induction false} GulpLoopSucceeds(pools: map<Address, PoolLedger>, now: nat, zone: seq<Address>, balances: seq<PoolHolding>,
                                            k: nat, total: int, toPools: int, toBackstop: int)
    requires LedgersOk(pools, now) && BalancesOk(balances) && k <= |zone| == |balances| && total > 0 && Distinct(zone)
    requires toPools >= 0 && toBackstop >= 0
    ensures GulpLoop(pools, zone, balances, k, now, total, toPools, toBackstop).Ok? <==>
      forall i :: 0 <= i < k ==> CanUpdate(PoolIn(pools, zone[i]), now)
    decreases k
  {
    hide GulpOne;
    hide ZoneShares;
    hide ZoneShare;
    hide BalancesOk;
    hide LedgerOk;
    hide TurnTaken;
    hide TokenTotal;
    hide LiabilityTotal;
    hide Allotted;
    if k == 0 {
      return;
    }
    GulpLoopSucceeds(pools, now, zone, balances, k - 1, total, toPools, toBackstop);
    if GulpLoop(pools, zone, balances, k - 1, now, total, toPools, toBackstop).Ok? {
      var before := GulpLoop(pools, zone, balances, k - 1, now, total, toPools, toBackstop).value;
      GulpLoopKeeps(pools, now, zone, balances, k - 1, total, toPools, toBackstop);
      GulpLoopIs(pools, now, zone, balances, k - 1, total, toPools, toBackstop, zone[k - 1]);
      NotYet(zone, k);
      Untouched(PoolIn(pools, zone[k - 1]), PoolIn(before, zone[k - 1]), zone, ZoneShares(balances, total), k - 1, now, toPools, toBackstop, zone[k - 1]);
      ShareIsPart(balances, k - 1, total);
      PoolIsOk(before, now, zone[k - 1]);
      RestartSucceeds(PoolIn(before, zone[k - 1]), now, ZoneShares(balances, total)[k - 1], toPools, toBackstop);
    }
    hide CanUpdate;
  }

  lemma NotYet(zone: seq<Address>, k: nat)
    requires 0 < k <= |zone| && Distinct(zone)
    ensures zone[k - 1] !in zone[..k - 1]
  {}

  lemma Untouched(was: PoolLedger, l: PoolLedger, zone: seq<Address>, shares: seq<int>, k: nat, now: nat, toPools: int, toBackstop: int, p: Address)
    requires k <= |zone| == |shares| && TurnTaken(was, l, zone, shares, k, now, toPools, toBackstop, p) && p !in zone[..k]
    ensures l == was
  {}

  /** A gulp goes through exactly with a reward zone, more than an hour of emissions, tokens outside the queues, and every
      pool's index able to advance. */
  lemma {:induction false} GulpSucceeds(w: World)
    requires WorldOk(w)
    ensures ExecuteGulp(w).Ok? <==>
      && w.rewardZone != [] && w.emitterLast > w.lastDistribution + 60 * 60
      && Sum(ZoneTokens(ZoneBalances(w.pools, w.rewardZone)), |w.rewardZone|) > 0
      && forall i :: 0 <= i < |w.rewardZone| ==> CanUpdate(PoolOf(w, w.rewardZone[i]), w.now)
  {
    hide LedgersOk;
    hide ZoneBalances;
    hide ZoneTokens;
    hide TotalNonQueued;
    hide GulpLoop;
    hide BalancesOk;
    hide TokenTotal;
    hide MaxZoneSize;
    hide CanUpdate;
    hide ToPools;
    hide ToBackstop;
    hide NewEmissions;
    hide Sum;
    var balances := ZoneBalances(w.pools, w.rewardZone);
    ZoneBalancesOk(w.pools, w.now, w.rewardZone);
    TotalIsSum(balances, |balances|);
    SumNonNegative(balances);
    SplitIsExact(w);
    var total := Sum(ZoneTokens(balances), |balances|);
    if total > 0 {
      GulpLoopSucceeds(w.pools, w.now, w.rewardZone, balances, |balances|, total, ToPools(NewEmissions(w)), ToBackstop(NewEmissions(w)));
    } else if w.rewardZone != [] {
      LoopNeedsTotal(w.pools, w.rewardZone, balances, |balances|, w.now, ToPools(NewEmissions(w)), ToBackstop(NewEmissions(w)));
    }
  }

  /** A pool's own emissions are handed over once, all of them, as allowance. */
  lemma GulpPoolIs(w: World, pool: Address, p: Address)
    requires WorldOk(w)
    ensures ExecuteGulpPool(w, pool).Ok? <==> PoolOf(w, pool).poolEmissions > 0
    ensures ExecuteGulpPool(w, pool).Ok? ==>
      var v := ExecuteGulpPool(w, pool).value;
      && AllowanceOf(v, p) == AllowanceOf(w, p) + (if p == pool then PoolOf(w, pool).poolEmissions else 0)
      && PoolOf(v, p) == (if p == pool then PoolOf(w, p).(poolEmissions := 0) else PoolOf(w, p))
  {
    hide LedgerOk;
    PoolIsOk(w.pools, w.now, pool);
    LedgerTokens(PoolOf(w, pool), w.now);
  }

  // ----- claims -----

  lemma DoneCanUpdate(l: PoolLedger, now: nat, user: Address)
    requires LedgerOk(l, now) && BackstopClaimProofs.Done(l, now, user)
    ensures CanUpdate(l, now)
  {
    UpdateSucceeds(l, now, user, true);
    hide UpdateEmissions;
    hide CanUpdate;
    hide LedgerOk;
  }

  /** The first loop of a claim goes through exactly if every listed pool's index can be advanced. */
  lemma {:induction false} SettleAllSucceeds(pools: map<Address, PoolLedger>, ids: seq<Address>, k: nat, now: nat, from: Address)
    requires LedgersOk(pools, now) && k <= |ids|
    ensures SettleAll(pools, ids, k, now, from).Ok? <==> forall i :: 0 <= i < k ==> CanUpdate(PoolIn(pools, ids[i]), now)
    decreases k
  {
    hide UpdateEmissions;
    hide LedgerOk;
    hide Obligation;
    hide Due;
    hide CanUpdate;
    hide PaysOut;
    hide TokenTotal;
    hide LiabilityTotal;
    if k == 0 {
      return;
    }
    SettleAllSucceeds(pools, ids, k - 1, now, from);
    if SettleAll(pools, ids, k - 1, now, from).Ok? {
      var s := SettleAll(pools, ids, k - 1, now, from).value;
      SettleAllKeeps(pools, ids, k - 1, now, from);
      PoolIsOk(s.pools, now, ids[k - 1]);
      UpdateSucceeds(PoolIn(s.pools, ids[k - 1]), now, from, true);
      SameUntilListed(pools, ids, k, now, from);
    }
  }

  /** A pool is as it was until it is listed, and can still be updated after. */
  lemma SameUntilListed(pools: map<Address, PoolLedger>, ids: seq<Address>, k: nat, now: nat, from: Address)
    requires LedgersOk(pools, now) && 0 < k <= |ids| && SettleAll(pools, ids, k - 1, now, from).Ok?
    requires forall i :: 0 <= i < k - 1 ==> CanUpdate(PoolIn(pools, ids[i]), now)
    ensures CanUpdate(PoolIn(SettleAll(pools, ids, k - 1, now, from).value.pools, ids[k - 1]), now) <==> CanUpdate(PoolIn(pools, ids[k - 1]), now)
  {
    hide HasClaims;
    hide Listed;
    hide TokenTotal;
    hide LiabilityTotal;
    hide PaysOut;
    hide Due;
    hide UpdateEmissions;
    hide Obligation;
    hide CanUpdate;
    hide LedgerOk;
    hide BackstopClaimProofs.Done;
    var s := SettleAll(pools, ids, k - 1, now, from).value;
    SettleAllKeeps(pools, ids, k - 1, now, from);
    SettleAllRecords(pools, ids, k - 1, now, from);
    SettleAllPerPool(pools, ids, k - 1, now, from, ids[k - 1]);
    hide SettleAll;
    if ids[k - 1] in ids[..k - 1] {
      var i :| 0 <= i < k - 1 && ids[i] == ids[k - 1];
      assert BackstopClaimProofs.Done(PoolIn(s.pools, ids[i]), now, from);
      PoolIsOk(s.pools, now, ids[i]);
      DoneCanUpdate(PoolIn(s.pools, ids[i]), now, from);
    } else {
      NotYetListed(PoolIn(pools, ids[k - 1]), PoolIn(s.pools, ids[k - 1]), PaidFrom(pools, ids, k - 1, now, from, ids[k - 1]), from);
    }
  }

  /** LP tokens can be re-deposited into a pool unless it has shares and nothing behind them. */
  predicate CanMint(b: PoolHolding)
  {
    b.shares == 0 || b.tokens > 0
  }

  lemma RedepositMints(l: PoolLedger, now: nat, to: Address, amount: int)
    requires LedgerOk(l, now) && amount >= 0
    ensures Redeposit(l, to, amount).Ok? <==> CanMint(l.balance)
    ensures CanMint(l.balance) ==> CanMint(Redeposit(l, to, amount).value.balance)
  {
    hide Obligation;
    LedgerSums(l, now);
    MintIsFair(l.balance, amount);
    if CanMint(l.balance) {
      MintedNonNegative(l.balance, amount);
      assert l.balance.shares == 0 ==> ConvertToShares(l.balance, amount).value == amount;
    }
    hide ConvertToShares;
    hide FairMint;
    hide SumsAgree;
    hide AccountsOk;
  }

  /** The second loop goes through exactly if every listed pool can take a re-deposit. */
  lemma {:induction false} RedepositAllSucceeds(s: Settlement, ids: seq<Address>, k: nat, lpOut: nat, to: Address, now: nat, p: Address)
    requires k <= |ids| && s.claimed > 0 && HasClaims(s.claims, ids, |ids|) && LedgersOk(s.pools, now)
    ensures RedepositAll(s, ids, k, lpOut, to).Ok? <==> forall i :: 0 <= i < k ==> CanMint(PoolIn(s.pools, ids[i]).balance)
    ensures RedepositAll(s, ids, k, lpOut, to).Ok? ==>
      && LedgersOk(RedepositAll(s, ids, k, lpOut, to).value, now)
      && (CanMint(PoolIn(RedepositAll(s, ids, k, lpOut, to).value, p).balance) <==> CanMint(PoolIn(s.pools, p).balance))
    decreases k
  {
    hide Floor;
    hide Listed;
    hide TokenTotal;
    hide Redeposit;
    hide RedepositAmount;
    hide LedgersOk;
    hide LedgerOk;
    hide HasClaims;
    hide CanMint;
    if k == 0 {
      return;
    }
    RedepositAllSucceeds(s, ids, k - 1, lpOut, to, now, p);
    RedepositAllSucceeds(s, ids, k - 1, lpOut, to, now, ids[k - 1]);
    if RedepositAll(s, ids, k - 1, lpOut, to).Ok? {
      var pools := RedepositAll(s, ids, k - 1, lpOut, to).value;
      TurnAmount(s, ids, k, lpOut);
      PoolIsOk(pools, now, ids[k - 1]);
      RedepositMints(PoolIn(pools, ids[k - 1]), now, to, RedepositAmount(s.claims, s.claimed, lpOut, ids[k - 1]).value);
      if RedepositAll(s, ids, k, lpOut, to).Ok? {
        RedepositAllKeeps(s, ids, k, lpOut, to, now, p);
      }
    }
  }

  /** While the BLND is sufficient, a claim goes through exactly for a list that is not empty, if every listed pool's index can
      be advanced and, when something is due, each of them can take a re-deposit. */
  lemma {:induction false} ClaimSucceeds(w: World, from: Address, ids: seq<Address>, to: Address, lpOut: nat)
    requires WorldOk(w) && BlndSolvent(w)
    ensures ExecuteClaim(w, from, ids, to, lpOut).Ok? <==>
      && ids != [] && (forall i :: 0 <= i < |ids| ==> CanUpdate(PoolOf(w, ids[i]), w.now))
      && var s := SettleAll(w.pools, ids, |ids|, w.now, from);
         s.Ok? && (s.value.claimed > 0 ==> forall i :: 0 <= i < |ids| ==> CanMint(PoolIn(s.value.pools, ids[i]).balance))
  {
    hide SettleAll;
    hide RedepositAll;
    hide LedgersOk;
    hide TokenTotal;
    hide LiabilityTotal;
    hide HasClaims;
    hide AllDone;
    hide Listed;
    hide CanMint;
    hide CanUpdate;
    SettleAllSucceeds(w.pools, ids, |ids|, w.now, from);
    if SettleAll(w.pools, ids, |ids|, w.now, from).Ok? {
      var s := SettleAll(w.pools, ids, |ids|, w.now, from).value;
      ClaimsAreFunded(w, from, ids);
      SettleAllKeeps(w.pools, ids, |ids|, w.now, from);
      SettleAllRecords(w.pools, ids, |ids|, w.now, from);
      if s.claimed > 0 {
        RedepositAllSucceeds(s, ids, |ids|, lpOut, to, w.now, 0);
      }
    }
    hide BlndSolvent;
    hide ZoneOk;
  }
}
