/** Every call of the backstop keeps its ledgers in agreement, its LP tokens sufficient and, as long
    as users claim for themselves, its BLND sufficient for everything it still owes. */
module BackstopWorldProofs {
  import opened FixedPoint
  import opened Totals
  import opened PoolBalances
  import opened BackstopLedger
  import opened BackstopLedgerProofs
  import opened BackstopWorld

  // ----- sums over pools -----

  lemma PoolIsOk(pools: map<Address, PoolLedger>, now: nat, pool: Address)
    requires LedgersOk(pools, now)
    ensures LedgerOk(PoolIn(pools, pool), now)
  {
    hide LedgerOk;
    LedgerStartsOk(now);
  }

  /** Writing one pool moves each sum by that pool's difference. */
  lemma SumsAfterPool(pools: map<Address, PoolLedger>, now: nat, pool: Address, l: PoolLedger)
    requires LedgersOk(pools, now) && LedgerOk(l, now)
    ensures var q := pools[pool := l];
      && LedgersOk(q, now)
      && TokenTotal(q) == TokenTotal(pools) - PoolIn(pools, pool).balance.tokens + l.balance.tokens
      && LiabilityTotal(q) == LiabilityTotal(pools) - Liability(PoolIn(pools, pool)) + Liability(l)
  {
    hide LedgerOk;
    hide Obligation;
    LedgerStartsOk(now);
    assert TokensBy(pools[pool := l]) == TokensBy(pools)[pool := l.balance.tokens];
    TotalUpdate(TokensBy(pools), pool, l.balance.tokens);
    assert LiabilityBy(pools[pool := l]) == LiabilityBy(pools)[pool := Liability(l)];
    TotalUpdate(LiabilityBy(pools), pool, Liability(l));
  }

  /** What replacing one pool's ledger means for the whole: `gain` tokens come in, and what all
      pools owe grows by at most `owed`. */
  lemma PoolReplaced(pools: map<Address, PoolLedger>, now: nat, pool: Address, l: PoolLedger, gain: int, owed: int)
    requires LedgersOk(pools, now) && LedgerOk(l, now)
    requires l.balance.tokens == PoolIn(pools, pool).balance.tokens + gain
    requires Liability(l) <= Liability(PoolIn(pools, pool)) + owed
    ensures var q := pools[pool := l];
      && LedgersOk(q, now)
      && TokenTotal(q) == TokenTotal(pools) + gain
      && LiabilityTotal(q) == LiabilityTotal(pools) + Liability(l) - Liability(PoolIn(pools, pool))
                           <= LiabilityTotal(pools) + owed
  {
    hide LedgerOk;
    hide LedgersOk;
    hide Liability;
    hide TokenTotal;
    hide LiabilityTotal;
    SumsAfterPool(pools, now, pool, l);
  }

  // ----- the simple calls -----

  /** SCALAR_7 times the BLND held beyond everything that may still be called for. */
  ghost function Surplus(w: World): int
  {
    Scaled(w.blnd) - Scaled(NewEmissions(w) + Total(w.allowances)) - LiabilityTotal(w.pools)
  }

  /** The outcome of a call that leaves the world in order and no less BLND to spare. */
  ghost predicate MovesTokens(w: World, v: World)
  {
    WorldOk(v) && Surplus(v) >= Surplus(w)
  }

  /** LP tokens held beyond those of all pools. */
  ghost function LpSpare(w: World): int
  {
    w.lp - TokenTotal(w.pools)
  }

  /** The call leaves `lp` more LP tokens over and sets at most `blnd` free, in SCALAR_7 of a BLND. */
  ghost predicate Spares(w: World, v: World, lp: int, blnd: int)
  {
    LpSpare(v) == LpSpare(w) + lp && Surplus(v) <= Surplus(w) + blnd
  }

  lemma DepositStep(w: World, from: Address, pool: Address, amount: int)
    requires WorldOk(w) && ExecuteDeposit(w, from, pool, amount).Ok?
    ensures MovesTokens(w, ExecuteDeposit(w, from, pool, amount).value.0)
    ensures Spares(w, ExecuteDeposit(w, from, pool, amount).value.0, 0, Rounding(PoolOf(w, pool)))
  {
    hide Deposit;
    hide Rounding;
    hide FairMint;
    hide FairPayout;
    hide Obligation;
    hide LedgerOk;
    PoolIsOk(w.pools, w.now, pool);
    DepositKeeps(PoolOf(w, pool), w.now, from, amount);
    PoolReplaced(w.pools, w.now, pool, Deposit(PoolOf(w, pool), w.now, from, amount).value.0, amount, 0);
  }

  lemma QueueStep(w: World, from: Address, pool: Address, amount: int)
    requires WorldOk(w) && ExecuteQueue(w, from, pool, amount).Ok?
    ensures MovesTokens(w, ExecuteQueue(w, from, pool, amount).value)
    ensures Spares(w, ExecuteQueue(w, from, pool, amount).value, 0, Rounding(PoolOf(w, pool)))
  {
    hide QueueWithdrawal;
    hide Rounding;
    hide FairMint;
    hide FairPayout;
    hide Obligation;
    hide LedgerOk;
    PoolIsOk(w.pools, w.now, pool);
    QueueKeeps(PoolOf(w, pool), w.now, from, amount);
    PoolReplaced(w.pools, w.now, pool, QueueWithdrawal(PoolOf(w, pool), w.now, from, amount).value, 0, 0);
  }

  lemma DequeueStep(w: World, from: Address, pool: Address, amount: int)
    requires WorldOk(w) && ExecuteDequeue(w, from, pool, amount).Ok?
    ensures MovesTokens(w, ExecuteDequeue(w, from, pool, amount).value)
    ensures Spares(w, ExecuteDequeue(w, from, pool, amount).value, 0, Rounding(PoolOf(w, pool)))
  {
    hide DequeueWithdrawal;
    hide Rounding;
    hide FairMint;
    hide FairPayout;
    hide Obligation;
    hide LedgerOk;
    PoolIsOk(w.pools, w.now, pool);
    DequeueKeeps(PoolOf(w, pool), w.now, from, amount);
    PoolReplaced(w.pools, w.now, pool, DequeueWithdrawal(PoolOf(w, pool), w.now, from, amount).value, 0, 0);
  }

  /** The LP tokens held cover any one pool. */
  lemma PoolIsCovered(w: World, pool: Address)
    requires WorldOk(w)
    ensures PoolOf(w, pool).balance.tokens <= w.lp && w.lp >= 0
  {
    forall p | p in w.pools
      ensures TokensBy(w.pools)[p] >= 0
    {
      assert LedgerOk(w.pools[p], w.now);
    }
    TotalNonNeg(TokensBy(w.pools));
    if pool in w.pools {
      assert TokensBy(w.pools)[pool] <= TokenTotal(w.pools);
    }
  }

  lemma WithdrawStep(w: World, from: Address, pool: Address, amount: int)
    requires WorldOk(w) && ExecuteWithdraw(w, from, pool, amount).Ok?
    ensures MovesTokens(w, ExecuteWithdraw(w, from, pool, amount).value.0)
    ensures var (v, out) := ExecuteWithdraw(w, from, pool, amount).value;
      Spares(w, v, if from == w.self then out else 0, 0)
  {
    hide Withdraw;
    hide Rounding;
    hide FairMint;
    hide FairPayout;
    hide Obligation;
    hide LedgerOk;
    PoolIsOk(w.pools, w.now, pool);
    WithdrawKeeps(PoolOf(w, pool), w.now, from, amount);
    var (l, out) := Withdraw(PoolOf(w, pool), w.now, from, amount).value;
    PoolReplaced(w.pools, w.now, pool, l, -out, 0);
  }

  lemma DrawStep(w: World, pool: Address, amount: int, to: Address)
    requires WorldOk(w) && ExecuteDraw(w, pool, amount, to).Ok?
    ensures MovesTokens(w, ExecuteDraw(w, pool, amount, to).value)
    ensures Spares(w, ExecuteDraw(w, pool, amount, to).value, if to == w.self then amount else 0, 0)
  {
    hide Obligation;
    hide LedgerOk;
    PoolIsOk(w.pools, w.now, pool);
    FundsMoveKeeps(PoolOf(w, pool), w.now, amount);
    PoolReplaced(w.pools, w.now, pool, Draw(PoolOf(w, pool), amount).value, -amount, 0);
  }

  lemma DonateStep(w: World, from: Address, pool: Address, amount: int)
    requires WorldOk(w) && ExecuteDonate(w, from, pool, amount).Ok?
    ensures MovesTokens(w, ExecuteDonate(w, from, pool, amount).value)
    ensures Spares(w, ExecuteDonate(w, from, pool, amount).value, 0, 0)
  {
    hide Obligation;
    hide LedgerOk;
    PoolIsOk(w.pools, w.now, pool);
    FundsMoveKeeps(PoolOf(w, pool), w.now, amount);
    PoolReplaced(w.pools, w.now, pool, Donate(PoolOf(w, pool), amount), amount, 0);
  }

  /** A withdrawal or a draw the pool record allows never fails for lack of LP tokens. */
  lemma LpTransfersSucceed(w: World, from: Address, pool: Address, amount: int, to: Address)
    requires WorldOk(w) && amount >= 0
    ensures ExecuteWithdraw(w, from, pool, amount).Ok? <==> Withdraw(PoolOf(w, pool), w.now, from, amount).Ok?
    ensures ExecuteDraw(w, pool, amount, to).Ok? <==> amount <= PoolOf(w, pool).balance.tokens
  {
    hide Withdraw;
    hide Obligation;
    hide LedgerOk;
    PoolIsOk(w.pools, w.now, pool);
    PoolIsCovered(w, pool);
    FundsMoveKeeps(PoolOf(w, pool), w.now, amount);
    if Withdraw(PoolOf(w, pool), w.now, from, amount).Ok? {
      WithdrawKeeps(PoolOf(w, pool), w.now, from, amount);
      var l := Withdraw(PoolOf(w, pool), w.now, from, amount).value.0;
      LedgerTokens(l, w.now);
    }
  }

  lemma LedgerTokens(l: PoolLedger, now: nat)
    requires LedgerOk(l, now)
    ensures l.balance.tokens >= 0 && l.poolEmissions >= 0
  {}

  lemma TickStep(w: World, seconds: nat)
    requires WorldOk(w)
    ensures MovesTokens(w, w.(now := w.now + seconds))
    ensures Spares(w, w.(now := w.now + seconds), 0, 0)
  {
    hide LedgerOk;
    forall p | p in w.pools
      ensures LedgerOk(w.pools[p], w.now + seconds)
    {
      TimePasses(w.pools[p], w.now, w.now + seconds);
    }
    ZoneGrows(w.now, w.now + seconds);
  }

  lemma ZoneGrows(now: nat, later: nat)
    requires now <= later
    ensures MaxZoneSize(now) <= MaxZoneSize(later)
  {
    if now >= BACKSTOP_EPOCH {
      FloorMono(now - BACKSTOP_EPOCH, later - BACKSTOP_EPOCH, REWARD_ZONE_STEP);
      assert Floor(now - BACKSTOP_EPOCH, REWARD_ZONE_STEP) == (now - BACKSTOP_EPOCH) / REWARD_ZONE_STEP;
      assert Floor(later - BACKSTOP_EPOCH, REWARD_ZONE_STEP) == (later - BACKSTOP_EPOCH) / REWARD_ZONE_STEP;
    }
  }

  lemma DistributeStep(w: World)
    requires WorldOk(w)
    ensures ExecuteDistribute(w).Ok? && MovesTokens(w, ExecuteDistribute(w).value)
    ensures Spares(w, ExecuteDistribute(w).value, 0, 0)
  {}

  lemma AllowanceStep(w: World, pool: Address, amount: int, to: Address)
    requires WorldOk(w)
    ensures MovesTokens(w, w.(allowances := w.allowances[pool := 0]))
    ensures PullAllowance(w, pool, amount, to).Ok? ==> MovesTokens(w, PullAllowance(w, pool, amount, to).value)
    ensures Spares(w, w.(allowances := w.allowances[pool := 0]), 0, Scaled(AllowanceOf(w, pool)))
    ensures PullAllowance(w, pool, amount, to).Ok? ==>
      Spares(w, PullAllowance(w, pool, amount, to).value, 0, if to == w.self then Scaled(amount) else 0)
  {
    TotalUpdate(w.allowances, pool, 0);
    TotalUpdate(w.allowances, pool, AllowanceOf(w, pool) - amount);
  }

  lemma PoolEmissionsTaken(l: PoolLedger, now: nat)
    requires LedgerOk(l, now)
    ensures var l' := l.(poolEmissions := 0);
      LedgerOk(l', now) && Obligation(l') == Obligation(l) && Liability(l') == Liability(l) - Scaled(l.poolEmissions)
  {
  }

  lemma GulpPoolStep(w: World, pool: Address)
    requires WorldOk(w) && ExecuteGulpPool(w, pool).Ok?
    ensures MovesTokens(w, ExecuteGulpPool(w, pool).value)
    ensures Spares(w, ExecuteGulpPool(w, pool).value, 0, 0)
  {
    hide LedgerOk;
    hide LedgersOk;
    hide Liability;
    hide TokenTotal;
    hide LiabilityTotal;
    hide ZoneOk;
    hide Total;
    var l := PoolOf(w, pool);
    PoolIsOk(w.pools, w.now, pool);
    PoolEmissionsGulped(l, w.now);
    PoolReplaced(w.pools, w.now, pool, l.(poolEmissions := 0), 0, -(Scaled(l.poolEmissions)));
    TotalUpdate(w.allowances, pool, AllowanceOf(w, pool) + l.poolEmissions);
  }

  lemma PoolEmissionsGulped(l: PoolLedger, now: nat)
    requires LedgerOk(l, now)
    ensures LedgerOk(l.(poolEmissions := 0), now) && l.poolEmissions >= 0
    ensures Liability(l.(poolEmissions := 0)) == Liability(l) - Scaled(l.poolEmissions)
  {
    hide LedgerOk;
    hide Obligation;
    LedgerTokens(l, now);
    PoolEmissionsTaken(l, now);
  }

  /** Replacing one of distinct entries changes which there are by just that one. */
  lemma ReplacedMembers(zone: seq<Address>, i: nat, toAdd: Address)
    requires i < |zone| && forall j, k :: 0 <= j < k < |zone| ==> zone[j] != zone[k]
    ensures forall p :: p in zone[i := toAdd] <==> p == toAdd || (p in zone && p != zone[i])
  {
    var next := zone[i := toAdd];
    forall p
      ensures p in next <==> p == toAdd || (p in zone && p != zone[i])
    {
      if p in next {
        var j :| 0 <= j < |next| && next[j] == p;
        assert j == i || zone[j] == p;
      }
      if p == toAdd {
        assert next[i] == p;
      } else if p in zone && p != zone[i] {
        var j :| 0 <= j < |zone| && zone[j] == p;
        assert next[j] == p;
      }
    }
  }

  /** The zone gains just the pool added: in front while there is room, else in the place of the one removed,
      which leaves. Nothing else changes. */
  lemma {:induction false} AddRewardStep(w: World, toAdd: Address, toRemove: Address)
    requires WorldOk(w) && AddToRewardZone(w, toAdd, toRemove).Ok?
    ensures MovesTokens(w, AddToRewardZone(w, toAdd, toRemove).value)
    ensures Spares(w, AddToRewardZone(w, toAdd, toRemove).value, 0, 0)
    ensures var v := AddToRewardZone(w, toAdd, toRemove).value;
      var full := |w.rewardZone| >= MaxZoneSize(w.now);
      && v == w.(rewardZone := v.rewardZone) && toAdd !in w.rewardZone
      && (full ==> toRemove in w.rewardZone && |v.rewardZone| == |w.rewardZone|)
      && (!full ==> |v.rewardZone| == |w.rewardZone| + 1 && v.rewardZone[0] == toAdd)
      && (forall p :: p in v.rewardZone <==> p == toAdd || (p in w.rewardZone && !(full && p == toRemove)))
  {
    hide AboveThreshold;
    var v := AddToRewardZone(w, toAdd, toRemove).value;
    assert v == w.(rewardZone := v.rewardZone);
    if MaxZoneSize(w.now) > |w.rewardZone| {
      assert v.rewardZone[0] == toAdd;
    } else {
      ReplacedMembers(w.rewardZone, FirstIndexOf(w.rewardZone, toRemove), toAdd);
      assert v.rewardZone[FirstIndexOf(w.rewardZone, toRemove)] == toAdd;
    }
  }
}
