/** The rule for replacing a pool of the reward zone, and the claims of a backstop with one pool. */
module BackstopLimits {
  import opened Outcomes
  import opened FixedPoint
  import opened Totals
  import opened UserBalances
  import opened PoolBalances
  import opened BackstopLedger
  import opened BackstopLedgerProofs
  import opened BackstopWorld
  import opened BackstopWorldProofs
  import opened BackstopClaimProofs
  import opened BackstopRuns

  // ----- backstops with one pool -----

  const POOL: Address := 11

  /** The sums over a single account. */
  lemma OneAccount(a: Account, user: Address, index: int)
    ensures var m := map[user := a];
      && ShareTotal(m) == a.holding.shares && QueuedTotal(m) == Queued(a.holding.q4w) && OwedTotal(m, index) == Owed(a, index)
  {
    hide Total;
    hide Owed;
    hide Queued;
    var m := map[user := a];
    assert SharesBy(m) == map[user := a.holding.shares];
    TotalOfOne(user, a.holding.shares);
    assert QueuedBy(m) == map[user := Queued(a.holding.q4w)];
    TotalOfOne(user, Queued(a.holding.q4w));
    assert OwedBy(m, index) == map[user := Owed(a, index)];
    TotalOfOne(user, Owed(a, index));
  }

  /** The sums over a single pool. */
  lemma OnePool(l: PoolLedger, now: nat, pool: Address)
    requires LedgerOk(l, now)
    ensures var m := map[pool := l];
      LedgersOk(m, now) && TokenTotal(m) == l.balance.tokens && LiabilityTotal(m) == Liability(l)
  {
    hide Total;
    hide LedgerOk;
    hide Liability;
    var m := map[pool := l];
    assert TokensBy(m) == map[pool := l.balance.tokens];
    TotalOfOne(pool, l.balance.tokens);
    assert LiabilityBy(m) == map[pool := Liability(l)];
    TotalOfOne(pool, Liability(l));
  }

  /** A claim from the only pool of a backstop: its parts. */
  lemma OnePoolClaim(w: World, pool: Address, l: PoolLedger, q: PoolLedger, from: Address, to: Address, claimed: int, lpOut: nat)
    requires w.pools == map[pool := l] && UpdateEmissions(l, w.now, from, true) == Ok((q, claimed))
    requires 0 < claimed <= w.blnd && Redeposit(q, to, lpOut).Ok?
    ensures ExecuteClaim(w, from, [pool], to, lpOut).Ok?
    ensures SettleAll(w.pools, [pool], 1, w.now, from).Ok?
    ensures Settling(w, from, [pool]) == w.(pools := map[pool := q], blnd := w.blnd - claimed)
    ensures ClaimPromise(w, from, [pool], to, lpOut) == Promise(q, to, lpOut)
  {
    hide UpdateEmissions;
    hide Redeposit;
    hide Promise;
    var ids := [pool];
    assert SettleAll(w.pools, ids, 0, w.now, from) == Ok(Settlement(w.pools, 0, map[]));
    OneStored(l, q, pool);
    var s := Settlement(map[pool := q], claimed, map[pool := claimed]);
    assert SettleAll(w.pools, ids, 1, w.now, from) == Ok(s);
    hide SettleAll;
    FloorExact(lpOut, claimed);
    hide Floor;
    assert RedepositAmount(s.claims, s.claimed, lpOut, pool) == Ok(lpOut);
    hide RedepositAmount;
    assert RedepositAll(s, ids, 0, lpOut, to) == Ok(s.pools);
    assert RedepositAll(s, ids, 1, lpOut, to).Ok?;
    assert TurnPromise(s, ids, 0, lpOut, to) == Promise(q, to, lpOut);
    hide TurnPromise;
    assert Promised(s, ids, 0, lpOut, to) == 0;
  }

  lemma OneStored(l: PoolLedger, q: PoolLedger, pool: Address)
    ensures Store(map[pool := l], pool, q) == map[pool := q]
  {}

  /** The surplus of a backstop with one pool, no allowances and nothing to gulp. */
  lemma OnePoolSurplus(w: World, pool: Address, l: PoolLedger)
    requires w.pools == map[pool := l] && LedgerOk(l, w.now)
    requires w.allowances == map[] && w.emitterLast == w.lastDistribution
    ensures Surplus(w) == Scaled(w.blnd) - Liability(l)
  {
    hide LedgerOk;
    hide Liability;
    hide LiabilityTotal;
    hide TokenTotal;
    hide LedgersOk;
    OnePool(l, w.now, pool);
    TotalOfNothing(w.allowances);
    hide Total;
  }

  // ----- replacing a pool of a full reward zone -----

  /** The pool's LP tokens are worth enough: the product of BLND, four times, and USDC, in whole tokens,
      reaches the constant. */
  predicate WorthEnough(tokens: nat, value: (nat, nat))
  {
    var b := tokens * value.0 / SCALAR_7 / SCALAR_7;
    b * b * b * b * (tokens * value.1 / SCALAR_7 / SCALAR_7) >= THRESHOLD_PC
  }

  lemma FloorOfNat(x: nat)
    ensures Floor(x, SCALAR_7) == x / SCALAR_7 && Max(0, x / SCALAR_7) == x / SCALAR_7
  {}

  lemma WorthIsExact(tokens: nat, value: (nat, nat))
    ensures WorthEnough(tokens, value) <==>
      AboveThreshold(Max(0, Floor(tokens * value.0, SCALAR_7)), Max(0, Floor(tokens * value.1, SCALAR_7)))
  {
    hide AboveThreshold;
    FloorOfNat(tokens * value.0);
    FloorOfNat(tokens * value.1);
    hide Floor;
    hide Max;
    ThresholdIsExact(tokens * value.0 / SCALAR_7, tokens * value.1 / SCALAR_7);
  }

  /** A pool may replace another only if emissions were distributed within the last day. */
  predicate MayReplace(w: World, toAdd: Address, toRemove: Address)
  {
    && toRemove in w.rewardZone
    && w.now >= ONE_DAY
    && w.lastDistribution >= w.now - ONE_DAY
    && PoolOf(w, toAdd).balance.tokens > PoolOf(w, toRemove).balance.tokens
  }

  /** The zone has ten places, and one more for every 2^23 seconds since its epoch. */
  predicate HasRoom(size: nat, now: nat)
  {
    size < 10 || (now >= 1713139200 && (size - 9) * 0x80_0000 <= now - 1713139200)
  }

  lemma RoomIsSize(size: nat, now: nat)
    ensures HasRoom(size, now) <==> size < MaxZoneSize(now)
  {
    if now >= BACKSTOP_EPOCH {
      var t := now - BACKSTOP_EPOCH;
      assert t / REWARD_ZONE_STEP == Floor(t, REWARD_ZONE_STEP);
      FloorBounds(t, REWARD_ZONE_STEP);
      if size >= 10 && (size - 9) * REWARD_ZONE_STEP <= t {
        FloorGreatest(size - 9, t, REWARD_ZONE_STEP);
      }
      hide Floor;
    }
  }

  /** When a pool can be added to the reward zone. */
  lemma {:induction false} AddRewardSucceeds(w: World, toAdd: Address, toRemove: Address)
    requires WorldOk(w)
    ensures PoolOf(w, toAdd).balance.tokens >= 0
    ensures AddToRewardZone(w, toAdd, toRemove).Ok? <==>
      && toAdd !in w.rewardZone
      && w.lpTokenVal.Some?
      && WorthEnough(PoolOf(w, toAdd).balance.tokens, w.lpTokenVal.value)
      && (HasRoom(|w.rewardZone|, w.now) || MayReplace(w, toAdd, toRemove))
  {
    hide AboveThreshold;
    hide WorthEnough;
    hide LedgerOk;
    hide HasRoom;
    hide MaxZoneSize;
    hide TokenTotal;
    hide Floor;
    hide Max;
    RoomIsSize(|w.rewardZone|, w.now);
    PoolIsOk(w.pools, w.now, toAdd);
    LedgerTokens(PoolOf(w, toAdd), w.now);
    hide LedgersOk;
    hide PoolOf;
    if w.lpTokenVal.Some? {
      WorthIsExact(PoolOf(w, toAdd).balance.tokens, w.lpTokenVal.value);
    }
  }

  /** A million LP tokens given to a pool in which nobody holds shares. */
  const RICH: PoolLedger := PoolLedger(PoolHolding(0, 1_000_000 * SCALAR_7, 0), map[], None, None, 0)

  /** A full zone, a rich pool outside it, LP tokens worth one BLND and one USDC each; `last` is the time of
      the last distribution. */
  function FullZone(last: nat): World
  {
    World(100, {}, 1_000_000, map[POOL := RICH], [1, 2, 3, 4, 5, 6, 7, 8, 9, 10], last,
          Some((SCALAR_7, SCALAR_7)), last, 0, 1_000_000 * SCALAR_7, map[])
  }

  lemma RichIsOk(now: nat)
    ensures LedgerOk(RICH, now) && Obligation(RICH) == 0
  {
    hide LedgerOk;
    hide Obligation;
    LedgerStartsOk(now);
    FundsMoveKeeps(NO_LEDGER, now, 1_000_000 * SCALAR_7);
    assert Donate(NO_LEDGER, 1_000_000 * SCALAR_7) == RICH;
  }

  lemma FullZoneIsOk(last: nat)
    requires last <= 1_000_000
    ensures WorldOk(FullZone(last)) && BlndSolvent(FullZone(last))
  {
    hide LedgerOk;
    hide Obligation;
    hide TokenTotal;
    hide LiabilityTotal;
    hide LedgersOk;
    RichIsOk(1_000_000);
    OnePool(RICH, 1_000_000, POOL);
    var none: map<Address, int> := map[];
    TotalOfNothing(none);
    hide Total;
  }

  lemma MillionIsWorthEnough()
    ensures WorthEnough(1_000_000 * SCALAR_7, (SCALAR_7, SCALAR_7))
  {}

  /** With a distribution within the last 48 hours, which the interface says makes it fail, the call goes
      through: one hour ago here. */
  lemma RecentDistributionAllows()
    ensures var w := FullZone(1_000_000 - 60 * 60);
      WorldOk(w) && BlndSolvent(w) && AddToRewardZone(w, POOL, 1).Ok?
  {
    hide AddToRewardZone;
    hide WorldOk;
    hide BlndSolvent;
    hide WorthEnough;
    FullZoneIsOk(1_000_000 - 60 * 60);
    MillionIsWorthEnough();
    AddRewardSucceeds(FullZone(1_000_000 - 60 * 60), POOL, 1);
  }

  /** With none for three days, which the interface allows, it fails. */
  lemma OldDistributionRefuses()
    ensures var w := FullZone(1_000_000 - 3 * ONE_DAY);
      WorldOk(w) && BlndSolvent(w) && !AddToRewardZone(w, POOL, 1).Ok?
  {
    hide AddToRewardZone;
    hide WorldOk;
    hide BlndSolvent;
    hide WorthEnough;
    FullZoneIsOk(1_000_000 - 3 * ONE_DAY);
    AddRewardSucceeds(FullZone(1_000_000 - 3 * ONE_DAY), POOL, 1);
  }
}
