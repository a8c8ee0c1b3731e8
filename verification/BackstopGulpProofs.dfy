/** gulp_emissions hands out at most what the emitter released since the last gulp, and nearly all of it. */
module BackstopGulpProofs {
  import opened Outcomes
  import opened FixedPoint
  import opened Totals
  import opened PoolBalances
  import opened BackstopLedger
  import opened BackstopLedgerProofs
  import opened BackstopWorld
  import opened BackstopWorldProofs
  import opened ZoneSplit

  /** The tokens each pool of the zone has outside its withdrawal queues. */
  ghost function ZoneTokens(balances: seq<PoolHolding>): (ts: seq<int>)
    ensures |ts| == |balances|
  {
    seq(|balances|, i requires 0 <= i < |balances| =>
      if NonQueuedTokens(balances[i]).Ok? then NonQueuedTokens(balances[i]).value else 0)
  }

  ghost predicate BalancesOk(balances: seq<PoolHolding>)
  {
    forall i :: 0 <= i < |balances| ==> PoolHoldingOk(balances[i])
  }

  lemma ZoneBalancesOk(pools: map<Address, PoolLedger>, now: nat, zone: seq<Address>)
    requires LedgersOk(pools, now)
    ensures BalancesOk(ZoneBalances(pools, zone))
  {
    hide LedgerOk;
    forall i | 0 <= i < |zone|
      ensures PoolHoldingOk(ZoneBalances(pools, zone)[i])
    {
      PoolIsOk(pools, now, zone[i]);
      LedgerSums(PoolIn(pools, zone[i]), now);
    }
  }

  lemma ZoneTokensOk(balances: seq<PoolHolding>)
    requires BalancesOk(balances)
    ensures ZoneSplit.NonNegative(ZoneTokens(balances))
    ensures forall i :: 0 <= i < |balances| ==> NonQueuedTokens(balances[i]) == Ok(ZoneTokens(balances)[i])
  {
    forall i | 0 <= i < |balances|
      ensures NonQueuedTokens(balances[i]).Ok? && NonQueuedTokens(balances[i]).value >= 0
    {
      NonQueuedTokensBounds(balances[i]);
    }
  }

  lemma {:induction false} TotalIsSum(balances: seq<PoolHolding>, k: nat)
    requires BalancesOk(balances) && k <= |balances|
    ensures TotalNonQueued(balances, k) == Ok(Sum(ZoneTokens(balances), k))
    decreases k
  {
    if k > 0 {
      TotalIsSum(balances, k - 1);
      ZoneTokensOk(balances);
      hide NonQueuedTokens;
      hide ZoneTokens;
    }
  }

  /** The reward-zone shares the second loop works with. */
  ghost function ZoneShares(balances: seq<PoolHolding>, total: int): (shares: seq<int>)
    requires total > 0
    ensures |shares| == |balances|
  {
    SharesOf(ZoneTokens(balances), total, SCALAR_7)
  }

  lemma ShareIsPart(balances: seq<PoolHolding>, i: nat, total: int)
    requires BalancesOk(balances) && i < |balances| && total > 0
    ensures ZoneShare(balances[i], total) == Ok(ZoneShares(balances, total)[i])
    ensures ZoneShares(balances, total)[i] >= 0
  {
    ZoneTokensOk(balances);
    hide NonQueuedTokens;
    hide ZoneTokens;
    FloorNonNeg(ZoneTokens(balances)[i] * SCALAR_7, total);
  }

  /** What the first k pools get of `amount`. */
  ghost function Allotted(balances: seq<PoolHolding>, k: nat, total: int, amount: int): int
    requires k <= |balances| && total > 0
  {
    Parts(ZoneShares(balances, total), k, SCALAR_7, amount)
  }

  /** What the stream of pool p gets of `amount` among the first k pools. */
  ghost function StreamedTo(zone: seq<Address>, shares: seq<int>, k: nat, amount: int, p: Address): int
    requires k <= |zone| == |shares|
    decreases k
  {
    if k == 0 then 0
    else
      var more := if zone[k - 1] == p then Floor(shares[k - 1] * amount, SCALAR_7) else 0;
      StreamedTo(zone, shares, k - 1, amount, p) + more
  }

  /** What the whole zone gets of `amount`: never more, and at most n parts in ten million plus n units less. */
  lemma {:induction false} ZoneAllotment(balances: seq<PoolHolding>, amount: int)
    requires BalancesOk(balances) && amount >= 0
    requires TotalNonQueued(balances, |balances|).Ok? && TotalNonQueued(balances, |balances|).value > 0
    ensures var a := Allotted(balances, |balances|, TotalNonQueued(balances, |balances|).value, amount);
      && 0 <= a <= amount
      && Scaled(amount - a) <= |balances| * amount + |balances| * SCALAR_7
  {
    TotalIsSum(balances, |balances|);
    ZoneTokensOk(balances);
    hide NonQueuedTokens;
    hide ZoneTokens;
    hide TotalNonQueued;
    SharesAddUp(ZoneTokens(balances), SCALAR_7);
    SplitByShares(ZoneShares(balances, Sum(ZoneTokens(balances), |balances|)), |balances|, SCALAR_7, amount);
  }

  /** The emitter releases whole tokens, so the split loses nothing: seven tenths go to the depositors and
      three tenths to the pools. */
  lemma SplitIsExact(w: World)
    requires w.lastDistribution <= w.emitterLast
    ensures 10 * ToBackstop(NewEmissions(w)) == 7 * NewEmissions(w) && 10 * ToPools(NewEmissions(w)) == 3 * NewEmissions(w)
    ensures ToBackstop(NewEmissions(w)) + ToPools(NewEmissions(w)) == NewEmissions(w)
    ensures ToBackstop(NewEmissions(w)) >= 0 && ToPools(NewEmissions(w)) >= 0
  {
    var seconds := w.emitterLast - w.lastDistribution;
    assert NewEmissions(w) * BACKSTOP_SHARE == (seconds * BACKSTOP_SHARE) * SCALAR_7;
    assert NewEmissions(w) * POOL_SHARE == (seconds * POOL_SHARE) * SCALAR_7;
    FloorExact(seconds * BACKSTOP_SHARE, SCALAR_7);
    FloorExact(seconds * POOL_SHARE, SCALAR_7);
  }

  lemma PoolEmissionsGrow(l: PoolLedger, now: nat, more: nat)
    requires LedgerOk(l, now)
    ensures var l' := l.(poolEmissions := l.poolEmissions + more);
      LedgerOk(l', now) && Obligation(l') == Obligation(l)
  {}

  /** One pool's part of a gulp: its emissions grow by its allotment, and what it owes its depositors by theirs,
      up to what restarting the stream loses. */
  lemma GulpOneKeeps(l: PoolLedger, now: nat, share: int, toPools: int, toBackstop: int)
    requires LedgerOk(l, now) && share >= 0 && toPools >= 0 && toBackstop >= 0
    requires GulpOne(l, now, share, toPools, toBackstop).Ok?
    ensures var q := GulpOne(l, now, share, toPools, toBackstop).value;
      && LedgerOk(q, now) && q.balance == l.balance && q.accounts == l.accounts
      && q.poolEmissions == l.poolEmissions + Floor(share * toPools, SCALAR_7)
      && Obligation(q) <= Obligation(l) + Scaled(Floor(share * toBackstop, SCALAR_7)) <= Obligation(q) + RestartLoss(l, now)
      && Liability(q) <= Liability(l) + Scaled(Floor(share * toPools, SCALAR_7) + Floor(share * toBackstop, SCALAR_7))
  {
    MulMono(0, share, toPools);
    MulMono(0, share, toBackstop);
    FloorNonNeg(share * toPools, SCALAR_7);
    FloorNonNeg(share * toBackstop, SCALAR_7);
    PoolEmissionsGrow(l, now, Floor(share * toPools, SCALAR_7));
    hide Floor;
    hide SetEmissionConfig;
    hide Obligation;
    hide LedgerOk;
    SetEmissionConfigKeeps(l.(poolEmissions := l.poolEmissions + Floor(share * toPools, SCALAR_7)), now,
      Floor(share * toBackstop, SCALAR_7));
  }

  /** One turn of the loop. */
  lemma GulpLoopTurn(pools: map<Address, PoolLedger>, now: nat, zone: seq<Address>, balances: seq<PoolHolding>,
                     k: nat, total: int, toPools: int, toBackstop: int)
    requires BalancesOk(balances) && 0 < k <= |zone| == |balances| && total > 0
    requires GulpLoop(pools, zone, balances, k, now, total, toPools, toBackstop).Ok?
    ensures GulpLoop(pools, zone, balances, k - 1, now, total, toPools, toBackstop).Ok?
    ensures var before := GulpLoop(pools, zone, balances, k - 1, now, total, toPools, toBackstop).value;
      var share := ZoneShares(balances, total)[k - 1];
      var turn := GulpOne(PoolIn(before, zone[k - 1]), now, share, toPools, toBackstop);
      && share >= 0 && turn.Ok?
      && GulpLoop(pools, zone, balances, k, now, total, toPools, toBackstop).value == before[zone[k - 1] := turn.value]
  {
    ShareIsPart(balances, k - 1, total);
    hide GulpOne;
    hide ZoneShare;
    hide ZoneShares;
    hide BalancesOk;
  }

  /** The loop over the first k pools adds at most their allotments to what the pools owe. */
  lemma {:induction false} GulpLoopKeeps(pools: map<Address, PoolLedger>, now: nat, zone: seq<Address>, balances: seq<PoolHolding>,
                                         k: nat, total: int, toPools: int, toBackstop: int)
    requires LedgersOk(pools, now) && BalancesOk(balances) && k <= |zone| == |balances|
    requires total > 0 && toPools >= 0 && toBackstop >= 0
    requires GulpLoop(pools, zone, balances, k, now, total, toPools, toBackstop).Ok?
    ensures var q := GulpLoop(pools, zone, balances, k, now, total, toPools, toBackstop).value;
      && LedgersOk(q, now)
      && TokenTotal(q) == TokenTotal(pools)
      && LiabilityTotal(q) <= LiabilityTotal(pools)
           + Scaled(Allotted(balances, k, total, toPools) + Allotted(balances, k, total, toBackstop))
    decreases k
  {
    if k == 0 { return; }
    GulpLoopTurn(pools, now, zone, balances, k, total, toPools, toBackstop);
    hide GulpLoop;
    hide GulpOne;
    hide ZoneShares;
    hide LedgersOk;
    hide Liability;
    hide Floor;
    hide TokenTotal;
    hide LiabilityTotal;
    GulpLoopKeeps(pools, now, zone, balances, k - 1, total, toPools, toBackstop);
    var before := GulpLoop(pools, zone, balances, k - 1, now, total, toPools, toBackstop).value;
    var share := ZoneShares(balances, total)[k - 1];
    var l := PoolIn(before, zone[k - 1]);
    PoolIsOk(before, now, zone[k - 1]);
    GulpOneKeeps(l, now, share, toPools, toBackstop);
    PoolReplaced(before, now, zone[k - 1], GulpOne(l, now, share, toPools, toBackstop).value, 0,
      Scaled(Floor(share * toPools, SCALAR_7) + Floor(share * toBackstop, SCALAR_7)));
  }

  ghost predicate Distinct(zone: seq<Address>)
  {
    forall i, j :: 0 <= i < j < |zone| ==> zone[i] != zone[j]
  }

  /** What the loop has done to pool p after k turns: nothing if it was not among them, else its own turn. */
  ghost predicate TurnTaken(was: PoolLedger, l: PoolLedger, zone: seq<Address>, shares: seq<int>, k: nat, now: nat,
                            toPools: int, toBackstop: int, p: Address)
    requires k <= |zone| == |shares|
  {
    && (p !in zone[..k] ==> l == was && StreamedTo(zone, shares, k, toBackstop, p) == 0)
    && (forall i :: 0 <= i < k && zone[i] == p ==>
          && GulpOne(was, now, shares[i], toPools, toBackstop) == Ok(l)
          && StreamedTo(zone, shares, k, toBackstop, p) == Floor(shares[i] * toBackstop, SCALAR_7))
  }

  lemma NextTurn(was: PoolLedger, l: PoolLedger, n: PoolLedger, zone: seq<Address>, shares: seq<int>, k: nat, now: nat,
                 toPools: int, toBackstop: int, p: Address)
    requires 0 < k <= |zone| == |shares| && Distinct(zone)
    requires TurnTaken(was, l, zone, shares, k - 1, now, toPools, toBackstop, p)
    requires if zone[k - 1] == p then GulpOne(l, now, shares[k - 1], toPools, toBackstop) == Ok(n) else n == l
    ensures TurnTaken(was, n, zone, shares, k, now, toPools, toBackstop, p)
  {
    hide GulpOne;
    hide Floor;
    if zone[k - 1] == p {
      assert p !in zone[..k - 1];
      assert p in zone[..k] by { assert zone[..k][k - 1] == p; }
    } else {
      assert p in zone[..k] <==> p in zone[..k - 1];
    }
  }

  /** Every pool of the zone takes exactly one turn, with its own share; no other pool changes. */
  lemma {:induction false} GulpLoopIs(pools: map<Address, PoolLedger>, now: nat, zone: seq<Address>, balances: seq<PoolHolding>,
                                      k: nat, total: int, toPools: int, toBackstop: int, p: Address)
    requires BalancesOk(balances) && k <= |zone| == |balances| && total > 0 && Distinct(zone)
    requires GulpLoop(pools, zone, balances, k, now, total, toPools, toBackstop).Ok?
    ensures TurnTaken(PoolIn(pools, p), PoolIn(GulpLoop(pools, zone, balances, k, now, total, toPools, toBackstop).value, p),
                      zone, ZoneShares(balances, total), k, now, toPools, toBackstop, p)
    decreases k
  {
    hide GulpOne;
    hide ZoneShares;
    hide BalancesOk;
    hide Distinct;
    if k == 0 { return; }
    hide TurnTaken;
    GulpLoopTurn(pools, now, zone, balances, k, total, toPools, toBackstop);
    GulpLoopIs(pools, now, zone, balances, k - 1, total, toPools, toBackstop, p);
    hide GulpLoop;
    var before := GulpLoop(pools, zone, balances, k - 1, now, total, toPools, toBackstop).value;
    var after := GulpLoop(pools, zone, balances, k, now, total, toPools, toBackstop).value;
    NextTurn(PoolIn(pools, p), PoolIn(before, p), PoolIn(after, p), zone, ZoneShares(balances, total), k, now, toPools, toBackstop, p);
  }

  /** The part of an amount that `tokens` of `total` come to, in two roundings down. */
  ghost predicate ProRata(part: int, tokens: int, total: int, amount: int)
  {
    && part * total <= tokens * amount
    && (tokens * amount - part * total) * SCALAR_7 < total * (SCALAR_7 + amount)
  }

  lemma PartIsProRata(tokens: int, total: int, amount: int)
    requires tokens >= 0 && total > 0 && amount >= 0
    ensures ProRata(Floor(Floor(tokens * SCALAR_7, total) * amount, SCALAR_7), tokens, total, amount)
  {
    hide Floor;
    var share := Floor(tokens * SCALAR_7, total);
    var part := Floor(share * amount, SCALAR_7);
    FloorBounds(tokens * SCALAR_7, total);
    FloorBounds(share * amount, SCALAR_7);
    MulMono(share * total, tokens * SCALAR_7, amount);
    MulMono(part * SCALAR_7, share * amount, total);
    assert share * total * amount == share * amount * total;
    assert part * SCALAR_7 * total == part * total * SCALAR_7;
    assert tokens * SCALAR_7 * amount == tokens * amount * SCALAR_7;
    MultiplesOrdered(part * total, tokens * amount, SCALAR_7);
    MulMono(tokens * SCALAR_7, share * total + total, amount);
    MulDistributes(amount, share * total, total);
    MulMono(share * amount + 1, part * SCALAR_7 + SCALAR_7, total);
    MulDistributes(total, part * SCALAR_7, SCALAR_7);
    MulDistributes(total, share * amount, 1);
    MulDistributes(total, SCALAR_7, amount);
  }

  lemma ShareIsFloor(balances: seq<PoolHolding>, i: nat, total: int)
    requires BalancesOk(balances) && i < |balances| && total > 0
    ensures ZoneShares(balances, total)[i] == Floor(ZoneTokens(balances)[i] * SCALAR_7, total) >= 0
    ensures ZoneTokens(balances)[i] >= 0
  {
    ZoneTokensOk(balances);
    ShareIsPart(balances, i, total);
    hide ZoneTokens;
    hide Floor;
  }

  /** What the loop gives the pool at place i of the zone. */
  lemma LoopHandsOut(pools: map<Address, PoolLedger>, now: nat, zone: seq<Address>, balances: seq<PoolHolding>,
                     total: int, toPools: int, toBackstop: int, i: nat)
    requires LedgersOk(pools, now) && BalancesOk(balances) && i < |zone| == |balances| && total > 0 && Distinct(zone)
    requires toPools >= 0 && toBackstop >= 0
    requires GulpLoop(pools, zone, balances, |zone|, now, total, toPools, toBackstop).Ok?
    ensures var q := GulpLoop(pools, zone, balances, |zone|, now, total, toPools, toBackstop).value;
      && ProRata(PoolIn(q, zone[i]).poolEmissions - PoolIn(pools, zone[i]).poolEmissions, ZoneTokens(balances)[i], total, toPools)
      && ProRata(StreamedTo(zone, ZoneShares(balances, total), |zone|, toBackstop, zone[i]), ZoneTokens(balances)[i], total, toBackstop)
  {
    hide LedgerOk;
    hide GulpLoop;
    hide ZoneShares;
    hide ZoneTokens;
    hide Floor;
    hide ProRata;
    hide Liability;
    hide Obligation;
    var p := zone[i];
    GulpLoopIs(pools, now, zone, balances, |zone|, total, toPools, toBackstop, p);
    hide StreamedTo;
    hide GulpOne;
    ShareIsFloor(balances, i, total);
    var (share, x) := (ZoneShares(balances, total)[i], ZoneTokens(balances)[i]);
    PartIsProRata(x, total, toPools);
    PartIsProRata(x, total, toBackstop);
    PoolIsOk(pools, now, p);
    GulpOneKeeps(PoolIn(pools, p), now, share, toPools, toBackstop);
  }

  /** A gulp gives each pool of the zone three tenths of the released emissions, and its depositors' stream
      seven tenths, in proportion to its tokens outside the queue. */
  lemma {:induction false} GulpHandsOut(w: World, i: nat)
    requires WorldOk(w) && ExecuteGulp(w).Ok? && i < |w.rewardZone|
    ensures var balances := ZoneBalances(w.pools, w.rewardZone);
      var (p, total) := (w.rewardZone[i], TotalNonQueued(balances, |balances|).value);
      && total == Sum(ZoneTokens(balances), |balances|) > 0
      && ProRata(PoolOf(ExecuteGulp(w).value, p).poolEmissions - PoolOf(w, p).poolEmissions,
                 ZoneTokens(balances)[i], total, ToPools(NewEmissions(w)))
      && ProRata(StreamedTo(w.rewardZone, ZoneShares(balances, total), |balances|, ToBackstop(NewEmissions(w)), p),
                 ZoneTokens(balances)[i], total, ToBackstop(NewEmissions(w)))
  {
    hide ExecuteGulp;
    hide TotalNonQueued;
    hide ZoneBalances;
    hide ZoneTokens;
    hide ZoneShares;
    hide GulpLoop;
    hide StreamedTo;
    hide Sum;
    hide LedgersOk;
    hide BalancesOk;
    hide ProRata;
    hide ToPools;
    hide ToBackstop;
    hide NewEmissions;
    hide TokenTotal;
    hide MaxZoneSize;
    GulpHasTotal(w);
    GulpIsLoop(w);
    SplitIsExact(w);
    var balances := ZoneBalances(w.pools, w.rewardZone);
    TotalIsSum(balances, |balances|);
    LoopHandsOut(w.pools, w.now, w.rewardZone, balances, TotalNonQueued(balances, |balances|).value,
      ToPools(NewEmissions(w)), ToBackstop(NewEmissions(w)), i);
  }

  lemma {:induction false} LoopNeedsTotal(pools: map<Address, PoolLedger>, zone: seq<Address>, balances: seq<PoolHolding>, k: nat, now: nat,
                                          toPools: int, toBackstop: int)
    requires 0 < k <= |zone| == |balances|
    ensures GulpLoop(pools, zone, balances, k, now, 0, toPools, toBackstop).Abort?
  {}

  /** A gulp succeeds only with tokens outside the queues to share by. */
  lemma {:induction false} GulpHasTotal(w: World)
    requires WorldOk(w) && ExecuteGulp(w).Ok?
    ensures var balances := ZoneBalances(w.pools, w.rewardZone);
      && BalancesOk(balances) && |balances| == |w.rewardZone| > 0
      && TotalNonQueued(balances, |balances|).Ok? && TotalNonQueued(balances, |balances|).value > 0
  {
    hide LedgersOk;
    hide ZoneBalances;
    hide GulpLoop;
    hide TotalNonQueued;
    hide ToPools;
    hide ToBackstop;
    var balances := ZoneBalances(w.pools, w.rewardZone);
    ZoneBalancesOk(w.pools, w.now, w.rewardZone);
    TotalIsSum(balances, |balances|);
    SumNonNegative(balances);
    LoopNeedsTotal(w.pools, w.rewardZone, balances, |balances|, w.now, ToPools(NewEmissions(w)), ToBackstop(NewEmissions(w)));
  }

  lemma SumNonNegative(balances: seq<PoolHolding>)
    requires BalancesOk(balances)
    ensures Sum(ZoneTokens(balances), |balances|) >= 0
  {
    hide NonQueuedTokens;
    ZoneTokensOk(balances);
    PartsBounds(ZoneTokens(balances), |balances|, 1, 0);
  }

  /** A gulp as the loop it runs. */
  lemma GulpIsLoop(w: World)
    requires WorldOk(w) && ExecuteGulp(w).Ok?
    ensures var balances := ZoneBalances(w.pools, w.rewardZone);
      var loop := GulpLoop(w.pools, w.rewardZone, balances, |balances|, w.now, TotalNonQueued(balances, |balances|).value,
                           ToPools(NewEmissions(w)), ToBackstop(NewEmissions(w)));
      loop.Ok? && ExecuteGulp(w).value == w.(pools := loop.value, lastDistribution := w.emitterLast)
  {
    hide WorldOk;
    hide GulpLoop;
    hide TotalNonQueued;
    hide ZoneBalances;
  }

  /** A world whose pools owe at most the released emissions more, with those emissions handed out. */
  lemma GulpSums(w: World, pools: map<Address, PoolLedger>, handedOut: int)
    requires WorldOk(w) && LedgersOk(pools, w.now)
    requires TokenTotal(pools) == TokenTotal(w.pools)
    requires LiabilityTotal(pools) <= LiabilityTotal(w.pools) + Scaled(handedOut)
    requires handedOut <= NewEmissions(w)
    ensures MovesTokens(w, w.(pools := pools, lastDistribution := w.emitterLast))
  {
    hide LedgersOk;
    hide TokenTotal;
    hide LiabilityTotal;
  }

  lemma {:induction false} GulpStep(w: World)
    requires WorldOk(w) && ExecuteGulp(w).Ok?
    ensures MovesTokens(w, ExecuteGulp(w).value)
  {
    GulpHasTotal(w);
    GulpIsLoop(w);
    SplitIsExact(w);
    var balances := ZoneBalances(w.pools, w.rewardZone);
    var toPools, toBackstop := ToPools(NewEmissions(w)), ToBackstop(NewEmissions(w));
    hide ExecuteGulp;
    hide TotalNonQueued;
    hide ZoneBalances;
    hide ToPools;
    hide ToBackstop;
    ZoneAllotment(balances, toPools);
    ZoneAllotment(balances, toBackstop);
    hide Allotted;
    hide GulpLoop;
    hide LedgersOk;
    hide BalancesOk;
    hide MovesTokens;
    var total := TotalNonQueued(balances, |balances|).value;
    GulpLoopKeeps(w.pools, w.now, w.rewardZone, balances, |balances|, total, toPools, toBackstop);
    GulpSums(w, GulpLoop(w.pools, w.rewardZone, balances, |balances|, w.now, total, toPools, toBackstop).value,
      Allotted(balances, |balances|, total, toPools) + Allotted(balances, |balances|, total, toBackstop));
  }
}
