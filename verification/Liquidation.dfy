/** The sizing of a liquidation auction, and its fills (pool/src/auctions/user_liquidation_auction.rs). */
module Liquidations {
  import opened Outcomes
  import opened FixedPoint
  import opened Totals
  import opened Interest
  import opened Reserves
  import opened Auctions
  import opened PoolUsers
  import opened PoolStates
  import opened Health
  import opened LendingPools
  import opened LendingPoolProofs
  import opened LendingPoolAuctionProofs
  import opened PositionWorths

  // ----- sizing -----

  /** The part of the user's debt that is liquidated. */
  function Part(percent: int, scalar: int): int { Floor(percent * scalar, 100) }

  /** What the liquidator earns on top, from the averaged factors: between one and one and a half. */
  function Incentive(data: PositionData): Outcome<int>
  {
    var avgCf :- DivFloor(data.collateralBase * data.scalar, data.collateralRaw);
    var avgLf :- DivFloor(data.liabilityBase * data.scalar, data.liabilityRaw);
    var ratio :- DivCeil(avgCf * data.scalar, avgLf);
    var half :- DivCeil((data.scalar - ratio) * data.scalar, 2 * data.scalar);
    Ok(half + data.scalar)
  }

  /** The collateral to withdraw, in the base asset, and as a part of all collateral, at most all of it. */
  function Withdrawn(data: PositionData, part: int, incentive: int): int
    requires data.scalar > 0
  {
    Floor(Floor(data.liabilityRaw * part, data.scalar) * incentive, data.scalar)
  }

  function WithdrawnPart(data: PositionData, withdrawn: int): Outcome<int>
  {
    var part :- DivCeil(withdrawn * data.scalar, data.collateralRaw);
    Ok(if part > data.scalar then data.scalar else part)
  }

  /** A part of every balance, rounded up, by asset. */
  function Portion(configs: map<Address, ReserveConfig>, m: map<Address, int>, part: int, scalar: int): map<Address, int>
    requires scalar > 0
  {
    map a | a in configs && configs[a].index in m :: Ceil(m[configs[a].index] * part, scalar)
  }

  lemma PortionTurn(p: Pool, m: map<Address, int>, part: int, scalar: int, i: nat, amount: int)
    requires Listed(p) && scalar > 0 && i !in m && i < |p.resList|
    ensures Portion(p.configs, m[i := amount], part, scalar)
      == Portion(p.configs, m, part, scalar)[p.resList[i] := Ceil(amount * part, scalar)]
  {
    hide Ceil;
    hide ValidMetadata;
  }

  lemma NoPortion(p: Pool, part: int, scalar: int)
    requires scalar > 0
    ensures Portion(p.configs, map[], part, scalar) == map[]
  {}

  /** The loops that fill the lot and the bid: each balance's part, under the asset of its index. */
  method Portions(p: Pool, m: map<Address, int>, part: int, scalar: int) returns (r: Outcome<map<Address, int>>)
    requires Listed(p) && scalar > 0
    ensures r == if exists i :: i in m && i >= |p.resList| then Abort(ArithmeticError) else Ok(Portion(p.configs, m, part, scalar))
  {
    hide Portion;
    hide Ceil;
    hide Listed;
    hide Done;
    NothingDone(m);
    NoPortion(p, part, scalar);
    var parts: map<Address, int> := map[];
    var left := m;
    while left != map[]
      invariant left.Keys <= m.Keys && parts == Portion(p.configs, Done(m, left), part, scalar)
      invariant forall i :: i in m && i !in left ==> i < |p.resList|
      decreases |left|
    {
      var i :| i in left;
      if i >= |p.resList| {
        return Abort(ArithmeticError);
      }
      TakeOne(m, left, i);
      PortionTurn(p, Done(m, left), part, scalar, i, m[i]);
      parts := parts[p.resList[i] := Ceil(m[i] * part, scalar)];
      left := left - {i};
    }
    NothingLeft(m, left);
    return Ok(parts);
  }

  /** What is left of a user's positions after a whole auction (rm_positions). */
  function Removed(resList: seq<Address>, u: Positions, auction: AuctionData): Outcome<Positions>
  {
    if (exists a :: a in auction.lot && auction.lot[a] == 0) || (exists a :: a in auction.bid && auction.bid[a] == 0) then
      Abort(InvalidBTokenBurnAmount)
    else
      var collateral :- TakeAll(resList, u.collateral, auction.lot);
      var liabilities :- TakeAll(resList, u.liabilities, auction.bid);
      Ok(u.(collateral := collateral, liabilities := liabilities))
  }

  /** The auction, and how much collateral it is meant to withdraw. */
  function Quoted(p: Pool, u: Positions, data: PositionData, percent: int): Outcome<(AuctionData, int)>
    requires data.scalar > 0
  {
    var part := Part(percent, data.scalar);
    var incentive :- Incentive(data);
    var withdrawn := Withdrawn(data, part, incentive);
    var lotPart :- WithdrawnPart(data, withdrawn);
    Ok((AuctionData(Portion(p.configs, u.liabilities, part, data.scalar),
                    Portion(p.configs, u.collateral, lotPart, data.scalar), p.block + 1), withdrawn))
  }

  /** create_user_liq_auction_data */
  function LiquidationAuction(p: Pool, user: Address, percent: int, decimals: nat): Outcome<AuctionData>
  {
    if user in p.liquidations then Abort(AuctionInProgress)
    else if percent > 100 || percent <= 0 then Abort(InvalidLiquidation)
    else
      var (b, u) := (Idle(p), PositionsOf(p, user));
      var data :- Calculate(b, u, Pow10(decimals), |p.resList|);
      if data.liabilityBase < data.collateralBase then Abort(InvalidLiquidation)
      else
        var (auction, withdrawn) :- Quoted(p, u, data, percent);
        if exists i :: i in u.collateral.Keys + u.liabilities.Keys && i >= |p.resList| then Abort(ArithmeticError)
        else if percent == 100 then
          if withdrawn < data.collateralRaw then Abort(InvalidLiqTooLarge) else Ok(auction)
        else
          var left :- Removed(p.resList, u, auction);
          var after :- Calculate(b, left, Pow10(decimals), |p.resList|);
          if IsHfOver(after, 1_1500000) then Abort(InvalidLiqTooLarge)
          else if IsHfUnder(after, 1_0300000) then Abort(InvalidLiqTooSmall)
          else Ok(auction)
  }

  /** create_liquidation */
  function CreateLiquidation(p: Pool, user: Address, percent: int, decimals: nat): Outcome<Pool>
  {
    if user == p.self || user == p.backstop then Abort(InvalidLiquidation)
    else
      var auction :- LiquidationAuction(p, user, percent, decimals);
      Ok(p.(liquidations := p.liquidations[user := auction]))
  }

  // ----- what the sizing promises -----

  ghost predicate PositionDataOk(data: PositionData)
  {
    && data.scalar > 0
    && 0 <= data.collateralBase <= data.collateralRaw
    && 0 <= data.liabilityRaw <= data.liabilityBase
  }

  /** Weighted collateral is the collateral factor's part of the asset, rounded down, and so never more than it. */
  lemma {:induction false} CollateralWeight(c: ReserveConfig, r: ReserveData, bTokens: int)
    requires c.cFactor <= SCALAR_7 && r.bRate > 0 && bTokens >= 0
    ensures 0 <= EffectiveAssetFromB(c, r, bTokens) <= AssetFromB(r, bTokens)
    ensures PartDown(AssetFromB(r, bTokens), bTokens, r.bRate, SCALAR_9)
    ensures PartDown(EffectiveAssetFromB(c, r, bTokens), AssetFromB(r, bTokens), c.cFactor, SCALAR_7)
  {
    hide Floor;
    hide Ceil;
    var x := AssetFromB(r, bTokens);
    MulMono(0, bTokens, r.bRate);
    FloorNonNeg(bTokens * r.bRate, SCALAR_9);
    MulMono(0, c.cFactor, x);
    MulMono(c.cFactor, SCALAR_7, x);
    FloorNonNeg(x * c.cFactor, SCALAR_7);
    FloorMono(x * c.cFactor, x * SCALAR_7, SCALAR_7);
    FloorExact(x, SCALAR_7);
    FloorBounds(bTokens * r.bRate, SCALAR_9);
    FloorBounds(x * c.cFactor, SCALAR_7);
  }

  /** Weighted debt is the asset over the liability factor, rounded up, and so never less than it; zero aborts. */
  lemma {:induction false} LiabilityWeight(c: ReserveConfig, r: ReserveData, dTokens: int)
    requires c.lFactor <= SCALAR_7 && r.dRate > 0 && dTokens >= 0
    ensures EffectiveAssetFromD(c, r, dTokens).Ok? <==> c.lFactor > 0
    ensures c.lFactor > 0 ==> 0 <= AssetFromD(r, dTokens) <= EffectiveAssetFromD(c, r, dTokens).value
    ensures PartUp(AssetFromD(r, dTokens), dTokens, r.dRate, SCALAR_9)
    ensures c.lFactor > 0 ==> PartUp(EffectiveAssetFromD(c, r, dTokens).value, AssetFromD(r, dTokens), SCALAR_7, c.lFactor)
  {
    hide Floor;
    hide Ceil;
    var x := AssetFromD(r, dTokens);
    MulMono(0, dTokens, r.dRate);
    CeilNonNeg(dTokens * r.dRate, SCALAR_9);
    CeilBounds(dTokens * r.dRate, SCALAR_9);
    if c.lFactor > 0 {
      CeilBounds(x * SCALAR_7, c.lFactor);
      var e := Ceil(x * SCALAR_7, c.lFactor);
      MulMono(0, x, SCALAR_7);
      CeilNonNeg(x * SCALAR_7, c.lFactor);
      MulMono(c.lFactor, SCALAR_7, e);
      MultiplesOrdered(x, e, SCALAR_7);
    }
  }

  lemma WeighKeeps(data: PositionData, c: ReserveConfig, r: ReserveData, bTokens: int, dTokens: int)
    requires PositionDataOk(data) && ValidMetadata(c) && ReserveOk(r) && bTokens >= 0 && dTokens >= 0
    requires Weigh(data, c, r, bTokens, dTokens).Ok?
    ensures PositionDataOk(Weigh(data, c, r, bTokens, dTokens).value)
  {
    hide Floor;
    hide Ceil;
    hide EffectiveAssetFromB;
    hide EffectiveAssetFromD;
    hide AssetFromB;
    hide AssetFromD;
    var scalar := Pow10(c.decimals);
    hide Pow10;
    CollateralWeight(c, r, bTokens);
    LiabilityWeight(c, r, dTokens);
    FloorNonNeg(EffectiveAssetFromB(c, r, bTokens), scalar);
    FloorMono(EffectiveAssetFromB(c, r, bTokens), AssetFromB(r, bTokens), scalar);
    if dTokens > 0 {
      CeilNonNeg(AssetFromD(r, dTokens), scalar);
      CeilMono(AssetFromD(r, dTokens), EffectiveAssetFromD(c, r, dTokens).value, scalar);
    }
  }

  /** For any positions in any reachable pool, weighted collateral is at most raw collateral and weighted
      debt at least raw debt. */
  lemma {:induction false} CalculateKeeps(b: Batch, u: Positions, scalar: int, k: nat)
    requires BatchOk(b) && PositionsOk(u) && scalar > 0 && k <= |b.pool.resList|
    requires Calculate(b, u, scalar, k).Ok?
    ensures PositionDataOk(Calculate(b, u, scalar, k).value)
    decreases k
  {
    hide Weigh;
    hide LoadReserve;
    hide BatchOk;
    hide ValidMetadata;
    hide ReserveOk;
    if k == 0 {
      return;
    }
    CalculateKeeps(b, u, scalar, k - 1);
    var a := b.pool.resList[k - 1];
    if LoadReserve(b, a).Ok? {
      LoadedOk(b, a);
      if Weigh(Calculate(b, u, scalar, k - 1).value, b.pool.configs[a], LoadReserve(b, a).value,
               Amount(u.collateral, k - 1), Amount(u.liabilities, k - 1)).Ok? {
        WeighKeeps(Calculate(b, u, scalar, k - 1).value, b.pool.configs[a], LoadReserve(b, a).value,
                   Amount(u.collateral, k - 1), Amount(u.liabilities, k - 1));
      }
    }
  }

  lemma LoadedOk(b: Batch, a: Address)
    requires BatchOk(b) && LoadReserve(b, a).Ok?
    ensures ReserveOk(LoadReserve(b, a).value) && ValidMetadata(b.pool.configs[a])
  {
    hide Load;
    hide ReserveOk;
    hide ValidMetadata;
    hide AccountsOk;
    hide SharesAgree;
    ViewAged(b, a);
    assert ReserveOk(View(b)[a]) && View(b)[a].lastTime <= b.pool.now;
    AgedKeeps(b.pool.configs[a], b.pool.bstopRate, View(b)[a], LoadReserve(b, a).value, b.pool.now, 0);
  }

  /** With collateral and debt present the incentive lies between one and one and a half, rounded up. */
  lemma {:induction false} IncentiveInRange(data: PositionData)
    requires PositionDataOk(data) && data.collateralRaw > 0 && data.liabilityRaw > 0
    ensures Incentive(data).Ok?
    ensures data.scalar <= Incentive(data).value <= data.scalar + Ceil(data.scalar, 2)
  {
    hide Floor;
    hide Ceil;
    var s := data.scalar;
    MulMono(0, data.collateralBase, s);
    MulMono(data.collateralBase, data.collateralRaw, s);
    var avgCf := Floor(data.collateralBase * s, data.collateralRaw);
    FloorNonNeg(data.collateralBase * s, data.collateralRaw);
    FloorMono(data.collateralBase * s, s * data.collateralRaw, data.collateralRaw);
    FloorExact(s, data.collateralRaw);
    MulMono(data.liabilityRaw, data.liabilityBase, s);
    var avgLf := Floor(data.liabilityBase * s, data.liabilityRaw);
    FloorGreatest(s, data.liabilityBase * s, data.liabilityRaw);
    MulMono(0, avgCf, s);
    MulMono(avgCf, avgLf, s);
    var ratio := Ceil(avgCf * s, avgLf);
    CeilNonNeg(avgCf * s, avgLf);
    CeilLeast(s, avgCf * s, avgLf);
    HalfBounded(s, s - ratio);
  }

  /** Weighted over raw collateral, over weighted over raw debt, as a fraction of two products. */
  function FactorRatio(data: PositionData): (int, int)
  {
    (data.collateralBase * data.liabilityRaw, data.collateralRaw * data.liabilityBase)
  }

  /** Half of what that ratio is short of one comes on top of one, to about a unit and a half. */
  ghost predicate IsIncentive(data: PositionData, incentive: int)
  {
    var (n, d) := FactorRatio(data);
    (3 * data.scalar - 2) * d - n * data.scalar < 2 * incentive * d < (3 * data.scalar + 3) * d - n * data.scalar
  }

  /** The averaged factors: the ratio of the two rounded averages lies within two units of the exact one. */
  lemma {:induction false} RatioIsClose(s: int, cb: int, cr: int, lb: int, lr: int)
    requires s > 0 && 0 <= cb <= cr && 0 < lr <= lb && cr > 0
    ensures var (avgCf, avgLf) := (Floor(cb * s, cr), Floor(lb * s, lr));
      && avgLf > 0
      && var ratio := Ceil(avgCf * s, avgLf);
         (ratio - 2) * (cr * lb) < cb * lr * s < (ratio + 1) * (cr * lb)
  {
    hide Floor;
    hide Ceil;
    var (a, f) := (Floor(cb * s, cr), Floor(lb * s, lr));
    FloorBounds(cb * s, cr);
    FloorBounds(lb * s, lr);
    MulMono(lr, lb, s);
    FloorGreatest(s, lb * s, lr);
    var ratio := Ceil(a * s, f);
    CeilBounds(a * s, f);
    MulMono(0, cb, s);
    MulMono(cb, cr, s);
    FloorNonNeg(cb * s, cr);
    FloorMono(cb * s, s * cr, cr);
    FloorExact(s, cr);
    RatioBelow(s, cb, cr, lb, lr, a, f, ratio);
    RatioAbove(s, cb, cr, lb, lr, a, f, ratio);
  }

  lemma Swap(x: int, y: int, z: int)
    ensures x * y * z == x * z * y && x * (y * z) == x * y * z
  {}

  /** a s <= r f and f y <= z s give a y <= r z; and strictly. */
  lemma Chained(a: int, s: int, r: int, f: int, y: int, z: int)
    requires s > 0 && y > 0 && r >= 0 && a * s <= r * f && f * y <= z * s
    ensures a * y <= r * z
  {
    MulMono(a * s, r * f, y);
    Swap(r, f, y);
    MulMono(f * y, z * s, r);
    Swap(r, z, s);
    Swap(a, s, y);
    MultiplesOrdered(a * y, r * z, s);
  }

  lemma ChainedBack(a: int, s: int, k: int, f: int, y: int, z: int)
    requires s > 0 && y > 0 && k >= 0 && k * f < a * s && z * s <= f * y
    ensures k * z < a * y
  {
    MulMono(z * s, f * y, k);
    Swap(k, z, s);
    Swap(k, f, y);
    MulMono(k * f + 1, a * s, y);
    MulDistributes(y, k * f, 1);
    Swap(a, s, y);
    MultiplesOrderedStrictly(k * z, a * y, s);
  }

  lemma RatioBelow(s: int, cb: int, cr: int, lb: int, lr: int, a: int, f: int, ratio: int)
    requires s > 0 && 0 <= cb && 0 < lr <= lb && cr > 0 && f > 0 && ratio >= 0
    requires cb * s < a * cr + cr && f * lr <= lb * s && a * s <= ratio * f
    ensures cb * lr * s < (ratio + 1) * (cr * lb)
  {
    Chained(a, s, ratio, f, lr, lb);
    var (x, y) := (a * lr, ratio * lb);
    assert x <= y;
    MulMono(cb * s + 1, a * cr + cr, lr);
    MulDistributes(lr, cb * s, 1);
    MulDistributes(lr, a * cr, cr);
    Swap(a, cr, lr);
    Swap(cb, s, lr);
    MulMono(x, y, cr);
    MulMono(lr, lb, cr);
    MulDistributes(cr * lb, ratio, 1);
    Swap(ratio, cr, lb);
  }

  lemma RatioAbove(s: int, cb: int, cr: int, lb: int, lr: int, a: int, f: int, ratio: int)
    requires s > 0 && 0 <= cb && 0 < lr <= lb && cr > 0 && f >= s && 0 <= a <= s
    requires a * cr <= cb * s && lb * s < f * lr + lr && ratio * f - f < a * s
    ensures (ratio - 2) * (cr * lb) < cb * lr * s
  {
    MulMono(1, cr, lb);
    MulMono(0, cb, lr);
    MulMono(0, cb * lr, s);
    var k := ratio - 2;
    if k < 0 {
      MulMono(k, -1, cr * lb);
      return;
    }
    OneMore(k, f, a, s);
    MulDistributes(lr, f, 1);
    ChainedBack(a, s, k, f + 1, lr, lb);
    MulMono(k * lb + 1, a * lr, cr);
    MulDistributes(cr, k * lb, 1);
    MulMono(a * cr, cb * s, lr);
    Swap(a, cr, lr);
    Swap(cb, s, lr);
    Swap(k, cr, lb);
  }

  lemma OneMore(k: int, f: int, a: int, s: int)
    requires 0 <= a <= s <= f && s > 0 && k >= 0 && (k + 2) * f - f < a * s
    ensures k * (f + 1) < a * s
  {
    MulDistributes(f, k + 1, 1);
    MulMono(s, f, a);
    MultiplesOrderedStrictly(k + 1, a, f);
    MulDistributes(f, k, 1);
    MulDistributes(k, f, 1);
  }

  lemma MultiplesOrderedStrictly(p: int, q: int, d: int)
    requires d > 0 && p * d < q * d
    ensures p < q
  {
    if q <= p { MulMono(q, p, d); }
  }

  lemma IncentiveArithmetic(s: int, ratio: int, h: int, ns: int, d: int)
    requires d > 0 && (ratio - 2) * d < ns < (ratio + 1) * d
    requires 3 * s - ratio <= h <= 3 * s - ratio + 1
    ensures (3 * s - 2) * d - ns < h * d < (3 * s + 3) * d - ns
  {
    MulMono(3 * s - ratio, h, d);
    MulMono(h, 3 * s - ratio + 1, d);
    MulDistributes(d, 3 * s - ratio, ratio - 2);
    MulDistributes(d, 3 * s - ratio + 1, ratio + 1);
    MulDistributes(d, 3 * s + 2, 1);
  }

  lemma HalfIs(s: int, x: int)
    requires s > 0
    ensures x <= 2 * Ceil(x * s, 2 * s) <= x + 1
  {
    hide Ceil;
    var half := Ceil(x * s, 2 * s);
    CeilBounds(x * s, 2 * s);
    assert half * (2 * s) == 2 * half * s;
    MultiplesOrdered(x, 2 * half, s);
    assert (2 * half - 2) * s == 2 * half * s - 2 * s;
    MultiplesOrderedStrictly(2 * half - 2, x, s);
  }

  /** The incentive is one plus half the distance of the factors' ratio from one. */
  lemma {:induction false} IncentiveIsFair(data: PositionData)
    requires PositionDataOk(data) && data.collateralRaw > 0 && data.liabilityRaw > 0
    ensures Incentive(data).Ok? && IsIncentive(data, Incentive(data).value)
  {
    hide Floor;
    hide Ceil;
    IncentiveInRange(data);
    var s := data.scalar;
    RatioIsClose(s, data.collateralBase, data.collateralRaw, data.liabilityBase, data.liabilityRaw);
    var ratio := Ceil(Floor(data.collateralBase * s, data.collateralRaw) * s, Floor(data.liabilityBase * s, data.liabilityRaw));
    HalfIs(s, s - ratio);
    MulMono(1, data.collateralRaw, data.liabilityBase);
    IncentiveArithmetic(s, ratio, 2 * (Ceil((s - ratio) * s, 2 * s) + s),
      data.collateralBase * data.liabilityRaw * s, data.collateralRaw * data.liabilityBase);
  }

  lemma HalfBounded(s: int, x: int)
    requires s > 0 && 0 <= x <= s
    ensures 0 <= Ceil(x * s, 2 * s) <= Ceil(s, 2)
  {
    hide Floor;
    hide Ceil;
    MulMono(0, x, s);
    CeilNonNeg(x * s, 2 * s);
    CeilBounds(s, 2);
    MulMono(x, Ceil(s, 2) * 2, s);
    assert (Ceil(s, 2) * 2) * s == Ceil(s, 2) * (2 * s);
    CeilLeast(Ceil(s, 2), x * s, 2 * s);
  }

  /** The auction asks for no more debt and offers no more collateral than the user has, reserve by reserve. */
  ghost predicate Within(resList: seq<Address>, auction: AuctionData, u: Positions)
  {
    forall i: nat ::
      AtIndex(resList, auction.lot, i) <= Amount(u.collateral, i) && AtIndex(resList, auction.bid, i) <= Amount(u.liabilities, i)
  }

  lemma PortionBounded(p: Pool, m: map<Address, int>, part: int, scalar: int, i: nat)
    requires Listed(p) && scalar > 0 && 0 <= part <= scalar && forall j :: j in m ==> m[j] >= 0
    ensures 0 <= AtIndex(p.resList, Portion(p.configs, m, part, scalar), i) <= Amount(m, i)
    ensures part == scalar && i < |p.resList| ==> AtIndex(p.resList, Portion(p.configs, m, part, scalar), i) == Amount(m, i)
  {
    hide Floor;
    hide Ceil;
    hide ValidMetadata;
    if i in m && i < |p.resList| {
      MulMono(0, part, m[i]);
      MulMono(part, scalar, m[i]);
      CeilNonNeg(m[i] * part, scalar);
      CeilLeast(m[i], m[i] * part, scalar);
      FloorExact(m[i], scalar);
    }
  }

  lemma PortionNonNeg(configs: map<Address, ReserveConfig>, m: map<Address, int>, part: int, scalar: int)
    requires scalar > 0 && 0 <= part && forall j :: j in m ==> m[j] >= 0
    ensures forall a :: a in Portion(configs, m, part, scalar) ==> Portion(configs, m, part, scalar)[a] >= 0
  {
    hide Ceil;
    forall a | a in Portion(configs, m, part, scalar)
      ensures Portion(configs, m, part, scalar)[a] >= 0
    {
      var held := m[configs[a].index];
      MulMono(0, part, held);
      CeilNonNeg(held * part, scalar);
    }
  }

  lemma PartInRange(percent: int, scalar: int)
    requires 0 < percent <= 100 && scalar > 0
    ensures 0 <= Part(percent, scalar) <= scalar
    ensures percent == 100 ==> Part(percent, scalar) == scalar
  {
    hide Floor;
    MulMono(0, percent, scalar);
    MulMono(percent, 100, scalar);
    FloorNonNeg(percent * scalar, 100);
    FloorMono(percent * scalar, scalar * 100, 100);
    FloorExact(scalar, 100);
  }

  /** The parts of collateral and debt put up are between none and all. */
  lemma WithdrawnInRange(data: PositionData, part: int)
    requires PositionDataOk(data) && data.collateralRaw > 0 && data.liabilityRaw > 0 && 0 <= part <= data.scalar
    requires Incentive(data).Ok? && data.scalar <= Incentive(data).value
    ensures var w := Withdrawn(data, part, Incentive(data).value);
      && w >= 0 && WithdrawnPart(data, w).Ok? && 0 <= WithdrawnPart(data, w).value <= data.scalar
      && (w >= data.collateralRaw ==> WithdrawnPart(data, w).value == data.scalar)
  {
    hide Floor;
    hide Ceil;
    hide Incentive;
    var s := data.scalar;
    MulMono(0, part, data.liabilityRaw);
    FloorNonNeg(data.liabilityRaw * part, s);
    MulMono(0, Incentive(data).value, Floor(data.liabilityRaw * part, s));
    FloorNonNeg(Floor(data.liabilityRaw * part, s) * Incentive(data).value, s);
    var w := Withdrawn(data, part, Incentive(data).value);
    MulMono(0, w, s);
    CeilNonNeg(w * s, data.collateralRaw);
    if w >= data.collateralRaw {
      MulMono(data.collateralRaw, w, s);
      CeilMono(s * data.collateralRaw, w * s, data.collateralRaw);
      FloorExact(s, data.collateralRaw);
    }
  }

  lemma {:induction false} QuotedWithin(p: Pool, u: Positions, data: PositionData, percent: int)
    requires Listed(p) && PositionsOk(u) && PositionDataOk(data) && 0 < percent <= 100
    requires data.collateralRaw >= 0 && Quoted(p, u, data, percent).Ok?
    ensures var (auction, withdrawn) := Quoted(p, u, data, percent).value;
      && AuctionOk(auction) && Within(p.resList, auction, u)
      && (percent == 100 && withdrawn >= data.collateralRaw ==>
            forall i: nat :: i < |p.resList| ==>
              AtIndex(p.resList, auction.lot, i) == Amount(u.collateral, i)
              && AtIndex(p.resList, auction.bid, i) == Amount(u.liabilities, i))
  {
    hide Part;
    hide Withdrawn;
    hide WithdrawnPart;
    hide Portion;
    hide Listed;
    hide AtIndex;
    PresentWhenPriced(data);
    IncentiveInRange(data);
    hide Incentive;
    var part := Part(percent, data.scalar);
    PartInRange(percent, data.scalar);
    WithdrawnInRange(data, part);
    var lotPart := WithdrawnPart(data, Withdrawn(data, part, Incentive(data).value)).value;
    PortionNonNeg(p.configs, u.collateral, lotPart, data.scalar);
    PortionNonNeg(p.configs, u.liabilities, part, data.scalar);
    forall i: nat
      ensures AtIndex(p.resList, Portion(p.configs, u.collateral, lotPart, data.scalar), i) <= Amount(u.collateral, i)
      ensures AtIndex(p.resList, Portion(p.configs, u.liabilities, part, data.scalar), i) <= Amount(u.liabilities, i)
      ensures lotPart == data.scalar && i < |p.resList| ==>
        AtIndex(p.resList, Portion(p.configs, u.collateral, lotPart, data.scalar), i) == Amount(u.collateral, i)
      ensures part == data.scalar && i < |p.resList| ==>
        AtIndex(p.resList, Portion(p.configs, u.liabilities, part, data.scalar), i) == Amount(u.liabilities, i)
    {
      PortionBounded(p, u.collateral, lotPart, data.scalar, i);
      PortionBounded(p, u.liabilities, part, data.scalar, i);
    }
  }

  /** The parts of a quote: the debt's is the percentage; the collateral to withdraw is that part of the debt with
      the incentive on top, in two roundings; its part of the collateral is rounded up, all of it at most. */
  ghost predicate IsSized(data: PositionData, percent: int, part: int, incentive: int, withdrawn: int, lotPart: int)
  {
    var (s, exact) := (data.scalar, data.liabilityRaw * part * incentive);
    && PartDown(part, s, percent, 100)
    && IsIncentive(data, incentive)
    && withdrawn * s * s <= exact < (withdrawn + 1) * s * s + s * incentive
    && (if lotPart < s then PartUp(lotPart, withdrawn, s, data.collateralRaw)
        else lotPart == s && (s - 1) * data.collateralRaw < withdrawn * s)
  }

  lemma WithdrawnIsFair(debt: int, part: int, incentive: int, s: int)
    requires s > 0 && incentive >= 0
    ensures var w := Floor(Floor(debt * part, s) * incentive, s);
      w * s * s <= debt * part * incentive < (w + 1) * s * s + s * incentive
  {
    hide Floor;
    var x := Floor(debt * part, s);
    var w := Floor(x * incentive, s);
    FloorBounds(debt * part, s);
    FloorBounds(x * incentive, s);
    MulMono(x * s, debt * part, incentive);
    if incentive > 0 {
      MulMono(debt * part + 1, x * s + s, incentive);
    }
    MulDistributes(incentive, debt * part, 1);
    MulDistributes(incentive, x * s, s);
    Swap(x, s, incentive);
    MulMono(w * s, x * incentive, s);
    MulMono(x * incentive + 1, w * s + s, s);
    MulDistributes(s, x * incentive, 1);
    MulDistributes(s, w, 1);
    MulDistributes(s, w * s, s);
  }

  lemma LotPartIsFair(withdrawn: int, s: int, raw: int)
    requires raw > 0 && s > 0
    ensures var c := Ceil(withdrawn * s, raw);
      if c < s then PartUp(c, withdrawn, s, raw) else (s - 1) * raw < withdrawn * s
  {
    hide Ceil;
    var c := Ceil(withdrawn * s, raw);
    CeilBounds(withdrawn * s, raw);
    if c >= s {
      MulMono(s - 1, c - 1, raw);
      MulDistributes(raw, c, -1);
    }
  }

  lemma {:induction false} QuoteIsSized(p: Pool, u: Positions, data: PositionData, percent: int)
    requires PositionDataOk(data) && Quoted(p, u, data, percent).Ok?
    ensures Incentive(data).Ok? && data.collateralRaw > 0
    ensures var (part, incentive) := (Part(percent, data.scalar), Incentive(data).value);
      var withdrawn := Withdrawn(data, part, incentive);
      && withdrawn == Quoted(p, u, data, percent).value.1
      && WithdrawnPart(data, withdrawn).Ok?
      && IsSized(data, percent, part, incentive, withdrawn, WithdrawnPart(data, withdrawn).value)
  {
    PresentWhenPriced(data);
    IncentiveInRange(data);
    IncentiveIsFair(data);
    hide Incentive;
    hide IsIncentive;
    hide Floor;
    hide Ceil;
    hide Portion;
    var (part, incentive) := (Part(percent, data.scalar), Incentive(data).value);
    FloorBounds(percent * data.scalar, 100);
    WithdrawnIsFair(data.liabilityRaw, part, incentive, data.scalar);
    LotPartIsFair(Withdrawn(data, part, incentive), data.scalar, data.collateralRaw);
  }

  /** Without collateral or debt no incentive can be computed. */
  lemma PresentWhenPriced(data: PositionData)
    requires PositionDataOk(data) && Incentive(data).Ok?
    ensures data.collateralRaw > 0 && data.liabilityRaw > 0
  {
    hide Floor;
    hide Ceil;
  }

  /** Every liquidation auction created in a reachable pool stays within the user's positions, with the
      liquidation of everything taking exactly everything. */
  lemma {:induction false} LiquidationWithin(p: Pool, user: Address, percent: int, decimals: nat)
    requires BooksOk(p) && LiquidationAuction(p, user, percent, decimals).Ok?
    ensures var auction := LiquidationAuction(p, user, percent, decimals).value;
      && AuctionOk(auction) && Within(p.resList, auction, PositionsOf(p, user)) && auction.block == p.block + 1
      && (percent == 100 ==> forall i: nat :: i < |p.resList| ==>
            AtIndex(p.resList, auction.lot, i) == Amount(PositionsOf(p, user).collateral, i)
            && AtIndex(p.resList, auction.bid, i) == Amount(PositionsOf(p, user).liabilities, i))
  {
    hide Calculate;
    hide Removed;
    hide IsHfOver;
    hide IsHfUnder;
    hide Pow10;
    hide Listed;
    hide ReservesOk;
    hide SharesAgree;
    hide Within;
    hide AuctionOk;
    var (b, u) := (Idle(p), PositionsOf(p, user));
    assert View(b) == p.data;
    HoldersOk(p, user);
    hide AccountsOk;
    CalculateKeeps(b, u, Pow10(decimals), |p.resList|);
    var data := Calculate(b, u, Pow10(decimals), |p.resList|).value;
    QuotedWithin(p, u, data, percent);
  }

  /** The health factor is a floor: comparing it is comparing products. */
  lemma HealthFactorMeaning(data: PositionData, x: int)
    requires data.liabilityBase > 0
    ensures AsHealthFactor(data) >= x <==> data.collateralBase * data.scalar >= x * data.liabilityBase
  {
    hide Floor;
    var a, d := data.collateralBase * data.scalar, data.liabilityBase;
    FloorBounds(a, d);
    if Floor(a, d) >= x {
      MulMono(x, Floor(a, d), d);
    }
    if a >= x * d {
      FloorGreatest(x, a, d);
    }
  }

  /** What is left of positions is well formed. */
  lemma RemovedOk(resList: seq<Address>, u: Positions, auction: AuctionData)
    requires PositionsOk(u) && AuctionOk(auction) && Removed(resList, u, auction).Ok?
    ensures PositionsOk(Removed(resList, u, auction).value)
  {
    hide TakeAll;
    assert AllPositive(auction.lot) && AllPositive(auction.bid);
    forall i: nat
      ensures var left := Removed(resList, u, auction).value;
        (i in left.collateral ==> left.collateral[i] >= 0) && (i in left.liabilities ==> left.liabilities[i] >= 0)
    {
      TakeAllTakes(resList, u.collateral, auction.lot, i);
      TakeAllTakes(resList, u.liabilities, auction.bid, i);
    }
  }

  /** At every index, a part of the balance there, rounded up by less than one unit. */
  lemma PortionIsPart(p: Pool, m: map<Address, int>, part: int, scalar: int, i: nat)
    requires Listed(p) && scalar > 0 && i < |p.resList|
    ensures PartUp(AtIndex(p.resList, Portion(p.configs, m, part, scalar), i), Amount(m, i), part, scalar)
  {
    hide Ceil;
    hide ValidMetadata;
    if i in m {
      CeilBounds(m[i] * part, scalar);
    }
  }

  /** An auction that asks for a part of every debt and offers a part of every collateral. */
  ghost predicate Offers(resList: seq<Address>, auction: AuctionData, u: Positions, scalar: int, part: int, lotPart: int)
  {
    forall i: nat :: i < |resList| ==>
      && PartUp(AtIndex(resList, auction.bid, i), Amount(u.liabilities, i), part, scalar)
      && PartUp(AtIndex(resList, auction.lot, i), Amount(u.collateral, i), lotPart, scalar)
  }

  ghost predicate HasSize(resList: seq<Address>, data: PositionData, u: Positions, percent: int, auction: AuctionData)
  {
    exists part, incentive, withdrawn, lotPart ::
      IsSized(data, percent, part, incentive, withdrawn, lotPart) && Offers(resList, auction, u, data.scalar, part, lotPart)
  }

  /** Every auction created offers the sized part of each collateral for the percentage of each debt. */
  lemma {:induction false} LiquidationIsSized(p: Pool, user: Address, percent: int, decimals: nat)
    requires BooksOk(p) && LiquidationAuction(p, user, percent, decimals).Ok?
    ensures Calculate(Idle(p), PositionsOf(p, user), Pow10(decimals), |p.resList|).Ok?
    ensures var (u, data) := (PositionsOf(p, user), Calculate(Idle(p), PositionsOf(p, user), Pow10(decimals), |p.resList|).value);
      var auction := LiquidationAuction(p, user, percent, decimals).value;
      HasSize(p.resList, data, u, percent, auction)
  {
    hide Calculate;
    hide Removed;
    hide IsHfOver;
    hide IsHfUnder;
    hide Pow10;
    hide Incentive;
    hide IsSized;
    hide Part;
    hide Withdrawn;
    hide WithdrawnPart;
    hide Portion;
    hide AtIndex;
    hide PartUp;
    hide ReservesOk;
    hide SharesAgree;
    var (b, u) := (Idle(p), PositionsOf(p, user));
    assert View(b) == p.data;
    HoldersOk(p, user);
    hide AccountsOk;
    CalculateKeeps(b, u, Pow10(decimals), |p.resList|);
    var data := Calculate(b, u, Pow10(decimals), |p.resList|).value;
    QuoteIsSized(p, u, data, percent);
    hide PositionDataOk;
    var (part, withdrawn) := (Part(percent, data.scalar), Quoted(p, u, data, percent).value.1);
    var lotPart := WithdrawnPart(data, withdrawn).value;
    assert Listed(p);
    hide Listed;
    forall i: nat | i < |p.resList|
      ensures PartUp(AtIndex(p.resList, Portion(p.configs, u.liabilities, part, data.scalar), i), Amount(u.liabilities, i), part, data.scalar)
      ensures PartUp(AtIndex(p.resList, Portion(p.configs, u.collateral, lotPart, data.scalar), i), Amount(u.collateral, i), lotPart, data.scalar)
    {
      PortionIsPart(p, u.liabilities, part, data.scalar, i);
      PortionIsPart(p, u.collateral, lotPart, data.scalar, i);
    }
    hide Quoted;
    SizeIs(p.resList, data, u, percent, LiquidationAuction(p, user, percent, decimals).value, part, Incentive(data).value, withdrawn, lotPart);
  }

  lemma SizeIs(resList: seq<Address>, data: PositionData, u: Positions, percent: int, auction: AuctionData,
               part: int, incentive: int, withdrawn: int, lotPart: int)
    requires IsSized(data, percent, part, incentive, withdrawn, lotPart) && Offers(resList, auction, u, data.scalar, part, lotPart)
    ensures HasSize(resList, data, u, percent, auction)
  {
    hide IsSized;
    hide Offers;
  }

  /** The user's collateral is worth more than the debt by more than rounding can take. */
  ghost predicate ClearlyAbove(b: Batch, u: Positions)
  {
    var n := |b.pool.resList|;
    DebtWorth(b, u, n) + Dust(b, u, n) < CollateralWorth(b, u, n) - (2 * n) as real
  }

  ghost predicate NotAbove(b: Batch, u: Positions)
  {
    CollateralWorth(b, u, |b.pool.resList|) <= DebtWorth(b, u, |b.pool.resList|)
  }

  /** The band a partial liquidation must end in, in the oracle's decimals. */
  function BandLow(decimals: nat): int { Floor(Pow10(decimals) * 1_0300000, SCALAR_7) }
  function BandHigh(decimals: nat): int { Ceil(Pow10(decimals) * 1_1500000, SCALAR_7) + 1 }

  lemma BandsNonNegative(decimals: nat)
    ensures 0 <= BandLow(decimals) && 0 <= BandHigh(decimals)
  {
    FloorNonNeg(Pow10(decimals) * 1_0300000, SCALAR_7);
    CeilNonNeg(Pow10(decimals) * 1_1500000, SCALAR_7);
    hide Pow10;
    hide Floor;
    hide Ceil;
  }

  /** What the two checks on a partial liquidation decide, on the rounded sums. */
  lemma BandChecksAre(data: PositionData, decimals: nat)
    requires PositionDataOk(data) && data.scalar == Pow10(decimals)
    ensures !IsHfUnder(data, 1_0300000) <==> BandLow(decimals) * data.liabilityBase <= data.collateralBase * data.scalar
    ensures !IsHfOver(data, 1_1500000) <==>
      data.liabilityBase > 0 && data.collateralBase * data.scalar < BandHigh(decimals) * data.liabilityBase
  {
    hide Floor;
    hide Ceil;
    if data.liabilityBase > 0 {
      HealthFactorMeaning(data, BandLow(decimals));
      HealthFactorMeaning(data, BandHigh(decimals));
    } else {
      MulMono(0, data.collateralBase, data.scalar);
    }
    hide AsHealthFactor;
    hide Pow10;
  }

  lemma AboveArithmetic(debt: int, collateral: int, slack: int, cw: real, dw: real, dust: real)
    requires collateral as real <= cw <= (collateral + slack) as real && dw <= debt as real <= dw + dust
    ensures dw + dust < cw - slack as real ==> debt < collateral
    ensures cw <= dw ==> collateral <= debt
  {}

  lemma UserIsOk(p: Pool, user: Address, decimals: nat)
    requires BooksOk(p) && Calculate(Idle(p), PositionsOf(p, user), Pow10(decimals), |p.resList|).Ok?
    ensures PositionsOk(PositionsOf(p, user)) && Listed(p) && BatchOk(Idle(p))
    ensures PositionDataOk(Calculate(Idle(p), PositionsOf(p, user), Pow10(decimals), |p.resList|).value)
  {
    hide Calculate;
    hide Pow10;
    hide ReservesOk;
    hide SharesAgree;
    assert View(Idle(p)) == p.data;
    HoldersOk(p, user);
    hide AccountsOk;
    CalculateKeeps(Idle(p), PositionsOf(p, user), Pow10(decimals), |p.resList|);
  }

  /** Only users whose collateral is not clearly worth more than their debt can be liquidated. */
  lemma {:induction false} HealthyAreSafe(p: Pool, user: Address, percent: int, decimals: nat)
    requires BooksOk(p) && LiquidationAuction(p, user, percent, decimals).Ok?
    ensures !ClearlyAbove(Idle(p), PositionsOf(p, user))
  {
    hide Calculate;
    hide Quoted;
    hide Removed;
    hide Pow10;
    hide BooksOk;
    UserIsOk(p, user, decimals);
    hide BatchOk;
    hide Listed;
    hide CollateralWorth;
    hide DebtWorth;
    hide Dust;
    var (b, u, n) := (Idle(p), PositionsOf(p, user), |p.resList|);
    CalculateIsWorth(b, u, Pow10(decimals), n);
    var data := Calculate(b, u, Pow10(decimals), n).value;
    AboveArithmetic(data.liabilityBase, data.collateralBase, 2 * n, CollateralWorth(b, u, n), DebtWorth(b, u, n), Dust(b, u, n));
  }

  /** What a partial liquidation takes when filled in whole leaves well-formed positions with a computable health. */
  lemma PartialLeaves(p: Pool, user: Address, percent: int, decimals: nat)
    requires BooksOk(p) && percent < 100 && LiquidationAuction(p, user, percent, decimals).Ok?
    ensures var left := Removed(p.resList, PositionsOf(p, user), LiquidationAuction(p, user, percent, decimals).value);
      && left.Ok? && PositionsOk(left.value)
      && Calculate(Idle(p), left.value, Pow10(decimals), |p.resList|).Ok?
      && PositionDataOk(Calculate(Idle(p), left.value, Pow10(decimals), |p.resList|).value)
  {
    hide Calculate;
    hide Removed;
    hide Quoted;
    hide Pow10;
    hide IsHfOver;
    hide IsHfUnder;
    hide Within;
    hide AuctionOk;
    hide PositionsOk;
    hide BooksOk;
    hide BatchOk;
    hide PositionDataOk;
    LiquidationWithin(p, user, percent, decimals);
    var auction := LiquidationAuction(p, user, percent, decimals).value;
    UserIsOk(p, user, decimals);
    RemovedOk(p.resList, PositionsOf(p, user), auction);
    CalculateKeeps(Idle(p), Removed(p.resList, PositionsOf(p, user), auction).value, Pow10(decimals), |p.resList|);
  }

  /** A partial liquidation is accepted only if, filled in whole, it leaves collateral worth at least 1.03 times the
      debt and not clearly 1.15 times or more. */
  lemma {:induction false} LiquidationLeavesHealth(p: Pool, user: Address, percent: int, decimals: nat)
    requires BooksOk(p) && percent < 100 && LiquidationAuction(p, user, percent, decimals).Ok?
    ensures var left := Removed(p.resList, PositionsOf(p, user), LiquidationAuction(p, user, percent, decimals).value);
      && left.Ok? && PositionsOk(left.value)
      && Covers(Idle(p), left.value, Pow10(decimals), BandLow(decimals))
      && !ClearlyCovers(Idle(p), left.value, Pow10(decimals), BandHigh(decimals))
  {
    hide Calculate;
    hide Removed;
    hide Quoted;
    hide Pow10;
    hide Covers;
    hide ClearlyCovers;
    hide PositionsOk;
    hide BandLow;
    hide BandHigh;
    BandsNonNegative(decimals);
    PartialLeaves(p, user, percent, decimals);
    assert Listed(p);
    hide BooksOk;
    var (b, s) := (Idle(p), Pow10(decimals));
    var left := Removed(p.resList, PositionsOf(p, user), LiquidationAuction(p, user, percent, decimals).value).value;
    BandChecksAre(Calculate(b, left, s, |p.resList|).value, decimals);
    hide IsHfOver;
    hide IsHfUnder;
    CheckIsCover(b, left, s, BandLow(decimals));
    CheckIsCover(b, left, s, BandHigh(decimals));
    hide Listed;
    hide PositionDataOk;
  }

  /** And accepted if the user's collateral is worth no more than the debt and what is left is clearly worth at least
      1.03 times the debt and less than 1.15 times, provided the amounts can be computed and taken. */
  lemma {:induction false} LiquidationAccepted(p: Pool, user: Address, percent: int, decimals: nat)
    requires BooksOk(p) && user !in p.liquidations && 0 < percent < 100
    requires Calculate(Idle(p), PositionsOf(p, user), Pow10(decimals), |p.resList|).Ok?
    requires var (u, data) := (PositionsOf(p, user), Calculate(Idle(p), PositionsOf(p, user), Pow10(decimals), |p.resList|).value);
      && data.scalar > 0 && Quoted(p, u, data, percent).Ok?
      && (forall i :: i in u.collateral.Keys + u.liabilities.Keys ==> i < |p.resList|)
      && NotAbove(Idle(p), u)
      && var left := Removed(p.resList, u, Quoted(p, u, data, percent).value.0);
      && left.Ok? && Calculate(Idle(p), left.value, Pow10(decimals), |p.resList|).Ok?
      && ClearlyCovers(Idle(p), left.value, Pow10(decimals), BandLow(decimals))
      && !Covers(Idle(p), left.value, Pow10(decimals), BandHigh(decimals))
    ensures LiquidationAuction(p, user, percent, decimals).Ok?
  {
    hide Calculate;
    hide Removed;
    hide Quoted;
    hide Pow10;
    hide Covers;
    hide ClearlyCovers;
    hide CollateralWorth;
    hide DebtWorth;
    hide Dust;
    UserIsOk(p, user, decimals);
    hide BooksOk;
    var (b, u, s, n) := (Idle(p), PositionsOf(p, user), Pow10(decimals), |p.resList|);
    CalculateIsWorth(b, u, s, n);
    var data := Calculate(b, u, s, n).value;
    AboveArithmetic(data.liabilityBase, data.collateralBase, 2 * n, CollateralWorth(b, u, n), DebtWorth(b, u, n), Dust(b, u, n));
    QuotedWithin(p, u, data, percent);
    var auction := Quoted(p, u, data, percent).value.0;
    hide Within;
    RemovedOk(p.resList, u, auction);
    hide PositionsOk;
    hide BatchOk;
    hide Listed;
    LeftInBand(b, Removed(p.resList, u, auction).value, decimals);
    AcceptedByChecks(p, user, percent, decimals);
  }

  lemma LeftInBand(b: Batch, left: Positions, decimals: nat)
    requires BatchOk(b) && PositionsOk(left) && Calculate(b, left, Pow10(decimals), |b.pool.resList|).Ok?
    requires ClearlyCovers(b, left, Pow10(decimals), BandLow(decimals))
    requires !Covers(b, left, Pow10(decimals), BandHigh(decimals))
    ensures var after := Calculate(b, left, Pow10(decimals), |b.pool.resList|).value;
      !IsHfOver(after, 1_1500000) && !IsHfUnder(after, 1_0300000)
  {
    hide Calculate;
    hide Pow10;
    hide Covers;
    hide ClearlyCovers;
    hide BandLow;
    hide BandHigh;
    hide IsHfOver;
    hide IsHfUnder;
    hide PositionsOk;
    var (s, n) := (Pow10(decimals), |b.pool.resList|);
    assert Listed(b.pool);
    hide BatchOk;
    hide Listed;
    BandsNonNegative(decimals);
    CalculateKeeps(b, left, s, n);
    var after := Calculate(b, left, s, n).value;
    BandChecksAre(after, decimals);
    CheckIsCover(b, left, s, BandLow(decimals));
    CheckIsCover(b, left, s, BandHigh(decimals));
    MulMono(0, after.collateralBase, s);
  }

  lemma AcceptedByChecks(p: Pool, user: Address, percent: int, decimals: nat)
    requires user !in p.liquidations && 0 < percent < 100
    requires Calculate(Idle(p), PositionsOf(p, user), Pow10(decimals), |p.resList|).Ok?
    requires var (u, data) := (PositionsOf(p, user), Calculate(Idle(p), PositionsOf(p, user), Pow10(decimals), |p.resList|).value);
      && data.scalar > 0 && data.collateralBase <= data.liabilityBase && Quoted(p, u, data, percent).Ok?
      && (forall i :: i in u.collateral.Keys + u.liabilities.Keys ==> i < |p.resList|)
      && var left := Removed(p.resList, u, Quoted(p, u, data, percent).value.0);
      && left.Ok? && Calculate(Idle(p), left.value, Pow10(decimals), |p.resList|).Ok?
      && var after := Calculate(Idle(p), left.value, Pow10(decimals), |p.resList|).value;
         !IsHfOver(after, 1_1500000) && !IsHfUnder(after, 1_0300000)
    ensures LiquidationAuction(p, user, percent, decimals).Ok?
  {
    hide Calculate;
    hide Removed;
    hide Quoted;
    hide Pow10;
    hide IsHfOver;
    hide IsHfUnder;
  }

  // ----- fills of the auction -----

  /** A fill and what it leaves, at one index. */
  lemma FillAtIndex(resList: seq<Address>, auction: AuctionData, percent: int, block: nat, i: nat)
    requires AuctionOk(auction) && Scale(auction, percent, block).Ok?
    ensures var (fill, rest) := (Scale(auction, percent, block).value.0, Rest(auction, percent, block));
      && 0 <= AtIndex(resList, fill.lot, i) <= AtIndex(resList, auction.lot, i) - AtIndex(resList, rest.lot, i)
      && 0 <= AtIndex(resList, fill.bid, i) <= AtIndex(resList, auction.bid, i) - AtIndex(resList, rest.bid, i)
      && 0 <= AtIndex(resList, rest.lot, i) && 0 <= AtIndex(resList, rest.bid, i)
  {
    hide Scale;
    hide Rest;
    FillConserves(auction, percent, block, if i < |resList| then resList[i] else 0);
  }

  /** At every index: amounts that can be taken from a balance, and leave room for a rest. */
  ghost predicate Room(resList: seq<Address>, m: map<Address, int>, amounts: map<Address, int>, rest: map<Address, int>)
  {
    forall i: nat :: AtIndex(resList, amounts, i) + AtIndex(resList, rest, i) <= Amount(m, i) && AtIndex(resList, rest, i) >= 0
  }

  lemma TakeWithin(resList: seq<Address>, m: map<Address, int>, amounts: map<Address, int>, rest: map<Address, int>)
    requires (forall i :: i in m ==> m[i] >= 0) && AllPositive(amounts) && Room(resList, m, amounts, rest)
    ensures TakeAll(resList, m, amounts).Ok?
    ensures var n := TakeAll(resList, m, amounts).value;
      (forall i :: i in n ==> n[i] >= 0) && forall i: nat :: AtIndex(resList, rest, i) <= Amount(n, i)
  {
    assert TakeAll(resList, m, amounts).Ok? by {
      hide AtIndex;
      forall i: nat | i < |resList|
        ensures Amount(m, i) >= AtIndex(resList, amounts, i)
      {
        assert AtIndex(resList, amounts, i) + AtIndex(resList, rest, i) <= Amount(m, i);
      }
    }
    hide TakeAll;
    hide AtIndex;
    forall i: nat
      ensures AtIndex(resList, rest, i) <= Amount(TakeAll(resList, m, amounts).value, i)
      ensures i in TakeAll(resList, m, amounts).value ==> TakeAll(resList, m, amounts).value[i] >= 0
    {
      TakeAllTakes(resList, m, amounts, i);
    }
  }

  /** A fill of an auction within the user's positions goes through, and what is left of the auction is
      within what is left of the positions. */
  lemma {:induction false} FillWithin(resList: seq<Address>, auction: AuctionData, u: Positions, f: Positions, percent: int, block: nat)
    requires AuctionOk(auction) && PositionsOk(u) && Within(resList, auction, u)
    requires Scale(auction, percent, block).Ok?
    ensures var fill := Scale(auction, percent, block).value.0;
      MovePositions(resList, u, f, fill.lot, fill.bid).Ok?
      && PositionsOk(MovePositions(resList, u, f, fill.lot, fill.bid).value.0)
      && AuctionOk(Rest(auction, percent, block))
      && Within(resList, Rest(auction, percent, block), MovePositions(resList, u, f, fill.lot, fill.bid).value.0)
  {
    hide Scale;
    hide Rest;
    hide AllPositive;
    hide GiveAll;
    hide TakeAll;
    hide AtIndex;
    hide AuctionOk;
    hide Room;
    var fill := Scale(auction, percent, block).value.0;
    var rest := Rest(auction, percent, block);
    FillPositive(auction, percent, block);
    FillConserves(auction, percent, block, 0);
    FillLeavesRoom(resList, auction, u, percent, block);
    TakeWithin(resList, u.collateral, fill.lot, rest.lot);
    TakeWithin(resList, u.liabilities, fill.bid, rest.bid);
  }

  lemma FillLeavesRoom(resList: seq<Address>, auction: AuctionData, u: Positions, percent: int, block: nat)
    requires AuctionOk(auction) && Within(resList, auction, u) && Scale(auction, percent, block).Ok?
    ensures var (fill, rest) := (Scale(auction, percent, block).value.0, Rest(auction, percent, block));
      Room(resList, u.collateral, fill.lot, rest.lot) && Room(resList, u.liabilities, fill.bid, rest.bid)
  {
    hide Scale;
    hide Rest;
    hide AtIndex;
    hide AuctionOk;
    var (fill, rest) := (Scale(auction, percent, block).value.0, Rest(auction, percent, block));
    forall i: nat
      ensures AtIndex(resList, fill.lot, i) + AtIndex(resList, rest.lot, i) <= Amount(u.collateral, i) && AtIndex(resList, rest.lot, i) >= 0
    {
      FillAtIndex(resList, auction, percent, block, i);
    }
    forall i: nat
      ensures AtIndex(resList, fill.bid, i) + AtIndex(resList, rest.bid, i) <= Amount(u.liabilities, i) && AtIndex(resList, rest.bid, i) >= 0
    {
      FillAtIndex(resList, auction, percent, block, i);
    }
  }

  /** Whether every fill of a sequence that the auction accepts also finds the positions it moves. */
  ghost predicate NeverUnderflows(resList: seq<Address>, auction: AuctionData, u: Positions, f: Positions, fills: seq<Fill>)
    decreases |fills|
  {
    fills == [] ||
    (var next := fills[0];
     if Scale(auction, next.percent, next.block).Abort? then NeverUnderflows(resList, auction, u, f, fills[1..])
     else
       var fill := Scale(auction, next.percent, next.block).value.0;
       var moved := MovePositions(resList, u, f, fill.lot, fill.bid);
       moved.Ok?
       && NeverUnderflows(resList, Rest(auction, next.percent, next.block), moved.value.0, moved.value.1, fills[1..]))
  }

  lemma {:induction false} FillsNeverUnderflow(resList: seq<Address>, auction: AuctionData, u: Positions, f: Positions, fills: seq<Fill>)
    requires AuctionOk(auction) && PositionsOk(u) && Within(resList, auction, u)
    ensures NeverUnderflows(resList, auction, u, f, fills)
    decreases |fills|
  {
    hide Scale;
    hide Rest;
    hide Within;
    hide AuctionOk;
    hide PositionsOk;
    hide MovePositions;
    if fills == [] {
      return;
    }
    var next := fills[0];
    if Scale(auction, next.percent, next.block).Abort? {
      FillsNeverUnderflow(resList, auction, u, f, fills[1..]);
    } else {
      FillWithin(resList, auction, u, f, next.percent, next.block);
      var fill := Scale(auction, next.percent, next.block).value.0;
      var moved := MovePositions(resList, u, f, fill.lot, fill.bid).value;
      FillsNeverUnderflow(resList, Rest(auction, next.percent, next.block), moved.0, moved.1, fills[1..]);
    }
  }

  /** No sequence of fills, of any percentages at any blocks, underflows the positions a liquidation was sized
      for. */
  lemma {:induction false} LiquidationNeverUnderflows(p: Pool, user: Address, percent: int, decimals: nat, filler: Positions, fills: seq<Fill>)
    requires BooksOk(p) && LiquidationAuction(p, user, percent, decimals).Ok?
    ensures NeverUnderflows(p.resList, LiquidationAuction(p, user, percent, decimals).value, PositionsOf(p, user), filler, fills)
  {
    hide NeverUnderflows;
    hide LiquidationAuction;
    hide Within;
    HoldersOk(p, user);
    LiquidationWithin(p, user, percent, decimals);
    FillsNeverUnderflow(p.resList, LiquidationAuction(p, user, percent, decimals).value, PositionsOf(p, user), filler, fills);
  }
}
