/** A lending reserve: interest accrual on load and the conversions between tokens and underlying,
    each rounded against the caller (pool/src/pool/reserve.rs). */
module Reserves {
  import opened Outcomes
  import opened FixedPoint
  import opened Interest

  /** The stored reserve data. */
  datatype ReserveData = ReserveData(
    dRate: int, bRate: int, irMod: int, bSupply: int, dSupply: int, backstopCredit: int, lastTime: nat)

  // ----- conversions -----

  function AssetFromD(r: ReserveData, dTokens: int): int { Ceil(dTokens * r.dRate, SCALAR_9) }
  function AssetFromB(r: ReserveData, bTokens: int): int { Floor(bTokens * r.bRate, SCALAR_9) }

  function EffectiveAssetFromD(c: ReserveConfig, r: ReserveData, dTokens: int): Outcome<int>
  {
    DivCeil(AssetFromD(r, dTokens) * SCALAR_7, c.lFactor)
  }

  function EffectiveAssetFromB(c: ReserveConfig, r: ReserveData, bTokens: int): int
  {
    Floor(AssetFromB(r, bTokens) * c.cFactor, SCALAR_7)
  }

  function DTokenUp(r: ReserveData, amount: int): Outcome<int> { DivCeil(amount * SCALAR_9, r.dRate) }
  function DTokenDown(r: ReserveData, amount: int): Outcome<int> { DivFloor(amount * SCALAR_9, r.dRate) }
  function BTokenUp(r: ReserveData, amount: int): Outcome<int> { DivCeil(amount * SCALAR_9, r.bRate) }
  function BTokenDown(r: ReserveData, amount: int): Outcome<int> { DivFloor(amount * SCALAR_9, r.bRate) }

  function TotalLiabilities(r: ReserveData): int { AssetFromD(r, r.dSupply) }
  function TotalSupply(r: ReserveData): int { AssetFromB(r, r.bSupply) }

  function Utilization(r: ReserveData): Outcome<int>
  {
    DivCeil(TotalLiabilities(r) * SCALAR_7, TotalSupply(r))
  }

  // ----- accrual -----

  /** Apply a loan growth to the rates and credit the backstop its share. */
  function ApplyAccrual(r: ReserveData, bstopRate: nat, ratio: int): Outcome<ReserveData>
  {
    var grown := r.(dRate := Ceil(ratio * r.dRate, SCALAR_9));
    var interest := TotalLiabilities(grown) - TotalLiabilities(r);
    if interest > 0 then
      var credit := if bstopRate > 0 then Floor(interest * bstopRate, SCALAR_7) else 0;
      var bRate :- DivFloor((TotalSupply(r) + interest - credit) * SCALAR_9, r.bSupply);
      Ok(grown.(backstopCredit := r.backstopCredit + credit, bRate := bRate))
    else Ok(grown)
  }

  /** The reserve brought to the time `now` (Reserve::load). */
  function Load(c: ReserveConfig, bstopRate: nat, r: ReserveData, now: nat): Outcome<ReserveData>
  {
    if now == r.lastTime then Ok(r)
    else if r.bSupply == 0 then Ok(r.(lastTime := now))
    else
      var util :- Utilization(r);
      if util == 0 then Ok(r.(lastTime := now))
      else
        var (ratio, irMod) :- CalcAccrual(c, util, r.irMod, r.lastTime, now);
        var grown :- ApplyAccrual(r, bstopRate, ratio);
        Ok(grown.(irMod := irMod, lastTime := now))
  }

  // ----- the loaded reserve, updated in place -----

  class Reserve {
    const config: ReserveConfig
    var dRate: int
    var bRate: int
    var irMod: int
    var bSupply: int
    var dSupply: int
    var backstopCredit: int
    var lastTime: nat

    function Value(): ReserveData
      reads this
    {
      ReserveData(dRate, bRate, irMod, bSupply, dSupply, backstopCredit, lastTime)
    }

    constructor (c: ReserveConfig, r: ReserveData)
      ensures Value() == r && config == c
    {
      config := c;
      dRate, bRate, irMod := r.dRate, r.bRate, r.irMod;
      bSupply, dSupply, backstopCredit, lastTime := r.bSupply, r.dSupply, r.backstopCredit, r.lastTime;
    }

    method BringToNow(bstopRate: nat, now: nat) returns (result: Outcome<()>)
      modifies this
      ensures var spec := Load(config, bstopRate, old(Value()), now);
        if spec.Ok? then result.Ok? && Value() == spec.value else result == Abort(spec.error)
    {
      hide CalcAccrual;
      hide Floor;
      hide Ceil;
      if now == lastTime {
        return Ok(());
      }
      if bSupply == 0 {
        lastTime := now;
        return Ok(());
      }
      var curUtil := Utilization(Value());
      if curUtil.Abort? {
        return Abort(curUtil.error);
      }
      if curUtil.value == 0 {
        lastTime := now;
        return Ok(());
      }
      var accrual := CalcAccrual(config, curUtil.value, irMod, lastTime, now);
      if accrual.Abort? {
        return Abort(accrual.error);
      }
      var (loanAccrual, newIrMod) := accrual.value;
      irMod := newIrMod;
      var preUpdateSupply := TotalSupply(Value());
      var preUpdateLiabilities := TotalLiabilities(Value());
      dRate := Ceil(loanAccrual * dRate, SCALAR_9);
      var accruedInterest := TotalLiabilities(Value()) - preUpdateLiabilities;
      if accruedInterest > 0 {
        var newBackstopCredit := 0;
        if bstopRate > 0 {
          newBackstopCredit := Floor(accruedInterest * bstopRate, SCALAR_7);
          backstopCredit := backstopCredit + newBackstopCredit;
        }
        // the supply is not zero here, so this division is defined
        bRate := DivFloor((preUpdateSupply + accruedInterest - newBackstopCredit) * SCALAR_9, bSupply).value;
      }
      lastTime := now;
      return Ok(());
    }
  }

  // ----- what a stored reserve promises -----

  ghost predicate ReserveOk(r: ReserveData)
  {
    && r.dRate >= SCALAR_9 && r.bRate >= SCALAR_9
    && IR_MOD_MIN <= r.irMod <= IR_MOD_MAX
    && r.bSupply >= 0 && r.dSupply >= 0
  }

  /** What the reserve owes beyond what it is owed; the pool's cash must cover it. */
  function NetOwed(r: ReserveData): int
  {
    TotalSupply(r) + r.backstopCredit - TotalLiabilities(r)
  }

  /** With a rate of at least one, a positive amount of b tokens is worth something. */
  lemma SupplyAtLeastTokens(r: ReserveData)
    requires ReserveOk(r)
    ensures TotalSupply(r) >= r.bSupply && TotalLiabilities(r) >= r.dSupply
  {
    hide Floor;
    hide Ceil;
    MulMono(SCALAR_9, r.bRate, r.bSupply);
    FloorGreatest(r.bSupply, r.bSupply * r.bRate, SCALAR_9);
    MulMono(SCALAR_9, r.dRate, r.dSupply);
    CeilBounds(r.dSupply * r.dRate, SCALAR_9);
    MultiplesOrdered(r.dSupply, TotalLiabilities(r), SCALAR_9);
  }

  /** Utilisation is defined whenever there is supply, and positive whenever there is debt. */
  lemma UtilizationDefined(r: ReserveData)
    requires ReserveOk(r) && r.bSupply > 0
    ensures Utilization(r).Ok? && Utilization(r).value >= 0
    ensures Utilization(r).value == 0 <==> r.dSupply == 0
  {
    hide Floor;
    hide Ceil;
    SupplyAtLeastTokens(r);
    var l, s := TotalLiabilities(r) * SCALAR_7, TotalSupply(r);
    CeilNonNeg(l, s);
    CeilBounds(l, s);
    FloorExact(0, SCALAR_9);
    FloorExact(0, s);
  }

  /** The growth of the debt under a ratio of at least one. */
  function InterestAt(r: ReserveData, ratio: int): int
  {
    Ceil(r.dSupply * Ceil(ratio * r.dRate, SCALAR_9), SCALAR_9) - TotalLiabilities(r)
  }

  /** A larger ratio never lowers the debtors' rate or the interest. */
  lemma InterestMonotone(r: ReserveData, ratio: int, larger: int)
    requires ReserveOk(r) && SCALAR_9 <= ratio <= larger
    ensures r.dRate <= Ceil(ratio * r.dRate, SCALAR_9) <= Ceil(larger * r.dRate, SCALAR_9)
    ensures 0 <= InterestAt(r, ratio) <= InterestAt(r, larger)
  {
    hide Floor;
    hide Ceil;
    MulMono(SCALAR_9, ratio, r.dRate);
    MulMono(ratio, larger, r.dRate);
    FloorExact(r.dRate, SCALAR_9);
    CeilMono(r.dRate * SCALAR_9, ratio * r.dRate, SCALAR_9);
    CeilMono(ratio * r.dRate, larger * r.dRate, SCALAR_9);
    var x, y := Ceil(ratio * r.dRate, SCALAR_9), Ceil(larger * r.dRate, SCALAR_9);
    MulMono(r.dRate, x, r.dSupply);
    MulMono(x, y, r.dSupply);
    CeilMono(r.dSupply * r.dRate, r.dSupply * x, SCALAR_9);
    CeilMono(r.dSupply * x, r.dSupply * y, SCALAR_9);
  }

  /** The backstop's share of some interest is less than all of it. */
  lemma TakeIsPart(interest: int, bstopRate: nat)
    requires interest > 0 && bstopRate < SCALAR_7
    ensures 0 <= Floor(interest * bstopRate, SCALAR_7) < interest
  {
    hide Floor;
    MulMono(0, bstopRate, interest);
    FloorNonNeg(interest * bstopRate, SCALAR_7);
    ScaledFloor(interest * bstopRate);
    MulMono(bstopRate, SCALAR_7 - 1, interest);
    MulDistributes(interest, SCALAR_7, -1);
  }

  /** Rebuilding the b rate from the floored supply plus at least one unit never lowers it, pays out at
      most that supply, and loses less than bSupply / SCALAR_9 + 1 units. */
  lemma {:induction false} RateRebuilt(bSupply: int, bRate: int, gain: int)
    requires bSupply > 0 && gain > 0
    ensures var supply := Floor(bSupply * bRate, SCALAR_9) + gain;
      var rebuilt := Floor(supply * SCALAR_9, bSupply);
      && bRate <= rebuilt
      && Floor(bSupply * rebuilt, SCALAR_9) <= supply
      && (supply - Floor(bSupply * rebuilt, SCALAR_9)) * SCALAR_9 < bSupply + SCALAR_9
  {
    hide Floor;
    var supply := Floor(bSupply * bRate, SCALAR_9) + gain;
    var rebuilt := Floor(supply * SCALAR_9, bSupply);
    FloorBounds(bSupply * bRate, SCALAR_9);
    MulDistributes(SCALAR_9, Floor(bSupply * bRate, SCALAR_9), gain);
    MulMono(1, gain, SCALAR_9);
    FloorGreatest(bRate, supply * SCALAR_9, bSupply);
    FloorBounds(supply * SCALAR_9, bSupply);
    FloorBounds(bSupply * rebuilt, SCALAR_9);
    var paid := Floor(bSupply * rebuilt, SCALAR_9);
    MultiplesOrdered(paid, supply, SCALAR_9);
    MulDistributes(SCALAR_9, supply - paid, paid);
  }

  /** One accrual: rates never fall, and suppliers plus backstop receive at most the interest, short by
      less than bSupply / SCALAR_9 + 1 units. */
  lemma {:induction false} ApplyAccrualKeeps(r: ReserveData, bstopRate: nat, ratio: int)
    requires ReserveOk(r) && r.bSupply > 0 && bstopRate < SCALAR_7 && ratio >= SCALAR_9
    ensures ApplyAccrual(r, bstopRate, ratio).Ok?
    ensures var n := ApplyAccrual(r, bstopRate, ratio).value;
      && n == r.(dRate := n.dRate, bRate := n.bRate, backstopCredit := n.backstopCredit)
      && n.dRate == Ceil(ratio * r.dRate, SCALAR_9) >= r.dRate && n.bRate >= r.bRate
      && n.backstopCredit == r.backstopCredit + Floor(InterestAt(r, ratio) * bstopRate, SCALAR_7) >= r.backstopCredit
      && NetOwed(n) <= NetOwed(r)
      && (NetOwed(r) - NetOwed(n)) * SCALAR_9 < r.bSupply + SCALAR_9
  {
    hide Floor;
    hide Ceil;
    InterestMonotone(r, ratio, ratio);
    var interest := InterestAt(r, ratio);
    FloorExact(0, SCALAR_7);
    if interest > 0 {
      TakeIsPart(interest, bstopRate);
      var credit := Floor(interest * bstopRate, SCALAR_7);
      RateRebuilt(r.bSupply, r.bRate, interest - credit);
    }
  }

  /** Loading a well-formed reserve at any later time keeps it well formed; rates never fall, the modifier
      stays clamped, and what the pool's cash must cover never grows. */
  lemma {:induction false} LoadKeeps(c: ReserveConfig, bstopRate: nat, r: ReserveData, now: nat)
    requires ReserveOk(r) && ValidMetadata(c) && bstopRate < SCALAR_7 && r.lastTime <= now
    requires Load(c, bstopRate, r, now).Ok?
    ensures var n := Load(c, bstopRate, r, now).value;
      && ReserveOk(n) && n.lastTime == now
      && n.bSupply == r.bSupply && n.dSupply == r.dSupply
      && n.dRate >= r.dRate && n.bRate >= r.bRate && n.backstopCredit >= r.backstopCredit
      && NetOwed(n) <= NetOwed(r)
      && (NetOwed(r) - NetOwed(n)) * SCALAR_9 < r.bSupply + SCALAR_9
  {
    hide Floor;
    hide Ceil;
    hide CalcAccrual;
    hide ApplyAccrual;
    if now != r.lastTime && r.bSupply != 0 {
      UtilizationDefined(r);
      var util := Utilization(r).value;
      if util != 0 {
        AccrualMonotone(c, util, util, r.irMod, r.lastTime, now, now);
        IrModBounded(c, util, r.irMod, r.lastTime, now);
        ApplyAccrualKeeps(r, bstopRate, CalcAccrual(c, util, r.irMod, r.lastTime, now).value.0);
      }
    }
  }

  /** Loading fails only by overflowing the 32-bit rate sum of the last leg. */
  lemma LoadSucceeds(c: ReserveConfig, bstopRate: nat, r: ReserveData, now: nat)
    requires ReserveOk(r) && ValidMetadata(c) && bstopRate < SCALAR_7 && r.lastTime <= now
    ensures Load(c, bstopRate, r, now).Ok? <==>
      (now == r.lastTime || r.bSupply == 0 || r.dSupply == 0
        || Utilization(r).value <= UTIL_KINK || c.rTwo + c.rOne + c.rBase < U32_LIMIT)
  {
    hide Floor;
    hide Ceil;
    hide CalcAccrual;
    hide ApplyAccrual;
    if now != r.lastTime && r.bSupply != 0 {
      UtilizationDefined(r);
      var util := Utilization(r).value;
      if util != 0 {
        AccrualSucceeds(c, util, r.irMod, r.lastTime, now);
        if CalcAccrual(c, util, r.irMod, r.lastTime, now).Ok? {
          AccrualMonotone(c, util, util, r.irMod, r.lastTime, now, now);
          ApplyAccrualKeeps(r, bstopRate, CalcAccrual(c, util, r.irMod, r.lastTime, now).value.0);
        }
      }
    }
  }

  /** The longer a stored reserve waits before it is loaded, the higher its rates' debt side and the
      backstop's credit. */
  lemma {:induction false} LoadMonotone(c: ReserveConfig, bstopRate: nat, r: ReserveData, now: nat, later: nat)
    requires ReserveOk(r) && ValidMetadata(c) && bstopRate < SCALAR_7 && r.lastTime <= now <= later
    requires Load(c, bstopRate, r, now).Ok? && Load(c, bstopRate, r, later).Ok?
    ensures var n, m := Load(c, bstopRate, r, now).value, Load(c, bstopRate, r, later).value;
      n.backstopCredit <= m.backstopCredit && n.dRate <= m.dRate
  {
    hide Floor;
    hide Ceil;
    LoadKeeps(c, bstopRate, r, later);
    if now != r.lastTime && r.bSupply != 0 {
      UtilizationDefined(r);
      var util := Utilization(r).value;
      if util != 0 {
        hide CalcAccrual;
        hide ApplyAccrual;
        AccrualMonotone(c, util, util, r.irMod, r.lastTime, now, later);
        AccrualMonotone(c, util, util, r.irMod, r.lastTime, now, now);
        var x := CalcAccrual(c, util, r.irMod, r.lastTime, now).value.0;
        var y := CalcAccrual(c, util, r.irMod, r.lastTime, later).value.0;
        ApplyAccrualKeeps(r, bstopRate, x);
        ApplyAccrualKeeps(r, bstopRate, y);
        InterestMonotone(r, x, y);
        MulMono(InterestAt(r, x), InterestAt(r, y), bstopRate);
        FloorMono(InterestAt(r, x) * bstopRate, InterestAt(r, y) * bstopRate, SCALAR_7);
      }
    }
  }

  // ----- what a load does -----

  /** Utilisation is the debt over the supply, rounded up by less than one unit. */
  lemma UtilizationIsShare(r: ReserveData)
    requires ReserveOk(r) && r.bSupply > 0
    ensures Utilization(r).Ok?
    ensures (Utilization(r).value - 1) * TotalSupply(r) < TotalLiabilities(r) * SCALAR_7 <= Utilization(r).value * TotalSupply(r)
  {
    hide Ceil;
    hide Floor;
    SupplyAtLeastTokens(r);
    CeilBounds(TotalLiabilities(r) * SCALAR_7, TotalSupply(r));
    MulDistributes(TotalSupply(r), Utilization(r).value, -1);
  }

  /** A reserve without supply or without debt only notes the time. */
  lemma IdleLoad(c: ReserveConfig, bstopRate: nat, r: ReserveData, now: nat)
    requires ReserveOk(r) && (r.bSupply == 0 || r.dSupply == 0)
    ensures Load(c, bstopRate, r, now) == Ok(r.(lastTime := now))
  {
    if r.bSupply > 0 {
      UtilizationDefined(r);
    }
    hide Utilization;
    hide CalcAccrual;
    hide ApplyAccrual;
  }

  /** What a load makes of a lent reserve, the utilisation and rate being those it was stored with. */
  ghost predicate Accrued(c: ReserveConfig, bstopRate: nat, r: ReserveData, n: ReserveData, util: int, rate: int, seconds: int)
  {
    && (if util >= c.util then MovedUp(r.irMod, n.irMod, Push(c, seconds, util)) else MovedDown(r.irMod, n.irMod, Push(c, seconds, util)))
    && (exists ratio: int :: n.dRate == Ceil(ratio * r.dRate, SCALAR_9) && Yearly(ratio - SCALAR_9, rate, seconds))
    && n.backstopCredit - r.backstopCredit == Floor((TotalLiabilities(n) - TotalLiabilities(r)) * bstopRate, SCALAR_7)
  }

  /** A load moves the modifier by time, distance and reactivity, grows the debt by the rate over the time,
      and credits the backstop its part of just that growth. */
  lemma {:induction false} LoadFollowsRate(c: ReserveConfig, bstopRate: nat, r: ReserveData, now: nat)
    requires ReserveOk(r) && ValidMetadata(c) && bstopRate < SCALAR_7 && r.lastTime < now
    requires r.bSupply > 0 && r.dSupply > 0 && Load(c, bstopRate, r, now).Ok?
    ensures Utilization(r).Ok? && BorrowRate(c, Utilization(r).value, r.irMod).Ok?
    ensures Accrued(c, bstopRate, r, Load(c, bstopRate, r, now).value,
      Utilization(r).value, BorrowRate(c, Utilization(r).value, r.irMod).value, now - r.lastTime)
  {
    UtilizationDefined(r);
    var util := Utilization(r).value;
    hide Floor;
    hide Ceil;
    assert CalcAccrual(c, util, r.irMod, r.lastTime, now).Ok? && BorrowRate(c, util, r.irMod).Ok? by {
      hide BorrowRate;
      hide ApplyAccrual;
    }
    hide BorrowRate;
    hide CalcAccrual;
    hide Yearly;
    hide MovedUp;
    hide MovedDown;
    IrModReacts(c, util, r.irMod, r.lastTime, now);
    RateOnLeg(c, util, r.irMod);
    RatioIsYearly(c, util, r.irMod, r.lastTime, now);
    AccrualMonotone(c, util, util, r.irMod, r.lastTime, now, now);
    var ratio := CalcAccrual(c, util, r.irMod, r.lastTime, now).value.0;
    ApplyAccrualKeeps(r, bstopRate, ratio);
    hide ApplyAccrual;
    var n := Load(c, bstopRate, r, now).value;
    assert TotalLiabilities(n) - TotalLiabilities(r) == InterestAt(r, ratio);
  }
}
