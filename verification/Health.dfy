/** The worth of a user's collateral and liabilities, and the health factor between them
    (pool/src/pool/health_factor.rs). */
module Health {
  import opened Outcomes
  import opened FixedPoint
  import opened Totals
  import opened Interest
  import opened Reserves
  import opened PoolUsers
  import opened PoolStates

  /** Collateral and liabilities in the base asset: weighted by their factors, and raw. */
  datatype PositionData = PositionData(collateralBase: int, collateralRaw: int, liabilityBase: int, liabilityRaw: int, scalar: int)

  /** One reserve's part. Every asset counts one unit of the base asset per token. */
  function Weigh(data: PositionData, c: ReserveConfig, r: ReserveData, bTokens: int, dTokens: int): (n: Outcome<PositionData>)
    ensures n.Ok? ==> n.value.scalar == data.scalar
  {
    var scalar := Pow10(c.decimals);
    var withB := if bTokens > 0 then
        data.(collateralBase := data.collateralBase + Floor(EffectiveAssetFromB(c, r, bTokens), scalar),
              collateralRaw := data.collateralRaw + Floor(AssetFromB(r, bTokens), scalar))
      else data;
    if dTokens > 0 then
      var effective :- EffectiveAssetFromD(c, r, dTokens);
      Ok(withB.(liabilityBase := withB.liabilityBase + Ceil(effective, scalar),
                liabilityRaw := withB.liabilityRaw + Ceil(AssetFromD(r, dTokens), scalar)))
    else Ok(withB)
  }

  /** The position data over the first k listed reserves (calculate_from_positions). */
  function Calculate(b: Batch, u: Positions, scalar: int, k: nat): (n: Outcome<PositionData>)
    requires k <= |b.pool.resList|
    ensures n.Ok? ==> n.value.scalar == scalar
    decreases k
  {
    if k == 0 then Ok(PositionData(0, 0, 0, 0, scalar))
    else
      var data :- Calculate(b, u, scalar, k - 1);
      var (bTokens, dTokens) := (Amount(u.collateral, k - 1), Amount(u.liabilities, k - 1));
      if bTokens == 0 && dTokens == 0 then Ok(data)
      else
        var r :- LoadReserve(b, b.pool.resList[k - 1]);
        Weigh(data, b.pool.configs[b.pool.resList[k - 1]], r, bTokens, dTokens)
  }

  /** A prefix that aborts makes the whole abort the same way. */
  lemma {:induction false} AbortStays(b: Batch, u: Positions, scalar: int, k: nat, n: nat)
    requires k <= n <= |b.pool.resList| && Calculate(b, u, scalar, k).Abort?
    ensures Calculate(b, u, scalar, n) == Calculate(b, u, scalar, k)
    decreases n
  {
    hide Weigh;
    hide LoadReserve;
    if k < n {
      AbortStays(b, u, scalar, k, n - 1);
    }
  }

  /** The loop over the reserve list. */
  method CalculateFromPositions(b: Batch, u: Positions, scalar: int) returns (result: Outcome<PositionData>)
    ensures result == Calculate(b, u, scalar, |b.pool.resList|)
  {
    hide Weigh;
    var data := PositionData(0, 0, 0, 0, scalar);
    var i := 0;
    while i < |b.pool.resList|
      invariant 0 <= i <= |b.pool.resList|
      invariant Calculate(b, u, scalar, i) == Ok(data)
    {
      var bTokens, dTokens := Amount(u.collateral, i), Amount(u.liabilities, i);
      if bTokens != 0 || dTokens != 0 {
        var reserve := LoadReserve(b, b.pool.resList[i]);
        if reserve.Abort? {
          AbortStays(b, u, scalar, i + 1, |b.pool.resList|);
          return Abort(reserve.error);
        }
        var next := Weigh(data, b.pool.configs[b.pool.resList[i]], reserve.value, bTokens, dTokens);
        if next.Abort? {
          AbortStays(b, u, scalar, i + 1, |b.pool.resList|);
          return Abort(next.error);
        }
        data := next.value;
      }
      i := i + 1;
    }
    return Ok(data);
  }

  function AsHealthFactor(data: PositionData): int
  {
    var r := DivFloor(data.collateralBase * data.scalar, data.liabilityBase);
    if r.Ok? then r.value else 0
  }

  predicate IsHfOver(data: PositionData, max: int)
  {
    data.liabilityBase == 0 || AsHealthFactor(data) > Ceil(data.scalar * max, SCALAR_7)
  }

  predicate IsHfUnder(data: PositionData, min: int)
  {
    data.liabilityBase != 0 && AsHealthFactor(data) < Floor(data.scalar * min, SCALAR_7)
  }
}
