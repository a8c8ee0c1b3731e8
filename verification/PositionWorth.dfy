/** What a user's positions are worth at the reserves' rates and factors, exactly, and how the rounded sums of
    a health check relate to it (pool/src/pool/health_factor.rs, pool/src/pool/reserve.rs). */
module PositionWorths {
  import opened FixedPoint
  import opened Totals
  import opened Interest
  import opened Reserves
  import opened PoolUsers
  import opened PoolStates
  import opened Health
  import opened LendingPoolProofs

  // ----- exact quotients -----

  ghost function Quotient(n: int, d: int): real
    requires d > 0
  {
    n as real / d as real
  }

  lemma CastProduct(a: int, b: int)
    ensures (a * b) as real == a as real * b as real
  {}

  lemma QuotientAtLeast(n: int, d: int, q: int)
    requires d > 0 && q * d <= n
    ensures q as real <= Quotient(n, d)
  {
    CastProduct(q, d);
  }

  lemma QuotientAtMost(n: int, d: int, q: int)
    requires d > 0 && n <= q * d
    ensures Quotient(n, d) <= q as real
  {
    CastProduct(q, d);
  }

  // ----- one reserve -----

  /** Weighted collateral: tokens times rate times collateral factor, in whole units of the asset. */
  ghost function CollateralPart(c: ReserveConfig, r: ReserveData, bTokens: int): real
  {
    Quotient(bTokens * r.bRate * c.cFactor, SCALAR_9 * SCALAR_7 * Pow10(c.decimals))
  }

  /** Weighted debt: tokens times rate over liability factor. */
  ghost function DebtPart(c: ReserveConfig, r: ReserveData, dTokens: int): real
    requires c.lFactor > 0
  {
    Quotient(dTokens * r.dRate * SCALAR_7, SCALAR_9 * c.lFactor * Pow10(c.decimals))
  }

  /** The most that rounding adds to a weighted debt. */
  ghost function DebtDust(c: ReserveConfig): real
    requires c.lFactor > 0
  {
    1.0 + Quotient(SCALAR_7 + c.lFactor, c.lFactor * Pow10(c.decimals))
  }

  /** Collateral counts tokens, rate and factor, rounded down by less than two units. */
  lemma {:induction false} CollateralIsPart(c: ReserveConfig, r: ReserveData, bTokens: int)
    requires c.cFactor <= SCALAR_7
    ensures var counted := Floor(EffectiveAssetFromB(c, r, bTokens), Pow10(c.decimals));
      counted as real <= CollateralPart(c, r, bTokens) <= (counted + 2) as real
  {
    hide Floor;
    var s := Pow10(c.decimals);
    hide Pow10;
    var (x, n) := (AssetFromB(r, bTokens), bTokens * r.bRate);
    FloorBounds(n, SCALAR_9);
    var e := Floor(x * c.cFactor, SCALAR_7);
    FloorBounds(x * c.cFactor, SCALAR_7);
    var q := Floor(e, s);
    FloorBounds(e, s);
    MulMono(x * SCALAR_9, n, c.cFactor);
    MulMono(n, x * SCALAR_9 + SCALAR_9, c.cFactor);
    MulDistributes(c.cFactor, x * SCALAR_9, SCALAR_9);
    assert x * SCALAR_9 * c.cFactor == x * c.cFactor * SCALAR_9;
    assert q * (SCALAR_9 * SCALAR_7 * s) == q * s * (SCALAR_9 * SCALAR_7);
    assert (q + 2) * (SCALAR_9 * SCALAR_7 * s) == (q + 2) * s * (SCALAR_9 * SCALAR_7);
    MulDistributes(s, q, 2);
    QuotientAtLeast(n * c.cFactor, SCALAR_9 * SCALAR_7 * s, q);
    QuotientAtMost(n * c.cFactor, SCALAR_9 * SCALAR_7 * s, q + 2);
  }

  /** Debt counts tokens and rate over the factor, rounded up by no more than its dust. */
  lemma {:induction false} DebtIsPart(c: ReserveConfig, r: ReserveData, dTokens: int)
    requires c.lFactor > 0
    ensures EffectiveAssetFromD(c, r, dTokens).Ok?
    ensures var counted := Ceil(EffectiveAssetFromD(c, r, dTokens).value, Pow10(c.decimals));
      DebtPart(c, r, dTokens) <= counted as real <= DebtPart(c, r, dTokens) + DebtDust(c)
  {
    hide Ceil;
    var s := Pow10(c.decimals);
    hide Pow10;
    var (y, n, l) := (AssetFromD(r, dTokens), dTokens * r.dRate, c.lFactor);
    CeilBounds(n, SCALAR_9);
    var e := Ceil(y * SCALAR_7, l);
    CeilBounds(y * SCALAR_7, l);
    var q := Ceil(e, s);
    CeilBounds(e, s);
    MulMono(e, q * s, l);
    MulMono(q * s, e + s, l);
    MulDistributes(l, e, s);
    assert q * s * l == q * (l * s);
    assert q * (SCALAR_9 * l * s) == q * (l * s) * SCALAR_9;
    QuotientAtMost(n * SCALAR_7, SCALAR_9 * l * s, q);
    DustCovers(n * SCALAR_7, SCALAR_7 + l, l * s, q);
    assert SCALAR_9 * l * s == SCALAR_9 * (l * s);
  }

  lemma DustCovers(n: int, dust: int, d: int, q: int)
    requires d > 0 && q * d * SCALAR_9 <= n + dust * SCALAR_9 + d * SCALAR_9
    ensures q as real <= Quotient(n, SCALAR_9 * d) + (1.0 + Quotient(dust, d))
  {
    var x := Quotient(n, SCALAR_9 * d);
    var y := Quotient(dust, d);
    CastProduct(q, d);
    CastProduct(SCALAR_9, d);
    assert x * (SCALAR_9 as real * d as real) == n as real;
    assert y * d as real == dust as real;
    assert (q * d * SCALAR_9) as real == q as real * d as real * SCALAR_9 as real by {
      CastProduct(q * d, SCALAR_9);
    }
    DustReal(q as real, x, y, d as real, n as real, dust as real);
  }

  lemma DustReal(q: real, x: real, y: real, d: real, n: real, dust: real)
    requires d > 0.0 && x * (1_000_000_000.0 * d) == n && y * d == dust
    requires q * d * 1_000_000_000.0 <= n + dust * 1_000_000_000.0 + d * 1_000_000_000.0
    ensures q <= x + (1.0 + y)
  {
    var z := x + (1.0 + y);
    assert z * d * 1_000_000_000.0 == n + dust * 1_000_000_000.0 + d * 1_000_000_000.0;
    assert q > z ==> q * d > z * d;
  }

  /** Collateral and debt without the factors. */
  ghost function RawPart(c: ReserveConfig, rate: int, tokens: int): real
  {
    Quotient(tokens * rate, SCALAR_9 * Pow10(c.decimals))
  }

  lemma {:induction false} RawIsPart(c: ReserveConfig, r: ReserveData, bTokens: int, dTokens: int)
    ensures var counted := Floor(AssetFromB(r, bTokens), Pow10(c.decimals));
      counted as real <= RawPart(c, r.bRate, bTokens) <= (counted + 1) as real
    ensures var counted := Ceil(AssetFromD(r, dTokens), Pow10(c.decimals));
      (counted - 2) as real <= RawPart(c, r.dRate, dTokens) <= counted as real
  {
    hide Floor;
    hide Ceil;
    var s := Pow10(c.decimals);
    hide Pow10;
    var (x, y) := (AssetFromB(r, bTokens), AssetFromD(r, dTokens));
    FloorBounds(bTokens * r.bRate, SCALAR_9);
    CeilBounds(dTokens * r.dRate, SCALAR_9);
    FloorBounds(x, s);
    CeilBounds(y, s);
    var (p, q) := (Floor(x, s), Ceil(y, s));
    MulDistributes(s, p, 1);
    MulDistributes(s, q, -2);
    assert p * (SCALAR_9 * s) == p * s * SCALAR_9 && (p + 1) * (SCALAR_9 * s) == (p + 1) * s * SCALAR_9;
    assert q * (SCALAR_9 * s) == q * s * SCALAR_9 && (q - 2) * (SCALAR_9 * s) == (q - 2) * s * SCALAR_9;
    QuotientAtLeast(bTokens * r.bRate, SCALAR_9 * s, p);
    QuotientAtMost(bTokens * r.bRate, SCALAR_9 * s, p + 1);
    QuotientAtLeast(dTokens * r.dRate, SCALAR_9 * s, q - 2);
    QuotientAtMost(dTokens * r.dRate, SCALAR_9 * s, q);
  }

  // ----- all reserves -----

  /** A user's weighted collateral and debt at the reserve of an index, at the rates it loads with. */
  ghost function CollateralAt(b: Batch, u: Positions, i: nat): real
    requires i < |b.pool.resList|
  {
    var r := LoadReserve(b, b.pool.resList[i]);
    if Amount(u.collateral, i) == 0 || r.Abort? then 0.0
    else CollateralPart(b.pool.configs[b.pool.resList[i]], r.value, u.collateral[i])
  }

  ghost predicate Indebted(b: Batch, u: Positions, i: nat)
    requires i < |b.pool.resList|
  {
    Amount(u.liabilities, i) != 0 && LoadReserve(b, b.pool.resList[i]).Ok? && b.pool.configs[b.pool.resList[i]].lFactor > 0
  }

  ghost function LiabilityAt(b: Batch, u: Positions, i: nat): real
    requires i < |b.pool.resList|
  {
    var a := b.pool.resList[i];
    if Indebted(b, u, i) then DebtPart(b.pool.configs[a], LoadReserve(b, a).value, u.liabilities[i]) else 0.0
  }

  ghost function DustAt(b: Batch, u: Positions, i: nat): real
    requires i < |b.pool.resList|
  {
    if Indebted(b, u, i) then DebtDust(b.pool.configs[b.pool.resList[i]]) else 0.0
  }

  /** Over the first k reserves: the worth of the collateral, that of the debt, and the most rounding adds to it. */
  ghost function CollateralWorth(b: Batch, u: Positions, k: nat): real
    requires k <= |b.pool.resList|
  {
    if k == 0 then 0.0 else CollateralWorth(b, u, k - 1) + CollateralAt(b, u, k - 1)
  }

  ghost function DebtWorth(b: Batch, u: Positions, k: nat): real
    requires k <= |b.pool.resList|
  {
    if k == 0 then 0.0 else DebtWorth(b, u, k - 1) + LiabilityAt(b, u, k - 1)
  }

  ghost function Dust(b: Batch, u: Positions, k: nat): real
    requires k <= |b.pool.resList|
  {
    if k == 0 then 0.0 else Dust(b, u, k - 1) + DustAt(b, u, k - 1)
  }

  /** One reserve's turn of the loop counts its collateral and its debt. */
  lemma TurnCounts(b: Batch, u: Positions, data: PositionData, i: nat)
    requires i < |b.pool.resList| && PositionsOk(u) && LoadReserve(b, b.pool.resList[i]).Ok?
    requires var a := b.pool.resList[i];
      b.pool.configs[a].cFactor <= SCALAR_7
      && Weigh(data, b.pool.configs[a], LoadReserve(b, a).value, Amount(u.collateral, i), Amount(u.liabilities, i)).Ok?
    ensures var a := b.pool.resList[i];
      var n := Weigh(data, b.pool.configs[a], LoadReserve(b, a).value, Amount(u.collateral, i), Amount(u.liabilities, i)).value;
      var (collateral, debt) := (n.collateralBase - data.collateralBase, n.liabilityBase - data.liabilityBase);
      && collateral as real <= CollateralAt(b, u, i) <= (collateral + 2) as real
      && LiabilityAt(b, u, i) <= debt as real <= LiabilityAt(b, u, i) + DustAt(b, u, i)
  {
    var a := b.pool.resList[i];
    var (c, r) := (b.pool.configs[a], LoadReserve(b, a).value);
    hide LoadReserve;
    hide Floor;
    hide Ceil;
    hide Pow10;
    CollateralIsPart(c, r, Amount(u.collateral, i));
    if c.lFactor > 0 {
      DebtIsPart(c, r, Amount(u.liabilities, i));
    }
    hide CollateralPart;
    hide DebtPart;
    hide DebtDust;
    hide EffectiveAssetFromB;
  }

  /** The sums of a health check are those worths: collateral rounded down by less than two units a reserve, debt
      up by no more than its dust. */
  lemma {:induction false} CalculateIsWorth(b: Batch, u: Positions, scalar: int, k: nat)
    requires Listed(b.pool) && PositionsOk(u) && k <= |b.pool.resList| && Calculate(b, u, scalar, k).Ok?
    ensures var data := Calculate(b, u, scalar, k).value;
      && data.collateralBase as real <= CollateralWorth(b, u, k) <= (data.collateralBase + 2 * k) as real
      && DebtWorth(b, u, k) <= data.liabilityBase as real <= DebtWorth(b, u, k) + Dust(b, u, k)
    decreases k
  {
    hide Weigh;
    hide LoadReserve;
    hide CollateralPart;
    hide DebtPart;
    hide DebtDust;
    if k == 0 {
      return;
    }
    CalculateIsWorth(b, u, scalar, k - 1);
    var (bTokens, dTokens) := (Amount(u.collateral, k - 1), Amount(u.liabilities, k - 1));
    var data := Calculate(b, u, scalar, k - 1).value;
    if bTokens != 0 || dTokens != 0 {
      FactorBounded(b.pool, k - 1);
      TurnCounts(b, u, data, k - 1);
    }
  }

  // ----- without the factors -----

  ghost function RawCollateralAt(b: Batch, u: Positions, i: nat): real
    requires i < |b.pool.resList|
  {
    var r := LoadReserve(b, b.pool.resList[i]);
    if r.Abort? then 0.0 else RawPart(b.pool.configs[b.pool.resList[i]], r.value.bRate, Amount(u.collateral, i))
  }

  ghost function RawDebtAt(b: Batch, u: Positions, i: nat): real
    requires i < |b.pool.resList|
  {
    var r := LoadReserve(b, b.pool.resList[i]);
    if r.Abort? then 0.0 else RawPart(b.pool.configs[b.pool.resList[i]], r.value.dRate, Amount(u.liabilities, i))
  }

  ghost function RawCollateral(b: Batch, u: Positions, k: nat): real
    requires k <= |b.pool.resList|
  {
    if k == 0 then 0.0 else RawCollateral(b, u, k - 1) + RawCollateralAt(b, u, k - 1)
  }

  ghost function RawDebt(b: Batch, u: Positions, k: nat): real
    requires k <= |b.pool.resList|
  {
    if k == 0 then 0.0 else RawDebt(b, u, k - 1) + RawDebtAt(b, u, k - 1)
  }

  lemma NothingIsWorthNothing(c: ReserveConfig, rate: int)
    ensures RawPart(c, rate, 0) == 0.0
  {}

  lemma RawTurnCounts(b: Batch, u: Positions, data: PositionData, i: nat)
    requires i < |b.pool.resList| && PositionsOk(u) && LoadReserve(b, b.pool.resList[i]).Ok?
    requires var a := b.pool.resList[i];
      Weigh(data, b.pool.configs[a], LoadReserve(b, a).value, Amount(u.collateral, i), Amount(u.liabilities, i)).Ok?
    ensures var a := b.pool.resList[i];
      var n := Weigh(data, b.pool.configs[a], LoadReserve(b, a).value, Amount(u.collateral, i), Amount(u.liabilities, i)).value;
      var (collateral, debt) := (n.collateralRaw - data.collateralRaw, n.liabilityRaw - data.liabilityRaw);
      && collateral as real <= RawCollateralAt(b, u, i) <= (collateral + 1) as real
      && (debt - 2) as real <= RawDebtAt(b, u, i) <= debt as real
  {
    var a := b.pool.resList[i];
    var (c, r) := (b.pool.configs[a], LoadReserve(b, a).value);
    hide LoadReserve;
    hide Floor;
    hide Ceil;
    hide Pow10;
    RawIsPart(c, r, Amount(u.collateral, i), Amount(u.liabilities, i));
    NothingIsWorthNothing(c, r.bRate);
    NothingIsWorthNothing(c, r.dRate);
    hide RawPart;
    hide EffectiveAssetFromB;
    hide EffectiveAssetFromD;
    hide AssetFromB;
    hide AssetFromD;
  }

  /** The raw sums are tokens times rates: collateral rounded down by at most a unit a reserve, debt up by at most two. */
  lemma {:induction false} CalculateIsRaw(b: Batch, u: Positions, scalar: int, k: nat)
    requires PositionsOk(u) && k <= |b.pool.resList| && Calculate(b, u, scalar, k).Ok?
    ensures var data := Calculate(b, u, scalar, k).value;
      && data.collateralRaw as real <= RawCollateral(b, u, k) <= (data.collateralRaw + k) as real
      && (data.liabilityRaw - 2 * k) as real <= RawDebt(b, u, k) <= data.liabilityRaw as real
    decreases k
  {
    hide Weigh;
    hide LoadReserve;
    hide RawPart;
    if k == 0 {
      return;
    }
    CalculateIsRaw(b, u, scalar, k - 1);
    var (bTokens, dTokens) := (Amount(u.collateral, k - 1), Amount(u.liabilities, k - 1));
    if bTokens != 0 || dTokens != 0 {
      RawTurnCounts(b, u, Calculate(b, u, scalar, k - 1).value, k - 1);
    } else if LoadReserve(b, b.pool.resList[k - 1]).Ok? {
      var r := LoadReserve(b, b.pool.resList[k - 1]).value;
      NothingIsWorthNothing(b.pool.configs[b.pool.resList[k - 1]], r.bRate);
      NothingIsWorthNothing(b.pool.configs[b.pool.resList[k - 1]], r.dRate);
    }
  }

  lemma FactorBounded(p: Pool, i: nat)
    requires Listed(p) && i < |p.resList|
    ensures p.configs[p.resList[i]].cFactor <= SCALAR_7
  {}

  // ----- health -----

  /** The collateral is worth at least `min` over `scalar` times the debt. */
  ghost predicate Covers(b: Batch, u: Positions, scalar: int, min: int)
  {
    min as real * DebtWorth(b, u, |b.pool.resList|) <= CollateralWorth(b, u, |b.pool.resList|) * scalar as real
  }

  /** It is by as much more as rounding can take. */
  ghost predicate ClearlyCovers(b: Batch, u: Positions, scalar: int, min: int)
  {
    var n := |b.pool.resList|;
    min as real * (DebtWorth(b, u, n) + Dust(b, u, n)) <= (CollateralWorth(b, u, n) - (2 * n) as real) * scalar as real
  }

  lemma RealMono(x: real, y: real, z: real)
    requires x <= y && z >= 0.0
    ensures x * z <= y * z && z * x <= z * y
  {}

  lemma PassCovers(min: int, scalar: int, debt: int, collateral: int, cw: real, dw: real)
    requires min >= 0 && scalar >= 0 && collateral as real <= cw && dw <= debt as real
    requires min * debt <= collateral * scalar
    ensures min as real * dw <= cw * scalar as real
  {
    var (m, s) := (min as real, scalar as real);
    calc <= {
      m * dw;
      { RealMono(dw, debt as real, m); }
      m * debt as real;
      { CastProduct(min, debt); }
      (min * debt) as real;
      (collateral * scalar) as real;
      { CastProduct(collateral, scalar); }
      collateral as real * s;
      { RealMono(collateral as real, cw, s); }
      cw * s;
    }
  }

  lemma ClearPasses(min: int, scalar: int, debt: int, collateral: int, slack: int, cw: real, dw: real, dust: real)
    requires min >= 0 && scalar >= 0 && cw <= (collateral + slack) as real && debt as real <= dw + dust
    requires min as real * (dw + dust) <= (cw - slack as real) * scalar as real
    ensures min * debt <= collateral * scalar
  {
    var (m, s, most, least) := (min as real, scalar as real, dw + dust, cw - slack as real);
    assert (min * debt) as real <= (collateral * scalar) as real by {
      calc <= {
        (min * debt) as real;
        { CastProduct(min, debt); }
        m * debt as real;
        { RealMono(debt as real, most, m); }
        m * most;
        least * s;
        { RealMono(least, collateral as real, s); }
        collateral as real * s;
        { CastProduct(collateral, scalar); }
        (collateral * scalar) as real;
      }
    }
  }

  lemma CoverArithmetic(min: int, scalar: int, debt: int, collateral: int, slack: int, cw: real, dw: real, dust: real)
    requires min >= 0 && scalar >= 0
    requires collateral as real <= cw <= (collateral + slack) as real && dw <= debt as real <= dw + dust
    ensures min * debt <= collateral * scalar ==> min as real * dw <= cw * scalar as real
    ensures min as real * (dw + dust) <= (cw - slack as real) * scalar as real ==> min * debt <= collateral * scalar
  {
    if min * debt <= collateral * scalar {
      PassCovers(min, scalar, debt, collateral, cw, dw);
    } else if min as real * (dw + dust) <= (cw - slack as real) * scalar as real {
      ClearPasses(min, scalar, debt, collateral, slack, cw, dw, dust);
    }
  }

  /** A health check on the rounded sums: passing it means being covered, and being clearly covered passes it. */
  lemma {:induction false} CheckIsCover(b: Batch, u: Positions, scalar: int, min: int)
    requires Listed(b.pool) && PositionsOk(u) && scalar >= 0 && min >= 0
    requires Calculate(b, u, scalar, |b.pool.resList|).Ok?
    ensures var data := Calculate(b, u, scalar, |b.pool.resList|).value;
      && (min * data.liabilityBase <= data.collateralBase * scalar ==> Covers(b, u, scalar, min))
      && (ClearlyCovers(b, u, scalar, min) ==> min * data.liabilityBase <= data.collateralBase * scalar)
  {
    hide Calculate;
    hide CollateralWorth;
    hide DebtWorth;
    hide Dust;
    hide Listed;
    hide PositionsOk;
    var n := |b.pool.resList|;
    CalculateIsWorth(b, u, scalar, n);
    var data := Calculate(b, u, scalar, n).value;
    CoverArithmetic(min, scalar, data.liabilityBase, data.collateralBase, 2 * n,
      CollateralWorth(b, u, n), DebtWorth(b, u, n), Dust(b, u, n));
  }

  /** Two views that load the same reserves give the same worths. */
  lemma {:induction false} SameWorth(b: Batch, n: Batch, u: Positions, k: nat)
    requires n.pool.resList == b.pool.resList && n.pool.configs == b.pool.configs && k <= |b.pool.resList|
    requires forall a :: LoadReserve(n, a) == LoadReserve(b, a)
    ensures CollateralWorth(n, u, k) == CollateralWorth(b, u, k) && DebtWorth(n, u, k) == DebtWorth(b, u, k)
    decreases k
  {
    hide LoadReserve;
    hide CollateralPart;
    hide DebtPart;
    if k > 0 {
      SameWorth(b, n, u, k - 1);
    }
  }
}
