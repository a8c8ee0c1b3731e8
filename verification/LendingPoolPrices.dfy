/** What created interest and bad debt auctions offer and ask: all of the credit or all of the debt, and backstop
    tokens worth 1.4 times as much (pool/src/auctions/backstop_interest_auction.rs,
    pool/src/auctions/bad_debt_auction.rs). */
module LendingPoolPrices {
  import opened FixedPoint
  import opened Totals
  import opened Reserves
  import opened PoolStates
  import opened LendingPools
  import opened PositionWorths

  // ----- the interest lot -----

  /** The backstop's credit of a reserve as it loads. */
  function Credit(p: Pool, a: Address): int
  {
    if a !in p.configs || a !in p.data then 0
    else
      var r := Load(p.configs[a], p.bstopRate, p.data[a], p.now);
      if r.Ok? then r.value.backstopCredit else 0
  }

  /** What the credits of the first k listed assets are worth at the oracle's prices. */
  ghost function CreditWorth(p: Pool, assets: seq<Address>, quote: Quote, k: nat): real
    requires k <= |assets|
  {
    if k == 0 then 0.0
    else
      var a := assets[k - 1];
      CreditWorth(p, assets, quote, k - 1)
        + (if Credit(p, a) > 0 && a in quote.prices && a in p.configs then
             Quotient(quote.prices[a] * Credit(p, a), Pow10(p.configs[a].decimals))
           else 0.0)
  }

  lemma FloorOfWorth(n: int, d: int)
    requires d > 0
    ensures Floor(n, d) as real <= Quotient(n, d) <= (Floor(n, d) + 1) as real
  {
    FloorBounds(n, d);
    hide Floor;
    MulDistributes(d, Floor(n, d), 1);
    QuotientAtLeast(n, d, Floor(n, d));
    QuotientAtMost(n, d, Floor(n, d) + 1);
  }

  /** The lot is the whole credit of every listed asset that has some; its value is what that is worth, rounded down by at
      most a unit an asset. */
  lemma {:induction false} InterestLotIs(p: Pool, assets: seq<Address>, quote: Quote, k: nat)
    requires k <= |assets| && InterestLot(p, assets, quote, k).Ok?
    ensures var (lot, value) := InterestLot(p, assets, quote, k).value;
      && (forall a :: a in lot <==> a in assets[..k] && Credit(p, a) > 0)
      && (forall a :: a in lot ==> lot[a] == Credit(p, a))
      && value as real <= CreditWorth(p, assets, quote, k) <= (value + k) as real
    decreases k
  {
    hide Load;
    hide Floor;
    hide Pow10;
    if k == 0 {
      return;
    }
    InterestLotIs(p, assets, quote, k - 1);
    var a := assets[k - 1];
    assert forall x :: x in assets[..k] <==> x in assets[..k - 1] || x == a;
    if Credit(p, a) > 0 && a in quote.prices {
      FloorOfWorth(quote.prices[a] * Credit(p, a), Pow10(p.configs[a].decimals));
    }
    hide Quotient;
  }

  // ----- the bad debt bid -----

  /** What the debts of the first k reserves are worth at the oracle's prices. */
  ghost function OwedWorth(p: Pool, m: map<Address, int>, quote: Quote, k: nat): real
    requires k <= |p.resList|
  {
    if k == 0 then 0.0
    else
      var a := p.resList[k - 1];
      OwedWorth(p, m, quote, k - 1)
        + (if Amount(m, k - 1) > 0 && a in quote.prices && LoadReserve(Idle(p), a).Ok? then
             Quotient(quote.prices[a] * AssetFromD(LoadReserve(Idle(p), a).value, Amount(m, k - 1)), Pow10(p.configs[a].decimals))
           else 0.0)
  }

  /** The value of the bid is what the debt is worth, rounded down by at most a unit a reserve. */
  lemma {:induction false} DebtValueIs(p: Pool, m: map<Address, int>, quote: Quote, k: nat)
    requires k <= |p.resList| && DebtBid(p, m, quote, k).Ok?
    ensures var value := DebtBid(p, m, quote, k).value.1;
      value as real <= OwedWorth(p, m, quote, k) <= (value + k) as real
    decreases k
  {
    hide LoadReserve;
    hide Floor;
    hide Ceil;
    hide Pow10;
    if k == 0 {
      return;
    }
    DebtValueIs(p, m, quote, k - 1);
    var a := p.resList[k - 1];
    if Amount(m, k - 1) > 0 && a in quote.prices && LoadReserve(Idle(p), a).Ok? {
      FloorOfWorth(quote.prices[a] * AssetFromD(LoadReserve(Idle(p), a).value, Amount(m, k - 1)), Pow10(p.configs[a].decimals));
    }
    hide Quotient;
  }

  // ----- the price in backstop tokens -----

  /** Backstop tokens worth 1.4 times a value: the USDC behind the pool in the oracle's decimals, times five as the
      tokens' worth, divided by the tokens, makes the price of one; every step rounded down. */
  ghost predicate IsPriced(value: int, quote: Quote, shares: int)
  {
    exists usdc, base, worth ::
      && base > 0
      && PartDown(usdc, quote.usdc, Pow10(quote.decimals), SCALAR_7)
      && PartDown(base, usdc, 5 * SCALAR_7, quote.tokens)
      && PartDown(worth, value, 14, 10)
      && PartDown(shares, worth, SCALAR_7, base)
  }

  lemma SharesArePriced(value: int, quote: Quote)
    requires quote.usdc >= 0 && quote.tokens >= 0
    requires var base := DivFloor(Floor(quote.usdc * Pow10(quote.decimals), SCALAR_7) * 5 * SCALAR_7, quote.tokens);
      base.Ok? && DivFloor(Floor(value * 1_4000000, SCALAR_7) * SCALAR_7, base.value).Ok?
    ensures var base := DivFloor(Floor(quote.usdc * Pow10(quote.decimals), SCALAR_7) * 5 * SCALAR_7, quote.tokens).value;
      IsPriced(value, quote, DivFloor(Floor(value * 1_4000000, SCALAR_7) * SCALAR_7, base).value)
  {
    hide Floor;
    var unit := Pow10(quote.decimals);
    hide Pow10;
    var usdc := Floor(quote.usdc * unit, SCALAR_7);
    FloorBounds(quote.usdc * unit, SCALAR_7);
    MulMono(0, quote.usdc, unit);
    FloorNonNeg(quote.usdc * unit, SCALAR_7);
    var base := Floor(usdc * 5 * SCALAR_7, quote.tokens);
    FloorBounds(usdc * 5 * SCALAR_7, quote.tokens);
    FloorNonNeg(usdc * 5 * SCALAR_7, quote.tokens);
    var worth := Floor(value * 1_4000000, SCALAR_7);
    FloorBounds(value * 1_4000000, SCALAR_7);
    var shares := Floor(worth * SCALAR_7, base);
    FloorBounds(worth * SCALAR_7, base);
    assert PartDown(usdc, quote.usdc, unit, SCALAR_7) && PartDown(base, usdc, 5 * SCALAR_7, quote.tokens);
    assert PartDown(worth, value, 14, 10) && PartDown(shares, worth, SCALAR_7, base);
  }

  /** A created interest auction asks for backstop tokens worth 1.4 times its lot, and for nothing else. */
  lemma {:induction false} InterestAuctionIs(p: Pool, assets: seq<Address>, quote: Quote)
    requires CreateInterest(p, assets, quote).Ok? && quote.usdc >= 0 && quote.tokens >= 0
    ensures InterestLot(p, assets, quote, |assets|).Ok?
    ensures var (q, value) := (CreateInterest(p, assets, quote).value, InterestLot(p, assets, quote, |assets|).value.1);
      && q == p.(interest := q.interest) && q.interest.Some? && q.interest.value.block == p.block + 1
      && q.interest.value.lot == InterestLot(p, assets, quote, |assets|).value.0
      && q.interest.value.bid.Keys == {p.backstopToken} && IsPriced(value, quote, Amount(q.interest.value.bid, p.backstopToken))
  {
    hide InterestLot;
    hide Floor;
    hide DivFloor;
    hide Pow10;
    hide IsPriced;
    SharesArePriced(InterestLot(p, assets, quote, |assets|).value.1, quote);
  }

  /** When one can be created: none is open, the debts are of listed reserves, there are some, they are worth something, and a
      backstop token has a price. */
  lemma CreateBadDebtSucceeds(p: Pool, quote: Quote)
    requires DebtBid(p, PositionsOf(p, p.backstop).liabilities, quote, |p.resList|).Ok?
    ensures CreateBadDebt(p, quote).Ok? <==>
      var m := PositionsOf(p, p.backstop).liabilities;
      var (bid, value) := DebtBid(p, m, quote, |p.resList|).value;
      && p.badDebt.None? && (forall i :: i in m ==> i < |p.resList|) && bid != map[] && value != 0
      && quote.tokens != 0
      && DivFloor(Floor(quote.usdc * Pow10(quote.decimals), SCALAR_7) * 5 * SCALAR_7, quote.tokens).value != 0
  {
    hide DebtBid;
    hide Floor;
    hide Pow10;
  }

  /** A created bad debt auction offers backstop tokens worth 1.4 times the debt, or all there are if that is less. */
  lemma {:induction false} BadDebtAuctionIs(p: Pool, quote: Quote)
    requires CreateBadDebt(p, quote).Ok? && quote.usdc >= 0 && quote.tokens >= 0
    ensures DebtBid(p, PositionsOf(p, p.backstop).liabilities, quote, |p.resList|).Ok?
    ensures var (q, value) := (CreateBadDebt(p, quote).value, DebtBid(p, PositionsOf(p, p.backstop).liabilities, quote, |p.resList|).value.1);
      && q == p.(badDebt := q.badDebt) && q.badDebt.Some? && q.badDebt.value.block == p.block + 1
      && q.badDebt.value.bid == DebtBid(p, PositionsOf(p, p.backstop).liabilities, quote, |p.resList|).value.0
      && q.badDebt.value.lot.Keys == {p.backstopToken}
      && exists shares :: IsPriced(value, quote, shares) && Amount(q.badDebt.value.lot, p.backstopToken) == Min(quote.tokens, shares)
  {
    hide DebtBid;
    hide Floor;
    hide DivFloor;
    hide Pow10;
    hide IsPriced;
    SharesArePriced(DebtBid(p, PositionsOf(p, p.backstop).liabilities, quote, |p.resList|).value.1, quote);
  }
}
