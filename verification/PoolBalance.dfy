/** A pool's side of the backstop ledger: issued shares, held tokens and shares waiting in
    withdrawal queues (backstop/src/backstop/pool.rs). */
module PoolBalances {
  import opened Outcomes
  import opened FixedPoint

  /** The stored balance. */
  datatype PoolHolding = PoolHolding(shares: int, tokens: int, q4w: int)

  const EMPTY_POOL := PoolHolding(0, 0, 0)

  ghost predicate PoolHoldingOk(p: PoolHolding)
  {
    p.tokens >= 0 && 0 <= p.q4w <= p.shares
  }

  function ConvertToShares(p: PoolHolding, tokens: int): Outcome<int>
  {
    if p.shares == 0 then Ok(tokens) else DivFloor(tokens * p.shares, p.tokens)
  }

  function ConvertToTokens(p: PoolHolding, shares: int): Outcome<int>
  {
    if p.shares == 0 then Ok(shares) else DivFloor(shares * p.tokens, p.shares)
  }

  /** The tokens behind shares that are not waiting for withdrawal. */
  function NonQueuedTokens(p: PoolHolding): Outcome<int>
  {
    var queued :- ConvertToTokens(p, p.q4w);
    Ok(p.tokens - queued)
  }

  function AddDeposit(p: PoolHolding, tokens: int, shares: int): PoolHolding
  {
    p.(tokens := p.tokens + tokens, shares := p.shares + shares)
  }

  function TakeOut(p: PoolHolding, tokens: int, shares: int): Outcome<PoolHolding>
  {
    if tokens > p.tokens || shares > p.shares || shares > p.q4w then Abort(InsufficientFunds)
    else Ok(PoolHolding(p.shares - shares, p.tokens - tokens, p.q4w - shares))
  }

  function QueueForWithdraw(p: PoolHolding, shares: int): PoolHolding
  {
    p.(q4w := p.q4w + shares)
  }

  function DequeueQ4W(p: PoolHolding, shares: int): Outcome<PoolHolding>
  {
    if shares > p.q4w then Abort(InsufficientFunds)
    else Ok(p.(q4w := p.q4w - shares))
  }

  // ----- the loaded balance, updated in place -----

  class PoolBalance {
    var shares: int
    var tokens: int
    var q4w: int

    function Value(): PoolHolding
      reads this
    {
      PoolHolding(shares, tokens, q4w)
    }

    constructor (p: PoolHolding)
      ensures Value() == p
    {
      shares, tokens, q4w := p.shares, p.tokens, p.q4w;
    }

    method Deposit(newTokens: int, newShares: int)
      modifies this
      ensures Value() == AddDeposit(old(Value()), newTokens, newShares)
    {
      tokens := tokens + newTokens;
      shares := shares + newShares;
    }

    method Withdraw(outTokens: int, outShares: int) returns (r: Outcome<()>)
      modifies this
      ensures var spec := TakeOut(old(Value()), outTokens, outShares);
        if spec.Ok? then r.Ok? && Value() == spec.value else r == Abort(spec.error) && Value() == old(Value())
    {
      if outTokens > tokens || outShares > shares || outShares > q4w {
        return Abort(InsufficientFunds);
      }
      tokens := tokens - outTokens;
      shares := shares - outShares;
      q4w := q4w - outShares;
      return Ok(());
    }

    method Queue(moreShares: int)
      modifies this
      ensures Value() == QueueForWithdraw(old(Value()), moreShares)
    {
      q4w := q4w + moreShares;
    }

    method Dequeue(fewerShares: int) returns (r: Outcome<()>)
      modifies this
      ensures var spec := DequeueQ4W(old(Value()), fewerShares);
        if spec.Ok? then r.Ok? && Value() == spec.value else r == Abort(spec.error) && Value() == old(Value())
    {
      if fewerShares > q4w {
        return Abort(InsufficientFunds);
      }
      q4w := q4w - fewerShares;
      return Ok(());
    }
  }

  // ----- rounding favours the shares that stay -----

  /** A share never loses value: `after` backs each share with at least as many tokens. */
  ghost predicate ShareValueKept(before: PoolHolding, after: PoolHolding)
  {
    before.tokens * after.shares <= after.tokens * before.shares
  }

  /** A deposit, and equally a claim's re-deposit, never dilutes the existing shares. */
  lemma DepositKeepsShareValue(p: PoolHolding, tokens: int)
    requires PoolHoldingOk(p) && p.shares > 0 && tokens >= 0
    requires ConvertToShares(p, tokens).Ok?
    ensures var minted := ConvertToShares(p, tokens).value;
      minted >= 0 && ShareValueKept(p, AddDeposit(p, tokens, minted))
  {
    var minted := ConvertToShares(p, tokens).value;
    FloorNonNeg(tokens * p.shares, p.tokens);
    FloorBounds(tokens * p.shares, p.tokens);
    hide Floor;
    calc <= {
      p.tokens * (p.shares + minted);
      p.tokens * p.shares + minted * p.tokens;
      p.tokens * p.shares + tokens * p.shares;
      (p.tokens + tokens) * p.shares;
    }
  }

  /** A withdrawal pays out at most the tokens held and never dilutes the shares that stay. */
  lemma WithdrawKeepsShareValue(p: PoolHolding, shares: int)
    requires PoolHoldingOk(p) && 0 <= shares <= p.q4w
    ensures ConvertToTokens(p, shares).Ok?
    ensures var out := ConvertToTokens(p, shares).value;
      0 <= out
      && (p.shares > 0 ==>
        out <= p.tokens && TakeOut(p, out, shares).Ok? && ShareValueKept(p, TakeOut(p, out, shares).value))
  {
    if p.shares > 0 {
      var out := ConvertToTokens(p, shares).value;
      FloorNonNeg(shares * p.tokens, p.shares);
      FloorBounds(shares * p.tokens, p.shares);
      hide Floor;
      MulMono(shares, p.shares, p.tokens);
      MultiplesOrdered(out, p.tokens, p.shares);
      calc <= {
        p.tokens * (p.shares - shares);
        p.tokens * p.shares - shares * p.tokens;
        p.tokens * p.shares - out * p.shares;
        (p.tokens - out) * p.shares;
      }
    }
  }

  /** Depositing and then withdrawing the minted shares returns at most the deposit, exactly
      unless the pool had tokens but no shares: then the depositor also gets those tokens. */
  lemma {:induction false} DepositWithdrawNoGain(p: PoolHolding, tokens: int)
    requires PoolHoldingOk(p) && tokens > 0
    requires ConvertToShares(p, tokens).Ok? && ConvertToShares(p, tokens).value > 0
    ensures var minted := ConvertToShares(p, tokens).value;
      var back := ConvertToTokens(AddDeposit(p, tokens, minted), minted);
      back.Ok? && (0 <= back.value <= tokens <==> p.shares > 0 || p.tokens == 0)
  {
    var minted := ConvertToShares(p, tokens).value;
    MulMono(0, p.tokens + tokens, minted);
    FloorNonNeg(minted * (p.tokens + tokens), p.shares + minted);
    if p.shares > 0 {
      FloorBounds(tokens * p.shares, p.tokens);
      RoundTrip(p.shares, p.tokens, tokens, minted);
    } else {
      FloorExact(p.tokens + tokens, minted);
    }
  }

  lemma RoundTrip(s: int, t: int, x: int, m: int)
    requires s > 0 && m > 0 && m * t <= x * s
    ensures Floor(m * (t + x), s + m) <= x
  {
    FloorBounds(m * (t + x), s + m);
    hide Floor;
    MulDistributes(m, t, x);
    MulDistributes(x, s, m);
    MultiplesOrdered(Floor(m * (t + x), s + m), x, s + m);
  }

  lemma NonQueuedTokensBounds(p: PoolHolding)
    requires PoolHoldingOk(p)
    ensures NonQueuedTokens(p).Ok?
    ensures 0 <= NonQueuedTokens(p).value <= p.tokens
  {
    if p.shares > 0 {
      WithdrawKeepsShareValue(p, p.q4w);
    }
  }

  // ----- the amounts -----

  /** Shares minted for tokens: their part of the pool rounded down, or one each while there are no shares. */
  ghost predicate FairMint(p: PoolHolding, tokens: int, minted: int)
  {
    if p.shares == 0 then minted == tokens
    else minted * p.tokens <= tokens * p.shares < minted * p.tokens + p.tokens
  }

  /** Tokens paid for shares: their part of the pool rounded down. */
  ghost predicate FairPayout(p: PoolHolding, shares: int, out: int)
  {
    if p.shares == 0 then out == shares
    else out * p.shares <= shares * p.tokens < out * p.shares + p.shares
  }

  /** Minting is pro rata; it fails just for a pool with shares and no tokens behind them. */
  lemma MintIsFair(p: PoolHolding, tokens: int)
    requires PoolHoldingOk(p)
    ensures ConvertToShares(p, tokens).Ok? <==> p.shares == 0 || p.tokens > 0
    ensures ConvertToShares(p, tokens).Ok? ==> FairMint(p, tokens, ConvertToShares(p, tokens).value)
  {
    if p.shares > 0 && p.tokens > 0 {
      FloorBounds(tokens * p.shares, p.tokens);
    }
    hide Floor;
  }

  /** Paying out is pro rata and never fails. */
  lemma PayoutIsFair(p: PoolHolding, shares: int)
    requires PoolHoldingOk(p)
    ensures ConvertToTokens(p, shares).Ok? && FairPayout(p, shares, ConvertToTokens(p, shares).value)
  {
    if p.shares > 0 {
      FloorBounds(shares * p.tokens, p.shares);
    }
    hide Floor;
  }

  /** The tokens outside the queue are the unqueued shares' part of the pool, rounded up. */
  lemma NonQueuedIsRest(p: PoolHolding)
    requires PoolHoldingOk(p) && p.shares > 0 && NonQueuedTokens(p).Ok?
    ensures var rest := NonQueuedTokens(p).value;
      rest * p.shares - p.shares < (p.shares - p.q4w) * p.tokens <= rest * p.shares
  {
    PayoutIsFair(p, p.q4w);
    var queued := ConvertToTokens(p, p.q4w).value;
    MulDistributes(p.shares, p.tokens, -queued);
    MulDistributes(p.tokens, p.shares, -p.q4w);
    hide ConvertToTokens;
  }

  // ----- the reward-zone threshold -----

  const I128_MAX: int := 0x7FFF_FFFF_FFFF_FFFF_FFFF_FFFF_FFFF_FFFF
  const THRESHOLD_PC: int := 320_000_000_000_000_000_000_000_000

  /** i128 multiplication that sticks at the largest value, for non-negative factors. */
  function SaturatingMul(a: nat, b: nat): nat { Min(a * b, I128_MAX) }

  /** The product constant blnd^4 * usdc of a pool's backstop reaches the threshold. */
  predicate AboveThreshold(blnd: nat, usdc: nat)
  {
    var balBlnd: nat := blnd / SCALAR_7;
    var balUsdc: nat := usdc / SCALAR_7;
    SaturatingMul(SaturatingMul(SaturatingMul(SaturatingMul(balBlnd, balBlnd), balBlnd), balBlnd), balUsdc)
      >= THRESHOLD_PC
  }

  /** Saturating once more after a saturated factor decides the threshold like exact arithmetic. */
  lemma SaturatedFactor(x: nat, exact: nat, c: nat)
    requires x == Min(exact, I128_MAX)
    ensures SaturatingMul(x, c) == Min(exact * c, I128_MAX)
  {
    if exact > I128_MAX && c > 0 {
      MulMono(1, c, I128_MAX);
      MulMono(1, c, exact);
    }
  }

  /** Saturation never changes the decision: it is exactly that of unbounded arithmetic. */
  lemma {:induction false} ThresholdIsExact(blnd: nat, usdc: nat)
    ensures var b := blnd / SCALAR_7;
      AboveThreshold(blnd, usdc) <==> b * b * b * b * (usdc / SCALAR_7) >= THRESHOLD_PC
  {
    var b: nat := blnd / SCALAR_7;
    SaturatedFactor(SaturatingMul(b, b), b * b, b);
    SaturatedFactor(SaturatingMul(SaturatingMul(b, b), b), b * b * b, b);
    SaturatedFactor(SaturatingMul(SaturatingMul(SaturatingMul(b, b), b), b), b * b * b * b, usdc / SCALAR_7);
  }
}
