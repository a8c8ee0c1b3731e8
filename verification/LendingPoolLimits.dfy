/** When auctions can be filled and created, auctions nobody can fill any more, and what a submission must leave
    its sender with. */
module LendingPoolLimits {
  import opened Outcomes
  import opened FixedPoint
  import opened Totals
  import opened Interest
  import opened Reserves
  import opened Auctions
  import opened PoolUsers
  import opened PoolStates
  import opened Health
  import opened LendingPools
  import opened LendingPoolProofs
  import opened PositionWorths
  import opened LendingPoolAuctionProofs
  import opened Liquidations
  import opened LendingPoolRuns

  // ----- interest auctions that cannot be filled -----

  /** No bid is left, or its price has fallen to nothing. */
  predicate Stuck(p: Pool)
  {
    p.interest.Some? &&
    (Amount(p.interest.value.bid, p.backstopToken) <= 0 || p.block - p.interest.value.block >= 400)
  }

  /** A fill needs the backstop token in the scaled bid: given an open auction, a willing backstop, reserves
      that load and cash for the lot, it goes through exactly when the auction is not stuck. */
  lemma {:induction false} InterestFillSucceeds(b: Batch, from: Address, percent: int, reply: Reply)
    requires reply.donated && from != b.pool.backstop && b.pool.interest.Some?
    requires Scale(b.pool.interest.value, percent, b.pool.block).Ok?
    requires var fill := Scale(b.pool.interest.value, percent, b.pool.block).value.0;
      LoadAll(b, fill.lot.Keys).Ok? && forall a :: a in fill.lot ==> Amount(b.pool.cash, a) >= fill.lot[a]
    ensures FillInterest(b, from, b.pool.backstop, percent, reply).Ok? <==> !Stuck(b.pool)
  {
    BidIsNamed(b.pool.interest.value, percent, b.pool.block, b.pool.backstopToken);
    hide Scale;
    hide LoadAll;
  }

  lemma StuckFillAborts(b: Batch, from: Address, user: Address, percent: int, reply: Reply)
    requires Stuck(b.pool)
    ensures FillInterest(b, from, user, percent, reply).Abort?
  {
    if Scale(b.pool.interest.value, percent, b.pool.block).Ok? {
      BidIsNamed(b.pool.interest.value, percent, b.pool.block, b.pool.backstopToken);
    }
    hide Scale;
    hide LoadAll;
  }

  /** What a stuck auction depends on. */
  ghost predicate SameAuction(p: Pool, q: Pool)
  {
    q.interest == p.interest && q.backstopToken == p.backstopToken && q.block == p.block
  }

  lemma TurnLeavesStuck(b: Batch, from: Address, q: Request, reply: Reply)
    requires Stuck(b.pool) && Turn(b, from, q, reply).Ok?
    ensures SameAuction(b.pool, Turn(b, from, q, reply).value.pool)
  {
    hide Scale;
    hide LoadReserve;
    hide Perform;
    hide MoveBetween;
    hide WriteOff;
    if q.kind == 6 {
      FillAside(b, from, q.address, q.amount % U64_LIMIT);
    } else if q.kind == 7 {
      BadDebtSetting(b, from, q.address, q.amount % U64_LIMIT, reply);
    } else if q.kind == 8 {
      StuckFillAborts(b, from, q.address, q.amount % U64_LIMIT, reply);
    }
    hide FillInterest;
    hide FillLiquidation;
    hide FillBadDebt;
  }

  lemma FillAside(b: Batch, from: Address, user: Address, percent: int)
    requires FillLiquidation(b, from, user, percent).Ok?
    ensures SameAuction(b.pool, FillLiquidation(b, from, user, percent).value.pool)
  {
    hide Scale;
    hide MoveBetween;
    var fill := Scale(b.pool.liquidations[user], percent, b.pool.block).value.0;
    MoveBetweenAside(b, user, from, fill.lot, fill.bid);
  }

  lemma {:induction false} ProcessLeavesStuck(p: Pool, from: Address, requests: seq<Request>, replies: seq<Reply>, k: nat)
    requires Stuck(p) && k <= |requests| && Process(p, from, requests, replies, k).Ok?
    ensures SameAuction(p, Process(p, from, requests, replies, k).value.pool)
    decreases k
  {
    hide Turn;
    if k == 0 {
      return;
    }
    ProcessLeavesStuck(p, from, requests, replies, k - 1);
    TurnLeavesStuck(Process(p, from, requests, replies, k - 1).value, from, requests[k - 1], ReplyTo(replies, k - 1));
  }

  /** A stuck interest auction is never filled, replaced or removed: until its temporary storage runs out it
      stays as it is in every run, so no other interest auction can be created. */
  lemma {:induction false} StuckUntilItLapses(p: Pool, actions: seq<Action>)
    requires Stuck(p) && InterestLapses !in actions
    ensures Run(p, actions).interest == p.interest && Stuck(Run(p, actions))
    ensures forall assets, quote :: CreateInterest(Run(p, actions), assets, quote).Abort?
    decreases |actions|
  {
    hide Step;
    hide InterestLot;
    if actions != [] {
      StuckUntilItLapses(p, actions[..|actions| - 1]);
      StepLeavesStuck(Run(p, actions[..|actions| - 1]), actions[|actions| - 1]);
    }
  }

  lemma StepLeavesStuck(p: Pool, a: Action)
    requires Stuck(p) && a != InterestLapses
    ensures Step(p, a).interest == p.interest && Stuck(Step(p, a))
  {
    hide Process;
    hide LoadAll;
    hide Load;
    hide InterestLot;
    hide LiquidationAuction;
    hide DebtBid;
    hide HealthAfter;
    if a.UserSubmits? && Submit(p, a.from, a.spender, a.to, a.requests, a.answers).Ok? {
      ProcessLeavesStuck(p, a.from, a.requests, a.answers.replies, |a.requests|);
    }
  }

  // ----- creating interest auctions -----

  /** Only assets with credit are worth anything. */
  lemma {:induction false} EmptyLotIsWorthless(p: Pool, assets: seq<Address>, quote: Quote, k: nat)
    requires k <= |assets| && InterestLot(p, assets, quote, k).Ok?
    ensures InterestLot(p, assets, quote, k).value.0 == map[] ==> InterestLot(p, assets, quote, k).value.1 == 0
    decreases k
  {
    hide Load;
    hide Floor;
    hide Pow10;
    if k > 0 {
      EmptyLotIsWorthless(p, assets, quote, k - 1);
      var (before, lot) := (InterestLot(p, assets, quote, k - 1).value, InterestLot(p, assets, quote, k).value);
      assert lot == before || assets[k - 1] in lot.0;
    }
  }

  /** Past the minimum value the check for an empty or worthless lot never fires: creation then fails only
      when the bid cannot be priced. */
  lemma {:induction false} CreateInterestSucceeds(p: Pool, assets: seq<Address>, quote: Quote)
    requires InterestLot(p, assets, quote, |assets|).Ok?
    ensures CreateInterest(p, assets, quote).Ok? <==>
      && p.interest.None? && InterestLot(p, assets, quote, |assets|).value.1 > 200 * Pow10(quote.decimals)
      && quote.tokens != 0
      && DivFloor(Floor(quote.usdc * Pow10(quote.decimals), SCALAR_7) * 5 * SCALAR_7, quote.tokens).value != 0
  {
    hide Floor;
    EmptyLotIsWorthless(p, assets, quote, |assets|);
    hide InterestLot;
    hide Pow10;
  }

  // ----- stuck auctions -----

  /** Every interest auction that waits out its 400 blocks is stuck from then on. */
  lemma EveryAuctionGetsStuck(p: Pool, assets: seq<Address>, quote: Quote, seconds: nat, blocks: nat)
    requires CreateInterest(p, assets, quote).Ok? && blocks > 400
    ensures Stuck(Run(p, [InterestAuctioned(assets, quote), Wait(seconds, blocks)]))
  {
    hide CreateInterest;
    var actions := [InterestAuctioned(assets, quote), Wait(seconds, blocks)];
    assert actions[..1] == [actions[0]] && actions[..1][..0] == [];
    var q := CreateInterest(p, assets, quote).value;
    assert Run(p, actions[..1][..0]) == p;
    assert Run(p, actions[..1]) == q;
    assert Run(p, actions) == Tick(q, seconds, blocks);
    CreatedNow(p, assets, quote);
  }

  lemma CreatedNow(p: Pool, assets: seq<Address>, quote: Quote)
    requires CreateInterest(p, assets, quote).Ok?
    ensures var q := CreateInterest(p, assets, quote).value;
      q.interest.Some? && q.interest.value.block == p.block + 1 && q.block == p.block
  {
    hide InterestLot;
    hide Floor;
    hide Pow10;
    hide DivFloor;
  }

  // ----- health -----

  /** No balance of debt has grown and none of collateral has shrunk. */
  ghost predicate NoRiskier(u: Positions, v: Positions)
  {
    forall i: nat :: DTokens(v, i) <= DTokens(u, i) && Amount(v.collateral, i) >= Amount(u.collateral, i)
  }

  lemma {:induction false} UncheckedTurn(b: Batch, from: Address, q: Request, reply: Reply)
    requires BatchOk(b) && Turn(b, from, q, reply).Ok?
    ensures b.checkHealth ==> Turn(b, from, q, reply).value.checkHealth
    ensures !Turn(b, from, q, reply).value.checkHealth ==>
      NoRiskier(PositionsOf(b.pool, from), PositionsOf(Turn(b, from, q, reply).value.pool, from))
  {
    hide Perform;
    hide MoveBetween;
    hide WriteOff;
    hide LoadAll;
    hide Scale;
    hide HandOut;
    hide DrawCredit;
    hide BatchOk;
    if q.kind <= 5 {
      UncheckedPerform(b, from, q);
    }
    hide LoadReserve;
    hide PerformRequest;
  }

  lemma UncheckedPerform(b: Batch, from: Address, q: Request)
    requires BatchOk(b) && q.kind <= 5 && q.amount >= 0 && PerformRequest(b, from, q).Ok?
    ensures PerformRequest(b, from, q).value.checkHealth == (b.checkHealth || q.kind == 3 || q.kind == 4)
    ensures q.kind != 3 && q.kind != 4 ==>
      NoRiskier(PositionsOf(b.pool, from), PositionsOf(PerformRequest(b, from, q).value.pool, from))
  {
    hide Perform;
    hide NoRiskier;
    var a := q.address;
    BooksAt(b.pool, View(b), a, from);
    if q.kind != 3 && q.kind != 4 {
      LoadedOk(b, a);
      RatesPositive(LoadReserve(b, a).value);
      ArmIsNoRiskier(q.kind, b.pool.configs[a], LoadReserve(b, a).value, PositionsOf(b.pool, from), q.amount);
    }
    hide BatchOk;
    hide LoadReserve;
    hide ReserveOk;
    hide ValidMetadata;
  }

  lemma ArmIsNoRiskier(kind: nat, c: ReserveConfig, r: ReserveData, u: Positions, amount: int)
    requires kind <= 5 && kind != 3 && kind != 4 && r.bRate > 0 && r.dRate > 0 && PositionsOk(u) && amount >= 0
    requires Perform(kind, c, r, u, amount).Ok?
    ensures NoRiskier(u, Perform(kind, c, r, u, amount).value.positions)
  {
    hide Floor;
    hide Ceil;
    hide Utilization;
    MintedWorth(r.bRate, 0, amount);
    RepaidWorth(r, Amount(u.liabilities, c.index), amount, 0);
  }

  /** Over a whole list of requests: if none sets the health check, the sender's debt has not grown and the
      collateral has not shrunk. */
  lemma {:induction false} UncheckedNeverRisks(p: Pool, from: Address, requests: seq<Request>, replies: seq<Reply>, k: nat)
    requires BooksOk(p) && k <= |requests| && Process(p, from, requests, replies, k).Ok?
    ensures !Process(p, from, requests, replies, k).value.checkHealth ==>
      NoRiskier(PositionsOf(p, from), PositionsOf(Process(p, from, requests, replies, k).value.pool, from))
    decreases k
  {
    hide Turn;
    hide BatchOk;
    hide BooksOk;
    if k == 0 {
      return;
    }
    ProcessKeeps(p, from, requests, replies, k - 1);
    UncheckedNeverRisks(p, from, requests, replies, k - 1);
    UncheckedTurn(Process(p, from, requests, replies, k - 1).value, from, requests[k - 1], ReplyTo(replies, k - 1));
    hide PositionsOf;
    hide DTokens;
  }

  /** Requests change positions, auctions and cash of the pool, nothing else. */
  lemma TurnAside(b: Batch, from: Address, q: Request, reply: Reply)
    requires Turn(b, from, q, reply).Ok?
    ensures SameSetting(b.pool, Turn(b, from, q, reply).value.pool)
  {
    hide PerformRequest;
    hide FillLiquidation;
    hide FillBadDebt;
    hide FillInterest;
    if q.kind <= 5 {
      PerformSetting(b, from, q);
    } else if q.kind == 6 {
      LiquidationSetting(b, from, q.address, q.amount % U64_LIMIT);
    } else if q.kind == 7 {
      BadDebtSetting(b, from, q.address, q.amount % U64_LIMIT, reply);
    } else if q.kind == 8 {
      InterestSetting(b, from, q.address, q.amount % U64_LIMIT, reply);
    }
  }

  lemma PerformSetting(b: Batch, from: Address, q: Request)
    requires q.kind <= 5 && PerformRequest(b, from, q).Ok?
    ensures SameSetting(b.pool, PerformRequest(b, from, q).value.pool)
  {
    hide LoadReserve;
    hide Perform;
  }

  lemma LiquidationSetting(b: Batch, from: Address, user: Address, percent: int)
    requires FillLiquidation(b, from, user, percent).Ok?
    ensures SameSetting(b.pool, FillLiquidation(b, from, user, percent).value.pool)
  {
    hide Scale;
    hide MoveBetween;
    var fill := Scale(b.pool.liquidations[user], percent, b.pool.block).value.0;
    MoveBetweenAside(b, user, from, fill.lot, fill.bid);
  }

  lemma BadDebtSetting(b: Batch, from: Address, user: Address, percent: int, reply: Reply)
    requires FillBadDebt(b, from, user, percent, reply).Ok?
    ensures SameSetting(b.pool, FillBadDebt(b, from, user, percent, reply).value.pool)
    ensures FillBadDebt(b, from, user, percent, reply).value.pool.interest == b.pool.interest
  {
    hide Scale;
    hide MoveBetween;
    hide WriteOff;
    var fill := Scale(b.pool.badDebt.value, percent, b.pool.block).value.0;
    MoveBetweenAside(b, user, from, map[], fill.bid);
    WriteOffAside(MoveBetween(b, user, from, map[], fill.bid).value, reply);
  }

  lemma InterestSetting(b: Batch, from: Address, user: Address, percent: int, reply: Reply)
    requires FillInterest(b, from, user, percent, reply).Ok?
    ensures SameSetting(b.pool, FillInterest(b, from, user, percent, reply).value.pool)
  {
    hide Scale;
    hide LoadAll;
    hide HandOut;
    hide DrawCredit;
  }

  ghost predicate SameSetting(p: Pool, q: Pool)
  {
    q == p.(accounts := q.accounts, liquidations := q.liquidations, badDebt := q.badDebt, interest := q.interest, cash := q.cash)
  }

  lemma {:induction false} ProcessAside(p: Pool, from: Address, requests: seq<Request>, replies: seq<Reply>, k: nat)
    requires k <= |requests| && Process(p, from, requests, replies, k).Ok?
    ensures SameSetting(p, Process(p, from, requests, replies, k).value.pool)
    decreases k
  {
    hide Turn;
    if k > 0 {
      ProcessAside(p, from, requests, replies, k - 1);
      TurnAside(Process(p, from, requests, replies, k - 1).value, from, requests[k - 1], ReplyTo(replies, k - 1));
    }
  }

  // ----- the health a submission leaves -----

  /** Stored reserves load as the submission saw them. */
  lemma StoredLoads(b: Batch, answers: Answers, a: Address)
    requires BatchOk(b)
    ensures LoadReserve(Idle(Settle(b, answers)), a) == LoadReserve(b, a)
  {
    hide CashAfter;
    hide Books;
    if a in b.cache && a in b.pool.configs {
      LoadedIsCurrent(b.pool.configs[a], b.pool.bstopRate, b.cache[a], b.pool.now);
    }
    hide Load;
  }

  lemma SettleAside(b: Batch, answers: Answers)
    ensures Settle(b, answers).resList == b.pool.resList && Settle(b, answers).configs == b.pool.configs
  {
    hide CashAfter;
  }

  lemma StoredCover(b: Batch, answers: Answers, u: Positions, scalar: int, min: int)
    requires BatchOk(b)
    ensures Covers(Idle(Settle(b, answers)), u, scalar, min) <==> Covers(b, u, scalar, min)
  {
    hide BatchOk;
    hide LoadReserve;
    hide Settle;
    hide CollateralWorth;
    hide DebtWorth;
    var n := Idle(Settle(b, answers));
    SettleAside(b, answers);
    forall a
      ensures LoadReserve(n, a) == LoadReserve(b, a)
    {
      StoredLoads(b, answers, a);
    }
    SameWorth(b, n, u, |b.pool.resList|);
  }

  /** What the health check of a submission decides, on the rounded sums. */
  lemma HealthCheckIs(data: PositionData)
    requires PositionDataOk(data)
    ensures var min := Floor(data.scalar * MIN_HEALTH, SCALAR_7);
      !IsHfUnder(data, MIN_HEALTH) <==> min * data.liabilityBase <= data.collateralBase * data.scalar
  {
    hide Floor;
    if data.liabilityBase > 0 {
      HealthFactorMeaning(data, Floor(data.scalar * MIN_HEALTH, SCALAR_7));
    } else {
      MulMono(0, data.collateralBase, data.scalar);
    }
    hide AsHealthFactor;
  }

  /** The least cover a submission must leave: 1.00001, in the oracle's decimals. */
  function MinCover(decimals: nat): (m: int)
    ensures m >= 0
  {
    FloorNonNeg(Pow10(decimals) * 1_0000100, SCALAR_7);
    Floor(Pow10(decimals) * 1_0000100, SCALAR_7)
  }

  /** The batch at the end of a submission's requests. */
  function Batched(p: Pool, from: Address, requests: seq<Request>, answers: Answers): Batch
    requires Process(p, from, requests, answers.replies, |requests|).Ok?
  {
    Process(p, from, requests, answers.replies, |requests|).value
  }

  /** A submission whose requests go through aborts only where health is enforced, and there only for a sender
      whose collateral does not clearly cover the debt; if it goes through, it does cover it. */
  lemma {:induction false} HealthDecides(p: Pool, from: Address, spender: Address, to: Address, requests: seq<Request>, answers: Answers)
    requires BooksOk(p) && from != p.self && spender != p.self && to != p.self
    requires Process(p, from, requests, answers.replies, |requests|).Ok?
    requires HealthAfter(Batched(p, from, requests, answers), from, answers.decimals).Ok?
    ensures var b := Batched(p, from, requests, answers);
      var (u, s, m) := (PositionsOf(b.pool, from), Pow10(answers.decimals), MinCover(answers.decimals));
      var r := Submit(p, from, spender, to, requests, answers);
      var enforced := b.checkHealth && u.liabilities != map[] && p.block > p.deploymentSeq;
      && (r.Abort? ==> r.error == InvalidHf && enforced && !ClearlyCovers(b, u, s, m))
      && (r.Ok? && enforced ==> Covers(b, u, s, m))
  {
    hide BooksOk;
    hide Process;
    hide CashAfter;
    hide Pow10;
    hide Floor;
    ProcessKeeps(p, from, requests, answers.replies, |requests|);
    ProcessAside(p, from, requests, answers.replies, |requests|);
    var b := Batched(p, from, requests, answers);
    BooksAt(b.pool, View(b), 0, from);
    hide PositionsOf;
    var (u, s) := (PositionsOf(b.pool, from), Pow10(answers.decimals));
    CalculateKeeps(b, u, s, |b.pool.resList|);
    CheckIsCover(b, u, s, MinCover(answers.decimals));
    hide Covers;
    hide ClearlyCovers;
    HealthCheckIs(HealthAfter(b, from, answers.decimals).value);
    hide IsHfUnder;
    hide Calculate;
    hide BatchOk;
    hide PositionDataOk;
  }

  /** The pool's promise to its lenders about a sender: after a submission made once health is enforced, the sender's
      debt has not grown and the collateral not shrunk, or there is no debt, or what the pool then stores says that
      collateral times rates and collateral factors is worth at least 1.00001 times debt times rates over liability
      factors. */
  lemma {:induction false} SubmitLeavesHealthy(p: Pool, from: Address, spender: Address, to: Address, requests: seq<Request>, answers: Answers)
    requires BooksOk(p) && p.block > p.deploymentSeq && Submit(p, from, spender, to, requests, answers).Ok?
    ensures var q := Submit(p, from, spender, to, requests, answers).value;
      || NoRiskier(PositionsOf(p, from), PositionsOf(q, from))
      || PositionsOf(q, from).liabilities == map[]
      || Covers(Idle(q), PositionsOf(q, from), Pow10(answers.decimals), MinCover(answers.decimals))
  {
    hide BooksOk;
    hide NoRiskier;
    hide CashAfter;
    hide Pow10;
    hide Calculate;
    hide IsHfUnder;
    hide Covers;
    hide ClearlyCovers;
    hide BatchOk;
    hide MinCover;
    hide Process;
    HealthDecides(p, from, spender, to, requests, answers);
    UncheckedNeverRisks(p, from, requests, answers.replies, |requests|);
    ProcessKeeps(p, from, requests, answers.replies, |requests|);
    ProcessAside(p, from, requests, answers.replies, |requests|);
    var b := Batched(p, from, requests, answers);
    StoredCover(b, answers, PositionsOf(b.pool, from), Pow10(answers.decimals), MinCover(answers.decimals));
  }
}
