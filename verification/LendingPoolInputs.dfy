/** Inputs at which the lending pool's promises fail, and sound pools that get stuck. */
module LendingPoolInputs {
  import opened Outcomes
  import opened FixedPoint
  import opened Totals
  import opened Interest
  import opened Reserves
  import opened Auctions
  import opened PoolUsers
  import opened PoolStates
  import opened Health
  import opened LendingPools
  import opened LendingPoolProofs
  import opened Liquidations
  import opened LendingPoolRuns
  import opened LendingPoolLimits

  const WILLING: Reply := Reply(true, true, 0, 0)

  const CONFIG: ReserveConfig := ReserveConfig(0, 7, 0_7500000, 0_7500000, 0_5000000, 0_9500000,
                                               0_0100000, 0_0500000, 0_5000000, 1_5000000, 20)

  /** Half lent out, last touched at time 0. */
  const HALF_LENT: ReserveData := ReserveData(SCALAR_9, SCALAR_9, SCALAR_9, 1000_0000000, 500_0000000, 0, 0)

  /** Lowering the take can leave a stored lot without the credit to pay it: a year's credit of 6 tokens at a
      take of 20% would be nothing at a take of 0, and drawing it would make the credit negative. */
  lemma LoweredTakeUncovers()
    ensures ValidMetadata(CONFIG) && ReserveOk(HALF_LENT)
    ensures Covered(CONFIG, 0_2000000, HALF_LENT, SECONDS_PER_YEAR, 6_0000000)
    ensures Load(CONFIG, 0_2000000, HALF_LENT, SECONDS_PER_YEAR).Ok?
    ensures Load(CONFIG, 0, HALF_LENT, SECONDS_PER_YEAR).Ok?
    ensures !Covered(CONFIG, 0, HALF_LENT, SECONDS_PER_YEAR, 6_0000000)
  {
    assert Utilization(HALF_LENT) == Ok(0_5000000);
    assert BorrowRate(CONFIG, 0_5000000, SCALAR_9) == Ok(0_0600000);
    assert AccrualRatio(0_0600000, SECONDS_PER_YEAR * SCALAR_9) == 1_060_000_000;
    assert Ceil(1_060_000_000 * SCALAR_9, SCALAR_9) == 1_060_000_000;
    assert AssetFromD(HALF_LENT.(dRate := 1_060_000_000), 500_0000000) == 530_0000000;
  }

  // ----- pools with one reserve -----

  /** A pool with one reserve and one user is in order if they agree. */
  lemma OneReserveBooks(p: Pool, asset: Address, c: ReserveConfig, r: ReserveData, user: Address, u: Positions)
    requires p.resList == [asset] && p.configs == map[asset := c] && p.data == map[asset := r] && p.accounts == map[user := u]
    requires p.bstopRate < SCALAR_7 && c.index == 0 && ValidMetadata(c) && ReserveOk(r) && r.lastTime <= p.now && PositionsOk(u)
    requires forall i: nat :: BTokens(u, i) == if i == 0 then r.bSupply else 0
    requires forall i: nat :: DTokens(u, i) == if i == 0 then r.dSupply else 0
    ensures BooksOk(p)
  {
    hide ValidMetadata;
    hide ReserveOk;
    hide PositionsOk;
    hide BTokens;
    hide DTokens;
    hide Total;
    forall i: nat
      ensures TotalB(p.accounts, i) == BTokens(u, i) && TotalD(p.accounts, i) == DTokens(u, i)
    {
      assert Bs(p.accounts, i) == map[user := BTokens(u, i)];
      TotalOfOne(user, BTokens(u, i));
      assert Ds(p.accounts, i) == map[user := DTokens(u, i)];
      TotalOfOne(user, DTokens(u, i));
    }
    hide TotalB;
    hide TotalD;
  }

  lemma OneReserveSolvent(p: Pool, asset: Address, r: ReserveData)
    requires p.data == map[asset := r] && p.cash.Keys == {asset} && NetOwed(r) <= p.cash[asset]
    ensures Solvent(p)
  {
    hide NetOwed;
  }

  /** The user who supplied all and borrowed half. */
  const BALANCES: Positions := Positions(map[0 := 500_0000000], map[], map[0 := 1000_0000000])

  function HalfLent(now: nat, block: nat, take: nat, interest: Option<AuctionData>, cash: nat): Pool
  {
    Pool(100, 101, 102, 0, now, block, 0, take, [1], map[1 := CONFIG], map[1 := HALF_LENT], map[7 := BALANCES],
         interest, None, map[], map[1 := cash])
  }

  lemma HalfLentOwes()
    ensures ReserveOk(HALF_LENT) && NetOwed(HALF_LENT) == 500_0000000 && ValidMetadata(CONFIG)
  {
    assert TotalSupply(HALF_LENT) == 1000_0000000;
    assert TotalLiabilities(HALF_LENT) == 500_0000000;
  }

  lemma BalancesMatch()
    ensures PositionsOk(BALANCES)
    ensures forall i: nat :: BTokens(BALANCES, i) == if i == 0 then HALF_LENT.bSupply else 0
    ensures forall i: nat :: DTokens(BALANCES, i) == if i == 0 then HALF_LENT.dSupply else 0
  {}

  lemma HalfLentOk(now: nat, block: nat, take: nat, interest: Option<AuctionData>, cash: nat)
    requires take < SCALAR_7 && cash >= 500_0000000
    ensures BooksOk(HalfLent(now, block, take, interest, cash)) && Solvent(HalfLent(now, block, take, interest, cash))
  {
    hide Books;
    hide Funded;
    hide ReserveOk;
    hide PositionsOk;
    hide ValidMetadata;
    hide NetOwed;
    hide BTokens;
    hide DTokens;
    HalfLentOwes();
    BalancesMatch();
    OneReserveBooks(HalfLent(now, block, take, interest, cash), 1, CONFIG, HALF_LENT, 7, BALANCES);
    OneReserveSolvent(HalfLent(now, block, take, interest, cash), 1, HALF_LENT);
  }

  /** The credit is covered when there is no auction, or its one entry is. */
  lemma OneReserveCredit(p: Pool, asset: Address, c: ReserveConfig, r: ReserveData, lot: int)
    requires p.configs == map[asset := c] && p.data == map[asset := r] && r.backstopCredit >= 0 && lot >= 0
    ensures p.interest.None? ==> CreditCovers(p)
    ensures p.interest.Some? && p.interest.value.lot == map[asset := lot] ==>
      (CreditCovers(p) <==> Covered(c, p.bstopRate, r, p.now, lot))
  {
    hide Covered;
    if p.interest.Some? && p.interest.value.lot == map[asset := lot] && CreditCovers(p) {
      assert asset in p.interest.value.lot;
    }
  }

  // ----- lowering the take -----

  /** A year's credit of 6 tokens at a take of 20%, auctioned for 10 backstop tokens. */
  const AUCTION: AuctionData := AuctionData(map[102 := 10], map[1 := 6_0000000], 1)

  function Auctioned(take: nat): Pool
  {
    HalfLent(SECONDS_PER_YEAR, 201, take, Some(AUCTION), 500_0000000)
  }

  /** A take of nothing accrues no credit. */
  lemma NoTakeNoCredit(c: ReserveConfig, r: ReserveData, now: nat)
    requires Load(c, 0, r, now).Ok?
    ensures Load(c, 0, r, now).value.backstopCredit == r.backstopCredit
  {
    hide Utilization;
    hide CalcAccrual;
    hide TotalLiabilities;
    hide TotalSupply;
    hide Floor;
    hide Ceil;
  }

  /** The fill of all of a one-entry auction when both sides are at 100%. */
  lemma FullFill(auction: AuctionData, token: Address, bid: int, asset: Address, lot: int, block: nat)
    requires auction.bid == map[token := bid] && auction.lot == map[asset := lot] && bid > 0 && lot > 0
    requires block == auction.block + 200
    ensures Scale(auction, 100, block) == Ok((AuctionData(map[token := bid], map[asset := lot], auction.block), None))
  {
    BasesBounded(bid, 100);
    BasesBounded(lot, 100);
    FloorExact(bid, SCALAR_7);
    FloorExact(lot, SCALAR_7);
    hide BidBase;
    hide LotBase;
    hide Floor;
    hide Ceil;
    assert BidModifier(200) == SCALAR_7 && LotModifier(200) == SCALAR_7;
    assert FilledBid(auction.bid, 100, SCALAR_7) == map[token := bid];
    assert FilledLot(auction.lot, 100, SCALAR_7) == map[asset := lot];
    assert RemainingBid(auction.bid, 100) == map[] && RemainingLot(auction.lot, 100) == map[];
  }

  /** A fill that draws on one asset. */
  lemma OneAssetFill(b: Batch, from: Address, percent: int, reply: Reply, fill: AuctionData, a: Address, amount: int)
    requires b.cache == map[] && b.pool.interest.Some? && from != b.pool.backstop && reply.donated
    requires Scale(b.pool.interest.value, percent, b.pool.block) == Ok((fill, None))
    requires fill.lot == map[a := amount] && b.pool.backstopToken in fill.bid
    requires LoadReserve(b, a).Ok? && Amount(b.pool.cash, a) >= amount
    ensures var r := LoadReserve(b, a).value;
      FillInterest(b, from, b.pool.backstop, percent, reply)
        == Ok(b.(pool := b.pool.(interest := None, cash := HandOut(b.pool.cash, fill.lot)),
                 cache := map[a := r.(backstopCredit := r.backstopCredit - amount)]))
  {
    hide Scale;
    hide HandOut;
    hide LoadReserve;
    var r := LoadReserve(b, a).value;
    assert fill.lot.Keys == {a};
    assert LoadAll(b, {a}).Ok?;
    assert LoadAll(b, {a}).value == map[a := r];
    assert DrawCredit(map[a := r], fill.lot) == map[a := r.(backstopCredit := r.backstopCredit - amount)];
    hide LoadAll;
    hide DrawCredit;
  }

  /** A submission of one request from someone without positions, which leaves none. */
  lemma OneRequest(p: Pool, from: Address, q: Request, reply: Reply, n: Batch)
    requires from != p.self && Turn(Start(p, from), from, q, reply) == Ok(n)
    requires !n.checkHealth && PositionsOf(n.pool, from) == NO_POSITIONS
    ensures Submit(p, from, from, from, [q], Answers([reply], 0, {}, {})) == Ok(Settle(n, Answers([reply], 0, {}, {})))
  {
    hide Turn;
    hide Settle;
    var answers := Answers([reply], 0, {}, {});
    assert Process(p, from, [q], answers.replies, 0) == Ok(Start(p, from));
    assert ReplyTo([reply], 0) == reply;
    assert Process(p, from, [q], answers.replies, 1) == Ok(n);
    NothingHeld(n, |n.pool.resList|, Pow10(0));
    hide Process;
    hide Pow10;
    hide Calculate;
  }

  lemma {:induction false} NothingHeld(b: Batch, k: nat, scalar: int)
    requires k <= |b.pool.resList|
    ensures Calculate(b, NO_POSITIONS, scalar, k).Ok?
    decreases k
  {
    if k > 0 { NothingHeld(b, k - 1, scalar); }
  }

  lemma AuctionedOk(take: nat)
    requires take < SCALAR_7
    ensures BooksOk(Auctioned(take)) && Solvent(Auctioned(take))
    ensures CreditCovers(Auctioned(take)) <==> Covered(CONFIG, take, HALF_LENT, SECONDS_PER_YEAR, 6_0000000)
  {
    hide BooksOk;
    hide Solvent;
    hide CreditCovers;
    hide Covered;
    HalfLentOk(SECONDS_PER_YEAR, 201, take, Some(AUCTION), 500_0000000);
    OneReserveCredit(Auctioned(take), 1, CONFIG, HALF_LENT, 6_0000000);
  }

  lemma FillTurn(b: Batch, from: Address, percent: nat, reply: Reply)
    requires b.pool.status == 0 && percent <= 100
    ensures Turn(b, from, Request(8, b.pool.backstop, percent), reply) == FillInterest(b, from, b.pool.backstop, percent, reply)
  {
    hide FillInterest;
  }

  /** What someone without positions gets who fills the whole auction. */
  lemma AuctionedFill(take: nat)
    requires Load(CONFIG, take, HALF_LENT, SECONDS_PER_YEAR).Ok?
    ensures var r := Load(CONFIG, take, HALF_LENT, SECONDS_PER_YEAR).value;
      var n := Turn(Start(Auctioned(take), 8), 8, Request(8, 101, 100), WILLING);
      n.Ok? && n.value.cache == map[1 := r.(backstopCredit := r.backstopCredit - 6_0000000)]
      && !n.value.checkHealth && PositionsOf(n.value.pool, 8) == NO_POSITIONS
  {
    hide Load;
    hide Turn;
    hide Scale;
    hide FillInterest;
    hide HandOut;
    var b := Start(Auctioned(take), 8);
    FillTurn(b, 8, 100, WILLING);
    assert LoadReserve(b, 1) == Load(CONFIG, take, HALF_LENT, SECONDS_PER_YEAR);
    hide LoadReserve;
    FullFill(AUCTION, 102, 10, 1, 6_0000000, 201);
    OneAssetFill(b, 8, 100, WILLING, AUCTION, 1, 6_0000000);
  }

  /** In a sound pool with an interest auction, lowering the take to nothing leaves the stored lot uncovered, and its
      fill, which still goes through, makes the backstop's credit negative. */
  lemma {:induction false} LoweredTakeBreaks()
    ensures PoolOk(Auctioned(0_2000000)) && UpdateTake(Auctioned(0_2000000), 0) == Ok(Auctioned(0))
    ensures !CreditCovers(Auctioned(0))
    ensures var r := Submit(Auctioned(0), 8, 8, 8, [Request(8, 101, 100)], Answers([WILLING], 0, {}, {}));
      r.Ok? && 1 in r.value.data && r.value.data[1].backstopCredit == -6_0000000
  {
    hide BooksOk;
    hide Solvent;
    hide CreditCovers;
    hide Submit;
    hide Turn;
    hide Covered;
    hide Load;
    LoweredTakeUncovers();
    AuctionedOk(0_2000000);
    AuctionedOk(0);
    AuctionedFill(0);
    NoTakeNoCredit(CONFIG, HALF_LENT, SECONDS_PER_YEAR);
    OneRequest(Auctioned(0), 8, Request(8, 101, 100), WILLING, Turn(Start(Auctioned(0), 8), 8, Request(8, 101, 100), WILLING).value);
  }

  // ----- an interest auction that gets stuck -----

  const QUOTE: Quote := Quote(map[1 := 1000], 0, SCALAR_7, 1)

  function Unauctioned(): Pool
  {
    HalfLent(SECONDS_PER_YEAR, 201, 0_2000000, None, 500_0000000)
  }

  lemma YearsCredit()
    ensures Load(CONFIG, 0_2000000, HALF_LENT, SECONDS_PER_YEAR).Ok?
    ensures Load(CONFIG, 0_2000000, HALF_LENT, SECONDS_PER_YEAR).value.backstopCredit >= 6_0000000
  {
    LoweredTakeUncovers();
    hide Load;
  }

  lemma YearsLot()
    ensures InterestLot(Unauctioned(), [1], QUOTE, 1).Ok? && InterestLot(Unauctioned(), [1], QUOTE, 1).value.1 > 200
  {
    hide Load;
    YearsCredit();
    var r := Load(CONFIG, 0_2000000, HALF_LENT, SECONDS_PER_YEAR).value;
    assert InterestLot(Unauctioned(), [1], QUOTE, 0) == Ok((map[], 0));
    assert Pow10(7) == 1_0000000;
    FloorMono(1000 * 6_0000000, 1000 * r.backstopCredit, 1_0000000);
    FloorExact(6000, 1_0000000);
    hide Floor;
    hide Pow10;
  }

  /** A sound pool whose interest is auctioned; 401 blocks later nobody can fill, replace or remove the auction. */
  lemma {:induction false} StuckIsReached()
    ensures PoolOk(Unauctioned())
    ensures CreateInterest(Unauctioned(), [1], QUOTE).Ok?
    ensures Stuck(Run(Unauctioned(), [InterestAuctioned([1], QUOTE), Wait(2005, 401)]))
  {
    hide BooksOk;
    hide Solvent;
    hide CreditCovers;
    hide CreateInterest;
    hide InterestLot;
    hide Run;
    hide Stuck;
    HalfLentOk(SECONDS_PER_YEAR, 201, 0_2000000, None, 500_0000000);
    OneReserveCredit(Unauctioned(), 1, CONFIG, HALF_LENT, 0);
    YearsLot();
    FloorExact(1, SCALAR_7);
    CreateInterestSucceeds(Unauctioned(), [1], QUOTE);
    EveryAuctionGetsStuck(Unauctioned(), [1], QUOTE, 2005, 401);
  }

  // ----- debt that cannot be repaid -----

  /** Cash for all of the supply, say after a gift of the half that is lent out. */
  function Rich(): Pool
  {
    HalfLent(0, 0, 0, None, 1000_0000000)
  }

  const DRAINED: ReserveData := ReserveData(SCALAR_9, SCALAR_9, SCALAR_9, 0, 500_0000000, 0, 0)
  const DEBT_ONLY: Positions := Positions(map[0 := 500_0000000], map[], map[])
  const WITHDRAWAL: Request := Request(1, 1, 1000_0000000)

  function Drained(): Batch
  {
    Batch(Rich().(accounts := map[7 := DEBT_ONLY]), map[1 := DRAINED], Flows(map[], map[1 := 1000_0000000], map[]), false)
  }

  lemma WithdrawsAll()
    ensures Withdraw(CONFIG, HALF_LENT, BALANCES, 1000_0000000) == Ok(Change(DRAINED, DEBT_ONLY, None, Some(1000_0000000)))
  {
    hide Floor;
    hide Ceil;
    FloorExact(1000_0000000, SCALAR_9);
    assert BALANCES.supply - {0} == map[];
  }

  /** The borrower's own supply is withdrawn: nothing but the debt is left. */
  lemma DrainingTurn()
    ensures Turn(Start(Rich(), 7), 7, WITHDRAWAL, WILLING) == Ok(Drained())
  {
    hide FillLiquidation;
    hide FillBadDebt;
    hide FillInterest;
    var b := Start(Rich(), 7);
    assert b.pool.accounts == map[7 := BALANCES];
    assert LoadReserve(b, 1) == Ok(HALF_LENT);
    WithdrawsAll();
    hide Withdraw;
    hide LoadReserve;
    assert b.pool.accounts[7 := DEBT_ONLY] == map[7 := DEBT_ONLY];
    assert b.cache[1 := DRAINED] == map[1 := DRAINED];
  }

  function AfterDraining(): Pool
  {
    Settle(Drained(), Answers([WILLING], 0, {}, {}))
  }

  lemma DrainedHealth()
    ensures HealthAfter(Drained(), 7, 0).Ok?
  {
    var b := Drained();
    assert LoadReserve(b, 1) == Ok(DRAINED);
    hide LoadReserve;
    assert Calculate(b, DEBT_ONLY, Pow10(0), 0).Ok?;
    LiabilityWeight(CONFIG, DRAINED, 500_0000000);
    hide EffectiveAssetFromD;
    hide Pow10;
    hide Floor;
    hide Ceil;
    assert Calculate(b, DEBT_ONLY, Pow10(0), 1).Ok?;
  }

  lemma DrainingSubmits()
    ensures Process(Rich(), 7, [WITHDRAWAL], [WILLING], 1) == Ok(Drained())
    ensures Submit(Rich(), 7, 7, 7, [WITHDRAWAL], Answers([WILLING], 0, {}, {})) == Ok(AfterDraining())
  {
    hide Turn;
    hide Settle;
    hide HealthAfter;
    DrainingTurn();
    assert Process(Rich(), 7, [WITHDRAWAL], [WILLING], 0) == Ok(Start(Rich(), 7));
    assert ReplyTo([WILLING], 0) == WILLING;
    assert Process(Rich(), 7, [WITHDRAWAL], [WILLING], 1) == Ok(Drained());
    DrainedHealth();
    hide Process;
  }

  /** A repayment needs something to be supplied. */
  lemma RepayNeedsSupply(c: ReserveConfig, r: ReserveData, u: Positions, amount: nat)
    requires ReserveOk(r) && r.bSupply == 0 && PositionsOk(u)
    ensures Perform(5, c, r, u, amount).Abort?
  {
    hide Floor;
    hide Ceil;
    FloorExact(0, SCALAR_9);
    assert TotalSupply(r) == 0;
    RepaySucceeds(c, r, u, amount);
    hide Repay;
    hide PositionsOk;
  }

  lemma RepayTurnAborts(b: Batch, user: Address, asset: Address, amount: int, reply: Reply)
    requires LoadReserve(b, asset).Ok?
    requires var r := LoadReserve(b, asset).value;
      ReserveOk(r) && r.bSupply == 0 && PositionsOk(PositionsOf(b.pool, user))
    ensures Turn(b, user, Request(5, asset, amount), reply).Abort?
  {
    hide LoadReserve;
    hide PositionsOf;
    hide PositionsOk;
    hide ReserveOk;
    if amount >= 0 {
      RepayNeedsSupply(b.pool.configs[asset], LoadReserve(b, asset).value, PositionsOf(b.pool, user), amount);
    }
    hide Perform;
  }

  lemma RepayAborts(p: Pool, user: Address, asset: Address, amount: int, replies: seq<Reply>)
    requires asset in p.configs && asset in p.data && p.data[asset].lastTime == p.now
    requires ReserveOk(p.data[asset]) && p.data[asset].bSupply == 0 && PositionsOk(PositionsOf(p, user))
    ensures Process(p, user, [Request(5, asset, amount)], replies, 1).Abort?
  {
    hide Turn;
    hide PositionsOk;
    hide ReserveOk;
    var b := Start(p, user);
    LoadedIsCurrent(p.configs[asset], p.bstopRate, p.data[asset], p.now);
    hide Load;
    assert LoadReserve(b, asset) == Ok(p.data[asset]);
    assert PositionsOf(b.pool, user) == PositionsOf(p, user);
    RepayTurnAborts(b, user, asset, amount, ReplyTo(replies, 0));
    assert Process(p, user, [Request(5, asset, amount)], replies, 0) == Ok(b);
    hide LoadReserve;
    hide PositionsOf;
  }

  /** From a sound pool a withdrawal leads to one, just as sound, with debt and no supply, in which the borrower
      cannot repay any amount. */
  lemma {:induction false} DebtCannotBeRepaid(amount: int, answers: Answers)
    ensures PoolOk(Rich()) && PoolOk(AfterDraining())
    ensures Submit(Rich(), 7, 7, 7, [WITHDRAWAL], Answers([WILLING], 0, {}, {})) == Ok(AfterDraining())
    ensures DTokens(PositionsOf(AfterDraining(), 7), 0) == 500_0000000
    ensures Submit(AfterDraining(), 7, 7, 7, [Request(5, 1, amount)], answers).Abort?
  {
    hide BooksOk;
    hide Solvent;
    hide CreditCovers;
    hide Submit;
    hide Process;
    HalfLentOk(0, 0, 0, None, 1000_0000000);
    OneReserveCredit(Rich(), 1, CONFIG, HALF_LENT, 0);
    DrainingSubmits();
    SubmitKeeps(Rich(), 7, 7, 7, [WITHDRAWAL], Answers([WILLING], 0, {}, {}));
    DebtStands();
    RepayAborts(AfterDraining(), 7, 1, amount, answers.replies);
    NoBatchNoSubmission(AfterDraining(), 7, [Request(5, 1, amount)], answers);
  }

  lemma DebtStands()
    ensures var p := AfterDraining();
      && 1 in p.configs && 1 in p.data && p.data[1] == DRAINED && p.now == 0
      && ReserveOk(DRAINED) && PositionsOk(PositionsOf(p, 7)) && DTokens(PositionsOf(p, 7), 0) == 500_0000000
  {
    hide CashAfter;
  }

  lemma NoBatchNoSubmission(p: Pool, from: Address, requests: seq<Request>, answers: Answers)
    requires Process(p, from, requests, answers.replies, |requests|).Abort?
    ensures Submit(p, from, from, from, requests, answers).Abort?
  {
    hide Process;
  }

  // ----- payments that never arrive -----

  /** A pool with one fresh reserve of asset 1. */
  const FRESH: Pool := Pool(100, 101, 102, 0, 0, 0, 0, 0, [1], map[1 := CONFIG], map[1 := NEW_RESERVE], map[], None, None, map[], map[])

  lemma FreshOk()
    ensures PoolOk(FRESH)
  {
    hide PoolOk;
    hide PoolKept;
    var empty := FRESH.(resList := [], configs := map[], data := map[]);
    GenesisOk(empty);
    AddReserveToSound(empty, 1, CONFIG);
    assert FRESH == empty.(resList := empty.resList + [1],
                           configs := empty.configs[1 := CONFIG.(index := |empty.resList|)],
                           data := empty.data[1 := NEW_RESERVE.(lastTime := empty.now)]);
  }

  lemma AddReserveToSound(p: Pool, asset: Address, config: ReserveConfig)
    requires PoolOk(p) && asset !in p.configs && ValidMetadata(config)
    ensures PoolOk(p.(resList := p.resList + [asset],
                      configs := p.configs[asset := config.(index := |p.resList|)],
                      data := p.data[asset := NEW_RESERVE.(lastTime := p.now)]))
  {
    AddReserveKeeps(p, asset, config);
    hide Books;
    hide Funded;
    hide CreditOk;
    hide ValidMetadata;
  }

  const SUPPLIED: ReserveData := NEW_RESERVE.(bSupply := 100)
  const PAYMENT: Request := Request(0, 1, 100)

  function Supplied(): Batch
  {
    Batch(FRESH.(accounts := map[7 := NO_POSITIONS.(supply := map[0 := 100])]), map[1 := SUPPLIED],
          Flows(map[1 := 100], map[], map[]), false)
  }

  lemma SupplyTurn(b: Batch, from: Address, q: Request, reply: Reply)
    requires q.kind == 0 && q.amount >= 0 && b.pool.status <= 3
    ensures Turn(b, from, q, reply) == PerformRequest(b, from, q)
  {
    hide PerformRequest;
    hide FillLiquidation;
    hide FillBadDebt;
    hide FillInterest;
  }

  lemma SupplyOf100()
    ensures Supply(CONFIG, NEW_RESERVE, NO_POSITIONS, 100)
      == Ok(Change(SUPPLIED, NO_POSITIONS.(supply := map[0 := 100]), Some(100), None))
  {
    hide Floor;
    hide Ceil;
    FloorExact(100, SCALAR_9);
  }

  lemma Performed(b: Batch, from: Address, q: Request, r: ReserveData, change: Change)
    requires q.kind == 0 && LoadReserve(b, q.address) == Ok(r)
    requires Supply(b.pool.configs[q.address], r, PositionsOf(b.pool, from), q.amount) == Ok(change)
    ensures PerformRequest(b, from, q)
      == Ok(Batch(b.pool.(accounts := b.pool.accounts[from := change.positions]), b.cache[q.address := change.reserve],
                  Transfers(b.flows, q.address, change), b.checkHealth))
  {
    hide Supply;
    hide LoadReserve;
  }

  lemma FreshLoads()
    ensures LoadReserve(Start(FRESH, 7), 1) == Ok(NEW_RESERVE) && PositionsOf(Start(FRESH, 7).pool, 7) == NO_POSITIONS
    ensures FRESH.configs[1] == CONFIG
  {
    hide Utilization;
    hide CalcAccrual;
    hide ApplyAccrual;
  }

  /** The batch after one supply of 100. */
  lemma OneSupply()
    ensures Turn(Start(FRESH, 7), 7, PAYMENT, WILLING) == Ok(Supplied())
  {
    hide Turn;
    hide Supply;
    hide LoadReserve;
    hide PerformRequest;
    var (start, change) := (Start(FRESH, 7), Change(SUPPLIED, NO_POSITIONS.(supply := map[0 := 100]), Some(100), None));
    SupplyTurn(start, 7, PAYMENT, WILLING);
    SupplyOf100();
    FreshLoads();
    Performed(start, 7, PAYMENT, NEW_RESERVE, change);
    assert start.pool.accounts[7 := change.positions] == map[7 := change.positions];
    assert start.pool.(accounts := map[7 := change.positions]) == FRESH.(accounts := map[7 := change.positions]);
    assert start.cache[1 := SUPPLIED] == map[1 := SUPPLIED];
    assert Transfers(start.flows, 1, change) == Flows(map[1 := 100], map[], map[]);
  }

  lemma SuppliedOwes()
    ensures NetOwed(SUPPLIED) == 100
  {
    hide Floor;
    hide Ceil;
    FloorExact(100, SCALAR_9);
    FloorExact(0, SCALAR_9);
    assert TotalSupply(SUPPLIED) == 100 && TotalLiabilities(SUPPLIED) == 0;
  }

  lemma SuppliedHealth()
    ensures HealthAfter(Supplied(), 7, 0).Ok?
  {
    var b := Supplied();
    var u := NO_POSITIONS.(supply := map[0 := 100]);
    assert Calculate(b, u, Pow10(0), 0).Ok?;
    assert Calculate(b, u, Pow10(0), 1).Ok?;
  }

  lemma SupplyProcesses()
    ensures Process(FRESH, 7, [PAYMENT], [WILLING], 1) == Ok(Supplied())
  {
    hide Turn;
    OneSupply();
    assert Process(FRESH, 7, [PAYMENT], [WILLING], 0) == Ok(Start(FRESH, 7));
    assert ReplyTo([WILLING], 0) == WILLING;
  }

  /** A supply whose transfer fails is credited all the same, since a failed transfer is ignored: the pool
      then owes tokens it never received. */
  lemma {:induction false} UnpaidSupplyBreaks()
    ensures PoolOk(FRESH)
    ensures var r := Submit(FRESH, 7, 7, 7, [PAYMENT], Answers([WILLING], 0, {1}, {}));
      r.Ok? && 1 in r.value.data && r.value.data[1] == SUPPLIED && Amount(r.value.cash, 1) == 0 && !Solvent(r.value)
  {
    hide Process;
    hide PoolOk;
    hide NetOwed;
    hide HealthAfter;
    FreshOk();
    SupplyProcesses();
    SuppliedHealth();
    SuppliedOwes();
    var r := Submit(FRESH, 7, 7, 7, [PAYMENT], Answers([WILLING], 0, {1}, {})).value;
    assert r.data[1] == SUPPLIED && Amount(r.cash, 1) == 0;
    SolventMeans(r);
    hide Solvent;
    assert Owed(r.data, 1) == 100;
  }
}
