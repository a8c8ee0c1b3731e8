/** Bad debt auctions that sound pools create and nobody can fill: one whose debt is written off under it, and one
    that offers nothing. */
module LendingPoolBadDebtInputs {
  import opened Outcomes
  import opened FixedPoint
  import opened Totals
  import opened Interest
  import opened Reserves
  import opened Auctions
  import opened PoolUsers
  import opened PoolStates
  import opened Health
  import opened LendingPools
  import opened LendingPoolProofs
  import opened LendingPoolLoops
  import opened LendingPoolRuns
  import opened LendingPoolBadDebt
  import opened LendingPoolInputs

  const DEBT: Positions := Positions(map[0 := 500_0000000], map[], map[])
  const HALF_DEBT: Positions := Positions(map[0 := 250_0000000], map[], map[])
  const SUPPLY: Positions := Positions(map[], map[], map[0 := 1000_0000000])

  /** The borrower without collateral has handed the debt to the backstop. */
  function Defaulted(block: nat, badDebt: Option<AuctionData>): Pool
  {
    Rich().(block := block, badDebt := badDebt, accounts := map[101 := DEBT, 7 := SUPPLY])
  }

  lemma ReserveLoads(b: Batch)
    requires b.pool.configs == map[1 := CONFIG] && b.pool.data == map[1 := HALF_LENT] && b.pool.now == 0 && b.cache == map[]
    ensures LoadReserve(b, 1) == Ok(HALF_LENT)
    ensures LoadAll(b, {1}) == Ok(map[1 := HALF_LENT])
  {
    assert LoadReserve(b, 1) == Ok(HALF_LENT);
    hide LoadReserve;
    assert LoadAll(b, {1}).Ok?;
    assert LoadAll(b, {1}).value == map[1 := HALF_LENT];
  }

  lemma AssetOfFirst(resList: seq<Address>, m: map<Address, int>)
    requires resList == [1] && m.Keys == {0}
    ensures AssetsOf(resList, m) == {1}
  {
    assert 0 in m && resList[0] == 1;
  }

  lemma DebtIsMoved()
    ensures MoveBadDebt(Rich(), 7) == Ok(Defaulted(0, None))
  {
    var p := Rich();
    ReserveLoads(Idle(p));
    hide LoadAll;
    AssetOfFirst(p.resList, BALANCES.liabilities);
    assert Merged(map[], BALANCES.liabilities) == DEBT.liabilities;
    hide AssetsOf;
    hide Merged;
    assert p.accounts[101 := DEBT][7 := SUPPLY] == map[101 := DEBT, 7 := SUPPLY];
    assert p.data + map[1 := HALF_LENT] == p.data;
  }

  // ----- creation -----

  /** A debt of 500 against backstop tokens worth half each, and ten of them. */
  const CHEAP: Quote := Quote(map[1 := 1], 0, SCALAR_7, 10)

  /** The same debt against one backstop token worth a thousand. */
  const DEAR: Quote := Quote(map[1 := 1], 0, 200 * SCALAR_7, 1)

  const AUCTION: AuctionData := AuctionData(map[1 := 500_0000000], map[102 := 10], 1)
  const LOTLESS: AuctionData := AuctionData(map[1 := 500_0000000], map[102 := 0], 1)

  lemma DebtIsValued(quote: Quote)
    requires quote.prices == map[1 := 1]
    ensures DebtBid(Defaulted(0, None), DEBT.liabilities, quote, 1) == Ok((map[1 := 500_0000000], 500))
  {
    var p := Defaulted(0, None);
    ReserveLoads(Idle(p));
    hide LoadReserve;
    FloorExact(500, 1_0000000);
    FloorExact(500_0000000, SCALAR_9);
    assert AssetFromD(HALF_LENT, 500_0000000) == 500_0000000;
    assert Pow10(7) == 1_0000000;
    assert DebtBid(p, DEBT.liabilities, quote, 0) == Ok((map[], 0));
    hide Floor;
    hide Pow10;
    hide AssetFromD;
  }

  lemma CheapIsCreated()
    ensures CreateBadDebt(Defaulted(0, None), CHEAP) == Ok(Defaulted(0, Some(AUCTION)))
  {
    DebtIsValued(CHEAP);
    assert PositionsOf(Defaulted(0, None), 101) == DEBT;
    hide DebtBid;
    FloorExact(1, SCALAR_7);
    FloorExact(700, SCALAR_7);
    FloorExact(500_0000, 10);
    FloorExact(1400, 500_0000);
  }

  lemma DearIsCreated()
    ensures CreateBadDebt(Defaulted(0, None), DEAR) == Ok(Defaulted(0, Some(LOTLESS)))
  {
    DebtIsValued(DEAR);
    assert PositionsOf(Defaulted(0, None), 101) == DEBT;
    hide DebtBid;
  }

  lemma DefaultedOk()
    ensures PoolOk(Rich()) && PoolOk(Defaulted(0, None))
  {
    HalfLentOk(0, 0, 0, None, 1000_0000000);
    OneReserveCredit(Rich(), 1, CONFIG, HALF_LENT, 0);
    DebtIsMoved();
    MoveBadDebtKeeps(Rich(), 7);
    hide Books;
    hide Funded;
    hide CreditOk;
    hide MoveBadDebt;
  }

  lemma AuctionKeepsOk(quote: Quote)
    requires PoolOk(Defaulted(0, None)) && CreateBadDebt(Defaulted(0, None), quote).Ok?
    ensures PoolOk(CreateBadDebt(Defaulted(0, None), quote).value)
  {
    BadDebtAside(Defaulted(0, None), quote);
    hide Books;
    hide Funded;
    hide CreditOk;
    hide CreateBadDebt;
  }

  /** A sound pool whose bad debt is auctioned for nothing: no call fills, replaces or removes the auction before its
      temporary storage runs out. */
  lemma {:induction false} LotlessIsReached(actions: seq<Action>)
    requires BadDebtLapses !in actions
    ensures PoolOk(Rich()) && PoolOk(Defaulted(0, Some(LOTLESS)))
    ensures Run(Rich(), [BadDebtMoved(7), BadDebtAuctioned(DEAR)]) == Defaulted(0, Some(LOTLESS))
    ensures Run(Defaulted(0, Some(LOTLESS)), actions).badDebt == Some(LOTLESS)
  {
    hide PoolOk;
    hide MoveBadDebt;
    hide CreateBadDebt;
    DefaultedOk();
    DebtIsMoved();
    DearIsCreated();
    AuctionKeepsOk(DEAR);
    RunOfTwo(Rich(), BadDebtMoved(7), BadDebtAuctioned(DEAR));
    assert Lotless(Defaulted(0, Some(LOTLESS)));
    LotlessUntilItLapses(Defaulted(0, Some(LOTLESS)), actions);
    hide Run;
  }

  lemma RunOfTwo(p: Pool, a: Action, b: Action)
    ensures Run(p, [a, b]) == Step(Step(p, a), b)
  {
    hide Step;
    assert [a, b][..1] == [a] && [a][..0] == [];
    assert Run(p, [a]) == Step(p, a);
  }

  // ----- a write-off under a stored auction -----

  /** Half of the auction, 200 blocks from its start: half the debt for half the lot. */
  const HALF: AuctionData := AuctionData(map[1 := 250_0000000], map[102 := 5], 1)

  /** The reserve once half of its debt is gone, and all of it. */
  const R_HALF: ReserveData := HALF_LENT.(dSupply := 250_0000000)
  const R_NONE: ReserveData := HALF_LENT.(dSupply := 0)

  /** A fill of half a one-entry auction of even amounts when both sides are at 100%. */
  lemma HalfFill(auction: AuctionData, asset: Address, bid: nat, token: Address, lot: nat)
    requires auction.bid == map[asset := 2 * bid] && auction.lot == map[token := 2 * lot] && bid > 0 && lot > 0
    ensures var half := AuctionData(map[asset := bid], map[token := lot], auction.block);
      Scale(auction, 50, auction.block + 200) == Ok((half, Some(half)))
  {
    FloorExact(bid, SCALAR_7);
    FloorExact(lot, SCALAR_7);
    assert 2 * bid * (50 * PERCENT) == bid * SCALAR_7 && 2 * lot * (50 * PERCENT) == lot * SCALAR_7;
    hide Floor;
    hide Ceil;
    assert BidModifier(200) == SCALAR_7 && LotModifier(200) == SCALAR_7;
    assert FilledBid(auction.bid, 50, SCALAR_7) == map[asset := bid];
    assert FilledLot(auction.lot, 50, SCALAR_7) == map[token := lot];
    assert RemainingBid(auction.bid, 50) == map[asset := bid] && RemainingLot(auction.lot, 50) == map[token := lot];
    assert asset in map[asset := bid];
    hide FilledBid;
    hide FilledLot;
    hide RemainingBid;
    hide RemainingLot;
  }

  /** Taking from, or giving to, one balance of the only reserve. */
  lemma OneTaken(b: Batch, u: Positions, r: ReserveData, amount: int, rest: map<Address, int>)
    requires Listed(b.pool) && b.pool.resList == [1] && LoadReserve(b, 1) == Ok(r)
    requires Taken(u.liabilities, 0, amount, NegativeAmount) == Ok(rest)
    ensures RmFrom(b, u, map[], map[1 := amount])
      == Ok((u.(liabilities := rest), b.cache[1 := r.(dSupply := r.dSupply - amount)]))
  {
    hide LoadReserve;
    hide TakeFrom;
    hide Taken;
    assert b.pool.configs[1].index == 0 && 1 in b.pool.configs by { OneIndex(b.pool); }
    hide Listed;
    LendingPoolLoops.NothingTaken(b, u, false);
    LendingPoolLoops.NothingTaken(b, u, true);
    assert b.(cache := b.cache) == b;
    var none: map<Address, int> := map[];
    TakeTurn(b, u, true, none, 1, amount);
    assert none[1 := amount] == map[1 := amount];
  }

  lemma OneGiven(b: Batch, u: Positions, r: ReserveData, amount: int, more: map<Address, int>)
    requires Listed(b.pool) && b.pool.resList == [1] && LoadReserve(b, 1) == Ok(r)
    requires Added(u.liabilities, 0, amount, NegativeAmount) == Ok(more)
    ensures AddTo(b, u, map[], map[1 := amount])
      == Ok((u.(liabilities := more), b.cache[1 := r.(dSupply := r.dSupply + amount)]))
  {
    hide LoadReserve;
    hide GiveTo;
    hide Added;
    assert b.pool.configs[1].index == 0 && 1 in b.pool.configs by { OneIndex(b.pool); }
    hide Listed;
    NothingGiven(b, u, false);
    NothingGiven(b, u, true);
    assert b.(cache := b.cache) == b;
    var none: map<Address, int> := map[];
    GiveTurn(b, u, true, none, 1, amount);
    assert none[1 := amount] == map[1 := amount];
  }

  lemma OneIndex(p: Pool)
    requires Listed(p) && p.resList == [1]
    ensures 1 in p.configs && p.configs[1].index == 0
  {
    hide ValidMetadata;
    assert p.resList[0] == 1;
  }

  /** The pool 200 blocks into its auction, and what a submission starts from. */
  function Open(): Pool { Defaulted(201, Some(AUCTION)) }

  lemma OpenIsReached()
    ensures Run(Rich(), [BadDebtMoved(7), BadDebtAuctioned(CHEAP), Wait(0, 201)]) == Open() && PoolOk(Open())
  {
    hide PoolOk;
    hide MoveBadDebt;
    hide CreateBadDebt;
    DefaultedOk();
    DebtIsMoved();
    CheapIsCreated();
    AuctionKeepsOk(CHEAP);
    WaitKeepsOk(Defaulted(0, Some(AUCTION)), 0, 201);
    RunOfTwo(Rich(), BadDebtMoved(7), BadDebtAuctioned(CHEAP));
    var actions := [BadDebtMoved(7), BadDebtAuctioned(CHEAP), Wait(0, 201)];
    assert actions[..2] == [BadDebtMoved(7), BadDebtAuctioned(CHEAP)];
    assert Run(Rich(), actions) == Step(Run(Rich(), actions[..2]), Wait(0, 201));
    hide Run;
  }

  lemma WaitKeepsOk(p: Pool, seconds: nat, blocks: nat)
    requires PoolOk(p)
    ensures PoolOk(Tick(p, seconds, blocks))
  {
    TickKeeps(p, seconds, blocks);
    hide Books;
    hide Funded;
    hide CreditOk;
  }

  /** The pool after the first request: half the debt with the filler, half written off. */
  function Burned(): Flows { Flows(map[], map[], WrittenOff(map[], map[1 := HALF_LENT], map[1 := 250_0000000])) }

  function Filled(): Batch
  {
    Batch(Open().(accounts := map[101 := NO_POSITIONS, 7 := SUPPLY, 8 := HALF_DEBT], badDebt := Some(HALF)),
          map[1 := R_HALF], Burned(), true)
  }

  lemma HalfIsTaken(b: Batch)
    requires b == Start(Open(), 8)
    ensures RmFrom(b, DEBT, map[], HALF.bid) == Ok((HALF_DEBT, map[1 := R_HALF]))
  {
    hide RmFrom;
    StartListed();
    BalancesOf();
    ReserveLoads(b);
    hide Taken;
    hide Listed;
    hide LoadReserve;
    OneTaken(b, DEBT, HALF_LENT, 250_0000000, HALF_DEBT.liabilities);
    assert b.cache[1 := R_HALF] == map[1 := R_HALF];
  }

  lemma HalfIsGiven(b: Batch)
    requires b == Start(Open(), 8).(cache := map[1 := R_HALF])
    ensures AddTo(b, NO_POSITIONS, map[], HALF.bid) == Ok((HALF_DEBT, map[1 := HALF_LENT]))
  {
    hide AddTo;
    StartListed();
    BalancesOf();
    assert LoadReserve(b, 1) == Ok(R_HALF);
    hide Added;
    hide Listed;
    hide LoadReserve;
    OneGiven(b, NO_POSITIONS, R_HALF, 250_0000000, HALF_DEBT.liabilities);
    assert b.cache[1 := HALF_LENT] == map[1 := HALF_LENT];
  }

  lemma RestIsTaken(b: Batch)
    requires b == Start(Open(), 8).(cache := map[1 := HALF_LENT])
    ensures RmFrom(b, HALF_DEBT, map[], HALF.bid) == Ok((NO_POSITIONS, map[1 := R_HALF]))
  {
    hide RmFrom;
    StartListed();
    BalancesOf();
    assert LoadReserve(b, 1) == Ok(HALF_LENT);
    hide Taken;
    hide Listed;
    hide LoadReserve;
    OneTaken(b, HALF_DEBT, HALF_LENT, 250_0000000, map[]);
    assert b.cache[1 := R_HALF] == map[1 := R_HALF];
  }

  lemma BalancesOf()
    ensures Taken(DEBT.liabilities, 0, 250_0000000, NegativeAmount) == Ok(HALF_DEBT.liabilities)
    ensures Added(NO_POSITIONS.liabilities, 0, 250_0000000, NegativeAmount) == Ok(HALF_DEBT.liabilities)
    ensures Taken(HALF_DEBT.liabilities, 0, 250_0000000, NegativeAmount) == Ok(map[])
  {
    assert HALF_DEBT.liabilities - {0} == map[];
    assert DEBT.liabilities[0 := 250_0000000] == HALF_DEBT.liabilities;
    assert NO_POSITIONS.liabilities[0 := 250_0000000] == HALF_DEBT.liabilities;
  }

  lemma StartListed()
    ensures Listed(Start(Open(), 8).pool) && Start(Open(), 8).pool.resList == [1]
  {}

  lemma NothingBehind()
    ensures BackstopThreshold(0, 0) == 0
  {}

  lemma HalfByAsset()
    ensures ByAsset(map[1 := CONFIG], HALF_DEBT.liabilities) == HALF.bid
  {}

  lemma HalfIsWrittenOff(b: Batch)
    requires b == Start(Open(), 8).(cache := map[1 := HALF_LENT])
    ensures WriteOffFrom(b, HALF_DEBT, map[], WILLING) == Ok((NO_POSITIONS, map[1 := R_HALF], Burned().burned))
  {
    hide BackstopThreshold;
    hide ByAsset;
    hide RmFrom;
    hide LoadAll;
    hide WrittenOff;
    RestIsTaken(b);
    NothingBehind();
    HalfByAsset();
    CachedLoads(b, HALF_LENT);
    assert HALF.bid.Keys == {1} && HALF.bid == map[1 := 250_0000000];
    assert HALF_DEBT.liabilities != map[] by { assert 0 in HALF_DEBT.liabilities; }
    assert ByAsset(b.pool.configs, HALF_DEBT.liabilities) == HALF.bid;
    assert LoadAll(b, HALF.bid.Keys) == Ok(map[1 := HALF_LENT]);
  }

  lemma CachedLoads(b: Batch, r: ReserveData)
    requires b.cache == map[1 := r] && 1 in b.pool.configs && 1 in b.pool.data
    ensures LoadAll(b, {1}) == Ok(b.cache)
  {
    assert LoadAll(b, {1}).Ok?;
    assert LoadAll(b, {1}).value == b.cache;
    hide Load;
  }

  lemma FillingTurn()
    ensures FillBadDebt(Start(Open(), 8), 8, 101, 50, WILLING) == Ok(Filled())
  {
    hide FillBadDebt;
    hide RmFrom;
    hide AddTo;
    hide WriteOffFrom;
    hide Scale;
    var c := Start(Open(), 8);
    HalfFill(AUCTION, 1, 250_0000000, 102, 5);
    HalfIsTaken(c);
    HalfIsGiven(c.(cache := map[1 := R_HALF]));
    HalfIsWrittenOff(c.(cache := map[1 := HALF_LENT]));
    assert PositionsOf(c.pool, 101) == DEBT && PositionsOf(c.pool, 8) == NO_POSITIONS;
    BadDebtIs(c, c, 8, 50, WILLING);
    var moved := (NO_POSITIONS, HALF_DEBT, map[1 := R_HALF], Burned().burned);
    assert BadDebtFrom(c, DEBT, NO_POSITIONS, map[], HALF, WILLING) == Ok(moved);
    assert c.pool.accounts[101 := NO_POSITIONS][8 := HALF_DEBT] == Filled().pool.accounts;
    assert AfterBadDebt(c, 8, moved, Some(HALF)) == Filled();
  }

  // ----- and its repayment -----

  const FILLING: Request := Request(7, 101, 50)
  const REPAYING: Request := Request(5, 1, 250_0000000)

  function Repaid(): Batch
  {
    Batch(Filled().pool.(accounts := map[101 := NO_POSITIONS, 7 := SUPPLY, 8 := NO_POSITIONS]), map[1 := R_NONE],
          Burned().(paid := map[1 := 250_0000000]), true)
  }

  lemma RepaysAll()
    ensures Repay(CONFIG, R_HALF, HALF_DEBT, 250_0000000) == Ok(Change(R_NONE, NO_POSITIONS, Some(250_0000000), None))
  {
    FloorExact(250_0000000, SCALAR_9);
    FloorExact(1000_0000000, SCALAR_9);
    assert TotalSupply(R_NONE) == 1000_0000000;
    BalancesOf();
    hide Taken;
    hide Floor;
    hide Ceil;
  }

  lemma RepayingTurn()
    ensures Turn(Filled(), 8, REPAYING, WILLING) == Ok(Repaid())
  {
    hide FillLiquidation;
    hide FillBadDebt;
    hide FillInterest;
    hide WrittenOff;
    var b := Filled();
    RepaysAll();
    hide Repay;
    assert LoadReserve(b, 1) == Ok(R_HALF);
    hide LoadReserve;
    assert b.pool.accounts[8 := NO_POSITIONS] == Repaid().pool.accounts;
    assert b.cache[1 := R_NONE] == map[1 := R_NONE];
  }

  const ANSWERS: Answers := Answers([WILLING, WILLING], 0, {}, {})

  /** The pool once the filler has taken over half of the debt and repaid it. */
  function Left(): Pool { Settle(Repaid(), ANSWERS) }

  lemma FillSubmits()
    ensures Submit(Open(), 8, 8, 8, [FILLING, REPAYING], ANSWERS) == Ok(Left())
  {
    hide Turn;
    hide FillBadDebt;
    hide Settle;
    var requests := [FILLING, REPAYING];
    FillingIsTurn();
    RepayingTurn();
    assert Process(Open(), 8, requests, ANSWERS.replies, 0) == Ok(Start(Open(), 8));
    assert ReplyTo(ANSWERS.replies, 0) == WILLING && ReplyTo(ANSWERS.replies, 1) == WILLING;
    assert Process(Open(), 8, requests, ANSWERS.replies, 1) == Ok(Filled());
    assert Process(Open(), 8, requests, ANSWERS.replies, 2) == Ok(Repaid());
    hide Process;
    NothingHeld(Repaid(), 1, Pow10(0));
    assert PositionsOf(Repaid().pool, 8) == NO_POSITIONS;
    hide Pow10;
    hide Calculate;
  }

  lemma FillingIsTurn()
    ensures Turn(Start(Open(), 8), 8, FILLING, WILLING) == Ok(Filled())
  {
    FillingTurn();
    hide FillBadDebt;
  }

  lemma LeftIs()
    ensures var q := Left();
      && q.badDebt == Some(HALF) && q.block == 201 && PositionsOf(q, 101) == NO_POSITIONS
      && q.configs == map[1 := CONFIG] && q.data == map[1 := R_NONE] && q.now == 0 && q.status == 0
      && q.backstop == 101 && q.backstopToken == 102 && q.bstopRate == 0 && q.cash == map[1 := 1250_0000000]
  {
    hide WrittenOff;
    assert Left().data == map[1 := R_NONE];
    assert Left().cash == map[1 := 1250_0000000];
  }

  lemma SubmissionOk(p: Pool, q: Pool, from: Address, requests: seq<Request>, answers: Answers)
    requires PoolOk(p) && Submit(p, from, from, from, requests, answers) == Ok(q) && Solvent(q)
    ensures PoolOk(q)
  {
    hide BooksOk;
    hide Solvent;
    hide CreditCovers;
    hide Submit;
    SubmitBooks(p, from, from, from, requests, answers);
  }

  lemma LeftOk()
    requires PoolOk(Open())
    ensures PoolOk(Left())
  {
    hide PoolOk;
    hide Solvent;
    hide Submit;
    hide Left;
    hide Open;
    FillSubmits();
    LeftIsSolvent();
    SubmissionOk(Open(), Left(), 8, [FILLING, REPAYING], ANSWERS);
  }

  lemma LeftIsSolvent()
    ensures Solvent(Left())
  {
    hide Solvent;
    hide Left;
    hide NetOwed;
    LeftIs();
    LeftOwes();
    OneReserveSolvent(Left(), 1, R_NONE);
  }

  lemma LeftOwes()
    ensures NetOwed(R_NONE) <= 1250_0000000
  {
    assert TotalSupply(R_NONE) == 1000_0000000;
    assert TotalLiabilities(R_NONE) == 0;
  }

  // ----- the next fill -----

  lemma NextTurnAborts(q: Pool, from: Address, amount: int, reply: Reply)
    requires BooksOk(q) && q.badDebt == Some(HALF) && q.block == 201 && q.backstop == 101
    requires PositionsOf(q, 101) == NO_POSITIONS && LoadReserve(Idle(q), 1).Ok?
    ensures Turn(Start(q, from), from, Request(7, 101, amount), reply).Abort?
  {
    hide BooksOk;
    hide FillBadDebt;
    hide LoadReserve;
    hide Scale;
    var b := Start(q, from);
    StartKeeps(q, from);
    StartReads(q, from);
    var percent := amount % U64_LIMIT;
    hide BatchOk;
    BadDebtFillSucceeds(b, from, percent, reply);
    assert 1 in HALF.bid && HALF.bid[1] > 0 && HALF.bid.Keys == {1};
    if from != 101 && reply.drawn && Scale(HALF, percent, 201).Ok? {
      NothingToTakeOver(b, from, percent, reply);
    }
    hide BadDebtFits;
  }

  lemma StartReads(q: Pool, from: Address)
    ensures PositionsOf(Start(q, from).pool, q.backstop) == PositionsOf(q, q.backstop)
    ensures LoadReserve(Start(q, from), 1) == LoadReserve(Idle(q), 1)
  {
    hide Load;
  }

  /** From a sound pool, enforcing health, a fill of half a bad debt auction together with its repayment goes through
      and finds the backstop empty: the other half of the debt is written off, the pool is just as sound, and half of
      the auction stays stored. Then nobody can fill any part of it, whatever is answered. */
  lemma {:induction false} WriteOffLeavesAuction(from: Address, amount: int, answers: Answers)
    ensures PoolOk(Rich()) && PoolOk(Open()) && PoolOk(Left())
    ensures Run(Rich(), [BadDebtMoved(7), BadDebtAuctioned(CHEAP), Wait(0, 201)]) == Open()
    ensures Submit(Open(), 8, 8, 8, [FILLING, REPAYING], ANSWERS) == Ok(Left())
    ensures Left().badDebt == Some(HALF) && PositionsOf(Left(), 101) == NO_POSITIONS
    ensures Submit(Left(), from, from, from, [Request(7, 101, amount)], answers).Abort?
  {
    hide BooksOk;
    hide Solvent;
    hide CreditCovers;
    hide Submit;
    hide Turn;
    hide Left;
    hide Run;
    DefaultedOk();
    OpenIsReached();
    FillSubmits();
    LeftOk();
    LeftIs();
    LeftLoads(Left());
    NextTurnAborts(Left(), from, amount, ReplyTo(answers.replies, 0));
    FirstAborts(Left(), from, Request(7, 101, amount), answers.replies);
    NoBatchNoSubmission(Left(), from, [Request(7, 101, amount)], answers);
  }

  lemma LeftLoads(q: Pool)
    requires q.configs == map[1 := CONFIG] && q.data == map[1 := R_NONE] && q.now == 0
    ensures LoadReserve(Idle(q), 1).Ok?
  {}

  lemma FirstAborts(p: Pool, from: Address, q: Request, replies: seq<Reply>)
    requires Turn(Start(p, from), from, q, ReplyTo(replies, 0)).Abort?
    ensures Process(p, from, [q], replies, 1).Abort?
  {
    hide Turn;
    assert Process(p, from, [q], replies, 0) == Ok(Start(p, from));
  }
}
