/** Bad debt auctions: what they ask for and offer, when a fill goes through, what a write-off costs, and auctions
    nobody can fill (pool/src/auctions/bad_debt_auction.rs). */
module LendingPoolBadDebt {
  import opened Outcomes
  import opened FixedPoint
  import opened Totals
  import opened Interest
  import opened Reserves
  import opened Auctions
  import opened PoolUsers
  import opened PoolStates
  import opened LendingPools
  import opened LendingPoolProofs
  import opened LendingPoolAuctionProofs
  import opened LendingPoolLoops
  import opened Liquidations
  import opened LendingPoolRuns

  // ----- bad debt auctions -----

  lemma {:induction false} DebtBidIs(p: Pool, m: map<Address, int>, quote: Quote, k: nat)
    requires Listed(p) && k <= |p.resList| && DebtBid(p, m, quote, k).Ok?
    ensures forall a :: a in DebtBid(p, m, quote, k).value.0 <==> a in p.configs && p.configs[a].index < k && Amount(m, p.configs[a].index) > 0
    ensures forall a :: a in DebtBid(p, m, quote, k).value.0 ==> DebtBid(p, m, quote, k).value.0[a] == Amount(m, p.configs[a].index)
    decreases k
  {
    hide LoadReserve;
    hide Floor;
    hide Pow10;
    hide ValidMetadata;
    if k > 0 {
      DebtBidIs(p, m, quote, k - 1);
    }
  }

  /** A new bad debt auction asks for exactly the debt the backstop holds, and offers at most the tokens there
      are. */
  lemma BadDebtAuctionIsExact(p: Pool, quote: Quote, i: nat)
    requires BooksOk(p) && CreateBadDebt(p, quote).Ok?
    ensures var auction := CreateBadDebt(p, quote).value.badDebt.value;
      && AllPositive(auction.bid) && auction.bid != map[]
      && (i < |p.resList| ==> AtIndex(p.resList, auction.bid, i) == DTokens(PositionsOf(p, p.backstop), i))
      && auction.lot.Keys == {p.backstopToken} && auction.lot[p.backstopToken] <= quote.tokens
  {
    hide Floor;
    hide Pow10;
    hide DivFloor;
    hide SharesAgree;
    hide ReservesOk;
    HoldersOk(p, p.backstop);
    hide AccountsOk;
    DebtBidIs(p, PositionsOf(p, p.backstop).liabilities, quote, |p.resList|);
    hide DebtBid;
    hide ValidMetadata;
    hide PositionsOf;
  }

  /** What a backstop token is worth in the base asset, in seven decimals. */
  function TokenPrice(quote: Quote): Outcome<int>
  {
    DivFloor(Floor(quote.usdc * Pow10(quote.decimals), SCALAR_7) * 5 * SCALAR_7, quote.tokens)
  }

  /** The value of the debt put up, with the 40 percent on top. */
  function MarkedUp(p: Pool, quote: Quote): int
    requires DebtBid(p, PositionsOf(p, p.backstop).liabilities, quote, |p.resList|).Ok?
  {
    Floor(DebtBid(p, PositionsOf(p, p.backstop).liabilities, quote, |p.resList|).value.1 * 1_4000000, SCALAR_7)
  }

  /** Nothing is offered exactly when the marked-up debt is worth less than one unit of the backstop token; only the
      bid and its value are checked. */
  lemma {:induction false} LotOfNothing(p: Pool, quote: Quote)
    requires CreateBadDebt(p, quote).Ok? && quote.usdc >= 0 && quote.tokens >= 0
    ensures DebtBid(p, PositionsOf(p, p.backstop).liabilities, quote, |p.resList|).Ok? && TokenPrice(quote).Ok?
    ensures var auction := CreateBadDebt(p, quote).value.badDebt.value;
      Amount(auction.lot, p.backstopToken) <= 0 <==> MarkedUp(p, quote) * SCALAR_7 < TokenPrice(quote).value
  {
    hide DebtBid;
    hide PositionsOf;
    PricePositive(quote);
    hide Pow10;
    hide Floor;
    var (worth, price) := (MarkedUp(p, quote) * SCALAR_7, TokenPrice(quote).value);
    FloorBounds(worth, price);
    if worth >= price {
      FloorGreatest(1, worth, price);
    } else {
      MultiplesOrdered(Floor(worth, price), 0, price);
    }
  }

  lemma PricePositive(quote: Quote)
    requires TokenPrice(quote).Ok? && TokenPrice(quote).value != 0 && quote.usdc >= 0 && quote.tokens >= 0
    ensures quote.tokens > 0 && TokenPrice(quote).value > 0
  {
    var unit := Pow10(quote.decimals);
    hide Pow10;
    hide Floor;
    MulMono(0, quote.usdc, unit);
    FloorNonNeg(quote.usdc * unit, SCALAR_7);
    FloorNonNeg(Floor(quote.usdc * unit, SCALAR_7) * 5 * SCALAR_7, quote.tokens);
  }

  /** Saturation does not matter: debt is written off when the product constant is below three ten-millionths of the
      threshold, in exact arithmetic. */
  lemma {:induction false} WriteOffThreshold(blnd: nat, usdc: nat)
    ensures var (b, u) := (blnd / SCALAR_7, usdc / SCALAR_7);
      BackstopThreshold(blnd, usdc) < 3 <==> b * b * b * b * u * SCALAR_7 < 3 * PoolBalances.THRESHOLD_PC
  {
    var b: nat, u: nat := blnd / SCALAR_7, usdc / SCALAR_7;
    PoolBalances.SaturatedFactor(PoolBalances.SaturatingMul(b, b), b * b, b);
    PoolBalances.SaturatedFactor(PoolBalances.SaturatingMul(PoolBalances.SaturatingMul(b, b), b), b * b * b, b);
    var b4 := PoolBalances.SaturatingMul(PoolBalances.SaturatingMul(PoolBalances.SaturatingMul(b, b), b), b);
    PoolBalances.SaturatedFactor(b4, b * b * b * b, u);
    PoolBalances.SaturatedFactor(PoolBalances.SaturatingMul(b4, u), b * b * b * b * u, SCALAR_7);
  }

  /** Whether the backstop's debt is to be written off. */
  predicate WritesOff(b: Batch, reply: Reply)
  {
    PositionsOf(b.pool, b.pool.backstop).liabilities != map[] && BackstopThreshold(reply.blnd, reply.usdc) < 3
  }

  function BackstopDebt(b: Batch): map<Address, int>
  {
    ByAsset(b.pool.configs, PositionsOf(b.pool, b.pool.backstop).liabilities)
  }

  /** A write-off in its parts. */
  lemma WriteOffParts(b: Batch, reply: Reply)
    requires BatchOk(b) && WriteOff(b, reply).Ok? && WritesOff(b, reply)
    ensures var (user, amounts) := (b.pool.backstop, BackstopDebt(b));
      && Listed(b.pool) && AllPositive(amounts) && PositionsOk(PositionsOf(b.pool, user))
      && (forall i :: i in PositionsOf(b.pool, user).liabilities ==> i < |b.pool.resList|)
      && RmPositions(b, user, map[], amounts).Ok? && LoadAll(b, amounts.Keys).Ok?
      && WriteOff(b, reply).value == RmPositions(b, user, map[], amounts).value.(
           flows := b.flows.(burned := WrittenOff(b.flows.burned, LoadAll(b, amounts.Keys).value, amounts)))
  {
    hide BackstopThreshold;
    hide RmPositions;
    hide LoadAll;
    hide WrittenOff;
    BooksAt(b.pool, View(b), 0, b.pool.backstop);
    assert AllPositive(BackstopDebt(b)) by { WriteOffPositive(b, b.pool.backstop); }
    hide ByAsset;
    hide AllPositive;
    hide PositionsOk;
    hide ReservesOk;
    hide AccountsOk;
    hide SharesAgree;
  }

  /** A write-off leaves the backstop without debt. */
  lemma {:induction false} WriteOffClears(b: Batch, reply: Reply)
    requires BatchOk(b) && WriteOff(b, reply).Ok? && WritesOff(b, reply)
    ensures PositionsOf(WriteOff(b, reply).value.pool, b.pool.backstop).liabilities == map[]
  {
    WriteOffParts(b, reply);
    ClearedPositions(b, b.pool.backstop, BackstopDebt(b));
    hide *;
  }

  /** And it counts, for every asset, exactly what the liabilities lose against the reserves as they load. */
  lemma {:induction false} WriteOffCounts(b: Batch, reply: Reply, a: Address)
    requires BatchOk(b) && WriteOff(b, reply).Ok? && WritesOff(b, reply)
    ensures var n := WriteOff(b, reply).value;
      && LoadAll(b, BackstopDebt(b).Keys).Ok?
      && var loaded := View(b.(cache := LoadAll(b, BackstopDebt(b).Keys).value));
         && View(n).Keys == loaded.Keys
         && (a in loaded ==>
               Amount(n.flows.burned, a) - Amount(b.flows.burned, a) == TotalLiabilities(loaded[a]) - TotalLiabilities(View(n)[a]))
  {
    hide BatchOk;
    hide WriteOff;
    hide RmPositions;
    hide LoadAll;
    hide BackstopDebt;
    hide Moved;
    hide WrittenOff;
    hide TotalLiabilities;
    hide Listed;
    hide AllPositive;
    hide PositionsOf;
    hide PositionsOk;
    WriteOffParts(b, reply);
    var amounts := BackstopDebt(b);
    var n1 := RmMoves(b, b.pool.backstop, map[], amounts);
    BurnedView(b, n1, RmPositions(b, b.pool.backstop, map[], amounts).value, amounts);
    LoadAllFetches(b, amounts.Keys);
    CountedWorth(b, LoadAll(b, amounts.Keys).value, amounts, View(WriteOff(b, reply).value), a);
  }

  lemma CountedWorth(b: Batch, cache: map<Address, ReserveData>, amounts: map<Address, int>, next: map<Address, ReserveData>, a: Address)
    requires var loaded := b.pool.data + cache;
      && next.Keys == loaded.Keys && amounts.Keys <= cache.Keys
      && (forall x :: x in loaded ==> next[x] == Raise(loaded[x], true, -Amount(amounts, x)))
    ensures a in next ==>
      (var gain := Amount(WrittenOff(b.flows.burned, cache, amounts), a) - Amount(b.flows.burned, a);
       gain == TotalLiabilities((b.pool.data + cache)[a]) - TotalLiabilities(next[a]))
  {
    hide TotalLiabilities;
  }

  lemma ClearedPositions(b: Batch, user: Address, amounts: map<Address, int>)
    requires Listed(b.pool) && AllPositive(amounts) && PositionsOk(PositionsOf(b.pool, user))
    requires amounts == ByAsset(b.pool.configs, PositionsOf(b.pool, user).liabilities)
    requires forall i :: i in PositionsOf(b.pool, user).liabilities ==> i < |b.pool.resList|
    requires RmPositions(b, user, map[], amounts).Ok?
    ensures PositionsOf(RmPositions(b, user, map[], amounts).value.pool, user).liabilities == map[]
  {
    hide RmPositions;
    hide AllLoad;
    hide TakeAll;
    hide ByAsset;
    hide Listed;
    hide PositionsOk;
    var none: map<Address, int> := map[];
    assert AllPositive(none) by { NonePositive(); }
    hide AllPositive;
    RmSucceeds(b, user, none, amounts);
    AllUsedUp(b.pool, PositionsOf(b.pool, user).liabilities);
  }

  /** Taking all there is leaves nothing. */
  lemma AllUsedUp(p: Pool, m: map<Address, int>)
    requires Listed(p) && forall i :: i in m ==> i < |p.resList|
    ensures TakeAll(p.resList, m, ByAsset(p.configs, m)).Ok? ==> TakeAll(p.resList, m, ByAsset(p.configs, m)).value == map[]
  {
    var amounts := ByAsset(p.configs, m);
    forall i: nat
      ensures i in m ==> i in Indices(p.resList, amounts) && AtIndex(p.resList, amounts, i) == m[i]
      ensures i in Indices(p.resList, amounts) ==> i in m
    {
      AtItsIndex(p, m, i);
    }
    hide ByAsset;
    hide Listed;
    hide AtIndex;
    hide Indices;
  }

  lemma AtItsIndex(p: Pool, m: map<Address, int>, i: nat)
    requires Listed(p) && (i in m ==> i < |p.resList|)
    ensures i in m ==> i in Indices(p.resList, ByAsset(p.configs, m)) && AtIndex(p.resList, ByAsset(p.configs, m), i) == m[i]
    ensures i in Indices(p.resList, ByAsset(p.configs, m)) ==> i in m
  {
    hide ValidMetadata;
  }

  // ----- when a fill goes through -----

  lemma NothingTaken(resList: seq<Address>, m: map<Address, int>)
    ensures TakeAll(resList, m, map[]).Ok?
  {
    var none: map<Address, int> := map[];
    assert Indices(resList, none) == {};
  }

  /** The balances cover some amounts, index by index. */
  ghost predicate HasDebt(resList: seq<Address>, m: map<Address, int>, bid: map<Address, int>)
  {
    forall i :: i in Indices(resList, bid) ==> AtIndex(resList, bid, i) <= Amount(m, i)
  }

  /** What is left of the backstop's debt once some of it has been taken over. */
  ghost function DebtAfter(resList: seq<Address>, m: map<Address, int>, bid: map<Address, int>): map<Address, int>
    requires HasDebt(resList, m, bid)
  {
    TakeAll(resList, m, bid).value
  }

  /** Debt that may be written off: none, or with enough behind the pool no need to, or only reserves that load and
      balances that are not zero. */
  ghost predicate MayWriteOff(b: Batch, m: map<Address, int>, reply: Reply)
  {
    m == map[] || BackstopThreshold(reply.blnd, reply.usdc) >= 3
      || (CanMove(b.pool.resList, m) && AllLoad(b, ByAsset(b.pool.configs, m).Keys))
  }

  lemma ZeroByAsset(p: Pool, m: map<Address, int>)
    requires Listed(p) && forall i :: i in m ==> i < |p.resList|
    requires !CanMove(p.resList, m)
    ensures HasZero(ByAsset(p.configs, m))
  {
    hide ValidMetadata;
    var i :| i in m && m[i] == 0;
    assert ByAsset(p.configs, m)[p.resList[i]] == 0;
  }

  lemma MovableIsPositive(configs: map<Address, ReserveConfig>, resList: seq<Address>, m: map<Address, int>)
    requires CanMove(resList, m) && forall i :: i in m ==> m[i] >= 0
    ensures AllPositive(ByAsset(configs, m))
  {}

  lemma TakesAllThereIs(p: Pool, m: map<Address, int>)
    requires Listed(p) && forall i :: i in m ==> i < |p.resList|
    ensures TakeAll(p.resList, m, ByAsset(p.configs, m)).Ok?
  {
    forall i | i in Indices(p.resList, ByAsset(p.configs, m))
      ensures Amount(m, i) >= AtIndex(p.resList, ByAsset(p.configs, m), i)
    {
      AtItsIndex(p, m, i);
    }
    hide ByAsset;
    hide Listed;
    hide AtIndex;
    hide Indices;
  }

  /** When a user's whole debt can be removed. */
  lemma WholeDebtMoves(b: Batch, user: Address, m: map<Address, int>)
    requires Listed(b.pool) && m == PositionsOf(b.pool, user).liabilities
    requires forall i :: i in m ==> i < |b.pool.resList| && m[i] >= 0
    ensures RmPositions(b, user, map[], ByAsset(b.pool.configs, m)).Ok?
      <==> CanMove(b.pool.resList, m) && AllLoad(b, ByAsset(b.pool.configs, m).Keys)
  {
    hide RmPositions;
    hide AllLoad;
    hide TakeAll;
    hide ByAsset;
    hide PositionsOf;
    hide AllPositive;
    if CanMove(b.pool.resList, m) {
      MovableIsPositive(b.pool.configs, b.pool.resList, m);
      WholeDebtGoes(b, user, ByAsset(b.pool.configs, m));
      TakesAllThereIs(b.pool, m);
    } else {
      ZeroByAsset(b.pool, m);
      ZeroAborts(b, user, ByAsset(b.pool.configs, m));
    }
    hide Listed;
  }

  /** When a write-off goes through. */
  lemma {:induction false} WriteOffSucceeds(b: Batch, reply: Reply)
    requires BatchOk(b)
    ensures WriteOff(b, reply).Ok? <==> MayWriteOff(b, PositionsOf(b.pool, b.pool.backstop).liabilities, reply)
  {
    hide BackstopThreshold;
    hide RmPositions;
    hide LoadAll;
    hide WrittenOff;
    hide PositionsOf;
    hide ByAsset;
    hide AllLoad;
    hide ReservesOk;
    hide AccountsOk;
    hide SharesAgree;
    var (user, m) := (b.pool.backstop, PositionsOf(b.pool, b.pool.backstop).liabilities);
    BooksAt(b.pool, View(b), 0, user);
    LoadAllFetches(b, ByAsset(b.pool.configs, m).Keys);
    if forall i :: i in m ==> i < |b.pool.resList| {
      WholeDebtMoves(b, user, m);
    }
    hide Listed;
  }

  lemma WholeDebtGoes(b: Batch, user: Address, amounts: map<Address, int>)
    requires AllPositive(amounts)
    ensures RmPositions(b, user, map[], amounts).Ok? <==>
      AllLoad(b, amounts.Keys) && TakeAll(b.pool.resList, PositionsOf(b.pool, user).liabilities, amounts).Ok?
  {
    hide RmPositions;
    hide TakeAll;
    var none: map<Address, int> := map[];
    assert AllPositive(none) by { NonePositive(); }
    hide AllPositive;
    RmSucceeds(b, user, none, amounts);
    NothingTaken(b.pool.resList, PositionsOf(b.pool, user).collateral);
    hide PositionsOf;
    hide LoadReserve;
  }

  lemma ZeroAborts(b: Batch, user: Address, amounts: map<Address, int>)
    requires HasZero(amounts)
    ensures RmPositions(b, user, map[], amounts).Abort?
  {
    hide HasZero;
    hide LoadAll;
    hide TakeAll;
    hide Shrunk;
  }

  /** The backstop's debt and what loads once a move has gone through. */
  lemma AfterTakeover(b: Batch, from: Address, bid: map<Address, int>, assets: set<Address>)
    requires from != b.pool.backstop && AllPositive(bid)
    ensures var m := PositionsOf(b.pool, b.pool.backstop).liabilities;
      && (MoveBetween(b, b.pool.backstop, from, map[], bid).Ok? <==> AllLoad(b, bid.Keys) && HasDebt(b.pool.resList, m, bid))
      && (MoveBetween(b, b.pool.backstop, from, map[], bid).Ok? ==>
            var n := MoveBetween(b, b.pool.backstop, from, map[], bid).value;
            && PositionsOf(n.pool, b.pool.backstop).liabilities == DebtAfter(b.pool.resList, m, bid)
            && n.pool == b.pool.(accounts := n.pool.accounts)
            && (AllLoad(n, assets) <==> AllLoad(b, assets)))
  {
    hide MoveBetween;
    hide TakeAll;
    hide GiveAll;
    hide LoadAll;
    var none: map<Address, int> := map[];
    var user := b.pool.backstop;
    assert AllPositive(none) by { NonePositive(); }
    hide AllPositive;
    assert none.Keys + bid.Keys == bid.Keys;
    MoveBetweenIs(b, user, from, none, bid);
    LoadAllFetches(b, bid.Keys);
    NothingTaken(b.pool.resList, PositionsOf(b.pool, user).collateral);
    TakesWhatThereIs(b.pool.resList, PositionsOf(b.pool, user).liabilities, bid);
    if MoveBetween(b, user, from, none, bid).Ok? {
      StillLoads(b, MoveBetween(b, user, from, none, bid).value, bid.Keys, assets);
    }
    hide AllLoad;
    hide HasDebt;
  }

  lemma TakesWhatThereIs(resList: seq<Address>, m: map<Address, int>, bid: map<Address, int>)
    ensures TakeAll(resList, m, bid).Ok? <==> HasDebt(resList, m, bid)
  {
    hide AtIndex;
    hide Indices;
  }

  lemma StillLoads(b: Batch, n: Batch, loaded: set<Address>, assets: set<Address>)
    requires LoadAll(b, loaded).Ok? && n == b.(pool := b.pool.(accounts := n.pool.accounts), cache := LoadAll(b, loaded).value)
    ensures AllLoad(n, assets) <==> AllLoad(b, assets)
  {
    forall a: Address
      ensures LoadReserve(n, a) == LoadReserve(b, a)
    {
      LoadTwice(b, loaded, a);
      hide LoadAll;
      hide Load;
    }
    hide LoadReserve;
    hide LoadAll;
  }

  /** Whether the scaled fill can be taken over, paid for and followed by the write-off it causes, from the pool
      before the call. */
  ghost predicate BadDebtFits(b: Batch, fill: AuctionData, reply: Reply)
  {
    var m := PositionsOf(b.pool, b.pool.backstop).liabilities;
    && AllLoad(b, fill.bid.Keys)
    && b.pool.backstopToken in fill.lot
    && HasDebt(b.pool.resList, m, fill.bid)
    && MayWriteOff(b, DebtAfter(b.pool.resList, m, fill.bid), reply)
  }

  /** When a bad debt auction can be filled: someone other than the backstop fills an open auction by a valid percentage,
      the reserves of the scaled bid load and the backstop still holds the debt, the scaled lot names the backstop
      token and it is paid out, and what must be written off can be. */
  lemma {:induction false} BadDebtFillSucceeds(b: Batch, from: Address, percent: int, reply: Reply)
    requires BatchOk(b)
    ensures FillBadDebt(b, from, b.pool.backstop, percent, reply).Ok? <==>
      && from != b.pool.backstop && b.pool.badDebt.Some? && reply.drawn
      && Scale(b.pool.badDebt.value, percent, b.pool.block).Ok?
      && BadDebtFits(b, Scale(b.pool.badDebt.value, percent, b.pool.block).value.0, reply)
  {
    hide BatchOk;
    hide Scale;
    hide MoveBetween;
    hide WriteOff;
    hide PositionsOf;
    hide AllLoad;
    hide HasDebt;
    hide AllPositive;
    if from != b.pool.backstop && b.pool.badDebt.Some? && Scale(b.pool.badDebt.value, percent, b.pool.block).Ok? {
      var fill := Scale(b.pool.badDebt.value, percent, b.pool.block).value.0;
      FillPositive(b.pool.badDebt.value, percent, b.pool.block);
      TakeoverThenWriteOff(b, from, fill.bid, reply);
    }
    hide MayWriteOff;
    hide DebtAfter;
  }

  lemma TakeoverThenWriteOff(b: Batch, from: Address, bid: map<Address, int>, reply: Reply)
    requires BatchOk(b) && from != b.pool.backstop && AllPositive(bid)
    ensures var m := PositionsOf(b.pool, b.pool.backstop).liabilities;
      var moved := MoveBetween(b, b.pool.backstop, from, map[], bid);
      && (moved.Ok? <==> AllLoad(b, bid.Keys) && HasDebt(b.pool.resList, m, bid))
      && (moved.Ok? ==> (WriteOff(moved.value, reply).Ok? <==> MayWriteOff(b, DebtAfter(b.pool.resList, m, bid), reply)))
  {
    hide BatchOk;
    hide MoveBetween;
    hide WriteOff;
    hide PositionsOf;
    hide AllLoad;
    hide HasDebt;
    hide DebtAfter;
    hide ByAsset;
    hide BackstopThreshold;
    hide AllPositive;
    var m := PositionsOf(b.pool, b.pool.backstop).liabilities;
    AfterTakeover(b, from, bid, {});
    if MoveBetween(b, b.pool.backstop, from, map[], bid).Ok? {
      assert AllPositive(map[]) by { NonePositive(); }
      MoveBetweenKeeps(b, b.pool.backstop, from, map[], bid);
      var n := MoveBetween(b, b.pool.backstop, from, map[], bid).value;
      assert BatchOk(n) by { KeptIsOk(b, n); }
      hide BatchKept;
      WriteOffSucceeds(n, reply);
      AfterTakeover(b, from, bid, ByAsset(b.pool.configs, DebtAfter(b.pool.resList, m, bid)).Keys);
    }
  }

  lemma KeptIsOk(b: Batch, n: Batch)
    requires BatchKept(b, n)
    ensures BatchOk(n)
  {
    hide BatchOk;
    hide Preserves;
  }

  /** What is stored of a bad debt auction after the backstop's debt is gone asks for debt that is not there: for 400
      blocks from its start no fill goes through, and from then on the bid is nothing and any fill that still names
      the lot does. */
  lemma {:induction false} NothingToTakeOver(b: Batch, from: Address, percent: int, reply: Reply)
    requires BatchOk(b) && b.pool.badDebt.Some? && from != b.pool.backstop && reply.drawn
    requires Scale(b.pool.badDebt.value, percent, b.pool.block).Ok?
    requires PositionsOf(b.pool, b.pool.backstop).liabilities == map[]
    requires AllLoad(b, b.pool.badDebt.value.bid.Keys)
    requires exists a :: a in b.pool.badDebt.value.bid && b.pool.badDebt.value.bid[a] > 0
    ensures var (auction, fill) := (b.pool.badDebt.value, Scale(b.pool.badDebt.value, percent, b.pool.block).value.0);
      FillBadDebt(b, from, b.pool.backstop, percent, reply).Ok? <==>
        b.pool.block - auction.block >= 400 && b.pool.backstopToken in fill.lot
  {
    hide FillBadDebt;
    hide LoadReserve;
    hide PositionsOf;
    var auction := b.pool.badDebt.value;
    var fill := Scale(auction, percent, b.pool.block).value.0;
    BadDebtFillSucceeds(b, from, percent, reply);
    FillPositive(auction, percent, b.pool.block);
    if b.pool.block - auction.block >= 400 {
      BidIsGone(auction, percent, b.pool.block);
      NothingAsked(b, reply);
    } else {
      var a :| a in auction.bid && auction.bid[a] > 0;
      BidIsNamed(auction, percent, b.pool.block, a);
      assert b.pool.configs.Keys == b.pool.data.Keys && Listed(b.pool) by { BooksAt(b.pool, View(b), 0, 0); }
      IsConfigured(b, a);
      SomethingAsked(b.pool, fill.bid, a);
    }
    hide Scale;
    hide BatchOk;
    hide MayWriteOff;
    hide HasDebt;
    hide DebtAfter;
  }

  lemma IsConfigured(b: Batch, a: Address)
    requires LoadReserve(b, a).Ok?
    ensures a in b.pool.configs
  {
    hide Load;
  }

  lemma BidIsGone(auction: AuctionData, percent: int, block: nat)
    requires Scale(auction, percent, block).Ok? && block - auction.block >= 400
    ensures Scale(auction, percent, block).value.0.bid == map[]
  {
    forall a: Address
      ensures a !in Scale(auction, percent, block).value.0.bid
    {
      BidIsNamed(auction, percent, block, a);
    }
    hide Scale;
  }

  lemma NothingAsked(b: Batch, reply: Reply)
    ensures AllLoad(b, {}) && HasDebt(b.pool.resList, map[], map[])
    ensures MayWriteOff(b, DebtAfter(b.pool.resList, map[], map[]), reply)
  {
    hide LoadReserve;
    var none: map<Address, int> := map[];
    assert Indices(b.pool.resList, none) == {};
    assert TakeAll(b.pool.resList, none, none) == Ok(none);
  }

  lemma SomethingAsked(p: Pool, bid: map<Address, int>, a: Address)
    requires Listed(p) && a in p.configs && a in bid && AllPositive(bid)
    ensures !HasDebt(p.resList, map[], bid)
  {
    hide ValidMetadata;
    var i := p.configs[a].index;
    assert i in Indices(p.resList, bid) && AtIndex(p.resList, bid, i) > Amount(map[], i);
  }

  // ----- auctions that offer nothing -----

  /** The stored lot holds no backstop tokens. */
  predicate Lotless(p: Pool)
  {
    p.badDebt.Some? && Amount(p.badDebt.value.lot, p.backstopToken) <= 0
  }

  /** Nobody can fill an auction without a lot, nor any auction at its start block. */
  lemma LotlessFillAborts(b: Batch, from: Address, user: Address, percent: int, reply: Reply)
    requires b.pool.badDebt.Some?
    requires Lotless(b.pool) || b.pool.block <= b.pool.badDebt.value.block
    ensures FillBadDebt(b, from, user, percent, reply).Abort?
  {
    if Scale(b.pool.badDebt.value, percent, b.pool.block).Ok? {
      LotIsMissing(b.pool.badDebt.value, percent, b.pool.block, b.pool.backstopToken);
    }
    hide Scale;
    hide MoveBetween;
    hide WriteOff;
  }

  ghost predicate SameBadDebt(p: Pool, q: Pool)
  {
    q.badDebt == p.badDebt && q.backstopToken == p.backstopToken
  }

  lemma TurnLeavesLotless(b: Batch, from: Address, q: Request, reply: Reply)
    requires Lotless(b.pool) && Turn(b, from, q, reply).Ok?
    ensures SameBadDebt(b.pool, Turn(b, from, q, reply).value.pool)
  {
    hide Scale;
    hide LoadReserve;
    hide LoadAll;
    hide Perform;
    hide MoveBetween;
    hide HandOut;
    hide DrawCredit;
    hide Lotless;
    if q.kind == 6 {
      var fill := Scale(b.pool.liquidations[q.address], q.amount % U64_LIMIT, b.pool.block).value.0;
      MoveBetweenAside(b, q.address, from, fill.lot, fill.bid);
    } else if q.kind == 7 {
      SomeLotless(b.pool);
      LotlessFillAborts(b, from, q.address, q.amount % U64_LIMIT, reply);
    }
    hide FillBadDebt;
  }

  lemma SomeLotless(p: Pool)
    requires Lotless(p)
    ensures p.badDebt.Some?
  {}

  lemma {:induction false} ProcessLeavesLotless(p: Pool, from: Address, requests: seq<Request>, replies: seq<Reply>, k: nat)
    requires Lotless(p) && k <= |requests| && Process(p, from, requests, replies, k).Ok?
    ensures SameBadDebt(p, Process(p, from, requests, replies, k).value.pool)
    decreases k
  {
    hide Turn;
    if k == 0 {
      return;
    }
    ProcessLeavesLotless(p, from, requests, replies, k - 1);
    TurnLeavesLotless(Process(p, from, requests, replies, k - 1).value, from, requests[k - 1], ReplyTo(replies, k - 1));
  }

  lemma StepLeavesLotless(p: Pool, a: Action)
    requires Lotless(p) && a != BadDebtLapses
    ensures Step(p, a).badDebt == p.badDebt && Lotless(Step(p, a))
  {
    hide Process;
    hide LoadAll;
    hide Load;
    hide InterestLot;
    hide DebtBid;
    hide LiquidationAuction;
    hide HealthAfter;
    if a.UserSubmits? && Submit(p, a.from, a.spender, a.to, a.requests, a.answers).Ok? {
      ProcessLeavesLotless(p, a.from, a.requests, a.answers.replies, |a.requests|);
    }
  }

  /** A bad debt auction without a lot is never filled, replaced or removed: until its temporary storage runs out it
      stays as it is in every run, so no other can be created. */
  lemma {:induction false} LotlessUntilItLapses(p: Pool, actions: seq<Action>)
    requires Lotless(p) && BadDebtLapses !in actions
    ensures Run(p, actions).badDebt == p.badDebt && Lotless(Run(p, actions))
    ensures forall quote :: CreateBadDebt(Run(p, actions), quote).Abort?
    decreases |actions|
  {
    hide Step;
    hide DebtBid;
    if actions != [] {
      LotlessUntilItLapses(p, actions[..|actions| - 1]);
      StepLeavesLotless(Run(p, actions[..|actions| - 1]), actions[|actions| - 1]);
    }
  }
}
