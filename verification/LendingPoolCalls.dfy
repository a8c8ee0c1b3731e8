/** Exactly when the pool's requests and administrative calls go through, and what they change
    (pool/src/pool/actions.rs, pool/src/pool/config.rs, pool/src/pool/bad_debt.rs,
    pool/src/auctions/auction.rs). */
module LendingPoolCalls {
  import opened Outcomes
  import opened FixedPoint
  import opened Totals
  import opened Interest
  import opened Reserves
  import opened Auctions
  import opened PoolUsers
  import opened PoolStates
  import opened LendingPools
  import opened LendingPoolProofs
  import opened LendingPoolAuctionProofs

  // ----- requests -----

  /** A request a pool of some status takes: an active pool (0 or 1) takes all, one on ice (2 or 3) no borrowing and no
      withdrawal of a liquidation, a frozen one (4 and above) no supplying either; withdrawing, repaying and filling
      auctions always remain. */
  predicate Takes(status: nat, q: Request)
  {
    && 0 <= q.amount && q.kind <= 9
    && (status >= 2 ==> q.kind != 4 && q.kind != 9)
    && (status >= 4 ==> q.kind != 0 && q.kind != 2)
  }

  /** What each kind of request does. */
  function Arm(b: Batch, from: Address, q: Request, reply: Reply): Outcome<Batch>
    requires q.kind <= 9
  {
    match q.kind
    case 6 => FillLiquidation(b, from, q.address, q.amount % U64_LIMIT)
    case 7 => FillBadDebt(b, from, q.address, q.amount % U64_LIMIT, reply)
    case 8 => FillInterest(b, from, q.address, q.amount % U64_LIMIT, reply)
    case 9 => DeleteLiquidation(b, from)
    case _ => PerformRequest(b, from, q)
  }

  /** A request goes through exactly if the status takes it and its arm does. */
  lemma TurnTakes(b: Batch, from: Address, q: Request, reply: Reply)
    ensures Turn(b, from, q, reply).Ok? <==> Takes(b.pool.status, q) && Arm(b, from, q, reply).Ok?
    ensures Turn(b, from, q, reply).Ok? ==> Turn(b, from, q, reply) == Arm(b, from, q, reply)
  {
    hide PerformRequest;
    hide FillLiquidation;
    hide FillBadDebt;
    hide FillInterest;
    hide DeleteLiquidation;
  }

  lemma TurnStatus(b: Batch, from: Address, q: Request, reply: Reply)
    requires Turn(b, from, q, reply).Ok?
    ensures Turn(b, from, q, reply).value.pool.status == b.pool.status
  {
    hide Scale;
    hide LoadReserve;
    hide LoadAll;
    hide Perform;
    hide MoveBetween;
    hide WriteOff;
    if q.kind == 6 {
      var fill := Scale(b.pool.liquidations[q.address], q.amount % U64_LIMIT, b.pool.block).value.0;
      MoveBetweenAside(b, q.address, from, fill.lot, fill.bid);
    } else if q.kind == 7 {
      var fill := Scale(b.pool.badDebt.value, q.amount % U64_LIMIT, b.pool.block).value.0;
      MoveBetweenAside(b, q.address, from, map[], fill.bid);
      WriteOffAside(MoveBetween(b, q.address, from, map[], fill.bid).value, reply);
    }
  }

  /** A submission goes through only if the pool's status takes every one of its requests. */
  lemma {:induction false} StatusIsKept(p: Pool, from: Address, requests: seq<Request>, replies: seq<Reply>, k: nat)
    requires k <= |requests| && Process(p, from, requests, replies, k).Ok?
    ensures Process(p, from, requests, replies, k).value.pool.status == p.status
    ensures forall j :: 0 <= j < k ==> Takes(p.status, requests[j])
    decreases k
  {
    hide Turn;
    if k > 0 {
      StatusIsKept(p, from, requests, replies, k - 1);
      TurnTakes(Process(p, from, requests, replies, k - 1).value, from, requests[k - 1], ReplyTo(replies, k - 1));
      TurnStatus(Process(p, from, requests, replies, k - 1).value, from, requests[k - 1], ReplyTo(replies, k - 1));
    }
  }

  /** A user may withdraw the own liquidation auction, and only that, at the price of the health check. */
  lemma DeleteLiquidationIs(b: Batch, from: Address)
    ensures DeleteLiquidation(b, from).Ok? <==> from in b.pool.liquidations
    ensures DeleteLiquidation(b, from).Ok? ==>
      var n := DeleteLiquidation(b, from).value;
      && n.checkHealth && from !in n.pool.liquidations
      && (forall v :: v != from ==> (v in n.pool.liquidations <==> v in b.pool.liquidations))
      && (forall v :: v in n.pool.liquidations ==> n.pool.liquidations[v] == b.pool.liquidations[v])
      && n == b.(checkHealth := true, pool := b.pool.(liquidations := n.pool.liquidations))
  {}

  /** A fill of a liquidation goes through exactly for another user's auction, a valid percentage from the start block on,
      reserves that load, and positions that hold what it moves. */
  lemma {:induction false} FillLiquidationSucceeds(b: Batch, from: Address, user: Address, percent: int)
    ensures FillLiquidation(b, from, user, percent).Ok? <==>
      && user != from && user in b.pool.liquidations
      && 1 <= percent <= 100 && b.pool.liquidations[user].block <= b.pool.block
      && var fill := Scale(b.pool.liquidations[user], percent, b.pool.block).value.0;
         && (forall a :: a in fill.lot.Keys + fill.bid.Keys ==> LoadReserve(b, a).Ok?)
         && Transferred(b, user, from, fill.lot, fill.bid).Ok?
  {
    hide MoveBetween;
    hide Transferred;
    hide LoadReserve;
    hide AllPositive;
    if user != from && user in b.pool.liquidations {
      ScaleSucceeds(b.pool.liquidations[user], percent, b.pool.block);
      if Scale(b.pool.liquidations[user], percent, b.pool.block).Ok? {
        var fill := Scale(b.pool.liquidations[user], percent, b.pool.block).value.0;
        FillPositive(b.pool.liquidations[user], percent, b.pool.block);
        MoveBetweenIs(b, user, from, fill.lot, fill.bid);
        LoadAllFetches(b, fill.lot.Keys + fill.bid.Keys);
      }
    }
    hide Scale;
    hide LoadAll;
  }

  // ----- administration -----

  /** Re-configuring a reserve accrues it under the old configuration first, keeps its index and decimals, and resets the
      modifier exactly when the rate curve changes; a new one is appended with rates of one. Nothing else changes. */
  lemma {:induction false} SetReserveIs(p: Pool, asset: Address, config: ReserveConfig, b: Address)
    requires Listed(p) && SetReserve(p, asset, config).Ok?
    ensures var q := SetReserve(p, asset, config).value;
      && ValidMetadata(config) && q == p.(resList := q.resList, configs := q.configs, data := q.data)
      && asset in q.configs && asset in q.data && q.configs[asset] == config.(index := q.configs[asset].index)
      && (b != asset ==> (b in q.data <==> b in p.data) && (b in p.data ==> q.data[b] == p.data[b] && q.configs[b] == p.configs[b]))
      && (asset in p.data ==>
            && q.resList == p.resList && q.configs[asset].index == p.configs[asset].index && config.decimals == p.configs[asset].decimals
            && Load(p.configs[asset], p.bstopRate, p.data[asset], p.now).Ok?
            && Reconfigured(p.configs[asset], config, Load(p.configs[asset], p.bstopRate, p.data[asset], p.now).value, q.data[asset]))
      && (asset !in p.data ==>
            && |p.resList| != 32 && q.resList == p.resList + [asset] && q.configs[asset].index == |p.resList|
            && q.data[asset] == ReserveData(SCALAR_9, SCALAR_9, SCALAR_9, 0, 0, 0, p.now))
  {
    hide Load;
    hide ValidMetadata;
  }

  /** The loaded reserve, its modifier back at one if a point of the curve has moved. */
  predicate Reconfigured(was: ReserveConfig, config: ReserveConfig, r: ReserveData, n: ReserveData)
  {
    var moved := was.rBase != config.rBase || was.rOne != config.rOne || was.rTwo != config.rTwo || was.rThree != config.rThree
      || was.util != config.util;
    n == if moved then r.(irMod := SCALAR_9) else r
  }

  /** When a reserve can be configured: with valid metadata, and for an existing one if it loads and keeps its decimals,
      for a new one while there are fewer than 32. */
  lemma SetReserveSucceeds(p: Pool, asset: Address, config: ReserveConfig)
    requires Listed(p)
    ensures SetReserve(p, asset, config).Ok? <==>
      && ValidMetadata(config)
      && (if asset in p.data then
            Load(p.configs[asset], p.bstopRate, p.data[asset], p.now).Ok? && p.configs[asset].decimals == config.decimals
          else |p.resList| != 32)
  {
    hide Load;
    hide ValidMetadata;
  }

  /** A user without collateral hands every debt to the backstop, whose other balances stay; users other than these two
      are not touched. */
  lemma {:induction false} MoveBadDebtIs(p: Pool, user: Address, i: nat)
    requires MoveBadDebt(p, user).Ok?
    ensures var q := MoveBadDebt(p, user).value;
      var (u, b) := (PositionsOf(p, user), PositionsOf(p, p.backstop));
      && user != p.backstop && u.collateral == map[] && u.liabilities != map[]
      && PositionsOf(q, user) == u.(liabilities := map[])
      && PositionsOf(q, p.backstop) == b.(liabilities := PositionsOf(q, p.backstop).liabilities)
      && DTokens(PositionsOf(q, p.backstop), i) == DTokens(b, i) + DTokens(u, i)
      && (forall v :: v != user && v != p.backstop ==> PositionsOf(q, v) == PositionsOf(p, v))
      && q == p.(accounts := q.accounts, data := q.data)
  {
    hide LoadAll;
  }

  /** That goes through exactly for someone other than the backstop with debts and no collateral, all of listed reserves that
      load and none of them zero. */
  lemma MoveBadDebtSucceeds(p: Pool, user: Address)
    ensures MoveBadDebt(p, user).Ok? <==>
      var u := PositionsOf(p, user);
      && user != p.backstop && u.collateral == map[] && u.liabilities != map[]
      && (forall i :: i in u.liabilities ==> i < |p.resList| && u.liabilities[i] != 0)
      && (forall i :: i in u.liabilities && i < |p.resList| ==> LoadReserve(Idle(p), p.resList[i]).Ok?)
  {
    var u := PositionsOf(p, user);
    LoadAllFetches(Idle(p), AssetsOf(p.resList, u.liabilities));
    hide LoadAll;
    hide LoadReserve;
    hide Merged;
    forall i | i in u.liabilities && i < |p.resList|
      ensures p.resList[i] in AssetsOf(p.resList, u.liabilities)
    {}
  }

  /** The take is a part of the interest. */
  lemma UpdateTakeIs(p: Pool, rate: nat)
    ensures UpdateTake(p, rate).Ok? <==> rate < SCALAR_7
    ensures UpdateTake(p, rate).Ok? ==> UpdateTake(p, rate).value == p.(bstopRate := rate)
  {}
}
