/** An isolated lending pool: the request loop of a submission, its auctions and the administration that touches
    reserves (pool/src/pool/{actions,submit,config,bad_debt}.rs,
    pool/src/auctions/{auction,backstop_interest_auction,bad_debt_auction,user_liquidation_auction}.rs). */
module LendingPools {
  import opened Outcomes
  import opened FixedPoint
  import opened Totals
  import opened Interest
  import opened Reserves
  import opened Auctions
  import opened PoolUsers
  import opened PoolStates
  import opened Health
  import PoolBalances

  const U64_LIMIT: int := 0x1_0000_0000_0000_0000
  const MAX_RESERVES: nat := 32

  // ----- the request loop -----

  datatype Request = Request(kind: nat, address: Address, amount: int)

  /** Supply, withdraw, supply and withdraw collateral, borrow, repay. */
  function PerformRequest(b: Batch, from: Address, q: Request): Outcome<Batch>
    requires q.kind <= 5
  {
    var r :- LoadReserve(b, q.address);
    var change :- Perform(q.kind, b.pool.configs[q.address], r, PositionsOf(b.pool, from), q.amount);
    Ok(Batch(b.pool.(accounts := b.pool.accounts[from := change.positions]),
             b.cache[q.address := change.reserve], Transfers(b.flows, q.address, change),
             b.checkHealth || q.kind == 3 || q.kind == 4))
  }

  function Transfers(flows: Flows, asset: Address, change: Change): Flows
  {
    flows.(paid := Gather(flows.paid, asset, change.paid), out := Gather(flows.out, asset, change.out))
  }

  // ----- filling auctions -----

  /** The amount meant for the reserve at an index. */
  function AtIndex(resList: seq<Address>, amounts: map<Address, int>, i: nat): int
  {
    if i < |resList| then Amount(amounts, resList[i]) else 0
  }

  /** Take amounts, given by asset, from balances by index; a balance that is used up is dropped. */
  function TakeAll(resList: seq<Address>, m: map<Address, int>, amounts: map<Address, int>): Outcome<map<Address, int>>
  {
    if exists i :: i in Indices(resList, amounts) && Amount(m, i) < AtIndex(resList, amounts, i) then Abort(NegativeAmount)
    else Ok(map i | i in m.Keys + Indices(resList, amounts) && !UsedUp(resList, m, amounts, i) :: Amount(m, i) - AtIndex(resList, amounts, i))
  }

  predicate UsedUp(resList: seq<Address>, m: map<Address, int>, amounts: map<Address, int>, i: nat)
  {
    i in Indices(resList, amounts) && Amount(m, i) == AtIndex(resList, amounts, i)
  }

  function GiveAll(resList: seq<Address>, m: map<Address, int>, amounts: map<Address, int>): map<Address, int>
  {
    map i | i in m.Keys + Indices(resList, amounts) :: Amount(m, i) + AtIndex(resList, amounts, i)
  }

  function Indices(resList: seq<Address>, amounts: map<Address, int>): set<nat>
  {
    set i: nat | i < |resList| && resList[i] in amounts
  }

  /** A user's collateral, or debt. */
  function Held(u: Positions, debt: bool): map<Address, int>
  {
    if debt then u.liabilities else u.collateral
  }

  function SetHeld(u: Positions, debt: bool, m: map<Address, int>): Positions
  {
    if debt then u.(liabilities := m) else u.(collateral := m)
  }

  function SetPositions(b: Batch, user: Address, u: Positions): Batch
  {
    b.(pool := b.pool.(accounts := b.pool.accounts[user := u]))
  }

  /** Reserves whose b tokens, or d tokens, have grown by some amounts or shrunk by them. */
  function Grown(cache: map<Address, ReserveData>, debt: bool, amounts: map<Address, int>): map<Address, ReserveData>
  {
    map a | a in cache :: Raise(cache[a], debt, Amount(amounts, a))
  }

  function Shrunk(cache: map<Address, ReserveData>, debt: bool, amounts: map<Address, int>): map<Address, ReserveData>
  {
    map a | a in cache :: Raise(cache[a], debt, -Amount(amounts, a))
  }

  function Raise(r: ReserveData, debt: bool, amount: int): ReserveData
  {
    if debt then r.(dSupply := r.dSupply + amount) else r.(bSupply := r.bSupply + amount)
  }

  /** Nothing can be taken or given by amounts of zero. */
  predicate HasZero(amounts: map<Address, int>)
  {
    exists a :: a in amounts && amounts[a] == 0
  }

  /** One of the two loops of rm_positions: the user's positions and the loaded reserves afterwards. */
  function TakeFrom(b: Batch, u: Positions, debt: bool, amounts: map<Address, int>): Outcome<(Positions, map<Address, ReserveData>)>
  {
    if HasZero(amounts) then
      Abort(if debt then InvalidDTokenBurnAmount else InvalidBTokenBurnAmount)
    else
      var cache :- LoadAll(b, amounts.Keys);
      var m :- TakeAll(b.pool.resList, Held(u, debt), amounts);
      Ok((SetHeld(u, debt, m), Shrunk(cache, debt, amounts)))
  }

  /** One of the two loops of add_positions. */
  function GiveTo(b: Batch, u: Positions, debt: bool, amounts: map<Address, int>): Outcome<(Positions, map<Address, ReserveData>)>
  {
    if HasZero(amounts) then
      Abort(if debt then InvalidDTokenMintAmount else InvalidBTokenMintAmount)
    else
      var cache :- LoadAll(b, amounts.Keys);
      Ok((SetHeld(u, debt, GiveAll(b.pool.resList, Held(u, debt), amounts)), Grown(cache, debt, amounts)))
  }

  function Take(b: Batch, user: Address, debt: bool, amounts: map<Address, int>): Outcome<Batch>
  {
    var (u, cache) :- TakeFrom(b, PositionsOf(b.pool, user), debt, amounts);
    Ok(SetPositions(b, user, u).(cache := cache))
  }

  function Give(b: Batch, user: Address, debt: bool, amounts: map<Address, int>): Outcome<Batch>
  {
    var (u, cache) :- GiveTo(b, PositionsOf(b.pool, user), debt, amounts);
    Ok(SetPositions(b, user, u).(cache := cache))
  }

  function RmPositions(b: Batch, user: Address, collateral: map<Address, int>, liabilities: map<Address, int>): Outcome<Batch>
  {
    var n :- Take(b, user, false, collateral);
    Take(n, user, true, liabilities)
  }

  function AddPositions(b: Batch, user: Address, collateral: map<Address, int>, liabilities: map<Address, int>): Outcome<Batch>
  {
    var n :- Give(b, user, false, collateral);
    Give(n, user, true, liabilities)
  }

  /** Collateral and debt move from one user to another. */
  function MoveBetween(b: Batch, user: Address, to: Address, collateral: map<Address, int>, liabilities: map<Address, int>): Outcome<Batch>
  {
    var n :- RmPositions(b, user, collateral, liabilities);
    AddPositions(n, to, collateral, liabilities)
  }

  /** The filled part moves from the user to the filler (fill_user_liq_auction). */
  function FillUserLiquidation(b: Batch, from: Address, user: Address, fill: AuctionData): Outcome<Batch>
  {
    MoveBetween(b, user, from, fill.lot, fill.bid)
  }

  /** A fill of a liquidation auction, with what is stored of the auction afterwards. */
  function FillLiquidation(b: Batch, from: Address, user: Address, percent: int): Outcome<Batch>
  {
    if user == from then Abort(InvalidLiquidation)
    else if user !in b.pool.liquidations then Abort(ArithmeticError)
    else
      var (fill, rest) :- Scale(b.pool.liquidations[user], percent, b.pool.block);
      var n :- FillUserLiquidation(b, from, user, fill);
      Ok(n.(pool := n.pool.(liquidations :=
              if rest.Some? then b.pool.liquidations[user := rest.value] else b.pool.liquidations - {user}),
            checkHealth := true))
  }

  /** What the backstop answers during a request: whether it takes a donation and pays out a draw, and the BLND
      and USDC then behind the pool. */
  datatype Reply = Reply(donated: bool, drawn: bool, blnd: nat, usdc: nat)

  const SILENT: Reply := Reply(false, false, 0, 0)

  /** The backstop's size as a fraction, to the fifth power, of what a pool needs, in seven decimals
      (calc_pool_backstop_threshold). */
  function BackstopThreshold(blnd: nat, usdc: nat): nat
  {
    var (b, u) := (blnd / SCALAR_7, usdc / SCALAR_7);
    PoolBalances.SaturatingMul(PoolBalances.SaturatingMul(PoolBalances.SaturatingMul(PoolBalances.SaturatingMul(
      PoolBalances.SaturatingMul(b, b), b), b), u), SCALAR_7) / PoolBalances.THRESHOLD_PC
  }

  /** Balances by index, under the asset of their index. */
  function ByAsset(configs: map<Address, ReserveConfig>, m: map<Address, int>): map<Address, int>
  {
    map a | a in configs && configs[a].index in m :: m[configs[a].index]
  }

  /** What writing off amounts of debt takes from the worth of the liabilities. */
  function WorthOf(cache: map<Address, ReserveData>, amounts: map<Address, int>, a: Address): int
  {
    if a in cache then TotalLiabilities(cache[a]) - TotalLiabilities(Raise(cache[a], true, -Amount(amounts, a))) else 0
  }

  function WrittenOff(burned: map<Address, int>, cache: map<Address, ReserveData>, amounts: map<Address, int>): map<Address, int>
  {
    map a | a in burned.Keys + amounts.Keys :: Amount(burned, a) + WorthOf(cache, amounts, a)
  }

  /** Once the backstop is nearly empty, the debt it still holds is written off. */
  function WriteOff(b: Batch, reply: Reply): Outcome<Batch>
  {
    var u := PositionsOf(b.pool, b.pool.backstop);
    if u.liabilities == map[] || BackstopThreshold(reply.blnd, reply.usdc) >= 3 then Ok(b)
    else if exists i :: i in u.liabilities && i >= |b.pool.resList| then Abort(ArithmeticError)
    else
      var amounts := ByAsset(b.pool.configs, u.liabilities);
      var cache :- LoadAll(b, amounts.Keys);
      var n :- RmPositions(b, b.pool.backstop, map[], amounts);
      Ok(n.(flows := b.flows.(burned := WrittenOff(b.flows.burned, cache, amounts))))
  }

  /** The filler of a bad debt auction takes debt over from the backstop and is paid with backstop tokens. */
  function FillBadDebt(b: Batch, from: Address, user: Address, percent: int, reply: Reply): Outcome<Batch>
  {
    if user == from then Abort(InvalidLiquidation)
    else if user != b.pool.backstop || b.pool.badDebt.None? then Abort(ArithmeticError)
    else
      var (fill, rest) :- Scale(b.pool.badDebt.value, percent, b.pool.block);
      var moved :- MoveBetween(b, user, from, map[], fill.bid);
      if b.pool.backstopToken !in fill.lot then Abort(ArithmeticError)
      else if !reply.drawn then Abort(TransferFailed)
      else
        var n :- WriteOff(moved, reply);
        Ok(n.(pool := n.pool.(badDebt := rest), checkHealth := true))
  }

  /** A filled interest auction is paid for with a donation to the backstop, and hands out the lot from
      the backstop's credit at once. The scaled bid must name the backstop token. */
  function FillInterest(b: Batch, from: Address, user: Address, percent: int, reply: Reply): Outcome<Batch>
  {
    if user == from then Abort(InvalidLiquidation)
    else if user != b.pool.backstop || b.pool.interest.None? then Abort(ArithmeticError)
    else
      var (fill, rest) :- Scale(b.pool.interest.value, percent, b.pool.block);
      if b.pool.backstopToken !in fill.bid then Abort(ArithmeticError)
      else if !reply.donated then Abort(TransferFailed)
      else
        var cache :- LoadAll(b, fill.lot.Keys);
        if exists a :: a in fill.lot && Amount(b.pool.cash, a) < fill.lot[a] then Abort(TransferFailed)
        else Ok(b.(pool := b.pool.(interest := rest, cash := HandOut(b.pool.cash, fill.lot)),
                   cache := DrawCredit(cache, fill.lot)))
  }

  function HandOut(cash: map<Address, int>, lot: map<Address, int>): map<Address, int>
  {
    map a | a in cash :: cash[a] - Amount(lot, a)
  }

  function DrawCredit(cache: map<Address, ReserveData>, lot: map<Address, int>): map<Address, ReserveData>
  {
    map a | a in cache :: cache[a].(backstopCredit := cache[a].backstopCredit - Amount(lot, a))
  }

  function DeleteLiquidation(b: Batch, from: Address): Outcome<Batch>
  {
    if from !in b.pool.liquidations then Abort(BadRequest)
    else Ok(b.(pool := b.pool.(liquidations := b.pool.liquidations - {from}), checkHealth := true))
  }

  /** Borrowing and cancelling need an active pool, supplying one that is not frozen. */
  predicate ActionAllowed(status: nat, kind: nat)
  {
    !((status > 1 && (kind == 4 || kind == 9)) || (status > 3 && (kind == 2 || kind == 0)))
  }

  /** One request. */
  function Turn(b: Batch, from: Address, q: Request, reply: Reply): Outcome<Batch>
  {
    if q.amount < 0 then Abort(NegativeAmount)
    else if !ActionAllowed(b.pool.status, q.kind) then Abort(InvalidPoolStatus)
    else if q.kind <= 5 then PerformRequest(b, from, q)
    else if q.kind == 6 then FillLiquidation(b, from, q.address, q.amount % U64_LIMIT)
    else if q.kind == 7 then FillBadDebt(b, from, q.address, q.amount % U64_LIMIT, reply)
    else if q.kind == 8 then FillInterest(b, from, q.address, q.amount % U64_LIMIT, reply)
    else if q.kind == 9 then DeleteLiquidation(b, from)
    else Abort(BadRequest)
  }

  /** The loop's start: the sender's positions are loaded, nothing else is. */
  function Start(p: Pool, from: Address): Batch
  {
    Idle(p.(accounts := p.accounts[from := PositionsOf(p, from)]))
  }

  function ReplyTo(replies: seq<Reply>, k: nat): Reply
  {
    if k < |replies| then replies[k] else SILENT
  }

  /** The first k requests of a list (build_actions_from_request). */
  function Process(p: Pool, from: Address, requests: seq<Request>, replies: seq<Reply>, k: nat): Outcome<Batch>
    requires k <= |requests|
    decreases k
  {
    if k == 0 then Ok(Start(p, from))
    else
      var b :- Process(p, from, requests, replies, k - 1);
      Turn(b, from, requests[k - 1], ReplyTo(replies, k - 1))
  }

  /** What the outside world answers during a submission: the backstop to each request, the oracle's decimals,
      and which token transfers fail. */
  datatype Answers = Answers(replies: seq<Reply>, decimals: nat, unpaid: set<Address>, undelivered: set<Address>)

  /** The cash of one asset after the attempted transfers; a failed one is ignored. */
  function CashAfter(b: Batch, answers: Answers, a: Address): int
  {
    var received := Amount(b.pool.cash, a) + if a in answers.unpaid then 0 else Amount(b.flows.paid, a);
    if a in answers.undelivered || Amount(b.flows.out, a) > received then received else received - Amount(b.flows.out, a)
  }

  /** Move the tokens and store the reserves. */
  function Settle(b: Batch, answers: Answers): Pool
  {
    b.pool.(data := b.pool.data + b.cache,
            cash := map a | a in b.pool.cash.Keys + b.flows.paid.Keys + b.flows.out.Keys :: CashAfter(b, answers, a))
  }

  const MIN_HEALTH: int := 1_0000100

  /** The user's data at the end of the requests; computing it can abort, even if it is not needed. */
  function HealthAfter(b: Batch, from: Address, decimals: nat): Outcome<PositionData>
  {
    Calculate(b, PositionsOf(b.pool, from), Pow10(decimals), |b.pool.resList|)
  }

  /** Whether the health of the sender's new positions is enforced. */
  predicate MustBeHealthy(b: Batch, from: Address)
  {
    b.checkHealth && PositionsOf(b.pool, from).liabilities != map[] && b.pool.block > b.pool.deploymentSeq
  }

  /** execute_submit */
  function Submit(p: Pool, from: Address, spender: Address, to: Address, requests: seq<Request>, answers: Answers): Outcome<Pool>
  {
    if from == p.self || spender == p.self || to == p.self then Abort(BadRequest)
    else
      var b :- Process(p, from, requests, answers.replies, |requests|);
      var health :- HealthAfter(b, from, answers.decimals);
      if MustBeHealthy(b, from) && IsHfUnder(health, MIN_HEALTH) then Abort(InvalidHf)
      else Ok(Settle(b, answers))
  }

  // ----- creating an interest auction -----

  /** Oracle prices and their decimals, and the USDC and tokens behind the pool's backstop. */
  datatype Quote = Quote(prices: map<Address, int>, decimals: nat, usdc: int, tokens: int)

  /** The lot and its value over the first k assets; nothing loaded here is stored. */
  function InterestLot(p: Pool, assets: seq<Address>, quote: Quote, k: nat): Outcome<(map<Address, int>, int)>
    requires k <= |assets|
    decreases k
  {
    if k == 0 then Ok((map[], 0))
    else
      var (lot, value) :- InterestLot(p, assets, quote, k - 1);
      var a := assets[k - 1];
      if a !in p.configs || a !in p.data then Abort(ArithmeticError)
      else
        var r :- Load(p.configs[a], p.bstopRate, p.data[a], p.now);
        if r.backstopCredit <= 0 then Ok((lot, value))
        else if a !in quote.prices then Abort(ArithmeticError)
        else Ok((lot[a := r.backstopCredit],
                 value + Floor(quote.prices[a] * r.backstopCredit, Pow10(p.configs[a].decimals))))
  }

  /** create_interest_auction */
  function CreateInterest(p: Pool, assets: seq<Address>, quote: Quote): Outcome<Pool>
  {
    if p.interest.Some? then Abort(AuctionInProgress)
    else
      var (lot, value) :- InterestLot(p, assets, quote, |assets|);
      if value <= 200 * Pow10(quote.decimals) then Abort(InterestTooSmall)
      else if lot == map[] || value == 0 then Abort(BadRequest)
      else
        var base :- DivFloor(Floor(quote.usdc * Pow10(quote.decimals), SCALAR_7) * 5 * SCALAR_7, quote.tokens);
        var bid :- DivFloor(Floor(value * 1_4000000, SCALAR_7) * SCALAR_7, base);
        Ok(p.(interest := Some(AuctionData(map[p.backstopToken := bid], lot, p.block + 1))))
  }

  // ----- creating a bad debt auction -----

  /** The bid and its value over the first k reserves: all debt the backstop holds. */
  function DebtBid(p: Pool, m: map<Address, int>, quote: Quote, k: nat): Outcome<(map<Address, int>, int)>
    requires k <= |p.resList|
    decreases k
  {
    if k == 0 then Ok((map[], 0))
    else
      var (bid, value) :- DebtBid(p, m, quote, k - 1);
      var a := p.resList[k - 1];
      if Amount(m, k - 1) <= 0 then Ok((bid, value))
      else
        var r :- LoadReserve(Idle(p), a);
        if a !in quote.prices then Abort(ArithmeticError)
        else
          Ok((bid[a := m[k - 1]],
              value + Floor(quote.prices[a] * AssetFromD(r, m[k - 1]), Pow10(p.configs[a].decimals))))
  }

  /** create_bad_debt_auction: backstop tokens worth 1.4 times the debt, or all there are. */
  function CreateBadDebt(p: Pool, quote: Quote): Outcome<Pool>
  {
    var m := PositionsOf(p, p.backstop).liabilities;
    if p.badDebt.Some? then Abort(AuctionInProgress)
    else if exists i :: i in m && i >= |p.resList| then Abort(ArithmeticError)
    else
      var (bid, value) :- DebtBid(p, m, quote, |p.resList|);
      if bid == map[] || value == 0 then Abort(BadRequest)
      else
        var base :- DivFloor(Floor(quote.usdc * Pow10(quote.decimals), SCALAR_7) * 5 * SCALAR_7, quote.tokens);
        var lot :- DivFloor(Floor(value * 1_4000000, SCALAR_7) * SCALAR_7, base);
        Ok(p.(badDebt := Some(AuctionData(bid, map[p.backstopToken := Min(quote.tokens, lot)], p.block + 1))))
  }

  // ----- administration -----

  const NEW_RESERVE: ReserveData := ReserveData(SCALAR_9, SCALAR_9, SCALAR_9, 0, 0, 0, 0)

  predicate SameCurve(c: ReserveConfig, d: ReserveConfig)
  {
    c.rBase == d.rBase && c.rOne == d.rOne && c.rTwo == d.rTwo && c.rThree == d.rThree && c.util == d.util
  }

  /** initialize_reserve for a configuration that passed validation when it was queued: an existing reserve
      is accrued under its old configuration first. */
  function SetReserve(p: Pool, asset: Address, config: ReserveConfig): Outcome<Pool>
  {
    if !ValidMetadata(config) then Abort(InvalidReserveMetadata)
    else if asset in p.configs && asset in p.data then
      var current := p.configs[asset];
      var r :- Load(current, p.bstopRate, p.data[asset], p.now);
      if current.decimals != config.decimals then Abort(InvalidReserveMetadata)
      else
        var stored := if SameCurve(current, config) then r else r.(irMod := SCALAR_9);
        Ok(p.(configs := p.configs[asset := config.(index := current.index)], data := p.data[asset := stored]))
    else if |p.resList| == MAX_RESERVES then Abort(BadRequest)
    else Ok(p.(resList := p.resList + [asset],
               configs := p.configs[asset := config.(index := |p.resList|)],
               data := p.data[asset := NEW_RESERVE.(lastTime := p.now)]))
  }

  /** execute_update_pool, as far as the backstop's take goes. */
  function UpdateTake(p: Pool, rate: nat): Outcome<Pool>
  {
    if rate >= SCALAR_7 then Abort(BadRequest) else Ok(p.(bstopRate := rate))
  }

  /** Balances of two kinds added up. */
  function Merged(m: map<Address, int>, more: map<Address, int>): map<Address, int>
  {
    map i | i in m.Keys + more.Keys :: Amount(m, i) + Amount(more, i)
  }

  /** The assets of some indices. */
  function AssetsOf(resList: seq<Address>, m: map<Address, int>): set<Address>
  {
    set i | i in m && i < |resList| :: resList[i]
  }

  predicate CanMove(resList: seq<Address>, m: map<Address, int>)
  {
    forall i :: i in m ==> i < |resList| && m[i] != 0
  }

  /** transfer_bad_debt_to_backstop: a user without collateral hands all debt to the backstop. */
  function MoveBadDebt(p: Pool, user: Address): Outcome<Pool>
  {
    var u := PositionsOf(p, user);
    if user == p.backstop || u.collateral != map[] || u.liabilities == map[] then Abort(BadRequest)
    else if !CanMove(p.resList, u.liabilities) then Abort(ArithmeticError)
    else
      var cache :- LoadAll(Idle(p), AssetsOf(p.resList, u.liabilities));
      var b := PositionsOf(p, p.backstop);
      Ok(p.(accounts := p.accounts[p.backstop := b.(liabilities := Merged(b.liabilities, u.liabilities))][user := u.(liabilities := map[])],
            data := p.data + cache))
  }
}
