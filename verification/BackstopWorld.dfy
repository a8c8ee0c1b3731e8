/** The backstop contract with the tokens it holds and the emitter that feeds it, as a state
    machine: every external call, every transfer others can make to it, and time. */
module BackstopWorld {
  import opened Outcomes
  import opened FixedPoint
  import opened Totals
  import opened PoolBalances
  import opened BackstopLedger

  const BACKSTOP_EPOCH: nat := 1713139200
  const REWARD_ZONE_STEP: nat := 0x80_0000   // 2^23 seconds, about 97 days
  const ONE_DAY: nat := 24 * 60 * 60
  const GULP_INTERVAL: nat := 60 * 60
  const BACKSTOP_SHARE: int := 0_7000000
  const POOL_SHARE: int := 0_3000000

  datatype World = World(
    self: Address,                           // the backstop contract
    deployed: set<Address>,                  // pools the pool factory vouches for
    now: nat,                                // ledger time
    // backstop storage
    pools: map<Address, PoolLedger>,
    rewardZone: seq<Address>,
    lastDistribution: nat,
    lpTokenVal: Option<(nat, nat)>,          // BLND and USDC behind one LP token
    // emitter and tokens
    emitterLast: nat,                        // the emitter's last distribution to this backstop
    blnd: int,                               // BLND held by the backstop
    lp: int,                                 // LP tokens held by the backstop
    allowances: map<Address, int>)           // BLND a pool may still pull from the backstop

  datatype Action =
    | Tick(seconds: nat)
    | EmitterDistributes
    | GulpEmissions
    | GulpPoolEmissions(pool: Address)
    | AddReward(toAdd: Address, toRemove: Address)
    | DepositTokens(from: Address, pool: Address, amount: int)
    | QueueForExit(from: Address, pool: Address, amount: int)
    | CancelQueued(from: Address, pool: Address, amount: int)
    | WithdrawShares(from: Address, pool: Address, amount: int)
    | DrawTokens(pool: Address, amount: int, to: Address)
    | DonateTokens(from: Address, pool: Address, amount: int)
    | Claim(from: Address, ids: seq<Address>, to: Address, lpOut: nat)
    // others
    | PoolPulls(pool: Address, amount: int, to: Address)   // a pool pays its own emissions
    | AllowanceExpires(pool: Address)
    | TokensArrive(moreBlnd: nat, moreLp: nat)
    | TokenValueMoves(blndPerToken: nat, usdcPerToken: nat)

  function PoolIn(pools: map<Address, PoolLedger>, pool: Address): PoolLedger
  {
    if pool in pools then pools[pool] else NO_LEDGER
  }

  /** Write a pool's records; writing what is already there is no change. */
  function Store(pools: map<Address, PoolLedger>, pool: Address, l: PoolLedger): map<Address, PoolLedger>
  {
    if l == PoolIn(pools, pool) then pools else pools[pool := l]
  }

  function PoolOf(w: World, pool: Address): PoolLedger
  {
    PoolIn(w.pools, pool)
  }

  function SetPool(w: World, pool: Address, l: PoolLedger): World
  {
    w.(pools := w.pools[pool := l])
  }

  function AllowanceOf(w: World, pool: Address): int
  {
    if pool in w.allowances then w.allowances[pool] else 0
  }

  // ----- deposits, withdrawals and fund management -----

  function IsFromFactory(w: World, pool: Address): bool
  {
    PoolOf(w, pool).balance.shares != 0 || pool in w.deployed
  }

  function ExecuteDeposit(w: World, from: Address, pool: Address, amount: int): Outcome<(World, int)>
  {
    if amount < 0 then Abort(NegativeAmount)
    else if from == pool || from == w.self then Abort(BadRequest)
    else if !IsFromFactory(w, pool) then Abort(NotPool)
    else
      var (l, minted) :- Deposit(PoolOf(w, pool), w.now, from, amount);
      Ok((SetPool(w, pool, l).(lp := w.lp + amount), minted))
  }

  function ExecuteQueue(w: World, from: Address, pool: Address, amount: int): Outcome<World>
  {
    if amount < 0 then Abort(NegativeAmount)
    else
      var l :- QueueWithdrawal(PoolOf(w, pool), w.now, from, amount);
      Ok(SetPool(w, pool, l))
  }

  function ExecuteDequeue(w: World, from: Address, pool: Address, amount: int): Outcome<World>
  {
    if amount < 0 then Abort(NegativeAmount)
    else
      var l :- DequeueWithdrawal(PoolOf(w, pool), w.now, from, amount);
      Ok(SetPool(w, pool, l))
  }

  function ExecuteWithdraw(w: World, from: Address, pool: Address, amount: int): Outcome<(World, int)>
  {
    if amount < 0 then Abort(NegativeAmount)
    else
      var (l, out) :- Withdraw(PoolOf(w, pool), w.now, from, amount);
      var v :- SendLp(SetPool(w, pool, l), from, out);
      Ok((v, out))
  }

  function SendLp(w: World, to: Address, amount: int): Outcome<World>
  {
    if amount < 0 || amount > w.lp then Abort(TransferFailed)
    else Ok(if to == w.self then w else w.(lp := w.lp - amount))
  }

  function ExecuteDraw(w: World, pool: Address, amount: int, to: Address): Outcome<World>
  {
    if amount < 0 then Abort(NegativeAmount)
    else
      var l :- Draw(PoolOf(w, pool), amount);
      SendLp(SetPool(w, pool, l), to, amount)
  }

  function ExecuteDonate(w: World, from: Address, pool: Address, amount: int): Outcome<World>
  {
    if amount < 0 then Abort(NegativeAmount)
    else if from == pool || from == w.self then Abort(BadRequest)
    else if !IsFromFactory(w, pool) then Abort(NotPool)
    else Ok(SetPool(w, pool, Donate(PoolOf(w, pool), amount)).(lp := w.lp + amount))
  }

  // ----- emissions -----

  function ExecuteDistribute(w: World): Outcome<World>
  {
    if w.now < w.emitterLast then Abort(ArithmeticError)
    else Ok(w.(emitterLast := w.now, blnd := w.blnd + Scaled(w.now - w.emitterLast)))
  }

  /** The balances of the reward zone's pools, as the first loop of gulp_emissions collects them. */
  function ZoneBalances(pools: map<Address, PoolLedger>, zone: seq<Address>): (balances: seq<PoolHolding>)
    ensures |balances| == |zone|
  {
    seq(|zone|, i requires 0 <= i < |zone| => PoolIn(pools, zone[i]).balance)
  }

  /** Tokens not waiting for withdrawal, over the first k pools of the reward zone. */
  function TotalNonQueued(balances: seq<PoolHolding>, k: nat): Outcome<int>
    requires k <= |balances|
    decreases k
  {
    if k == 0 then Ok(0)
    else
      var before :- TotalNonQueued(balances, k - 1);
      var tokens :- NonQueuedTokens(balances[k - 1]);
      Ok(before + tokens)
  }

  /** A pool's share of the reward zone, in seven decimals. */
  function ZoneShare(b: PoolHolding, total: int): Outcome<int>
  {
    var tokens :- NonQueuedTokens(b);
    DivFloor(tokens * SCALAR_7, total)
  }

  /** One pool's part of a gulp: its own emissions and a new stream for its depositors. */
  function GulpOne(l: PoolLedger, now: nat, share: int, toPools: int, toBackstop: int): Outcome<PoolLedger>
  {
    SetEmissionConfig(l.(poolEmissions := l.poolEmissions + Floor(share * toPools, SCALAR_7)), now,
      Floor(share * toBackstop, SCALAR_7))
  }

  /** The second loop of gulp_emissions over the first k pools. */
  function GulpLoop(pools: map<Address, PoolLedger>, zone: seq<Address>, balances: seq<PoolHolding>, k: nat, now: nat,
                    total: int, toPools: int, toBackstop: int): Outcome<map<Address, PoolLedger>>
    requires k <= |zone| == |balances|
    decreases k
  {
    if k == 0 then Ok(pools)
    else
      var before :- GulpLoop(pools, zone, balances, k - 1, now, total, toPools, toBackstop);
      var share :- ZoneShare(balances[k - 1], total);
      var l :- GulpOne(PoolIn(before, zone[k - 1]), now, share, toPools, toBackstop);
      Ok(before[zone[k - 1] := l])
  }

  function NewEmissions(w: World): int { Scaled(w.emitterLast - w.lastDistribution) }
  function ToBackstop(newEmissions: int): int { Floor(newEmissions * BACKSTOP_SHARE, SCALAR_7) }
  function ToPools(newEmissions: int): int { Floor(newEmissions * POOL_SHARE, SCALAR_7) }

  function ExecuteGulp(w: World): Outcome<World>
  {
    if w.rewardZone == [] then Abort(BadRequest)
    else if w.emitterLast <= w.lastDistribution + GULP_INTERVAL then Abort(BadRequest)
    else
      var balances := ZoneBalances(w.pools, w.rewardZone);
      var total :- TotalNonQueued(balances, |balances|);
      var pools :- GulpLoop(w.pools, w.rewardZone, balances, |balances|, w.now, total,
                            ToPools(NewEmissions(w)), ToBackstop(NewEmissions(w)));
      Ok(w.(pools := pools, lastDistribution := w.emitterLast))
  }

  function ExecuteGulpPool(w: World, pool: Address): Outcome<World>
  {
    var l := PoolOf(w, pool);
    if l.poolEmissions == 0 then Abort(BadRequest)
    else
      Ok(SetPool(w, pool, l.(poolEmissions := 0))
         .(allowances := w.allowances[pool := AllowanceOf(w, pool) + l.poolEmissions]))
  }

  /** The most pools the reward zone may hold at a time. */
  function MaxZoneSize(now: nat): nat
  {
    if now < BACKSTOP_EPOCH then 10 else 10 + (now - BACKSTOP_EPOCH) / REWARD_ZONE_STEP
  }

  function AddToRewardZone(w: World, toAdd: Address, toRemove: Address): Outcome<World>
  {
    if toAdd in w.rewardZone then Abort(BadRequest)
    else if w.lpTokenVal.None? then Abort(ArithmeticError)
    else
      var tokens := PoolOf(w, toAdd).balance.tokens;
      var blnd := Floor(tokens * w.lpTokenVal.value.0, SCALAR_7);
      var usdc := Floor(tokens * w.lpTokenVal.value.1, SCALAR_7);
      if !AboveThreshold(Max(0, blnd), Max(0, usdc)) then Abort(InvalidRewardZoneEntry)
      else if MaxZoneSize(w.now) > |w.rewardZone| then
        Ok(w.(rewardZone := [toAdd] + w.rewardZone))
      else if toRemove !in w.rewardZone then Abort(InvalidRewardZoneEntry)
      else if w.now < ONE_DAY then Abort(ArithmeticError)
      else if w.lastDistribution < w.now - ONE_DAY then Abort(BadRequest)
      else if tokens <= PoolOf(w, toRemove).balance.tokens then Abort(InvalidRewardZoneEntry)
      else Ok(w.(rewardZone := w.rewardZone[FirstIndexOf(w.rewardZone, toRemove) := toAdd]))
  }

  function FirstIndexOf(s: seq<Address>, x: Address): (i: nat)
    requires x in s
    ensures i < |s| && s[i] == x && x !in s[..i]
  {
    if s[0] == x then 0 else 1 + FirstIndexOf(s[1..], x)
  }

  // ----- claims -----

  datatype Settlement = Settlement(pools: map<Address, PoolLedger>, claimed: int, claims: map<Address, int>)

  /** The first loop of execute_claim over the first k listed pools. */
  function SettleAll(pools: map<Address, PoolLedger>, ids: seq<Address>, k: nat, now: nat, from: Address): Outcome<Settlement>
    requires k <= |ids|
    decreases k
  {
    if k == 0 then Ok(Settlement(pools, 0, map[]))
    else
      var s :- SettleAll(pools, ids, k - 1, now, from);
      var (l, amount) :- UpdateEmissions(PoolIn(s.pools, ids[k - 1]), now, from, true);
      Ok(Settlement(Store(s.pools, ids[k - 1], l), s.claimed + amount, s.claims[ids[k - 1] := amount]))
  }

  /** A listed pool's part of the LP tokens bought with the whole claim. */
  function RedepositAmount(claims: map<Address, int>, claimed: int, lpOut: int, pool: Address): Outcome<int>
  {
    if pool !in claims then Abort(ArithmeticError) else DivFloor(lpOut * claims[pool], claimed)
  }

  /** The second loop of execute_claim over the first k listed pools. */
  function RedepositAll(s: Settlement, ids: seq<Address>, k: nat, lpOut: int, to: Address): Outcome<map<Address, PoolLedger>>
    requires k <= |ids|
    decreases k
  {
    if k == 0 then Ok(s.pools)
    else
      var pools :- RedepositAll(s, ids, k - 1, lpOut, to);
      var amount :- RedepositAmount(s.claims, s.claimed, lpOut, ids[k - 1]);
      var l :- Redeposit(PoolIn(pools, ids[k - 1]), to, amount);
      Ok(pools[ids[k - 1] := l])
  }

  function ExecuteClaim(w: World, from: Address, ids: seq<Address>, to: Address, lpOut: nat): Outcome<(World, int)>
  {
    if ids == [] then Abort(BadRequest)
    else
      var s :- SettleAll(w.pools, ids, |ids|, w.now, from);
      if s.claimed > 0 then
        if s.claimed > w.blnd then Abort(TransferFailed)
        else
          var pools :- RedepositAll(s, ids, |ids|, lpOut, to);
          Ok((w.(pools := pools, blnd := w.blnd - s.claimed, lp := w.lp + lpOut), s.claimed))
      else
        Ok((w.(pools := s.pools), s.claimed))
  }

  // ----- runs -----

  function PullAllowance(w: World, pool: Address, amount: int, to: Address): Outcome<World>
  {
    if amount < 0 || amount > AllowanceOf(w, pool) || amount > w.blnd then Abort(TransferFailed)
    else Ok(w.(allowances := w.allowances[pool := AllowanceOf(w, pool) - amount],
               blnd := if to == w.self then w.blnd else w.blnd - amount))
  }

  function Step(w: World, a: Action): Outcome<World>
  {
    match a
    case Tick(seconds) => Ok(w.(now := w.now + seconds))
    case EmitterDistributes => ExecuteDistribute(w)
    case GulpEmissions => ExecuteGulp(w)
    case GulpPoolEmissions(pool) => ExecuteGulpPool(w, pool)
    case AddReward(toAdd, toRemove) => AddToRewardZone(w, toAdd, toRemove)
    case DepositTokens(from, pool, amount) =>
      var (v, _) :- ExecuteDeposit(w, from, pool, amount); Ok(v)
    case QueueForExit(from, pool, amount) => ExecuteQueue(w, from, pool, amount)
    case CancelQueued(from, pool, amount) => ExecuteDequeue(w, from, pool, amount)
    case WithdrawShares(from, pool, amount) =>
      var (v, _) :- ExecuteWithdraw(w, from, pool, amount); Ok(v)
    case DrawTokens(pool, amount, to) => ExecuteDraw(w, pool, amount, to)
    case DonateTokens(from, pool, amount) => ExecuteDonate(w, from, pool, amount)
    case Claim(from, ids, to, lpOut) =>
      var (v, _) :- ExecuteClaim(w, from, ids, to, lpOut); Ok(v)
    case PoolPulls(pool, amount, to) => PullAllowance(w, pool, amount, to)
    case AllowanceExpires(pool) => Ok(w.(allowances := w.allowances[pool := 0]))
    case TokensArrive(moreBlnd, moreLp) => Ok(w.(blnd := w.blnd + moreBlnd, lp := w.lp + moreLp))
    case TokenValueMoves(blndPerToken, usdcPerToken) => Ok(w.(lpTokenVal := Some((blndPerToken, usdcPerToken))))
  }

  /** An aborted call changes nothing. */
  function After(w: World, a: Action): World
  {
    if Step(w, a).Ok? then Step(w, a).value else w
  }

  function Run(w: World, actions: seq<Action>): World
    decreases |actions|
  {
    if actions == [] then w else Run(After(w, actions[0]), actions[1..])
  }

  // ----- what a world promises -----

  ghost function TokensBy(pools: map<Address, PoolLedger>): map<Address, int>
  {
    map p | p in pools :: pools[p].balance.tokens
  }

  /** SCALAR_7 times the BLND one pool may still call for: its own unclaimed emissions and its depositors'. */
  ghost function Liability(l: PoolLedger): int
  {
    Scaled(l.poolEmissions) + Obligation(l)
  }

  ghost function LiabilityBy(pools: map<Address, PoolLedger>): map<Address, int>
  {
    map p | p in pools :: Liability(pools[p])
  }

  ghost function TokenTotal(pools: map<Address, PoolLedger>): int
  {
    Total(TokensBy(pools))
  }

  ghost function LiabilityTotal(pools: map<Address, PoolLedger>): int
  {
    Total(LiabilityBy(pools))
  }

  ghost predicate LedgersOk(pools: map<Address, PoolLedger>, now: nat)
  {
    forall p :: p in pools ==> LedgerOk(pools[p], now)
  }

  ghost predicate ZoneOk(zone: seq<Address>, now: nat)
  {
    && (forall i, j :: 0 <= i < j < |zone| ==> zone[i] != zone[j])
    && |zone| <= MaxZoneSize(now)
  }

  /** Every pool record agrees with its users, and the LP tokens held cover all pools. */
  ghost predicate WorldOk(w: World)
  {
    && LedgersOk(w.pools, w.now)
    && w.lastDistribution <= w.emitterLast <= w.now
    && (forall p :: p in w.allowances ==> w.allowances[p] >= 0)
    && ZoneOk(w.rewardZone, w.now)
    && w.lp >= TokenTotal(w.pools)
  }

  /** The BLND held covers undistributed emitter time, pool allowances, and all that pools,
      streams and users may still claim. */
  ghost predicate BlndSolvent(w: World)
  {
    Scaled(NewEmissions(w) + Total(w.allowances)) + LiabilityTotal(w.pools) <= Scaled(w.blnd)
  }

  /** A freshly initialised backstop: the emitter's clock has just been read. */
  ghost predicate IsGenesis(w: World)
  {
    && w.pools == map[] && w.rewardZone == [] && w.allowances == map[]
    && w.lastDistribution == w.emitterLast <= w.now
    && w.blnd >= 0 && w.lp >= 0
  }
}
