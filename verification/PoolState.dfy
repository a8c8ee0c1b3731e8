/** The stored state of an isolated lending pool, and a submission at work on it: the reserves it has loaded
    and the token movements it has gathered (pool/src/pool/pool.rs, pool/src/pool/actions.rs). */
module PoolStates {
  import opened Outcomes
  import opened Totals
  import opened Interest
  import opened Reserves
  import opened Auctions
  import opened PoolUsers

  datatype Pool = Pool(
    self: Address,
    backstop: Address,
    backstopToken: Address,
    deploymentSeq: nat,                      // health is enforced after this ledger
    now: nat,                                // ledger time
    block: nat,                              // ledger sequence
    status: nat,
    bstopRate: nat,
    resList: seq<Address>,
    configs: map<Address, ReserveConfig>,
    data: map<Address, ReserveData>,
    accounts: map<Address, Positions>,
    interest: Option<AuctionData>,           // the interest auction
    badDebt: Option<AuctionData>,            // the bad debt auction
    liquidations: map<Address, AuctionData>, // user liquidation auctions
    cash: map<Address, int>)                 // underlying tokens the pool holds

  function PositionsOf(p: Pool, user: Address): Positions
  {
    if user in p.accounts then p.accounts[user] else NO_POSITIONS
  }

  /** Tokens the spender is to pay in and the pool to pay out, and the worth of debt written off. The last is
      counted, not stored. */
  datatype Flows = Flows(paid: map<Address, int>, out: map<Address, int>, burned: map<Address, int>)

  function NoFlows(): Flows { Flows(map[], map[], map[]) }

  /** A submission at work: the pool, the reserves loaded so far, and what has been gathered. */
  datatype Batch = Batch(pool: Pool, cache: map<Address, ReserveData>, flows: Flows, checkHealth: bool)

  /** Nothing loaded, nothing gathered. */
  function Idle(p: Pool): Batch { Batch(p, map[], NoFlows(), false) }

  /** Add to what has been gathered of an asset, if there is something to add. */
  function Gather(m: map<Address, int>, asset: Address, amount: Option<int>): map<Address, int>
  {
    if amount.Some? then m[asset := amount.value + Amount(m, asset)] else m
  }

  /** A reserve from the cache, or loaded and accrued to now. */
  function LoadReserve(b: Batch, asset: Address): (r: Outcome<ReserveData>)
    ensures r.Ok? ==> asset in b.pool.configs && asset in b.pool.data
  {
    if asset !in b.pool.configs || asset !in b.pool.data then Abort(ArithmeticError)
    else if asset in b.cache then Ok(b.cache[asset])
    else Load(b.pool.configs[asset], b.pool.bstopRate, b.pool.data[asset], b.pool.now)
  }

  /** The cache once all of some assets are loaded. */
  function LoadAll(b: Batch, assets: set<Address>): Outcome<map<Address, ReserveData>>
  {
    if exists a :: a in assets && LoadReserve(b, a).Abort? then Abort(ArithmeticError)
    else Ok(map a | a in b.cache.Keys + assets :: if a in b.cache then b.cache[a] else LoadReserve(b, a).value)
  }

  /** The reserves as the submission sees them: loaded ones before stored ones. */
  function View(b: Batch): map<Address, ReserveData>
  {
    b.pool.data + b.cache
  }
}
