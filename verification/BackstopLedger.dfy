/** One pool's backstop records and the lazy emission index over them
    (backstop/src/emissions/distributor.rs, backstop/src/emissions/manager.rs). */
module BackstopLedger {
  import opened Outcomes
  import opened FixedPoint
  import opened Totals
  import opened UserBalances
  import opened PoolBalances

  const EMISSION_WINDOW: nat := 7 * 24 * 60 * 60

  datatype EmissionConfig = EmissionConfig(expiration: nat, eps: int)
  datatype EmissionData = EmissionData(index: int, lastTime: nat)
  datatype UserEmission = UserEmission(index: int, accrued: int)

  /** Everything stored for one user of one pool; a missing record is `NO_ACCOUNT`. */
  datatype Account = Account(holding: Holding, emission: Option<UserEmission>)

  const NO_ACCOUNT := Account(EMPTY_HOLDING, None)

  /** Everything the backstop stores for one pool; a missing record is `NO_LEDGER`. */
  datatype PoolLedger = PoolLedger(
    balance: PoolHolding,
    accounts: map<Address, Account>,
    config: Option<EmissionConfig>,
    data: Option<EmissionData>,
    poolEmissions: int)

  const NO_LEDGER := PoolLedger(EMPTY_POOL, map[], None, None, 0)

  function AccountOf(p: PoolLedger, user: Address): Account
  {
    if user in p.accounts then p.accounts[user] else NO_ACCOUNT
  }

  function SetAccount(p: PoolLedger, user: Address, a: Account): PoolLedger
  {
    p.(accounts := p.accounts[user := a])
  }

  function SetHolding(p: PoolLedger, user: Address, h: Holding): PoolLedger
  {
    SetAccount(p, user, AccountOf(p, user).(holding := h))
  }

  // ----- emission transitions -----

  /** Advance the stored index to the time `now` (update_emission_data_with_config). */
  function UpdateEmissionData(p: PoolLedger, now: nat): Outcome<PoolLedger>
    requires p.config.Some?
  {
    var config := p.config.value;
    if p.data.None? then Abort(ArithmeticError)
    else
      var data := p.data.value;
      if data.lastTime >= config.expiration || now == data.lastTime || config.eps == 0 || p.balance.shares == 0 then
        Ok(p)
      else
        var maxTime := if now > config.expiration then config.expiration else now;
        var unqueued := p.balance.shares - p.balance.q4w;
        if unqueued < 0 then Abort(NegativeAmount)
        else if maxTime < data.lastTime then Abort(ArithmeticError)
        else
          var additional :- DivFloor((maxTime - data.lastTime) * config.eps * SCALAR_7, unqueued);
          Ok(p.(data := Some(EmissionData(additional + data.index, now))))
  }

  /** Bring one account's record to `index`; with `claim` the accrued amount is paid out. */
  function SettleAccount(a: Account, index: int, claim: bool): Outcome<(Account, int)>
  {
    match a.emission
    case Some(record) =>
      if record.index != index || claim then
        if a.holding.shares != 0 then
          if index - record.index < 0 then Abort(NegativeAmount)
          else
            var toAccrue := Floor(a.holding.shares * (index - record.index), SCALAR_7);
            Ok(WithRecord(a, index, record.accrued + toAccrue, claim))
        else
          Ok(WithRecord(a, index, record.accrued, claim))
      else
        Ok((a, 0))
    case None =>
      if a.holding.shares == 0 then Ok(WithRecord(a, index, 0, claim))
      else Ok(WithRecord(a, index, Floor(a.holding.shares * index, SCALAR_7), claim))
  }

  function WithRecord(a: Account, index: int, accrued: int, claim: bool): (Account, int)
  {
    if claim then (a.(emission := Some(UserEmission(index, 0))), accrued)
    else (a.(emission := Some(UserEmission(index, accrued))), 0)
  }

  /** Settle one user at the pool's stored index (update_user_emissions). */
  function UpdateUserEmissions(p: PoolLedger, user: Address, claim: bool): Outcome<(PoolLedger, int)>
    requires p.data.Some?
  {
    var (a, paid) :- SettleAccount(AccountOf(p, user), p.data.value.index, claim);
    Ok((SetAccount(p, user, a), paid))
  }

  /** Both updates; nothing happens before the pool's first emissions. */
  function UpdateEmissions(p: PoolLedger, now: nat, user: Address, claim: bool): Outcome<(PoolLedger, int)>
  {
    if p.config.None? then Ok((p, 0))
    else
      var q :- UpdateEmissionData(p, now);
      if q.data.None? then Abort(ArithmeticError)
      else UpdateUserEmissions(q, user, claim)
  }

  /** Start a new seven-day stream of `newTokens` plus what the old stream has not emitted
      (set_backstop_emission_config). */
  function SetEmissionConfig(p: PoolLedger, now: nat, newTokens: int): Outcome<PoolLedger>
  {
    if p.config.Some? then
      var config := p.config.value;
      var q :- UpdateEmissionData(p, now);
      if q.data.None? then Abort(ArithmeticError)
      else
        var left := newTokens + if config.expiration > now then config.eps * (config.expiration - now) else 0;
        StartStream(q.(data := Some(q.data.value.(lastTime := now))), now, left)
    else
      StartStream(p.(data := Some(EmissionData(0, now))), now, newTokens)
  }

  function StartStream(p: PoolLedger, now: nat, tokens: int): Outcome<PoolLedger>
  {
    var eps := if tokens >= 0 then Floor(tokens, EMISSION_WINDOW) else Ceil(tokens, EMISSION_WINDOW);
    if eps < 0 then Abort(ArithmeticError)
    else Ok(p.(config := Some(EmissionConfig(now + EMISSION_WINDOW, eps))))
  }

  // ----- balance transitions, each settling the user first where the contract does -----

  function Deposit(p: PoolLedger, now: nat, user: Address, amount: int): Outcome<(PoolLedger, int)>
  {
    var (q, _) :- UpdateEmissions(p, now, user, false);
    var minted :- ConvertToShares(q.balance, amount);
    if minted == 0 then Abort(InvalidShareMintAmount)
    else Ok((Mint(q, user, amount, minted), minted))
  }

  /** Book `tokens` and the `shares` minted for them. */
  function Mint(p: PoolLedger, user: Address, tokens: int, shares: int): PoolLedger
  {
    SetHolding(p.(balance := AddDeposit(p.balance, tokens, shares)), user,
      AddShares(AccountOf(p, user).holding, shares))
  }

  function QueueWithdrawal(p: PoolLedger, now: nat, user: Address, amount: int): Outcome<PoolLedger>
  {
    var (q, _) :- UpdateEmissions(p, now, user, false);
    var h :- QueueShares(AccountOf(q, user).holding, now, amount);
    Ok(SetHolding(q.(balance := QueueForWithdraw(q.balance, amount)), user, h))
  }

  function DequeueWithdrawal(p: PoolLedger, now: nat, user: Address, amount: int): Outcome<PoolLedger>
  {
    var (q, _) :- UpdateEmissions(p, now, user, false);
    var h :- DequeueShares(AccountOf(q, user).holding, now, amount, false);
    var b :- DequeueQ4W(q.balance, amount);
    Ok(SetHolding(q.(balance := b), user, AddShares(h, amount)))
  }

  function Withdraw(p: PoolLedger, now: nat, user: Address, amount: int): Outcome<(PoolLedger, int)>
  {
    var h :- DequeueShares(AccountOf(p, user).holding, now, amount, true);
    var out :- ConvertToTokens(p.balance, amount);
    if out == 0 then Abort(InvalidTokenWithdrawAmount)
    else
      var b :- TakeOut(p.balance, out, amount);
      Ok((SetHolding(p.(balance := b), user, h), out))
  }

  function Draw(p: PoolLedger, amount: int): Outcome<PoolLedger>
  {
    var b :- TakeOut(p.balance, amount, 0);
    Ok(p.(balance := b))
  }

  function Donate(p: PoolLedger, amount: int): PoolLedger
  {
    p.(balance := AddDeposit(p.balance, amount, 0))
  }

  /** A claim's re-deposit of LP tokens into the pool (second loop of execute_claim). */
  function Redeposit(p: PoolLedger, to: Address, amount: int): Outcome<PoolLedger>
  {
    var minted :- ConvertToShares(p.balance, amount);
    Ok(Mint(p, to, amount, minted))
  }

  // ----- what a ledger promises -----

  function Index(p: PoolLedger): int
  {
    if p.data.Some? then p.data.value.index else 0
  }

  /** A user without a record has been owed emissions since index 0. */
  function UserIndex(a: Account): int
  {
    if a.emission.Some? then a.emission.value.index else 0
  }

  function Accrued(a: Account): int
  {
    if a.emission.Some? then a.emission.value.accrued else 0
  }

  /** Tokens the current stream has yet to put into the index. */
  function RemainingStream(p: PoolLedger): int
  {
    if p.config.None? || p.data.None? then 0
    else StreamLeft(p.config.value.eps, p.config.value.expiration, p.data.value.lastTime)
  }

  function StreamLeft(eps: int, expiration: int, lastTime: int): int
  {
    eps * Max(0, expiration - lastTime)
  }

  /** SCALAR_7 times the emissions owed to a user: accrued plus unsettled index gain. */
  function Owed(a: Account, index: int): int
  {
    Scaled(Accrued(a)) + a.holding.shares * (index - UserIndex(a))
  }

  ghost function SharesBy(m: map<Address, Account>): map<Address, int>
  {
    map u | u in m :: m[u].holding.shares
  }

  ghost function QueuedBy(m: map<Address, Account>): map<Address, int>
  {
    map u | u in m :: Queued(m[u].holding.q4w)
  }

  ghost function OwedBy(m: map<Address, Account>, index: int): map<Address, int>
  {
    map u | u in m :: Owed(m[u], index)
  }

  ghost function ShareTotal(m: map<Address, Account>): int
  {
    Total(SharesBy(m))
  }

  ghost function QueuedTotal(m: map<Address, Account>): int
  {
    Total(QueuedBy(m))
  }

  ghost function OwedTotal(m: map<Address, Account>, index: int): int
  {
    Total(OwedBy(m, index))
  }

  /** SCALAR_7 times everything the pool's backstop emissions may still pay out. */
  ghost function Obligation(p: PoolLedger): int
  {
    Scaled(RemainingStream(p)) + OwedTotal(p.accounts, Index(p))
  }

  /** The shares the pool's stream is spread over. */
  function Unqueued(p: PoolLedger): int
  {
    p.balance.shares - p.balance.q4w
  }

  /** SCALAR_7 times what one emission update may lose to rounding: less than a unit of the index for every
      share, and less than a token for the user. */
  function Rounding(p: PoolLedger): int
  {
    Unqueued(p) + SCALAR_7
  }

  /** What a stream has emitted while the pool has no shares at all: nobody's, once a new stream starts. */
  function Idle(p: PoolLedger, now: nat): int
  {
    if p.config.None? || p.data.None? || p.balance.shares != 0 then 0
    else RemainingStream(p) - StreamLeft(p.config.value.eps, p.config.value.expiration, now)
  }

  /** SCALAR_7 times what starting a new stream may lose: rounding of the index, less than a token for every
      second of the new stream, and what nobody was there to get. */
  function RestartLoss(p: PoolLedger, now: nat): int
  {
    Unqueued(p) + Scaled(EMISSION_WINDOW + Idle(p, now))
  }

  ghost predicate AccountOk(a: Account, index: int, now: nat)
  {
    && HoldingOk(a.holding, now)
    && 0 <= UserIndex(a) <= index
    && Accrued(a) >= 0
  }

  ghost predicate AccountsOk(m: map<Address, Account>, index: int, now: nat)
  {
    forall u :: u in m ==> AccountOk(m[u], index, now)
  }

  /** The pool record is the sum of its users' records. */
  ghost predicate SumsAgree(b: PoolHolding, m: map<Address, Account>)
  {
    && b.q4w == QueuedTotal(m)
    && b.shares == ShareTotal(m) + b.q4w
  }

  ghost predicate StreamOk(config: Option<EmissionConfig>, data: Option<EmissionData>, now: nat)
  {
    && (config.Some? <==> data.Some?)
    && (config.Some? ==> config.value.eps >= 0)
    && (data.Some? ==> data.value.lastTime <= now && data.value.index >= 0)
  }

  ghost predicate NoRecords(m: map<Address, Account>)
  {
    forall u :: u in m ==> m[u].emission.None?
  }

  /** The pool record agrees with its users, and the emission index is well formed. */
  ghost predicate LedgerOk(p: PoolLedger, now: nat)
  {
    && p.balance.tokens >= 0
    && p.poolEmissions >= 0
    && SumsAgree(p.balance, p.accounts)
    && AccountsOk(p.accounts, Index(p), now)
    && StreamOk(p.config, p.data, now)
    && (p.config.None? ==> NoRecords(p.accounts))
  }
}
