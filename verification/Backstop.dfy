/** The backstop contract as it runs: storage read and overwritten step by step, every entry point
    rolled back as a whole when it aborts. Each method is proved against its transition. */
module BackstopContract {
  import opened Outcomes
  import opened FixedPoint
  import opened Totals
  import opened UserBalances
  import opened PoolBalances
  import opened BackstopLedger
  import opened BackstopLedgerProofs
  import opened BackstopWorld

  lemma OverwriteTwice(a: map<Address, PoolLedger>, pool: Address, l: PoolLedger, m: PoolLedger)
    ensures a[pool := l][pool := m] == a[pool := m] && Store(a, pool, l)[pool := m] == a[pool := m]
    ensures pool in a ==> Store(a, pool, l) == a[pool := l] && Store(Store(a, pool, l), pool, m) == Store(a, pool, m)
  {}

  /** Once one pool's balance aborts the first loop, the loop aborts. */
  lemma {:induction false} TotalStopsAt(balances: seq<PoolHolding>, k: nat, n: nat)
    requires k <= n <= |balances| && TotalNonQueued(balances, k).Abort?
    ensures TotalNonQueued(balances, n) == Abort(TotalNonQueued(balances, k).error)
    decreases n
  {
    hide NonQueuedTokens;
    if k < n { TotalStopsAt(balances, k, n - 1); }
  }

  /** Once one pool aborts the second loop, the loop aborts. */
  lemma {:induction false} GulpStopsAt(pools: map<Address, PoolLedger>, zone: seq<Address>, balances: seq<PoolHolding>, k: nat, n: nat, now: nat,
                                       total: int, toPools: int, toBackstop: int)
    requires k <= n <= |zone| == |balances| && GulpLoop(pools, zone, balances, k, now, total, toPools, toBackstop).Abort?
    ensures GulpLoop(pools, zone, balances, n, now, total, toPools, toBackstop)
         == Abort(GulpLoop(pools, zone, balances, k, now, total, toPools, toBackstop).error)
    decreases n
  {
    hide GulpOne;
    hide ZoneShare;
    if k < n { GulpStopsAt(pools, zone, balances, k, n - 1, now, total, toPools, toBackstop); }
  }

  /** Once one pool aborts the settlement loop, the loop aborts. */
  lemma {:induction false} SettleStopsAt(pools: map<Address, PoolLedger>, ids: seq<Address>, k: nat, n: nat, now: nat, from: Address)
    requires k <= n <= |ids| && SettleAll(pools, ids, k, now, from).Abort?
    ensures SettleAll(pools, ids, n, now, from) == Abort(SettleAll(pools, ids, k, now, from).error)
    decreases n
  {
    hide UpdateEmissions;
    if k < n { SettleStopsAt(pools, ids, k, n - 1, now, from); }
  }

  /** Once one pool aborts the re-deposit loop, the loop aborts. */
  lemma {:induction false} RedepositStopsAt(s: Settlement, ids: seq<Address>, k: nat, n: nat, lpOut: int, to: Address)
    requires k <= n <= |ids| && RedepositAll(s, ids, k, lpOut, to).Abort?
    ensures RedepositAll(s, ids, n, lpOut, to) == Abort(RedepositAll(s, ids, k, lpOut, to).error)
    decreases n
  {
    hide Redeposit;
    hide RedepositAmount;
    if k < n { RedepositStopsAt(s, ids, k, n - 1, lpOut, to); }
  }

  /** Starting a stream writes only the stream and the index. */
  lemma ConfigKeepsRest(p: PoolLedger, now: nat, newTokens: int)
    requires SetEmissionConfig(p, now, newTokens).Ok?
    ensures var q := SetEmissionConfig(p, now, newTokens).value;
      q == p.(config := q.config, data := q.data)
  {}

  class Backstop {
    const self: Address
    const deployed: set<Address>
    // storage
    var pools: map<Address, PoolLedger>
    var rewardZone: seq<Address>
    var lastDistribution: nat
    var lpTokenVal: Option<(nat, nat)>
    // ledger, emitter and token contracts
    var now: nat
    var emitterLast: nat
    var blnd: int
    var lp: int
    var allowances: map<Address, int>

    function View(): World
      reads this
    {
      World(self, deployed, now, pools, rewardZone, lastDistribution, lpTokenVal, emitterLast, blnd, lp, allowances)
    }

    constructor (w: World)
      ensures View() == w
    {
      self, deployed := w.self, w.deployed;
      pools, rewardZone, lastDistribution, lpTokenVal := w.pools, w.rewardZone, w.lastDistribution, w.lpTokenVal;
      now, emitterLast, blnd, lp, allowances := w.now, w.emitterLast, w.blnd, w.lp, w.allowances;
    }

    // ----- storage access -----

    function Ledger(pool: Address): PoolLedger
      reads this
    {
      PoolIn(pools, pool)
    }

    method SetLedger(pool: Address, l: PoolLedger)
      modifies this`pools
      ensures pools == old(pools)[pool := l]
    {
      pools := pools[pool := l];
    }

    method SetUserBalance(pool: Address, user: Address, h: Holding)
      modifies this`pools
      ensures pools == old(pools)[pool := SetHolding(old(Ledger(pool)), user, h)]
    {
      SetLedger(pool, SetHolding(Ledger(pool), user, h));
    }

    method SetPoolBalance(pool: Address, b: PoolHolding)
      modifies this`pools
      ensures pools == old(pools)[pool := old(Ledger(pool)).(balance := b)]
    {
      SetLedger(pool, Ledger(pool).(balance := b));
    }

    method StoreBalances(pool: Address, b: PoolHolding, user: Address, h: Holding)
      modifies this`pools
      ensures pools == old(pools)[pool := SetHolding(old(Ledger(pool)).(balance := b), user, h)]
    {
      SetPoolBalance(pool, b);
      SetUserBalance(pool, user, h);
    }

    method SetUserEmission(pool: Address, user: Address, record: UserEmission)
      modifies this`pools
      ensures pools == old(pools)[pool := SetAccount(old(Ledger(pool)), user, AccountOf(old(Ledger(pool)), user).(emission := Some(record)))]
    {
      var l := Ledger(pool);
      SetLedger(pool, SetAccount(l, user, AccountOf(l, user).(emission := Some(record))));
    }

    // ----- emission updates -----

    /** Advance the pool's index to the current time and store it if it moved. */
    method UpdateEmissionDataWithConfig(pool: Address, balance: PoolHolding, config: EmissionConfig)
      returns (r: Outcome<EmissionData>)
      requires Ledger(pool).config == Some(config) && Ledger(pool).balance == balance
      modifies this`pools
      ensures var spec := UpdateEmissionData(old(Ledger(pool)), now);
        match r
        case Ok(data) => spec.Ok? && pools == Store(old(pools), pool, spec.value) && Some(data) == spec.value.data
        case Abort(e) => spec == Abort(e)
    {
      var stored := Ledger(pool).data;
      if stored.None? {
        return Abort(ArithmeticError);
      }
      var data := stored.value;
      if data.lastTime >= config.expiration || now == data.lastTime || config.eps == 0 || balance.shares == 0 {
        return Ok(data);
      }
      var maxTimestamp := now;
      if now > config.expiration {
        maxTimestamp := config.expiration;
      }
      var unqueued := balance.shares - balance.q4w;
      if unqueued < 0 {
        return Abort(NegativeAmount);
      }
      if maxTimestamp < data.lastTime {
        return Abort(ArithmeticError);
      }
      var additional := DivFloor((maxTimestamp - data.lastTime) * config.eps * SCALAR_7, unqueued);
      if additional.Abort? {
        return Abort(additional.error);
      }
      var newData := EmissionData(additional.value + data.index, now);
      SetLedger(pool, Ledger(pool).(data := Some(newData)));
      return Ok(newData);
    }

    /** Store a settled record; pays the accrued amount out instead of storing it when claiming. */
    method SetUserEmissions(pool: Address, user: Address, index: int, accrued: int, toClaim: bool) returns (paid: int)
      modifies this`pools
      ensures var (a, amount) := WithRecord(AccountOf(old(Ledger(pool)), user), index, accrued, toClaim);
        pools == old(pools)[pool := SetAccount(old(Ledger(pool)), user, a)] && paid == amount
    {
      if toClaim {
        SetUserEmission(pool, user, UserEmission(index, 0));
        return accrued;
      }
      SetUserEmission(pool, user, UserEmission(index, accrued));
      return 0;
    }

    /** Settle a user at the index just stored. */
    method UpdateUserEmissions(pool: Address, user: Address, data: EmissionData, balance: Holding, toClaim: bool)
      returns (r: Outcome<int>)
      requires Ledger(pool).data == Some(data) && AccountOf(Ledger(pool), user).holding == balance
      modifies this`pools
      ensures var spec := BackstopLedger.UpdateUserEmissions(old(Ledger(pool)), user, toClaim);
        match r
        case Ok(paid) => spec.Ok? && pools == Store(old(pools), pool, spec.value.0) && paid == spec.value.1
        case Abort(e) => spec == Abort(e)
    {
      var stored := AccountOf(Ledger(pool), user).emission;
      if stored.Some? {
        var record := stored.value;
        if record.index != data.index || toClaim {
          var accrual := record.accrued;
          if balance.shares != 0 {
            var deltaIndex := data.index - record.index;
            if deltaIndex < 0 {
              return Abort(NegativeAmount);
            }
            accrual := accrual + Floor(balance.shares * deltaIndex, SCALAR_7);
          }
          var paid := SetUserEmissions(pool, user, data.index, accrual, toClaim);
          return Ok(paid);
        }
        // nothing accrued and nothing claimed: writing the record back would not change it
        assert Ledger(pool).accounts[user := AccountOf(Ledger(pool), user)] == Ledger(pool).accounts;
        return Ok(0);
      } else if balance.shares == 0 {
        var paid := SetUserEmissions(pool, user, data.index, 0, toClaim);
        return Ok(paid);
      } else {
        var toAccrue := Floor(balance.shares * data.index, SCALAR_7);
        var paid := SetUserEmissions(pool, user, data.index, toAccrue, toClaim);
        return Ok(paid);
      }
    }

    /** Both updates (update_emissions and claim_emissions). */
    method UpdateEmissionsOf(pool: Address, poolBalance: PoolHolding, user: Address, userBalance: Holding, toClaim: bool)
      returns (r: Outcome<int>)
      requires Ledger(pool).balance == poolBalance && AccountOf(Ledger(pool), user).holding == userBalance
      modifies this`pools
      ensures var spec := UpdateEmissions(old(Ledger(pool)), now, user, toClaim);
        match r
        case Ok(paid) => spec.Ok? && pools == Store(old(pools), pool, spec.value.0) && paid == spec.value.1
        case Abort(e) => spec == Abort(e)
    {
      var config := Ledger(pool).config;
      if config.None? {
        return Ok(0);
      }
      var data := UpdateEmissionDataWithConfig(pool, poolBalance, config.value);
      if data.Abort? {
        return Abort(data.error);
      }
      r := UpdateUserEmissions(pool, user, data.value, userBalance, toClaim);
    }

    // ----- deposits and withdrawals -----

    method Deposit(from: Address, pool: Address, amount: int) returns (r: Outcome<int>)
      modifies this
      ensures match ExecuteDeposit(old(View()), from, pool, amount)
        case Ok((w, minted)) => r == Ok(minted) && View() == w
        case Abort(e) => r == Abort(e) && View() == old(View())
    {
      hide ConvertToShares;
      hide UpdateEmissions;
      if amount < 0 {
        return Abort(NegativeAmount);
      }
      if from == pool || from == self {
        return Abort(BadRequest);
      }
      var poolBalance := new PoolBalance(Ledger(pool).balance);
      if poolBalance.shares == 0 && pool !in deployed {
        return Abort(NotPool);
      }
      var userBalance := new UserBalance(AccountOf(Ledger(pool), from).holding);
      var saved := pools;
      var updated := UpdateEmissionsOf(pool, poolBalance.Value(), from, userBalance.Value(), false);
      if updated.Abort? {
        pools := saved;
        return Abort(updated.error);
      }
      UpdateKeepsHoldings(old(Ledger(pool)), now, from, false);
      lp := lp + amount;
      var toMint := ConvertToShares(poolBalance.Value(), amount);
      if toMint.Abort? || toMint.value == 0 {
        pools, lp := saved, lp - amount;
        return Abort(if toMint.Abort? then toMint.error else InvalidShareMintAmount);
      }
      poolBalance.Deposit(amount, toMint.value);
      userBalance.AddSharesTo(toMint.value);
      StoreBalances(pool, poolBalance.Value(), from, userBalance.Value());
      return Ok(toMint.value);
    }

    method QueueWithdrawal(from: Address, pool: Address, amount: int) returns (r: Outcome<Q4W>)
      modifies this
      ensures match ExecuteQueue(old(View()), from, pool, amount)
        case Ok(w) => r == Ok(Q4W(amount, now + Q4W_LOCK_TIME)) && View() == w
        case Abort(e) => r == Abort(e) && View() == old(View())
    {
      hide UpdateEmissions;
      if amount < 0 {
        return Abort(NegativeAmount);
      }
      var poolBalance := new PoolBalance(Ledger(pool).balance);
      var userBalance := new UserBalance(AccountOf(Ledger(pool), from).holding);
      var saved := pools;
      var updated := UpdateEmissionsOf(pool, poolBalance.Value(), from, userBalance.Value(), false);
      if updated.Abort? {
        pools := saved;
        return Abort(updated.error);
      }
      UpdateKeepsHoldings(old(Ledger(pool)), now, from, false);
      var queued := userBalance.QueueSharesForWithdrawal(now, amount);
      if queued.Abort? {
        pools := saved;
        return Abort(queued.error);
      }
      poolBalance.Queue(amount);
      StoreBalances(pool, poolBalance.Value(), from, userBalance.Value());
      return Ok(userBalance.q4w[|userBalance.q4w| - 1]);
    }

    method DequeueWithdrawal(from: Address, pool: Address, amount: int) returns (r: Outcome<()>)
      modifies this
      ensures match ExecuteDequeue(old(View()), from, pool, amount)
        case Ok(w) => r == Ok(()) && View() == w
        case Abort(e) => r == Abort(e) && View() == old(View())
    {
      hide UpdateEmissions;
      hide DequeueShares;
      if amount < 0 {
        return Abort(NegativeAmount);
      }
      var poolBalance := new PoolBalance(Ledger(pool).balance);
      var userBalance := new UserBalance(AccountOf(Ledger(pool), from).holding);
      var saved := pools;
      var updated := UpdateEmissionsOf(pool, poolBalance.Value(), from, userBalance.Value(), false);
      if updated.Abort? {
        pools := saved;
        return Abort(updated.error);
      }
      UpdateKeepsHoldings(old(Ledger(pool)), now, from, false);
      var dequeued := userBalance.DequeueSharesForWithdrawal(now, amount, false);
      if dequeued.Abort? {
        pools := saved;
        return Abort(dequeued.error);
      }
      userBalance.AddSharesTo(amount);
      var taken := poolBalance.Dequeue(amount);
      if taken.Abort? {
        pools := saved;
        return Abort(taken.error);
      }
      StoreBalances(pool, poolBalance.Value(), from, userBalance.Value());
      return Ok(());
    }

    method Withdraw(from: Address, pool: Address, amount: int) returns (r: Outcome<int>)
      modifies this
      ensures match ExecuteWithdraw(old(View()), from, pool, amount)
        case Ok((w, out)) => r == Ok(out) && View() == w
        case Abort(e) => r == Abort(e) && View() == old(View())
    {
      hide DequeueShares;
      if amount < 0 {
        return Abort(NegativeAmount);
      }
      var poolBalance := new PoolBalance(Ledger(pool).balance);
      var userBalance := new UserBalance(AccountOf(Ledger(pool), from).holding);
      var dequeued := userBalance.DequeueSharesForWithdrawal(now, amount, true);
      if dequeued.Abort? {
        return Abort(dequeued.error);
      }
      var toReturn := ConvertToTokens(poolBalance.Value(), amount);
      if toReturn.Abort? || toReturn.value == 0 {
        return Abort(if toReturn.Abort? then toReturn.error else InvalidTokenWithdrawAmount);
      }
      var taken := poolBalance.Withdraw(toReturn.value, amount);
      if taken.Abort? {
        return Abort(taken.error);
      }
      var saved := pools;
      StoreBalances(pool, poolBalance.Value(), from, userBalance.Value());
      var sent := TransferLp(from, toReturn.value);
      if sent.Abort? {
        pools := saved;
        return Abort(sent.error);
      }
      return Ok(toReturn.value);
    }

    /** The LP token's transfer out of the contract. */
    method TransferLp(to: Address, amount: int) returns (r: Outcome<()>)
      modifies this`lp
      ensures match SendLp(old(View()), to, amount)
        case Ok(w) => r == Ok(()) && View() == w
        case Abort(e) => r == Abort(e) && View() == old(View())
    {
      if amount < 0 || amount > lp {
        return Abort(TransferFailed);
      }
      if to != self {
        lp := lp - amount;
      }
      return Ok(());
    }

    method Draw(pool: Address, amount: int, to: Address) returns (r: Outcome<()>)
      modifies this
      ensures match ExecuteDraw(old(View()), pool, amount, to)
        case Ok(w) => r == Ok(()) && View() == w
        case Abort(e) => r == Abort(e) && View() == old(View())
    {
      if amount < 0 {
        return Abort(NegativeAmount);
      }
      var poolBalance := new PoolBalance(Ledger(pool).balance);
      var taken := poolBalance.Withdraw(amount, 0);
      if taken.Abort? {
        return Abort(taken.error);
      }
      var saved := pools;
      SetPoolBalance(pool, poolBalance.Value());
      r := TransferLp(to, amount);
      if r.Abort? {
        pools := saved;
      }
    }

    method Donate(from: Address, pool: Address, amount: int) returns (r: Outcome<()>)
      modifies this
      ensures match ExecuteDonate(old(View()), from, pool, amount)
        case Ok(w) => r == Ok(()) && View() == w
        case Abort(e) => r == Abort(e) && View() == old(View())
    {
      if amount < 0 {
        return Abort(NegativeAmount);
      }
      if from == pool || from == self {
        return Abort(BadRequest);
      }
      var poolBalance := new PoolBalance(Ledger(pool).balance);
      if poolBalance.shares == 0 && pool !in deployed {
        return Abort(NotPool);
      }
      lp := lp + amount;
      poolBalance.Deposit(amount, 0);
      SetPoolBalance(pool, poolBalance.Value());
      return Ok(());
    }

    // ----- the reward zone -----

    /** Give the pool's depositors a new stream on top of what the old one has left. */
    method SetBackstopEmissionConfig(pool: Address, poolBalance: PoolHolding, newTokens: int) returns (r: Outcome<()>)
      requires Ledger(pool).balance == poolBalance
      modifies this`pools
      ensures var spec := SetEmissionConfig(old(Ledger(pool)), now, newTokens);
        match r
        case Ok(_) => spec.Ok? && pools == old(pools)[pool := spec.value]
        case Abort(e) => spec == Abort(e)
    {
      hide UpdateEmissionData;
      ghost var saved := pools;
      var tokensLeftToEmit := newTokens;
      var stored := Ledger(pool).config;
      if stored.Some? {
        var config := stored.value;
        var updated := UpdateEmissionDataWithConfig(pool, poolBalance, config);
        if updated.Abort? {
          return Abort(updated.error);
        }
        var data := updated.value;
        if data.lastTime != now {
          data := data.(lastTime := now);
          SetLedger(pool, Ledger(pool).(data := Some(data)));
        }
        if config.expiration > now {
          tokensLeftToEmit := tokensLeftToEmit + config.eps * (config.expiration - now);
        }
      } else {
        SetLedger(pool, Ledger(pool).(data := Some(EmissionData(0, now))));
      }
      // the cast to an unsigned rate rejects a negative quotient, which truncates towards zero
      var eps := if tokensLeftToEmit >= 0 then Floor(tokensLeftToEmit, EMISSION_WINDOW) else Ceil(tokensLeftToEmit, EMISSION_WINDOW);
      if eps < 0 {
        return Abort(ArithmeticError);
      }
      SetLedger(pool, Ledger(pool).(config := Some(EmissionConfig(now + EMISSION_WINDOW, eps))));
      return Ok(());
    }

    method GulpPoolEmissions(pool: Address) returns (r: Outcome<int>)
      modifies this
      ensures match ExecuteGulpPool(old(View()), pool)
        case Ok(w) => r == Ok(old(Ledger(pool)).poolEmissions) && View() == w
        case Abort(e) => r == Abort(e) && View() == old(View())
    {
      var poolEmissions := Ledger(pool).poolEmissions;
      if poolEmissions == 0 {
        return Abort(BadRequest);
      }
      var currentAllowance := AllowanceOf(View(), pool);
      allowances := allowances[pool := currentAllowance + poolEmissions];
      SetLedger(pool, Ledger(pool).(poolEmissions := 0));
      return Ok(poolEmissions);
    }

    method AddReward(toAdd: Address, toRemove: Address) returns (r: Outcome<()>)
      modifies this
      ensures match AddToRewardZone(old(View()), toAdd, toRemove)
        case Ok(w) => r == Ok(()) && View() == w
        case Abort(e) => r == Abort(e) && View() == old(View())
    {
      var maxZoneLen := MaxZoneSize(now);
      if toAdd in rewardZone {
        return Abort(BadRequest);
      }
      if lpTokenVal.None? {
        return Abort(ArithmeticError);
      }
      var tokens := Ledger(toAdd).balance.tokens;
      var blndValue := Floor(tokens * lpTokenVal.value.0, SCALAR_7);
      var usdcValue := Floor(tokens * lpTokenVal.value.1, SCALAR_7);
      if !AboveThreshold(Max(0, blndValue), Max(0, usdcValue)) {
        return Abort(InvalidRewardZoneEntry);
      }
      if maxZoneLen > |rewardZone| {
        rewardZone := [toAdd] + rewardZone;
      } else {
        if toRemove !in rewardZone {
          return Abort(InvalidRewardZoneEntry);
        }
        var index := FirstIndexOf(rewardZone, toRemove);
        if now < ONE_DAY {
          return Abort(ArithmeticError);
        }
        if lastDistribution < now - ONE_DAY {
          return Abort(BadRequest);
        }
        if tokens <= Ledger(toRemove).balance.tokens {
          return Abort(InvalidRewardZoneEntry);
        }
        rewardZone := rewardZone[index := toAdd];
      }
      return Ok(());
    }

    /** First loop of gulp_emissions: the zone's balances and their tokens outside the queues. */
    method CollectZone() returns (zoneBalances: seq<PoolHolding>, r: Outcome<int>)
      ensures var balances := ZoneBalances(pools, rewardZone);
        && r == TotalNonQueued(balances, |balances|)
        && (r.Ok? ==> zoneBalances == balances)
    {
      hide NonQueuedTokens;
      zoneBalances := [];
      var totalNonQueuedTokens := 0;
      ghost var balances := ZoneBalances(pools, rewardZone);
      var i := 0;
      while i < |rewardZone|
        invariant 0 <= i <= |rewardZone|
        invariant zoneBalances == balances[..i]
        invariant TotalNonQueued(balances, i) == Ok(totalNonQueuedTokens)
      {
        var poolBalance := Ledger(rewardZone[i]).balance;
        var tokens := NonQueuedTokens(poolBalance);
        if tokens.Abort? {
          TotalStopsAt(balances, i + 1, |balances|);
          return zoneBalances, Abort(tokens.error);
        }
        totalNonQueuedTokens := totalNonQueuedTokens + tokens.value;
        zoneBalances := zoneBalances + [poolBalance];
        i := i + 1;
      }
      return zoneBalances, Ok(totalNonQueuedTokens);
    }

    /** One turn of the second loop. */
    method GulpPool(pool: Address, poolBalance: PoolHolding, share: int, toPools: int, toBackstop: int) returns (r: Outcome<()>)
      requires Ledger(pool).balance == poolBalance
      modifies this`pools
      ensures var spec := GulpOne(old(Ledger(pool)), now, share, toPools, toBackstop);
        match r
        case Ok(_) => spec.Ok? && pools == old(pools)[pool := spec.value] && spec.value.balance == poolBalance
        case Abort(e) => spec == Abort(e)
    {
      hide SetEmissionConfig;
      var newPoolEmissions := Floor(share * toPools, SCALAR_7);
      var l := Ledger(pool).(poolEmissions := Ledger(pool).poolEmissions + newPoolEmissions);
      SetLedger(pool, l);
      var newPoolBackstopTokens := Floor(share * toBackstop, SCALAR_7);
      r := SetBackstopEmissionConfig(pool, poolBalance, newPoolBackstopTokens);
      if r.Ok? {
        ConfigKeepsRest(l, now, newPoolBackstopTokens);
        OverwriteTwice(old(pools), pool, l, Ledger(pool));
      }
    }

    /** Second loop of gulp_emissions. */
    method GulpZone(balances: seq<PoolHolding>, total: int, toPools: int, toBackstop: int) returns (r: Outcome<()>)
      requires balances == ZoneBalances(pools, rewardZone)
      modifies this`pools
      ensures var spec := GulpLoop(old(pools), rewardZone, balances, |balances|, now, total, toPools, toBackstop);
        match r
        case Ok(_) => spec == Ok(pools)
        case Abort(e) => spec == Abort(e)
    {
      hide GulpOne;
      hide ZoneShare;
      ghost var start := pools;
      var left := balances;
      var i := 0;
      while i < |rewardZone|
        invariant 0 <= i <= |rewardZone| == |balances|
        invariant left == balances[i..]
        invariant GulpLoop(start, rewardZone, balances, i, now, total, toPools, toBackstop) == Ok(pools)
        invariant forall p :: Ledger(p).balance == PoolIn(start, p).balance
      {
        var pool, cur := rewardZone[i], left[0];
        left := left[1..];
        var share := ZoneShare(cur, total);
        if share.Abort? {
          GulpStopsAt(start, rewardZone, balances, i + 1, |balances|, now, total, toPools, toBackstop);
          return Abort(share.error);
        }
        r := GulpPool(pool, cur, share.value, toPools, toBackstop);
        if r.Abort? {
          GulpStopsAt(start, rewardZone, balances, i + 1, |balances|, now, total, toPools, toBackstop);
          return;
        }
        i := i + 1;
      }
      return Ok(());
    }

    /** Hand the emitter's new emissions to the reward zone. */
    method GulpEmissions() returns (r: Outcome<int>)
      modifies this
      ensures match ExecuteGulp(old(View()))
        case Ok(w) => r == Ok(NewEmissions(old(View()))) && View() == w
        case Abort(e) => r == Abort(e) && View() == old(View())
    {
      hide GulpLoop;
      hide TotalNonQueued;
      if rewardZone == [] {
        return Abort(BadRequest);
      }
      if emitterLast <= lastDistribution + GULP_INTERVAL {
        return Abort(BadRequest);
      }
      var savedPools, savedLast := pools, lastDistribution;
      var newEmissions := (emitterLast - lastDistribution) * SCALAR_7;
      lastDistribution := emitterLast;
      var totalBackstopEmissions := Floor(newEmissions * BACKSTOP_SHARE, SCALAR_7);
      var totalPoolEmissions := Floor(newEmissions * POOL_SHARE, SCALAR_7);
      var zoneBalances, total := CollectZone();
      if total.Abort? {
        lastDistribution := savedLast;
        return Abort(total.error);
      }
      var done := GulpZone(zoneBalances, total.value, totalPoolEmissions, totalBackstopEmissions);
      if done.Abort? {
        pools, lastDistribution := savedPools, savedLast;
        return Abort(done.error);
      }
      return Ok(newEmissions);
    }

    // ----- claims -----

    /** First loop of execute_claim: settle the claimant in every listed pool. */
    method SettleListed(from: Address, ids: seq<Address>) returns (claimed: int, claims: map<Address, int>, r: Outcome<()>)
      modifies this`pools
      ensures var spec := SettleAll(old(pools), ids, |ids|, now, from);
        match r
        case Ok(_) => spec == Ok(Settlement(pools, claimed, claims))
        case Abort(e) => spec == Abort(e)
    {
      hide UpdateEmissions;
      ghost var start := pools;
      claimed, claims := 0, map[];
      var i := 0;
      while i < |ids|
        invariant 0 <= i <= |ids|
        invariant SettleAll(start, ids, i, now, from) == Ok(Settlement(pools, claimed, claims))
      {
        var pool := ids[i];
        var amount := UpdateEmissionsOf(pool, Ledger(pool).balance, from, AccountOf(Ledger(pool), from).holding, true);
        if amount.Abort? {
          SettleStopsAt(start, ids, i + 1, |ids|, now, from);
          r := Abort(amount.error);
          return;
        }
        claimed := claimed + amount.value;
        claims := claims[pool := amount.value];
        i := i + 1;
      }
      r := Ok(());
    }

    /** Second loop of execute_claim: re-deposit the LP tokens pro rata for the recipient. */
    method RedepositListed(ids: seq<Address>, claimed: int, claims: map<Address, int>, lpOut: nat, to: Address) returns (r: Outcome<()>)
      modifies this`pools
      ensures var spec := RedepositAll(Settlement(old(pools), claimed, claims), ids, |ids|, lpOut, to);
        match r
        case Ok(_) => spec == Ok(pools)
        case Abort(e) => spec == Abort(e)
    {
      hide RedepositAmount;
      hide ConvertToShares;
      ghost var s := Settlement(pools, claimed, claims);
      var i := 0;
      while i < |ids|
        invariant 0 <= i <= |ids|
        invariant RedepositAll(s, ids, i, lpOut, to) == Ok(pools)
      {
        var pool := ids[i];
        var depositAmount := RedepositAmount(claims, claimed, lpOut, pool);
        if depositAmount.Abort? {
          RedepositStopsAt(s, ids, i + 1, |ids|, lpOut, to);
          return Abort(depositAmount.error);
        }
        var poolBalance := new PoolBalance(Ledger(pool).balance);
        var userBalance := new UserBalance(AccountOf(Ledger(pool), to).holding);
        var toMint := ConvertToShares(poolBalance.Value(), depositAmount.value);
        if toMint.Abort? {
          RedepositStopsAt(s, ids, i + 1, |ids|, lpOut, to);
          return Abort(toMint.error);
        }
        poolBalance.Deposit(depositAmount.value, toMint.value);
        userBalance.AddSharesTo(toMint.value);
        StoreBalances(pool, poolBalance.Value(), to, userBalance.Value());
        i := i + 1;
      }
      return Ok(());
    }

    /** Claim a user's emissions from the listed pools; `lpOut` is what the LP pool mints for them. */
    method Claim(from: Address, ids: seq<Address>, to: Address, lpOut: nat) returns (r: Outcome<int>)
      modifies this
      ensures match ExecuteClaim(old(View()), from, ids, to, lpOut)
        case Ok((w, claimed)) => r == Ok(claimed) && View() == w
        case Abort(e) => r == Abort(e) && View() == old(View())
    {
      hide SettleAll;
      hide RedepositAll;
      if ids == [] {
        return Abort(BadRequest);
      }
      var saved := pools;
      var claimed, claims, settled := SettleListed(from, ids);
      if settled.Abort? {
        pools := saved;
        return Abort(settled.error);
      }
      if claimed > 0 {
        if claimed > blnd {
          pools := saved;
          return Abort(TransferFailed);
        }
        var deposited := RedepositListed(ids, claimed, claims, lpOut, to);
        if deposited.Abort? {
          pools := saved;
          return Abort(deposited.error);
        }
        blnd, lp := blnd - claimed, lp + lpOut;
      }
      return Ok(claimed);
    }
  }
}
