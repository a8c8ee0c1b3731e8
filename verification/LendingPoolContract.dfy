/** The lending pool as it runs: the request loop over a cache of loaded reserves, the sender's positions in
    memory, and the transfers gathered on the way (pool/src/pool/{actions,pool,submit,user}.rs,
    pool/src/auctions/{backstop_interest_auction,bad_debt_auction,user_liquidation_auction}.rs). Each method is proved against its transition; an aborted
    submission leaves the storage as it was. */
module LendingPoolContract {
  import opened Outcomes
  import opened FixedPoint
  import opened Totals
  import opened Interest
  import opened Reserves
  import opened Auctions
  import opened PoolUsers
  import opened PoolStates
  import opened Health
  import opened LendingPools
  import opened LendingPoolProofs
  import opened LendingPoolAuctionProofs
  import opened LendingPoolLoops

  /** Once one request aborts, the list aborts. */
  lemma {:induction false} ProcessStopsAt(p: Pool, from: Address, requests: seq<Request>, replies: seq<Reply>, k: nat, n: nat)
    requires k <= n <= |requests| && Process(p, from, requests, replies, k).Abort?
    ensures Process(p, from, requests, replies, n).Abort?
    decreases n
  {
    hide Turn;
    if k < n { ProcessStopsAt(p, from, requests, replies, k, n - 1); }
  }

  /** Once one asset aborts an interest lot, the lot aborts. */
  lemma {:induction false} LotStopsAt(p: Pool, assets: seq<Address>, quote: Quote, k: nat, n: nat)
    requires k <= n <= |assets| && InterestLot(p, assets, quote, k).Abort?
    ensures InterestLot(p, assets, quote, n) == Abort(InterestLot(p, assets, quote, k).error)
    decreases n
  {
    hide Load;
    if k < n { LotStopsAt(p, assets, quote, k, n - 1); }
  }

  /** The cash covers every entry of a lot. */
  ghost predicate CanPay(cash: map<Address, int>, lot: map<Address, int>)
  {
    forall a :: a in lot ==> Amount(cash, a) >= lot[a]
  }

  /** The cache after part of a lot has been handed out. */
  ghost function DrawnOn(b: Batch, lot: map<Address, int>): map<Address, ReserveData>
    requires LoadAll(b, lot.Keys).Ok?
  {
    DrawCredit(LoadAll(b, lot.Keys).value, lot)
  }

  lemma DrawCreditTurn(cache: map<Address, ReserveData>, lot: map<Address, int>, a: Address, r: ReserveData, amount: int)
    requires a !in lot
    ensures DrawCredit(cache[a := r], lot[a := amount])
      == DrawCredit(cache, lot)[a := r.(backstopCredit := r.backstopCredit - amount)]
    ensures (a in DrawCredit(cache, lot) <==> a in cache) && (a in cache ==> DrawCredit(cache, lot)[a] == cache[a])
  {}

  /** One turn of the loop over a lot. */
  lemma DrawTurn(b: Batch, lot: map<Address, int>, a: Address, amount: int)
    requires a !in lot && LoadAll(b, lot.Keys).Ok?
    ensures LoadAll(b, lot[a := amount].Keys).Ok? <==> LoadReserve(b, a).Ok?
    ensures LoadReserve(b, a).Ok? ==>
      var r := LoadReserve(b, a).value;
      DrawnOn(b, lot[a := amount]) == DrawnOn(b, lot)[a := r.(backstopCredit := r.backstopCredit - amount)]
  {
    hide LoadReserve;
    hide LoadAll;
    hide DrawCredit;
    assert lot[a := amount].Keys == lot.Keys + {a};
    LoadAllTurn(b, lot.Keys, a);
    if LoadReserve(b, a).Ok? {
      DrawCreditTurn(LoadAll(b, lot.Keys).value, lot, a, LoadReserve(b, a).value, amount);
    }
  }

  /** An asset the loop has not reached loads as it did before. */
  lemma LoadLater(b: Batch, lot: map<Address, int>, a: Address)
    requires a !in lot && LoadAll(b, lot.Keys).Ok?
    ensures LoadReserve(b.(cache := DrawnOn(b, lot)), a) == LoadReserve(b, a)
  {
    hide Load;
    hide DrawCredit;
    DrawCreditTurn(LoadAll(b, lot.Keys).value, lot, a, NEW_RESERVE, 0);
  }

  lemma HandOutTurn(cash: map<Address, int>, lot: map<Address, int>, a: Address, amount: int)
    requires a !in lot && a in cash
    ensures HandOut(cash, lot)[a := cash[a] - amount] == HandOut(cash, lot[a := amount])
    ensures Amount(HandOut(cash, lot), a) == cash[a]
  {}

  lemma NothingDrawn(b: Batch)
    ensures LoadAll(b, {}).Ok? && DrawnOn(b, map[]) == b.cache && HandOut(b.pool.cash, map[]) == b.pool.cash
  {
    hide LoadReserve;
  }

  lemma HandOutFails(b: Batch, lot: map<Address, int>, a: Address)
    requires a in lot && !(LoadReserve(b, a).Ok? && Amount(b.pool.cash, a) >= lot[a])
    ensures LoadAll(b, lot.Keys).Abort? || !CanPay(b.pool.cash, lot)
  {
    hide LoadReserve;
  }

  lemma NothingToPay(cash: map<Address, int>)
    ensures CanPay(cash, map[])
  {}

  lemma CanPayTurn(cash: map<Address, int>, lot: map<Address, int>, a: Address, amount: int)
    requires CanPay(cash, lot)
    ensures Amount(cash, a) >= amount ==> CanPay(cash, lot[a := amount])
  {}

  /** A request arm did what its transition says to the reserve and the positions. */
  predicate Made(spec: Outcome<Change>, r: Outcome<()>, reserve: ReserveData, positions: Positions)
  {
    match r
    case Ok(_) => spec.Ok? && reserve == spec.value.reserve && positions == spec.value.positions
    case Abort(e) => spec == Abort(e)
  }

  /** And gathered its transfers. */
  predicate Collected(change: Change, asset: Address, paid0: map<Address, int>, out0: map<Address, int>,
                     paid: map<Address, int>, out: map<Address, int>)
  {
    paid == Gather(paid0, asset, change.paid) && out == Gather(out0, asset, change.out)
  }

  /** Transfers to make once the requests are done. */
  class Actions {
    var spenderTransfer: map<Address, int>
    var poolTransfer: map<Address, int>

    constructor ()
      ensures spenderTransfer == map[] && poolTransfer == map[]
    {
      spenderTransfer, poolTransfer := map[], map[];
    }

    method AddForSpenderTransfer(asset: Address, amount: int)
      modifies this`spenderTransfer
      ensures spenderTransfer == Gather(old(spenderTransfer), asset, Some(amount))
    {
      spenderTransfer := spenderTransfer[asset := amount + Amount(spenderTransfer, asset)];
    }

    method AddForPoolTransfer(asset: Address, amount: int)
      modifies this`poolTransfer
      ensures poolTransfer == Gather(old(poolTransfer), asset, Some(amount))
    {
      poolTransfer := poolTransfer[asset := amount + Amount(poolTransfer, asset)];
    }

    // the request arms, on a loaded reserve

    method Supply(user: User, reserve: Reserve, asset: Address, amount: int) returns (r: Outcome<()>)
      modifies this, user, reserve
      ensures Made(PoolUsers.Supply(reserve.config, old(reserve.Value()), old(user.positions), amount), r, reserve.Value(), user.positions)
      ensures r.Ok? ==> Collected(PoolUsers.Supply(reserve.config, old(reserve.Value()), old(user.positions), amount).value, asset,
        old(spenderTransfer), old(poolTransfer), spenderTransfer, poolTransfer)
    {
      hide Floor;
      var minted :- BTokenDown(reserve.Value(), amount);
      var _ :- user.AddSupply(reserve, minted);
      AddForSpenderTransfer(asset, amount);
      return Ok(());
    }

    method SupplyCollateral(user: User, reserve: Reserve, asset: Address, amount: int) returns (r: Outcome<()>)
      modifies this, user, reserve
      ensures Made(PoolUsers.SupplyCollateral(reserve.config, old(reserve.Value()), old(user.positions), amount), r, reserve.Value(), user.positions)
      ensures r.Ok? ==> Collected(PoolUsers.SupplyCollateral(reserve.config, old(reserve.Value()), old(user.positions), amount).value, asset,
        old(spenderTransfer), old(poolTransfer), spenderTransfer, poolTransfer)
    {
      hide Floor;
      var minted :- BTokenDown(reserve.Value(), amount);
      var _ :- user.AddCollateral(reserve, minted);
      AddForSpenderTransfer(asset, amount);
      return Ok(());
    }

    method Withdraw(user: User, reserve: Reserve, asset: Address, amount: int) returns (r: Outcome<()>)
      modifies this, user, reserve
      ensures Made(PoolUsers.Withdraw(reserve.config, old(reserve.Value()), old(user.positions), amount), r, reserve.Value(), user.positions)
      ensures r.Ok? ==> Collected(PoolUsers.Withdraw(reserve.config, old(reserve.Value()), old(user.positions), amount).value, asset,
        old(spenderTransfer), old(poolTransfer), spenderTransfer, poolTransfer)
    {
      hide Floor;
      hide Ceil;
      var curBTokens := Amount(user.positions.supply, reserve.config.index);
      var toBurn :- BTokenUp(reserve.Value(), amount);
      var tokensOut := amount;
      if toBurn > curBTokens {
        toBurn := curBTokens;
        tokensOut := AssetFromB(reserve.Value(), curBTokens);
      }
      var _ :- user.RemoveSupply(reserve, toBurn);
      AddForPoolTransfer(asset, tokensOut);
      return Ok(());
    }

    method WithdrawCollateral(user: User, reserve: Reserve, asset: Address, amount: int) returns (r: Outcome<()>)
      modifies this, user, reserve
      ensures Made(PoolUsers.WithdrawCollateral(reserve.config, old(reserve.Value()), old(user.positions), amount), r, reserve.Value(), user.positions)
      ensures r.Ok? ==> Collected(PoolUsers.WithdrawCollateral(reserve.config, old(reserve.Value()), old(user.positions), amount).value, asset,
        old(spenderTransfer), old(poolTransfer), spenderTransfer, poolTransfer)
    {
      hide Floor;
      hide Ceil;
      var curBTokens := Amount(user.positions.collateral, reserve.config.index);
      var toBurn :- BTokenUp(reserve.Value(), amount);
      var tokensOut := amount;
      if toBurn > curBTokens {
        toBurn := curBTokens;
        tokensOut := AssetFromB(reserve.Value(), curBTokens);
      }
      var _ :- user.RemoveCollateral(reserve, toBurn);
      AddForPoolTransfer(asset, tokensOut);
      return Ok(());
    }

    method Borrow(user: User, reserve: Reserve, asset: Address, amount: int) returns (r: Outcome<()>)
      modifies this, user, reserve
      ensures Made(PoolUsers.Borrow(reserve.config, old(reserve.Value()), old(user.positions), amount), r, reserve.Value(), user.positions)
      ensures r.Ok? ==> Collected(PoolUsers.Borrow(reserve.config, old(reserve.Value()), old(user.positions), amount).value, asset,
        old(spenderTransfer), old(poolTransfer), spenderTransfer, poolTransfer)
    {
      hide Floor;
      hide Ceil;
      var minted :- DTokenUp(reserve.Value(), amount);
      var _ :- user.AddLiabilities(reserve, minted);
      var util :- Utilization(reserve.Value());
      if util > reserve.config.maxUtil {
        return Abort(InvalidUtilRate);
      }
      AddForPoolTransfer(asset, amount);
      return Ok(());
    }

    method Repay(user: User, reserve: Reserve, asset: Address, amount: int) returns (r: Outcome<()>)
      modifies this, user, reserve
      ensures Made(PoolUsers.Repay(reserve.config, old(reserve.Value()), old(user.positions), amount), r, reserve.Value(), user.positions)
      ensures r.Ok? ==> Collected(PoolUsers.Repay(reserve.config, old(reserve.Value()), old(user.positions), amount).value, asset,
        old(spenderTransfer), old(poolTransfer), spenderTransfer, poolTransfer)
    {
      hide Floor;
      hide Ceil;
      hide Utilization;
      var curDTokens := Amount(user.positions.liabilities, reserve.config.index);
      var toBurn :- DTokenDown(reserve.Value(), amount);
      AddForSpenderTransfer(asset, amount);
      if toBurn > curDTokens {
        var amountToRefund := amount - AssetFromD(reserve.Value(), curDTokens);
        if amountToRefund < 0 {
          return Abort(NegativeAmount);
        }
        var _ :- user.RemoveLiabilities(reserve, curDTokens);
        AddForPoolTransfer(asset, amountToRefund);
      } else {
        var _ :- user.RemoveLiabilities(reserve, toBurn);
      }
      var _ :- Utilization(reserve.Value());
      return Ok(());
    }

    /** The arm a request's type selects. */
    method Perform(user: User, reserve: Reserve, q: Request) returns (r: Outcome<()>)
      requires q.kind <= 5
      modifies this, user, reserve
      ensures Made(PoolUsers.Perform(q.kind, reserve.config, old(reserve.Value()), old(user.positions), q.amount), r, reserve.Value(), user.positions)
      ensures r.Ok? ==> Collected(PoolUsers.Perform(q.kind, reserve.config, old(reserve.Value()), old(user.positions), q.amount).value, q.address,
        old(spenderTransfer), old(poolTransfer), spenderTransfer, poolTransfer)
    {
      hide PoolUsers.Supply;
      hide PoolUsers.Withdraw;
      hide PoolUsers.SupplyCollateral;
      hide PoolUsers.WithdrawCollateral;
      hide PoolUsers.Borrow;
      hide PoolUsers.Repay;
      hide Collected;
      if q.kind == 0 {
        r := Supply(user, reserve, q.address, q.amount);
      } else if q.kind == 1 {
        r := Withdraw(user, reserve, q.address, q.amount);
      } else if q.kind == 2 {
        r := SupplyCollateral(user, reserve, q.address, q.amount);
      } else if q.kind == 3 {
        r := WithdrawCollateral(user, reserve, q.address, q.amount);
      } else if q.kind == 4 {
        r := Borrow(user, reserve, q.address, q.amount);
      } else {
        r := Repay(user, reserve, q.address, q.amount);
      }
    }
  }

  class Contract {
    const self: Address
    const backstop: Address
    const backstopToken: Address
    const deploymentSeq: nat
    var now: nat
    var block: nat
    var status: nat
    var bstopRate: nat
    var resList: seq<Address>
    var configs: map<Address, ReserveConfig>
    var data: map<Address, ReserveData>
    var accounts: map<Address, Positions>
    var interest: Option<AuctionData>
    var badDebt: Option<AuctionData>
    var liquidations: map<Address, AuctionData>
    var cash: map<Address, int>
    // the reserves loaded by the running submission
    var reserves: map<Address, ReserveData>
    // the worth of the debt the running submission has written off
    ghost var burned: map<Address, int>

    function Value(): Pool
      reads this
    {
      Pool(self, backstop, backstopToken, deploymentSeq, now, block, status, bstopRate, resList, configs, data, accounts,
           interest, badDebt, liquidations, cash)
    }

    /** The running submission as far as loading goes. */
    function Loaded(): Batch
      reads this
    {
      Batch(Value(), reserves, NoFlows(), false)
    }

    /** The running submission: the storage with the sender's positions as they are in memory. */
    ghost function Current(from: Address, user: User, actions: Actions, checkHealth: bool): Batch
      reads this, user, actions
    {
      Batch(Value().(accounts := accounts[from := user.positions]), reserves,
            Flows(actions.spenderTransfer, actions.poolTransfer, burned), checkHealth)
    }

    constructor (self: Address, backstop: Address, backstopToken: Address, deploymentSeq: nat, now: nat, block: nat, bstopRate: nat)
      ensures Value() == Pool(self, backstop, backstopToken, deploymentSeq, now, block, 6, bstopRate, [], map[], map[], map[],
                              None, None, map[], map[])
    {
      this.self, this.backstop, this.backstopToken, this.deploymentSeq := self, backstop, backstopToken, deploymentSeq;
      this.now, this.block, this.status, this.bstopRate := now, block, 6, bstopRate;
      resList, configs, data, accounts, interest, badDebt, liquidations, cash := [], map[], map[], map[], None, None, map[], map[];
      reserves, burned := map[], map[];
    }

    /** A reserve from the cache, or loaded and brought to now. */
    method LoadReserve(asset: Address) returns (r: Outcome<Reserve>)
      ensures var spec := PoolStates.LoadReserve(Loaded(), asset);
        match r
        case Ok(reserve) => fresh(reserve) && spec == Ok(reserve.Value()) && reserve.config == configs[asset]
        case Abort(e) => spec == Abort(e)
    {
      hide Load;
      if asset !in configs || asset !in data {
        return Abort(ArithmeticError);
      }
      if asset in reserves {
        var cached := new Reserve(configs[asset], reserves[asset]);
        return Ok(cached);
      }
      var reserve := new Reserve(configs[asset], data[asset]);
      var loaded := reserve.BringToNow(bstopRate, now);
      if loaded.Abort? {
        return Abort(loaded.error);
      }
      return Ok(reserve);
    }

    method CacheReserve(asset: Address, reserve: Reserve)
      modifies this`reserves
      ensures reserves == old(reserves)[asset := reserve.Value()]
    {
      reserves := reserves[asset := reserve.Value()];
    }

    /** One of the six requests against a single reserve. */
    method PerformRequest(from: Address, user: User, actions: Actions, q: Request, ghost checkHealth: bool) returns (r: Outcome<()>)
      requires q.kind <= 5
      modifies this`reserves, user, actions
      ensures var spec := LendingPools.PerformRequest(old(Current(from, user, actions, checkHealth)), from, q);
        match r
        case Ok(_) => spec == Ok(Current(from, user, actions, checkHealth || q.kind == 3 || q.kind == 4))
        case Abort(e) => spec == Abort(e)
    {
      hide Load;
      hide PoolUsers.Perform;
      hide Gather;
      ghost var before := Current(from, user, actions, checkHealth);
      var reserve :- LoadReserve(q.address);
      assert PoolStates.LoadReserve(before, q.address) == Ok(reserve.Value());
      var _ :- actions.Perform(user, reserve, q);
      CacheReserve(q.address, reserve);
      assert before.pool.accounts[from := user.positions] == accounts[from := user.positions];
      return Ok(());
    }

    /** One asset of a filled lot, after those in `done`: from the credit and the cash. */
    method HandOutOne(a: Address, amount: int, ghost b: Batch, ghost done: map<Address, int>) returns (r: Outcome<()>)
      requires a !in done && amount > 0 && LoadAll(b, done.Keys).Ok?
      requires Value() == b.pool.(cash := HandOut(b.pool.cash, done)) && reserves == DrawnOn(b, done)
      modifies this`reserves, this`cash
      ensures Value() == b.pool.(cash := cash)
      ensures r.Ok? <==> PoolStates.LoadReserve(b, a).Ok? && Amount(b.pool.cash, a) >= amount
      ensures r.Ok? ==> LoadAll(b, done[a := amount].Keys).Ok?
      ensures r.Ok? ==> reserves == DrawnOn(b, done[a := amount]) && cash == HandOut(b.pool.cash, done[a := amount])
    {
      hide PoolStates.LoadReserve;
      hide LoadAll;
      hide DrawnOn;
      hide HandOut;
      DrawTurn(b, done, a, amount);
      LoadLater(b, done, a);
      SameLoad(b, Loaded(), a);
      CashAt(b.pool.cash, done, a);
      var reserve :- LoadReserve(a);
      reserve.backstopCredit := reserve.backstopCredit - amount;
      CacheReserve(a, reserve);
      if Amount(cash, a) < amount {
        return Abort(TransferFailed);
      }
      HandOutTurn(b.pool.cash, done, a, amount);
      cash := cash[a := cash[a] - amount];
      return Ok(());
    }

    /** The lot of a filled interest auction, asset by asset. */
    method HandOutLot(lot: map<Address, int>) returns (r: Outcome<()>)
      requires AllPositive(lot)
      modifies this`reserves, this`cash
      ensures var b := old(Loaded());
        if LoadAll(b, lot.Keys).Ok? && CanPay(b.pool.cash, lot) then
          r.Ok? && reserves == DrawnOn(b, lot) && cash == HandOut(b.pool.cash, lot)
        else r.Abort?
    {
      hide Done;
      hide CanPay;
      hide Amount;
      hide PoolStates.LoadReserve;
      hide LoadAll;
      hide DrawnOn;
      hide HandOut;
      ghost var b := Loaded();
      NothingDrawn(b);
      var left := lot;
      NothingDone(lot);
      assert CanPay(cash, map[]) by { NothingToPay(cash); }
      while left != map[]
        invariant left.Keys <= lot.Keys && Value() == b.pool.(cash := cash)
        invariant LoadAll(b, Done(lot, left).Keys).Ok?
        invariant CanPay(b.pool.cash, Done(lot, left))
        invariant reserves == DrawnOn(b, Done(lot, left)) && cash == HandOut(b.pool.cash, Done(lot, left))
        decreases |left|
      {
        var a :| a in left;
        TakeOne(lot, left, a);
        ghost var done := Done(lot, left);
        left := left - {a};
        var one := HandOutOne(a, lot[a], b, done);
        if one.Abort? {
          HandOutFails(b, lot, a);
          return Abort(one.error);
        }
        CanPayTurn(b.pool.cash, done, a, lot[a]);
      }
      NothingLeft(lot, left);
      return Ok(());
    }

    /** Filling an interest auction, from its scaling to what is stored of it. */
    method FillInterest(from: Address, user: User, actions: Actions, target: Address, percent: int, reply: Reply, ghost checkHealth: bool)
      returns (r: Outcome<()>)
      modifies this`reserves, this`cash, this`interest
      ensures var spec := LendingPools.FillInterest(old(Current(from, user, actions, checkHealth)), from, target, percent, reply);
        match r
        case Ok(_) => spec == Ok(Current(from, user, actions, checkHealth))
        case Abort(_) => spec.Abort?
    {
      hide PoolStates.LoadReserve;
      hide Scale;
      hide DrawCredit;
      hide HandOut;
      hide AllPositive;
      if target == from {
        return Abort(InvalidLiquidation);
      }
      if target != backstop || interest.None? {
        return Abort(ArithmeticError);
      }
      var scaled :- ScaleAuction(interest.value, percent, block);
      FillPositive(interest.value, percent, block);
      var (toFill, remaining) := scaled;
      if backstopToken !in toFill.bid {
        return Abort(ArithmeticError);
      }
      if !reply.donated {
        return Abort(TransferFailed);
      }
      ghost var b := Loaded();
      ghost var c := Current(from, user, actions, checkHealth);
      SameLoadAll(b, c, toFill.lot.Keys);
      hide LoadAll;
      var _ :- HandOutLot(toFill.lot);
      interest := remaining;
      return Ok(());
    }

    /** One asset of a loop that takes positions, after those in `done`. */
    method RemoveOne(user: User, debt: bool, a: Address, amount: int, ghost b: Batch, ghost u: Positions, ghost done: map<Address, int>)
      returns (r: Outcome<()>)
      requires Listed(Value()) && a !in done && TakeFrom(b, u, debt, done) == Ok((user.positions, reserves))
      requires b == Loaded().(cache := b.cache)
      modifies this`reserves, user
      ensures r.Ok? ==> TakeFrom(b, u, debt, done[a := amount]) == Ok((user.positions, reserves))
      ensures r.Abort? ==> TakeFrom(b, u, debt, done[a := amount]).Abort?
    {
      hide PoolStates.LoadReserve;
      hide TakeFrom;
      hide Taken;
      hide Listed;
      TakeTurn(b, u, debt, done, a, amount);
      var reserve :- LoadReserve(a);
      AnyError(Held(user.positions, debt), reserve.config.index, amount, NegativeAmount,
        if debt then InvalidDTokenBurnAmount else InvalidBTokenBurnAmount);
      if debt {
        var _ :- user.RemoveLiabilities(reserve, amount);
      } else {
        var _ :- user.RemoveCollateral(reserve, amount);
      }
      CacheReserve(a, reserve);
      return Ok(());
    }

    /** One asset of a loop that gives positions, after those in `done`. */
    method AddOne(user: User, debt: bool, a: Address, amount: int, ghost b: Batch, ghost u: Positions, ghost done: map<Address, int>)
      returns (r: Outcome<()>)
      requires Listed(Value()) && a !in done && GiveTo(b, u, debt, done) == Ok((user.positions, reserves))
      requires b == Loaded().(cache := b.cache)
      modifies this`reserves, user
      ensures r.Ok? ==> GiveTo(b, u, debt, done[a := amount]) == Ok((user.positions, reserves))
      ensures r.Abort? ==> GiveTo(b, u, debt, done[a := amount]).Abort?
    {
      hide PoolStates.LoadReserve;
      hide GiveTo;
      hide Added;
      hide Listed;
      GiveTurn(b, u, debt, done, a, amount);
      var reserve :- LoadReserve(a);
      AnyError(Held(user.positions, debt), reserve.config.index, amount, NegativeAmount,
        if debt then InvalidDTokenMintAmount else InvalidBTokenMintAmount);
      if debt {
        var _ :- user.AddLiabilities(reserve, amount);
      } else {
        var _ :- user.AddCollateral(reserve, amount);
      }
      CacheReserve(a, reserve);
      return Ok(());
    }

    /** One of the two loops of rm_positions. */
    method RemoveEach(user: User, debt: bool, amounts: map<Address, int>) returns (r: Outcome<()>)
      requires Listed(Value())
      modifies this`reserves, user
      ensures var spec := TakeFrom(old(Loaded()), old(user.positions), debt, amounts);
        if spec.Ok? then r.Ok? && spec.value == (user.positions, reserves) else r.Abort?
    {
      hide Done;
      hide TakeFrom;
      hide Listed;
      ghost var b, u := Loaded(), user.positions;
      NothingTaken(b, u, debt);
      var left := amounts;
      NothingDone(amounts);
      while left != map[]
        invariant left.Keys <= amounts.Keys && b == Loaded().(cache := b.cache)
        invariant TakeFrom(b, u, debt, Done(amounts, left)) == Ok((user.positions, reserves))
        decreases |left|
      {
        var a :| a in left;
        TakeOne(amounts, left, a);
        ghost var done := Done(amounts, left);
        var one := RemoveOne(user, debt, a, amounts[a], b, u, done);
        if one.Abort? {
          DoneIsPart(amounts, left, a);
          TakeStops(b, u, debt, done[a := amounts[a]], amounts);
          return one;
        }
        left := left - {a};
      }
      NothingLeft(amounts, left);
      return Ok(());
    }

    /** One of the two loops of add_positions. */
    method AddEach(user: User, debt: bool, amounts: map<Address, int>) returns (r: Outcome<()>)
      requires Listed(Value())
      modifies this`reserves, user
      ensures var spec := GiveTo(old(Loaded()), old(user.positions), debt, amounts);
        if spec.Ok? then r.Ok? && spec.value == (user.positions, reserves) else r.Abort?
    {
      hide Done;
      hide GiveTo;
      hide Listed;
      ghost var b, u := Loaded(), user.positions;
      NothingGiven(b, u, debt);
      var left := amounts;
      NothingDone(amounts);
      while left != map[]
        invariant left.Keys <= amounts.Keys && b == Loaded().(cache := b.cache)
        invariant GiveTo(b, u, debt, Done(amounts, left)) == Ok((user.positions, reserves))
        decreases |left|
      {
        var a :| a in left;
        TakeOne(amounts, left, a);
        ghost var done := Done(amounts, left);
        var one := AddOne(user, debt, a, amounts[a], b, u, done);
        if one.Abort? {
          DoneIsPart(amounts, left, a);
          GiveStops(b, u, debt, done[a := amounts[a]], amounts);
          return one;
        }
        left := left - {a};
      }
      NothingLeft(amounts, left);
      return Ok(());
    }

    method RmPositions(user: User, collateral: map<Address, int>, liabilities: map<Address, int>) returns (r: Outcome<()>)
      requires Listed(Value())
      modifies this`reserves, user
      ensures var spec := RmFrom(old(Loaded()), old(user.positions), collateral, liabilities);
        if spec.Ok? then r.Ok? && spec.value == (user.positions, reserves) else r.Abort?
    {
      hide TakeFrom;
      hide Listed;
      var _ :- RemoveEach(user, false, collateral);
      var _ :- RemoveEach(user, true, liabilities);
      return Ok(());
    }

    method AddPositions(user: User, collateral: map<Address, int>, liabilities: map<Address, int>) returns (r: Outcome<()>)
      requires Listed(Value())
      modifies this`reserves, user
      ensures var spec := AddTo(old(Loaded()), old(user.positions), collateral, liabilities);
        if spec.Ok? then r.Ok? && spec.value == (user.positions, reserves) else r.Abort?
    {
      hide GiveTo;
      hide Listed;
      var _ :- AddEach(user, false, collateral);
      var _ :- AddEach(user, true, liabilities);
      return Ok(());
    }

    /** The filled part is taken from the user and given to the filler. */
    method FillUserLiqAuction(userState: User, filler: User, fill: AuctionData) returns (r: Outcome<()>)
      requires Listed(Value()) && userState != filler
      modifies this`reserves, userState, filler
      ensures var spec := MoveFrom(old(Loaded()), old(userState.positions), old(filler.positions), fill.lot, fill.bid);
        if spec.Ok? then r.Ok? && spec.value == (userState.positions, filler.positions, reserves) else r.Abort?
    {
      hide RmFrom;
      hide AddTo;
      hide Listed;
      var _ :- RmPositions(userState, fill.lot, fill.bid);
      var _ :- AddPositions(filler, fill.lot, fill.bid);
      return Ok(());
    }

    /** The same from the user's stored positions, which are stored again at once. */
    method FillUserLiquidation(from: Address, user: User, actions: Actions, target: Address, fill: AuctionData, ghost checkHealth: bool)
      returns (r: Outcome<()>)
      requires Listed(Value()) && target != from
      modifies this`reserves, this`accounts, user
      ensures var spec := LendingPools.FillUserLiquidation(old(Current(from, user, actions, checkHealth)), from, target, fill);
        match r
        case Ok(_) => spec == Ok(Current(from, user, actions, checkHealth))
        case Abort(_) => spec.Abort?
    {
      hide LendingPools.FillUserLiquidation;
      hide MoveFrom;
      hide PositionsOf;
      hide Listed;
      ghost var c := Current(from, user, actions, checkHealth);
      CurrentPositions(Value(), from, user.positions, target);
      FillUserIs(c, Loaded(), from, target, fill);
      var userState := new User(PositionsOf(Value(), target));
      var _ :- FillUserLiqAuction(userState, user, fill);
      Overwrites(accounts, from, c.pool.accounts[from], user.positions, target, userState.positions);
      accounts := accounts[target := userState.positions];
      return Ok(());
    }

    /** Filling a liquidation, from its scaling to what is stored of it. */
    method FillLiquidation(from: Address, user: User, actions: Actions, target: Address, percent: int, ghost checkHealth: bool)
      returns (r: Outcome<()>)
      requires Listed(Value())
      modifies this`reserves, this`accounts, this`liquidations, user
      ensures var spec := LendingPools.FillLiquidation(old(Current(from, user, actions, checkHealth)), from, target, percent);
        match r
        case Ok(_) => spec == Ok(Current(from, user, actions, true))
        case Abort(_) => spec.Abort?
    {
      hide LendingPools.FillUserLiquidation;
      hide Scale;
      hide Listed;
      if target == from {
        return Abort(InvalidLiquidation);
      }
      if target !in liquidations {
        return Abort(ArithmeticError);
      }
      var scaled :- ScaleAuction(liquidations[target], percent, block);
      var (toFill, remaining) := scaled;
      var _ :- FillUserLiquidation(from, user, actions, target, toFill, checkHealth);
      if remaining.Some? {
        liquidations := liquidations[target := remaining.value];
      } else {
        liquidations := liquidations - {target};
      }
      return Ok(());
    }

    /** The loop that collects the backstop's debt by asset. */
    method DebtByAsset(m: map<Address, int>) returns (r: Outcome<map<Address, int>>)
      requires Listed(Value())
      ensures r == if exists i :: i in m && i >= |resList| then Abort(ArithmeticError) else Ok(ByAsset(configs, m))
    {
      hide ByAsset;
      hide Listed;
      hide Done;
      NothingDone(m);
      assert ByAsset(configs, map[]) == map[] by { NoneByAsset(configs); }
      var amounts: map<Address, int> := map[];
      var left := m;
      while left != map[]
        invariant left.Keys <= m.Keys && amounts == ByAsset(configs, Done(m, left))
        invariant forall i :: i in m && i !in left ==> i < |resList|
        decreases |left|
      {
        var i :| i in left;
        if i >= |resList| {
          return Abort(ArithmeticError);
        }
        TakeOne(m, left, i);
        ByAssetTurn(Value(), Done(m, left), i, m[i]);
        amounts := amounts[resList[i] := m[i]];
        left := left - {i};
      }
      NothingLeft(m, left);
      return Ok(amounts);
    }

    /** The end of a bad debt fill: a backstop that is nearly empty loses the debt it still holds. */
    method WriteOff(user: User, reply: Reply) returns (r: Outcome<()>)
      requires Listed(Value())
      modifies this`reserves, this`burned, user
      ensures var spec := WriteOffFrom(old(Loaded()), old(user.positions), old(burned), reply);
        if spec.Ok? then r.Ok? && spec.value == (user.positions, reserves, burned) else r.Abort?
    {
      hide RmFrom;
      hide BackstopThreshold;
      hide Listed;
      hide ByAsset;
      hide WrittenOff;
      hide LoadAll;
      if user.positions.liabilities == map[] || BackstopThreshold(reply.blnd, reply.usdc) >= 3 {
        return Ok(());
      }
      var rmLiabilities :- DebtByAsset(user.positions.liabilities);
      ghost var loaded := LoadAll(Loaded(), rmLiabilities.Keys);
      RmLoads(Loaded(), user.positions, rmLiabilities);
      var _ :- RmPositions(user, map[], rmLiabilities);
      burned := WrittenOff(burned, loaded.value, rmLiabilities);
      return Ok(());
    }

    /** The scaled fill of a bad debt auction: the debt changes hands, the lot is drawn, the rest may be written off. */
    method FillBadDebtAuction(backstopState: User, user: User, fill: AuctionData, reply: Reply) returns (r: Outcome<()>)
      requires Listed(Value()) && backstopState != user
      modifies this`reserves, this`burned, backstopState, user
      ensures var spec := BadDebtFrom(old(Loaded()), old(backstopState.positions), old(user.positions), old(burned), fill, reply);
        if spec.Ok? then r.Ok? && spec.value == (backstopState.positions, user.positions, reserves, burned) else r.Abort?
    {
      hide RmFrom;
      hide AddTo;
      hide WriteOffFrom;
      hide Listed;
      var _ :- RmPositions(backstopState, map[], fill.bid);
      var _ :- AddPositions(user, map[], fill.bid);
      if backstopToken !in fill.lot {
        return Abort(ArithmeticError);
      }
      if !reply.drawn {
        return Abort(TransferFailed);
      }
      var _ :- WriteOff(backstopState, reply);
      return Ok(());
    }

    /** Filling a bad debt auction, from its scaling to what is stored of it. */
    method FillBadDebt(from: Address, user: User, actions: Actions, target: Address, percent: int, reply: Reply, ghost checkHealth: bool)
      returns (r: Outcome<()>)
      requires Listed(Value())
      modifies this`reserves, this`accounts, this`badDebt, this`burned, user
      ensures var spec := LendingPools.FillBadDebt(old(Current(from, user, actions, checkHealth)), from, target, percent, reply);
        match r
        case Ok(_) => spec == Ok(Current(from, user, actions, true))
        case Abort(_) => spec.Abort?
    {
      hide LendingPools.FillBadDebt;
      hide BadDebtFrom;
      hide PositionsOf;
      hide Listed;
      hide Scale;
      ghost var c := Current(from, user, actions, checkHealth);
      if target == from {
        BadDebtRefused(c, from, target, percent, reply);
        return Abort(InvalidLiquidation);
      }
      if target != backstop || badDebt.None? {
        BadDebtRefused(c, from, target, percent, reply);
        return Abort(ArithmeticError);
      }
      var scaled := ScaleAuction(badDebt.value, percent, block);
      if scaled.Abort? {
        BadDebtRefused(c, from, target, percent, reply);
        return Abort(scaled.error);
      }
      var (toFill, remaining) := scaled.value;
      CurrentPositions(Value(), from, user.positions, backstop);
      BadDebtIs(c, Loaded(), from, percent, reply);
      var backstopState := new User(PositionsOf(Value(), backstop));
      var _ :- FillBadDebtAuction(backstopState, user, toFill, reply);
      Overwrites(accounts, from, c.pool.accounts[from], user.positions, backstop, backstopState.positions);
      accounts := accounts[backstop := backstopState.positions];
      badDebt := remaining;
      return Ok(());
    }

    method DeleteLiquidation(from: Address) returns (r: Outcome<()>)
      modifies this`liquidations
      ensures from in old(liquidations) <==> r.Ok?
      ensures liquidations == if r.Ok? then old(liquidations) - {from} else old(liquidations)
    {
      if from !in liquidations {
        return Abort(BadRequest);
      }
      liquidations := liquidations - {from};
      return Ok(());
    }

    /** One turn of the request loop; the result says whether health must be checked. */
    method ProcessRequest(from: Address, user: User, actions: Actions, q: Request, reply: Reply, checkHealth: bool) returns (r: Outcome<bool>)
      requires Listed(Value())
      modifies this`reserves, this`accounts, this`liquidations, this`badDebt, this`interest, this`cash, this`burned, user, actions
      ensures var spec := Turn(old(Current(from, user, actions, checkHealth)), from, q, reply);
        match r
        case Ok(health) => spec == Ok(Current(from, user, actions, health))
        case Abort(_) => spec.Abort?
    {
      hide LendingPools.PerformRequest;
      hide LendingPools.FillLiquidation;
      hide LendingPools.FillBadDebt;
      hide LendingPools.FillInterest;
      hide Listed;
      if q.amount < 0 {
        return Abort(NegativeAmount);
      }
      if !ActionAllowed(status, q.kind) {
        return Abort(InvalidPoolStatus);
      }
      if q.kind <= 5 {
        var _ :- PerformRequest(from, user, actions, q, checkHealth);
        return Ok(checkHealth || q.kind == 3 || q.kind == 4);
      }
      if q.kind == 6 {
        var _ :- FillLiquidation(from, user, actions, q.address, q.amount % U64_LIMIT, checkHealth);
        return Ok(true);
      }
      if q.kind == 7 {
        var _ :- FillBadDebt(from, user, actions, q.address, q.amount % U64_LIMIT, reply, checkHealth);
        return Ok(true);
      }
      if q.kind == 8 {
        var _ :- FillInterest(from, user, actions, q.address, q.amount % U64_LIMIT, reply, checkHealth);
        return Ok(checkHealth);
      }
      if q.kind == 9 {
        var _ :- DeleteLiquidation(from);
        return Ok(true);
      }
      return Abort(BadRequest);
    }

    /** The request loop. */
    method BuildActionsFromRequest(from: Address, user: User, actions: Actions, requests: seq<Request>, replies: seq<Reply>) returns (r: Outcome<bool>)
      requires Listed(Value()) && reserves == map[] && burned == map[] && user.positions == PositionsOf(Value(), from)
      requires actions.spenderTransfer == map[] && actions.poolTransfer == map[]
      modifies this`reserves, this`accounts, this`liquidations, this`badDebt, this`interest, this`cash, this`burned, user, actions
      ensures var spec := Process(old(Value()), from, requests, replies, |requests|);
        match r
        case Ok(health) => spec == Ok(Current(from, user, actions, health))
        case Abort(_) => spec.Abort?
    {
      hide Turn;
      ghost var p := Value();
      var checkHealth := false;
      var k := 0;
      while k < |requests|
        invariant 0 <= k <= |requests| && Listed(Value())
        invariant Process(p, from, requests, replies, k) == Ok(Current(from, user, actions, checkHealth))
      {
        var turn := ProcessRequest(from, user, actions, requests[k], ReplyTo(replies, k), checkHealth);
        k := k + 1;
        if turn.Abort? {
          ProcessStopsAt(p, from, requests, replies, k, |requests|);
          return turn;
        }
        checkHealth := turn.value;
        SameLists(Value(), old(Value()));
      }
      return Ok(checkHealth);
    }

    /** One transfer in, after those in `done`. */
    method ReceiveOne(a: Address, amount: int, failed: set<Address>, ghost before: map<Address, int>, ghost done: map<Address, int>)
      requires a !in done && cash == Received(before, done, failed)
      modifies this`cash
      ensures cash == Received(before, done[a := amount], failed)
    {
      hide Received;
      ReceivedTurn(before, done, failed, a, amount);
      cash := cash[a := Amount(cash, a) + if a in failed then 0 else amount];
    }

    /** The spender's transfers; a failed one is ignored. */
    method ReceiveAll(paid: map<Address, int>, failed: set<Address>)
      modifies this`cash
      ensures cash == Received(old(cash), paid, failed)
    {
      hide Done;
      hide Received;
      ghost var before := cash;
      NothingDone(paid);
      NothingMoved(cash, failed);
      var left := paid;
      while left != map[]
        invariant left.Keys <= paid.Keys && cash == Received(before, Done(paid, left), failed)
        decreases |left|
      {
        var a :| a in left;
        TakeOne(paid, left, a);
        ReceiveOne(a, paid[a], failed, before, Done(paid, left));
        left := left - {a};
      }
      NothingLeft(paid, left);
    }

    /** One transfer out, after those in `done`. */
    method DeliverOne(a: Address, amount: int, failed: set<Address>, ghost before: map<Address, int>, ghost done: map<Address, int>)
      requires a !in done && cash == Delivered(before, done, failed)
      modifies this`cash
      ensures cash == Delivered(before, done[a := amount], failed)
    {
      hide Delivered;
      DeliveredTurn(before, done, failed, a, amount);
      if a in failed || amount > Amount(cash, a) {
        cash := cash[a := Amount(cash, a)];
      } else {
        cash := cash[a := Amount(cash, a) - amount];
      }
    }

    /** The pool's transfers; a failed one, or one beyond the pool's balance, is ignored. */
    method DeliverAll(out: map<Address, int>, failed: set<Address>)
      modifies this`cash
      ensures cash == Delivered(old(cash), out, failed)
    {
      hide Done;
      hide Delivered;
      ghost var before := cash;
      NothingDone(out);
      NothingMoved(cash, failed);
      var left := out;
      while left != map[]
        invariant left.Keys <= out.Keys && cash == Delivered(before, Done(out, left), failed)
        decreases |left|
      {
        var a :| a in left;
        TakeOne(out, left, a);
        DeliverOne(a, out[a], failed, before, Done(out, left));
        left := left - {a};
      }
      NothingLeft(out, left);
    }

    /** An aborted submission undoes what it stored. */
    method RollBack(saved: Pool)
      requires Value() == saved.(accounts := accounts, liquidations := liquidations, badDebt := badDebt, interest := interest, cash := cash)
      modifies this`accounts, this`liquidations, this`badDebt, this`interest, this`cash
      ensures Value() == saved
    {
      accounts, liquidations, badDebt, interest, cash := saved.accounts, saved.liquidations, saved.badDebt, saved.interest, saved.cash;
    }

    /** The end of a submission: transfers in, reserves and positions stored, transfers out. */
    method Conclude(from: Address, user: User, actions: Actions, answers: Answers, ghost checkHealth: bool)
      modifies this`data, this`accounts, this`cash
      ensures Value() == Settle(old(Current(from, user, actions, checkHealth)), answers)
    {
      hide Received;
      hide Delivered;
      hide CashAfter;
      SettleCash(Current(from, user, actions, checkHealth), answers);
      ReceiveAll(actions.spenderTransfer, answers.unpaid);
      data := data + reserves;
      accounts := accounts[from := user.positions];
      DeliverAll(actions.poolTransfer, answers.undelivered);
    }

    /** The loop over the assets of a new interest auction; what it loads is neither cached nor stored. */
    method InterestLot(assets: seq<Address>, quote: Quote) returns (r: Outcome<(map<Address, int>, int)>)
      ensures r == LendingPools.InterestLot(Value(), assets, quote, |assets|)
    {
      hide Load;
      hide Floor;
      hide Pow10;
      var lot: map<Address, int>, interestValue := map[], 0;
      var k := 0;
      while k < |assets|
        invariant 0 <= k <= |assets|
        invariant LendingPools.InterestLot(Value(), assets, quote, k) == Ok((lot, interestValue))
      {
        var a := assets[k];
        k := k + 1;
        if a !in configs || a !in data {
          LotStopsAt(Value(), assets, quote, k, |assets|);
          return Abort(ArithmeticError);
        }
        var reserve := new Reserve(configs[a], data[a]);
        var loaded := reserve.BringToNow(bstopRate, now);
        if loaded.Abort? {
          LotStopsAt(Value(), assets, quote, k, |assets|);
          return Abort(loaded.error);
        }
        if reserve.backstopCredit > 0 {
          if a !in quote.prices {
            LotStopsAt(Value(), assets, quote, k, |assets|);
            return Abort(ArithmeticError);
          }
          interestValue := interestValue + Floor(quote.prices[a] * reserve.backstopCredit, Pow10(configs[a].decimals));
          lot := lot[a := reserve.backstopCredit];
        }
      }
      return Ok((lot, interestValue));
    }

    method CreateInterestAuction(assets: seq<Address>, quote: Quote) returns (r: Outcome<AuctionData>)
      modifies this`interest
      ensures var spec := CreateInterest(old(Value()), assets, quote);
        match r
        case Ok(auction) => spec == Ok(Value()) && interest == Some(auction)
        case Abort(e) => spec == Abort(e) && Value() == old(Value())
    {
      hide LendingPools.InterestLot;
      hide Floor;
      hide DivFloor;
      hide Pow10;
      if interest.Some? {
        return Abort(AuctionInProgress);
      }
      var built :- InterestLot(assets, quote);
      var (lot, interestValue) := built;
      if interestValue <= 200 * Pow10(quote.decimals) {
        return Abort(InterestTooSmall);
      }
      if lot == map[] || interestValue == 0 {
        return Abort(BadRequest);
      }
      var base :- DivFloor(Floor(quote.usdc * Pow10(quote.decimals), SCALAR_7) * 5 * SCALAR_7, quote.tokens);
      var bid :- DivFloor(Floor(interestValue * 1_4000000, SCALAR_7) * SCALAR_7, base);
      var auction := AuctionData(map[backstopToken := bid], lot, block + 1);
      interest := Some(auction);
      return Ok(auction);
    }

    /** The loop over the backstop's debt, in the order of the reserve list. */
    method DebtBid(m: map<Address, int>, quote: Quote) returns (r: Outcome<(map<Address, int>, int)>)
      ensures r == LendingPools.DebtBid(Value(), m, quote, |resList|)
    {
      hide Load;
      hide Floor;
      hide Ceil;
      hide Pow10;
      var bid: map<Address, int>, debtValue := map[], 0;
      var k := 0;
      while k < |resList|
        invariant 0 <= k <= |resList|
        invariant LendingPools.DebtBid(Value(), m, quote, k) == Ok((bid, debtValue))
      {
        var a := resList[k];
        k := k + 1;
        if Amount(m, k - 1) > 0 {
          var reserve := LoadFresh(a);
          if reserve.Abort? {
            BidStopsAt(Value(), m, quote, k, |resList|);
            return Abort(reserve.error);
          }
          if a !in quote.prices {
            BidStopsAt(Value(), m, quote, k, |resList|);
            return Abort(ArithmeticError);
          }
          debtValue := debtValue + Floor(quote.prices[a] * AssetFromD(reserve.value.Value(), m[k - 1]), Pow10(configs[a].decimals));
          bid := bid[a := m[k - 1]];
        }
      }
      return Ok((bid, debtValue));
    }

    /** A reserve loaded outside a submission. */
    method LoadFresh(asset: Address) returns (r: Outcome<Reserve>)
      ensures var spec := PoolStates.LoadReserve(Idle(Value()), asset);
        match r
        case Ok(reserve) => fresh(reserve) && spec == Ok(reserve.Value()) && reserve.config == configs[asset]
        case Abort(e) => spec == Abort(e)
    {
      hide Load;
      if asset !in configs || asset !in data {
        return Abort(ArithmeticError);
      }
      var reserve := new Reserve(configs[asset], data[asset]);
      var loaded := reserve.BringToNow(bstopRate, now);
      if loaded.Abort? {
        return Abort(loaded.error);
      }
      return Ok(reserve);
    }

    method CreateBadDebtAuction(quote: Quote) returns (r: Outcome<AuctionData>)
      modifies this`badDebt
      ensures var spec := CreateBadDebt(old(Value()), quote);
        match r
        case Ok(auction) => spec == Ok(Value()) && badDebt == Some(auction)
        case Abort(e) => spec == Abort(e) && Value() == old(Value())
    {
      hide LendingPools.DebtBid;
      hide Floor;
      hide DivFloor;
      hide Pow10;
      hide PositionsOf;
      if badDebt.Some? {
        return Abort(AuctionInProgress);
      }
      var m := PositionsOf(Value(), backstop).liabilities;
      if exists i :: i in m && i >= |resList| {
        return Abort(ArithmeticError);
      }
      var quoted :- DebtBid(m, quote);
      var (bid, debtValue) := quoted;
      if bid == map[] || debtValue == 0 {
        return Abort(BadRequest);
      }
      var base :- DivFloor(Floor(quote.usdc * Pow10(quote.decimals), SCALAR_7) * 5 * SCALAR_7, quote.tokens);
      var lot :- DivFloor(Floor(debtValue * 1_4000000, SCALAR_7) * SCALAR_7, base);
      var auction := AuctionData(bid, map[backstopToken := Min(quote.tokens, lot)], block + 1);
      badDebt := Some(auction);
      return Ok(auction);
    }

    /** One debt of a user moves to the backstop, after those in `done`. */
    method MoveDebt(userState: User, backstopState: User, i: nat, amount: int, ghost p: Pool, ghost m: map<Address, int>, ghost done: map<Address, int>)
      returns (r: Outcome<()>)
      requires i < |resList| && i !in done && userState != backstopState && p == Value()
      requires LoadAll(Idle(p), AssetsOf(resList, done)) == Ok(reserves)
      requires Listed(p) && i in userState.positions.liabilities && userState.positions.liabilities[i] == amount
      requires backstopState.positions.liabilities == Merged(m, done)
      modifies this`reserves, userState, backstopState
      ensures r.Ok? <==> amount != 0 && PoolStates.LoadReserve(Idle(p), resList[i]).Ok?
      ensures r.Ok? ==> LoadAll(Idle(p), AssetsOf(resList, done[i := amount])) == Ok(reserves)
      ensures r.Ok? ==> backstopState.positions == old(backstopState.positions).(liabilities := Merged(m, done[i := amount]))
      ensures r.Ok? ==> userState.positions == old(userState.positions).(liabilities := old(userState.positions).liabilities - {i})
    {
      hide PoolStates.LoadReserve;
      hide LoadAll;
      hide Merged;
      hide AssetsOf;
      hide ValidMetadata;
      var a := resList[i];
      AssetsTurn(resList, done, i, amount);
      LoadAllTurn(Idle(p), AssetsOf(resList, done), a);
      LoadTwice(Idle(p), AssetsOf(resList, done), a);
      MergedTurn(m, done, i, amount);
      var reserve :- LoadReserve(a);
      ghost var loaded := reserve.Value();
      var _ :- backstopState.AddLiabilities(reserve, amount);
      var removed := userState.RemoveLiabilities(reserve, amount);
      assert reserve.Value() == loaded;
      CacheReserve(a, reserve);
      return Ok(());
    }

    /** The loop over a user's debt. */
    method MoveDebts(userState: User, backstopState: User) returns (r: Outcome<()>)
      requires Listed(Value()) && userState != backstopState && reserves == map[]
      modifies this`reserves, userState, backstopState
      ensures var u := old(userState.positions).liabilities;
        var cache := LoadAll(Idle(Value()), AssetsOf(resList, u));
        if CanMove(resList, u) && cache.Ok? then
          && r.Ok? && reserves == cache.value
          && userState.positions == old(userState.positions).(liabilities := map[])
          && backstopState.positions
            == old(backstopState.positions).(liabilities := Merged(old(backstopState.positions).liabilities, u))
        else r.Abort?
    {
      hide PoolStates.LoadReserve;
      hide LoadAll;
      hide Merged;
      hide AssetsOf;
      hide Listed;
      hide Done;
      ghost var (p, m) := (Value(), backstopState.positions.liabilities);
      var u := userState.positions.liabilities;
      NothingMerged(m, resList);
      NothingLoaded(Idle(p), true);
      NothingDone(u);
      var left := u;
      while left != map[]
        invariant left.Keys <= u.Keys && Value() == p
        invariant userState.positions == old(userState.positions).(liabilities := left)
        invariant forall i :: i in left ==> left[i] == u[i]
        invariant backstopState.positions == old(backstopState.positions).(liabilities := Merged(m, Done(u, left)))
        invariant LoadAll(Idle(p), AssetsOf(resList, Done(u, left))) == Ok(reserves)
        invariant forall i :: i in u && i !in left ==> i < |resList| && u[i] != 0
        decreases |left|
      {
        var i :| i in left;
        if i >= |resList| {
          return Abort(ArithmeticError);
        }
        TakeOne(u, left, i);
        PartLoads(Idle(p), resList, u, i);
        var one := MoveDebt(userState, backstopState, i, left[i], p, m, Done(u, left));
        if one.Abort? {
          return Abort(one.error);
        }
        left := left - {i};
      }
      NothingLeft(u, left);
      return Ok(());
    }

    /** transfer_bad_debt_to_backstop */
    method TransferBadDebtToBackstop(target: Address) returns (r: Outcome<()>)
      requires Listed(Value())
      modifies this`reserves, this`data, this`accounts
      ensures var spec := MoveBadDebt(old(Value()), target);
        match r
        case Ok(_) => spec == Ok(Value())
        case Abort(_) => spec.Abort? && Value() == old(Value())
    {
      hide LoadAll;
      hide Merged;
      hide AssetsOf;
      hide Listed;
      hide PositionsOf;
      var u := PositionsOf(Value(), target);
      if target == backstop || u.collateral != map[] || u.liabilities == map[] {
        return Abort(BadRequest);
      }
      reserves := map[];
      var userState := new User(u);
      var backstopState := new User(PositionsOf(Value(), backstop));
      var _ :- MoveDebts(userState, backstopState);
      data := data + reserves;
      accounts := accounts[backstop := backstopState.positions][target := userState.positions];
      return Ok(());
    }

    /** execute_update_pool, as far as the backstop's take goes. */
    method UpdatePool(rate: nat) returns (r: Outcome<()>)
      modifies this`bstopRate
      ensures var spec := UpdateTake(old(Value()), rate);
        match r
        case Ok(_) => spec == Ok(Value())
        case Abort(e) => spec == Abort(e) && Value() == old(Value())
    {
      if rate >= SCALAR_7 {
        return Abort(BadRequest);
      }
      bstopRate := rate;
      return Ok(());
    }

    method RequireValidReserveMetadata(c: ReserveConfig) returns (r: Outcome<()>)
      ensures r.Ok? <==> ValidMetadata(c)
      ensures r.Abort? ==> r.error == InvalidReserveMetadata
    {
      if c.decimals > 18 || c.cFactor > SCALAR_7 || c.lFactor > SCALAR_7 || c.util > UTIL_KINK
        || (c.maxUtil > SCALAR_7 || c.maxUtil <= c.util) || c.rBase >= 1_0000000 || c.rBase < 0_0001000
        || (c.rOne > c.rTwo || c.rTwo > c.rThree) || c.reactivity > 0_0001000
      {
        return Abort(InvalidReserveMetadata);
      }
      return Ok(());
    }

    /** initialize_reserve */
    method SetReserve(asset: Address, config: ReserveConfig) returns (r: Outcome<nat>)
      modifies this`resList, this`configs, this`data
      ensures var spec := LendingPools.SetReserve(old(Value()), asset, config);
        match r
        case Ok(index) => spec == Ok(Value()) && asset in configs && configs[asset].index == index
        case Abort(e) => spec == Abort(e) && Value() == old(Value())
    {
      hide Load;
      hide ValidMetadata;
      var _ :- RequireValidReserveMetadata(config);
      var index;
      if asset in configs && asset in data {
        var reserve := new Reserve(configs[asset], data[asset]);
        var _ :- reserve.BringToNow(bstopRate, now);
        var current := configs[asset];
        index := current.index;
        if current.decimals != config.decimals {
          return Abort(InvalidReserveMetadata);
        }
        if current.rBase != config.rBase || current.rOne != config.rOne || current.rTwo != config.rTwo
          || current.rThree != config.rThree || current.util != config.util
        {
          reserve.irMod := SCALAR_9;
        }
        data := data[asset := reserve.Value()];
      } else {
        if |resList| == MAX_RESERVES {
          return Abort(BadRequest);
        }
        index := |resList|;
        resList := resList + [asset];
        data := data[asset := ReserveData(SCALAR_9, SCALAR_9, SCALAR_9, 0, 0, 0, now)];
      }
      configs := configs[asset := config.(index := index)];
      return Ok(index);
    }

    /** execute_submit */
    method Submit(from: Address, spender: Address, to: Address, requests: seq<Request>, answers: Answers) returns (r: Outcome<()>)
      requires Listed(Value())
      modifies this
      ensures var spec := LendingPools.Submit(old(Value()), from, spender, to, requests, answers);
        match r
        case Ok(_) => spec == Ok(Value())
        case Abort(_) => spec.Abort? && Value() == old(Value())
    {
      hide LendingPools.Submit;
      hide Process;
      hide PositionsOf;
      hide Settle;
      hide Calculate;
      hide Pow10;
      hide Listed;
      hide IsHfUnder;
      SubmitAborts(Value(), from, spender, to, requests, answers);
      if from == self || spender == self || to == self {
        return Abort(BadRequest);
      }
      var saved := Value();
      reserves := map[];
      burned := map[];
      var user := new User(PositionsOf(saved, from));
      var actions := new Actions();
      var checkHealth := BuildActionsFromRequest(from, user, actions, requests, answers.replies);
      if checkHealth.Abort? {
        RollBack(saved);
        return Abort(checkHealth.error);
      }
      ghost var b := Current(from, user, actions, checkHealth.value);
      SubmitEnds(saved, from, spender, to, requests, answers, b);
      CurrentIsStored(b.pool, accounts, from, user.positions);
      SameCalculate(b, Loaded(), user.positions, Pow10(answers.decimals), |resList|);
      var health := CalculateFromPositions(Loaded(), user.positions, Pow10(answers.decimals));
      if health.Abort? {
        RollBack(saved);
        return Abort(health.error);
      }
      if checkHealth.value && user.positions.liabilities != map[] && block > deploymentSeq && IsHfUnder(health.value, MIN_HEALTH) {
        RollBack(saved);
        return Abort(InvalidHf);
      }
      Conclude(from, user, actions, answers, checkHealth.value);
      return Ok(());
    }
  }

  lemma SubmitAborts(p: Pool, from: Address, spender: Address, to: Address, requests: seq<Request>, answers: Answers)
    ensures from == p.self || spender == p.self || to == p.self ==> Submit(p, from, spender, to, requests, answers).Abort?
    ensures Process(p, from, requests, answers.replies, |requests|).Abort? ==> Submit(p, from, spender, to, requests, answers).Abort?
  {
    hide Process;
    hide HealthAfter;
    hide Settle;
  }

  /** What a submission comes to once its requests are done. */
  lemma SubmitEnds(p: Pool, from: Address, spender: Address, to: Address, requests: seq<Request>, answers: Answers, b: Batch)
    requires from != p.self && spender != p.self && to != p.self
    requires Process(p, from, requests, answers.replies, |requests|) == Ok(b)
    ensures var health := HealthAfter(b, from, answers.decimals);
      if health.Abort? || (MustBeHealthy(b, from) && IsHfUnder(health.value, MIN_HEALTH)) then
        Submit(p, from, spender, to, requests, answers).Abort?
      else Submit(p, from, spender, to, requests, answers) == Ok(Settle(b, answers))
  {
    hide Process;
    hide HealthAfter;
    hide Settle;
    hide IsHfUnder;
  }

  lemma CurrentIsStored(p: Pool, accounts: map<Address, Positions>, from: Address, q: Positions)
    requires p.accounts == accounts[from := q]
    ensures PositionsOf(p, from) == q
  {}

  function Received(cash: map<Address, int>, paid: map<Address, int>, failed: set<Address>): map<Address, int>
  {
    map a | a in cash.Keys + paid.Keys :: Amount(cash, a) + if a in failed then 0 else Amount(paid, a)
  }

  function Delivered(cash: map<Address, int>, out: map<Address, int>, failed: set<Address>): map<Address, int>
  {
    map a | a in cash.Keys + out.Keys ::
      if a in failed || Amount(out, a) > Amount(cash, a) then Amount(cash, a) else Amount(cash, a) - Amount(out, a)
  }

  lemma NothingMoved(cash: map<Address, int>, failed: set<Address>)
    ensures Received(cash, map[], failed) == cash
    ensures Delivered(cash, map[], failed) == cash
  {}

  lemma ReceivedTurn(cash: map<Address, int>, paid: map<Address, int>, failed: set<Address>, a: Address, amount: int)
    requires a !in paid
    ensures Received(cash, paid[a := amount], failed)
      == Received(cash, paid, failed)[a := Amount(Received(cash, paid, failed), a) + if a in failed then 0 else amount]
  {}

  lemma DeliveredTurn(cash: map<Address, int>, out: map<Address, int>, failed: set<Address>, a: Address, amount: int)
    requires a !in out
    ensures Delivered(cash, out[a := amount], failed) == Delivered(cash, out, failed)[
      a := if a in failed || amount > Amount(Delivered(cash, out, failed), a) then Amount(Delivered(cash, out, failed), a)
           else Amount(Delivered(cash, out, failed), a) - amount]
  {}

  /** The transfers together leave the cash a settlement states. */
  lemma SettleCash(b: Batch, answers: Answers)
    ensures Delivered(Received(b.pool.cash, b.flows.paid, answers.unpaid), b.flows.out, answers.undelivered) == Settle(b, answers).cash
  {}

  lemma {:induction false} SameCalculate(b: Batch, c: Batch, u: Positions, scalar: int, k: nat)
    requires c.pool == b.pool.(accounts := c.pool.accounts) && c.cache == b.cache && k <= |b.pool.resList|
    ensures Calculate(c, u, scalar, k) == Calculate(b, u, scalar, k)
    decreases k
  {
    hide Load;
    hide Weigh;
    if k > 0 {
      SameCalculate(b, c, u, scalar, k - 1);
    }
  }

  lemma {:induction false} BidStopsAt(p: Pool, m: map<Address, int>, quote: Quote, k: nat, n: nat)
    requires k <= n <= |p.resList| && DebtBid(p, m, quote, k).Abort?
    ensures DebtBid(p, m, quote, n) == Abort(DebtBid(p, m, quote, k).error)
    decreases n
  {
    hide PoolStates.LoadReserve;
    if k < n { BidStopsAt(p, m, quote, k, n - 1); }
  }

  lemma SameLists(p: Pool, q: Pool)
    requires Listed(q) && p.bstopRate == q.bstopRate && p.configs == q.configs && p.data == q.data && p.resList == q.resList
    ensures Listed(p)
  {
    hide ValidMetadata;
  }

  /** The sender's positions are those in memory, everyone else's those stored. */
  lemma CurrentPositions(p: Pool, from: Address, q: Positions, other: Address)
    requires other != from
    ensures PositionsOf(p.(accounts := p.accounts[from := q]), from) == q
    ensures PositionsOf(p.(accounts := p.accounts[from := q]), other) == PositionsOf(p, other)
  {}

  lemma Overwrites(accounts: map<Address, Positions>, from: Address, q: Positions, f: Positions, other: Address, u: Positions)
    ensures accounts[from := q][other := u][from := f] == accounts[other := u][from := f]
  {}

  lemma SameLoad(b: Batch, c: Batch, a: Address)
    requires c.pool == b.pool.(cash := c.pool.cash)
    ensures LoadReserve(c, a) == LoadReserve(b.(cache := c.cache), a)
  {
    hide Load;
  }

  lemma CashAt(cash: map<Address, int>, lot: map<Address, int>, a: Address)
    requires a !in lot
    ensures Amount(HandOut(cash, lot), a) == Amount(cash, a) && (a in HandOut(cash, lot) <==> a in cash)
  {}
}
