/** Runs of the lending pool: submissions, auctions, administration and time, and what holds in every state
    they reach. */
module LendingPoolRuns {
  import opened Outcomes
  import opened FixedPoint
  import opened Totals
  import opened Interest
  import opened Reserves
  import opened Auctions
  import opened PoolUsers
  import opened PoolStates
  import opened LendingPools
  import opened LendingPoolProofs
  import opened LendingPoolAuctionProofs
  import opened Liquidations

  // ----- submissions -----

  lemma {:induction false} TurnKeeps(b: Batch, from: Address, q: Request, reply: Reply)
    requires BatchOk(b) && Turn(b, from, q, reply).Ok?
    ensures BatchKept(b, Turn(b, from, q, reply).value)
  {
    hide Books;
    hide Funded;
    hide CreditOk;
    hide PerformRequest;
    hide FillLiquidation;
    hide FillBadDebt;
    hide FillInterest;
    if q.kind <= 5 {
      PerformRequestKeeps(b, from, q);
    } else if q.kind == 6 {
      FillLiquidationKeeps(b, from, q.address, q.amount % U64_LIMIT);
    } else if q.kind == 7 {
      FillBadDebtKeeps(b, from, q.address, q.amount % U64_LIMIT, reply);
    } else if q.kind == 8 {
      FillInterestKeeps(b, from, q.address, q.amount % U64_LIMIT, reply);
    } else if q.kind == 9 {
      var n := DeleteLiquidation(b, from).value;
      AuctionsIrrelevant(b.pool, n.pool, View(b), b.flows);
      assert View(n) == View(b);
    }
  }

  lemma ReservesAside(p: Pool, q: Pool, view: map<Address, ReserveData>)
    requires ReservesOk(p, view) && q.configs == p.configs && q.now == p.now
    ensures ReservesOk(q, view)
  {
    hide ReserveOk;
  }

  lemma StartKeeps(p: Pool, from: Address)
    requires BooksOk(p)
    ensures BatchOk(Start(p, from)) && View(Start(p, from)) == p.data
    ensures Preserves(p, p.data, NoFlows(), Start(p, from).pool, p.data, NoFlows())
  {
    hide Listed;
    hide ReservesOk;
    hide AccountsOk;
    hide Funded;
    hide CreditOk;
    hide SupplyAt;
    hide DebtAt;
    hide TotalB;
    hide TotalD;
    var b := Start(p, from);
    assert View(b) == p.data;
    KeysAgree(p);
    HoldersOk(p, from);
    ChangeAccount(p, from, PositionsOf(p, from));
    SameBooks(p, b.pool, p.data, NoFlows());
    forall i: nat
      ensures TotalB(b.pool.accounts, i) == SupplyAt(b.pool.resList, p.data, i)
      ensures TotalD(b.pool.accounts, i) == DebtAt(b.pool.resList, p.data, i)
    {
      TotalsMove(p, from, PositionsOf(p, from), i);
      assert TotalB(p.accounts, i) == SupplyAt(p.resList, p.data, i);
    }
    assert SharesAgree(b.pool, p.data);
    assert ReservesOk(b.pool, p.data) by { ReservesAside(p, b.pool, p.data); }
  }

  lemma {:induction false} ProcessKeeps(p: Pool, from: Address, requests: seq<Request>, replies: seq<Reply>, k: nat)
    requires BooksOk(p) && k <= |requests| && Process(p, from, requests, replies, k).Ok?
    ensures var b := Process(p, from, requests, replies, k).value;
      BatchOk(b) && Preserves(p, p.data, NoFlows(), b.pool, View(b), b.flows)
    decreases k
  {
    hide Turn;
    hide BatchOk;
    hide Books;
    hide Funded;
    hide CreditOk;
    hide View;
    hide ReplyTo;
    if k == 0 {
      StartKeeps(p, from);
      return;
    }
    ProcessKeeps(p, from, requests, replies, k - 1);
    TurnKeeps(Process(p, from, requests, replies, k - 1).value, from, requests[k - 1], ReplyTo(replies, k - 1));
  }

  /** What a submission costs an asset: payments it credits but does not get, and debt it writes off. */
  function Missing(b: Batch, answers: Answers, a: Address): int
  {
    (if a in answers.unpaid then Amount(b.flows.paid, a) else 0) + Amount(b.flows.burned, a)
  }

  /** What the pool sends out of an asset: a transfer that fails, or is beyond its balance, sends nothing. */
  function Sent(b: Batch, answers: Answers, a: Address): int
  {
    var received := Amount(b.pool.cash, a) + if a in answers.unpaid then 0 else Amount(b.flows.paid, a);
    if a in answers.undelivered || Amount(b.flows.out, a) > received then 0 else Amount(b.flows.out, a)
  }

  /** What an asset would have to spare had it got every payment and kept every debt. */
  function Spare(b: Batch, answers: Answers, a: Address): int
  {
    Amount(b.pool.cash, a) + Amount(b.flows.paid, a) + Amount(b.flows.burned, a) - Sent(b, answers, a) - Owed(View(b), a)
  }

  /** What is missing fits into what is to spare, for every asset with something missing. */
  ghost predicate SpareCovers(b: Batch, answers: Answers)
  {
    forall a :: a in answers.unpaid || a in b.flows.burned ==> Missing(b, answers, a) <= Spare(b, answers, a)
  }

  lemma SpareNonNeg(b: Batch, answers: Answers, a: Address)
    requires BatchOk(b) && Funded(b.pool, View(b), b.flows)
    ensures Spare(b, answers, a) >= 0
  {
    hide Owed;
    hide Books;
    assert Owed(View(b), a) <= Gathered(b.pool, b.flows, a);
  }

  lemma CashIs(b: Batch, answers: Answers, a: Address)
    requires a !in b.pool.cash && a !in b.flows.paid && a !in b.flows.out ==> CashAfter(b, answers, a) == 0
    ensures Amount(Settle(b, answers).cash, a) - Owed(View(b), a) == Spare(b, answers, a) - Missing(b, answers, a)
  {
    hide Owed;
  }

  /** When a submission keeps the pool solvent: it leaves each asset exactly what it had to spare less what is
      missing, so exactly when nothing missing exceeds what is to spare, which is never negative. */
  lemma {:induction false} SubmitExact(p: Pool, from: Address, spender: Address, to: Address, requests: seq<Request>, answers: Answers)
    requires BooksOk(p) && Solvent(p) && Submit(p, from, spender, to, requests, answers).Ok?
    ensures var b := Process(p, from, requests, answers.replies, |requests|).value;
      var q := Submit(p, from, spender, to, requests, answers).value;
      && (forall a: Address :: Spare(b, answers, a) >= 0
            && Amount(q.cash, a) - Owed(q.data, a) == Spare(b, answers, a) - Missing(b, answers, a))
      && (Solvent(q) <==> SpareCovers(b, answers))
  {
    hide Process;
    hide Books;
    hide Owed;
    hide Spare;
    hide HealthAfter;
    hide CashAfter;
    ProcessKeeps(p, from, requests, answers.replies, |requests|);
    var b := Process(p, from, requests, answers.replies, |requests|).value;
    var q := Submit(p, from, spender, to, requests, answers).value;
    forall a: Address
      ensures Spare(b, answers, a) >= 0
      ensures Amount(q.cash, a) - Owed(q.data, a) == Spare(b, answers, a) - Missing(b, answers, a)
      ensures Gathered(q, NoFlows(), a) == Amount(q.cash, a)
    {
      SpareNonNeg(b, answers, a);
      NoCash(b, answers, a);
      CashIs(b, answers, a);
    }
    hide BatchOk;
    hide Missing;
    hide Settle;
    hide Gathered;
    hide Funded;
    SolventMeans(q);
    assert forall a: Address :: a !in answers.unpaid && a !in b.flows.burned ==> Missing(b, answers, a) == 0 by {
      NothingMissing(b, answers);
    }
  }

  lemma NothingMissing(b: Batch, answers: Answers)
    ensures forall a: Address :: a !in answers.unpaid && a !in b.flows.burned ==> Missing(b, answers, a) == 0
  {}

  lemma NoCash(b: Batch, answers: Answers, a: Address)
    ensures a !in b.pool.cash && a !in b.flows.paid && a !in b.flows.out ==> CashAfter(b, answers, a) == 0
  {}

  lemma SolventMeans(q: Pool)
    ensures Solvent(q) <==> forall a: Address :: Owed(q.data, a) <= Amount(q.cash, a)
  {
    hide Owed;
    if Solvent(q) {
      forall a: Address
        ensures Owed(q.data, a) <= Amount(q.cash, a)
      {
        assert Owed(q.data, a) <= Gathered(q, NoFlows(), a);
      }
    }
  }

  /** Whatever transfers fail and debt is written off, a submission leaves each asset short by at most what is
      missing. */
  lemma SubmitShortfall(p: Pool, from: Address, spender: Address, to: Address, requests: seq<Request>, answers: Answers, a: Address)
    requires BooksOk(p) && Solvent(p) && Submit(p, from, spender, to, requests, answers).Ok?
    ensures var b := Process(p, from, requests, answers.replies, |requests|).value;
      var q := Submit(p, from, spender, to, requests, answers).value;
      Owed(q.data, a) <= Amount(q.cash, a) + Missing(b, answers, a)
  {
    SubmitExact(p, from, spender, to, requests, answers);
    hide *;
  }

  /** Storing a view of the reserves and any cash keeps the books and the credit. */
  lemma StoreKeeps(p: Pool, q: Pool, view: map<Address, ReserveData>)
    requires Books(p, view) && view.Keys == p.data.Keys && q == p.(data := view, cash := q.cash)
    ensures BooksOk(q) && (CreditOk(p, view) ==> CreditCovers(q))
  {
    hide ReserveOk;
    hide ValidMetadata;
    hide PositionsOk;
    hide Covered;
    hide TotalB;
    hide TotalD;
  }

  /** Any submission keeps the books in order and the credit covered. */
  lemma {:induction false} SubmitBooks(p: Pool, from: Address, spender: Address, to: Address, requests: seq<Request>, answers: Answers)
    requires BooksOk(p) && Submit(p, from, spender, to, requests, answers).Ok?
    ensures BooksOk(Submit(p, from, spender, to, requests, answers).value)
    ensures CreditCovers(p) ==> CreditCovers(Submit(p, from, spender, to, requests, answers).value)
  {
    hide Books;
    hide Funded;
    hide CreditOk;
    hide Process;
    hide CashAfter;
    hide HealthAfter;
    var b := Process(p, from, requests, answers.replies, |requests|).value;
    ProcessKeeps(p, from, requests, answers.replies, |requests|);
    StoreKeeps(b.pool, Submit(p, from, spender, to, requests, answers).value, View(b));
  }

  /** A submission whose incoming transfers succeed and that writes nothing off keeps all of the invariant. */
  lemma {:induction false} SubmitKeeps(p: Pool, from: Address, spender: Address, to: Address, requests: seq<Request>, answers: Answers)
    requires PoolOk(p) && Submit(p, from, spender, to, requests, answers).Ok? && answers.unpaid == {}
    requires Process(p, from, requests, answers.replies, |requests|).value.flows.burned == map[]
    ensures PoolOk(Submit(p, from, spender, to, requests, answers).value)
  {
    hide BooksOk;
    hide Solvent;
    hide CreditCovers;
    hide Submit;
    hide Process;
    hide Missing;
    hide Spare;
    SubmitBooks(p, from, spender, to, requests, answers);
    SubmitExact(p, from, spender, to, requests, answers);
  }

  // ----- auctions -----

  lemma {:induction false} LotIsCovered(p: Pool, assets: seq<Address>, quote: Quote, k: nat)
    requires Listed(p) && k <= |assets| && InterestLot(p, assets, quote, k).Ok?
    ensures forall a :: a in InterestLot(p, assets, quote, k).value.0 ==>
      a in p.data && InterestLot(p, assets, quote, k).value.0[a] > 0
      && Covered(p.configs[a], p.bstopRate, p.data[a], p.now, InterestLot(p, assets, quote, k).value.0[a])
    decreases k
  {
    hide Load;
    hide Floor;
    hide Listed;
    if k == 0 {
      return;
    }
    LotIsCovered(p, assets, quote, k - 1);
  }

  lemma {:induction false} CreateInterestKeeps(p: Pool, assets: seq<Address>, quote: Quote)
    requires BooksOk(p) && CreateInterest(p, assets, quote).Ok?
    ensures PoolKept(p, CreateInterest(p, assets, quote).value)
  {
    hide InterestLot;
    hide Floor;
    hide DivFloor;
    hide Pow10;
    hide Listed;
    hide ReservesOk;
    hide AccountsOk;
    hide Funded;
    hide SharesAgree;
    hide Covered;
    KeysAgree(p);
    var q := CreateInterest(p, assets, quote).value;
    LotIsCovered(p, assets, quote, |assets|);
    InterestAside(p, q);
  }

  /** Only the cover of the interest auction speaks of it. */
  lemma InterestAside(p: Pool, q: Pool)
    requires BooksOk(p) && q == p.(interest := q.interest)
    ensures BooksOk(q) && (Solvent(p) ==> Solvent(q))
  {
    hide Owed;
    hide ReserveOk;
    hide ValidMetadata;
    hide PositionsOk;
    hide TotalB;
    hide TotalD;
  }

  // ----- time and administration -----

  /** A lot entry covered now stays covered at every later time. */
  lemma {:induction false} CoveredLater(c: ReserveConfig, bstopRate: nat, r: ReserveData, now: nat, later: nat, lot: int)
    requires ReserveOk(r) && ValidMetadata(c) && bstopRate < SCALAR_7 && r.lastTime <= now <= later
    requires Covered(c, bstopRate, r, now, lot)
    ensures Covered(c, bstopRate, r, later, lot)
  {
    if Load(c, bstopRate, r, later).Ok? {
      LoadSucceeds(c, bstopRate, r, now);
      LoadSucceeds(c, bstopRate, r, later);
      if now == r.lastTime {
        LoadedIsCurrent(c, bstopRate, r, now);
      }
      LoadMonotone(c, bstopRate, r, now, later);
    }
    hide Load;
    hide ReserveOk;
    hide ValidMetadata;
  }

  /** A higher backstop take never lowers the credit a reserve loads. */
  lemma CoveredAtHigherTake(c: ReserveConfig, rate: nat, higher: nat, r: ReserveData, now: nat, lot: int)
    requires ReserveOk(r) && ValidMetadata(c) && rate <= higher < SCALAR_7 && r.lastTime <= now
    requires Covered(c, rate, r, now, lot)
    ensures Covered(c, higher, r, now, lot)
  {
    hide Floor;
    hide Ceil;
    if Load(c, higher, r, now).Ok? {
      LoadSucceeds(c, rate, r, now);
      LoadSucceeds(c, higher, r, now);
      if now != r.lastTime && r.bSupply != 0 {
        UtilizationDefined(r);
        var util := Utilization(r).value;
        if util != 0 {
          AccrualMonotone(c, util, util, r.irMod, r.lastTime, now, now);
          var ratio := CalcAccrual(c, util, r.irMod, r.lastTime, now).value.0;
          hide CalcAccrual;
          ApplyAccrualKeeps(r, rate, ratio);
          ApplyAccrualKeeps(r, higher, ratio);
          hide ApplyAccrual;
          InterestMonotone(r, ratio, ratio);
          MulMono(rate, higher, InterestAt(r, ratio));
          FloorMono(InterestAt(r, ratio) * rate, InterestAt(r, ratio) * higher, SCALAR_7);
        }
      }
    }
  }

  function Tick(p: Pool, seconds: nat, blocks: nat): Pool
  {
    p.(now := p.now + seconds, block := p.block + blocks)
  }

  function Receive(p: Pool, asset: Address, amount: nat): Pool
  {
    p.(cash := p.cash[asset := Amount(p.cash, asset) + amount])
  }

  /** Nothing about reserves or cash moved. */
  lemma StillOk(p: Pool, q: Pool)
    requires BooksOk(p) && q == p.(now := q.now, block := q.block, status := q.status, bstopRate := q.bstopRate)
    requires q.now >= p.now && q.bstopRate < SCALAR_7
    ensures BooksOk(q) && (Solvent(p) ==> Solvent(q))
  {
    hide Owed;
    hide ReserveOk;
    hide ValidMetadata;
    hide PositionsOk;
    hide TotalB;
    hide TotalD;
  }

  lemma TickKeeps(p: Pool, seconds: nat, blocks: nat)
    requires BooksOk(p)
    ensures PoolKept(p, Tick(p, seconds, blocks))
  {
    var q := Tick(p, seconds, blocks);
    StillOk(p, q);
    hide Covered;
    hide ReserveOk;
    hide ValidMetadata;
    hide AccountsOk;
    hide SharesAgree;
    hide Funded;
    if CreditCovers(p) && p.interest.Some? {
      forall a | a in p.interest.value.lot
        ensures Covered(q.configs[a], q.bstopRate, q.data[a], q.now, q.interest.value.lot[a])
      {
        CoveredLater(p.configs[a], p.bstopRate, p.data[a], p.now, q.now, p.interest.value.lot[a]);
      }
    }
    hide Listed;
    hide ReservesOk;
  }

  /** What a lot entry needs at a take: the credit there is and, when interest is due, the take's part of it;
      nothing when accruing it aborts. */
  predicate LotFits(c: ReserveConfig, rate: nat, r: ReserveData, now: nat, lot: int)
  {
    if now == r.lastTime || r.bSupply == 0 || r.dSupply == 0 then lot <= r.backstopCredit
    else
      var util := Utilization(r);
      util.Ok? && CalcAccrual(c, util.value, r.irMod, r.lastTime, now).Ok? ==>
        lot <= r.backstopCredit + Floor(InterestAt(r, CalcAccrual(c, util.value, r.irMod, r.lastTime, now).value.0) * rate, SCALAR_7)
  }

  lemma {:induction false} CoveredExactly(c: ReserveConfig, rate: nat, r: ReserveData, now: nat, lot: int)
    requires ReserveOk(r) && ValidMetadata(c) && rate < SCALAR_7 && r.lastTime <= now
    ensures Covered(c, rate, r, now, lot) <==> LotFits(c, rate, r, now, lot)
  {
    hide Floor;
    hide Ceil;
    hide CalcAccrual;
    hide ApplyAccrual;
    if now != r.lastTime && r.bSupply != 0 {
      UtilizationDefined(r);
      var util := Utilization(r).value;
      if util != 0 && CalcAccrual(c, util, r.irMod, r.lastTime, now).Ok? {
        AccrualMonotone(c, util, util, r.irMod, r.lastTime, now, now);
        ApplyAccrualKeeps(r, rate, CalcAccrual(c, util, r.irMod, r.lastTime, now).value.0);
      }
    }
    hide ReserveOk;
    hide ValidMetadata;
    hide Utilization;
  }

  /** Every entry of the stored lot fits at a take. */
  ghost predicate TakeFits(p: Pool, rate: nat)
  {
    p.interest.Some? ==> forall a :: a in p.interest.value.lot && a in p.configs && a in p.data ==>
      LotFits(p.configs[a], rate, p.data[a], p.now, p.interest.value.lot[a])
  }

  /** Any change of the take keeps the books and the solvency. It keeps the stored lot covered exactly when every
      entry fits the new take, as it does at a take that is no lower. */
  lemma {:induction false} UpdateTakeExact(p: Pool, rate: nat)
    requires BooksOk(p) && UpdateTake(p, rate).Ok?
    ensures var q := UpdateTake(p, rate).value;
      && BooksOk(q) && (Solvent(p) ==> Solvent(q))
      && (CreditCovers(p) ==> (CreditCovers(q) <==> TakeFits(p, rate)))
      && (CreditCovers(p) && rate >= p.bstopRate ==> TakeFits(p, rate))
  {
    var q := UpdateTake(p, rate).value;
    StillOk(p, q);
    hide Covered;
    hide LotFits;
    hide ReserveOk;
    hide ValidMetadata;
    hide AccountsOk;
    hide SharesAgree;
    hide Funded;
    if p.interest.Some? {
      forall a | a in p.interest.value.lot && a in p.configs && a in p.data
        ensures Covered(q.configs[a], rate, q.data[a], q.now, q.interest.value.lot[a])
          <==> LotFits(p.configs[a], rate, p.data[a], p.now, p.interest.value.lot[a])
        ensures rate >= p.bstopRate && Covered(p.configs[a], p.bstopRate, p.data[a], p.now, p.interest.value.lot[a]) ==>
          Covered(q.configs[a], rate, q.data[a], q.now, q.interest.value.lot[a])
      {
        CoveredExactly(p.configs[a], rate, p.data[a], p.now, p.interest.value.lot[a]);
        if rate >= p.bstopRate && Covered(p.configs[a], p.bstopRate, p.data[a], p.now, p.interest.value.lot[a]) {
          CoveredAtHigherTake(p.configs[a], p.bstopRate, rate, p.data[a], p.now, p.interest.value.lot[a]);
        }
      }
    }
    hide Listed;
    hide ReservesOk;
  }

  /** In particular all of the invariant holds after a change of the take while no interest auction is stored, and
      after one that does not lower it. */
  lemma {:induction false} UpdateTakeKeeps(p: Pool, rate: nat)
    requires PoolOk(p) && UpdateTake(p, rate).Ok? && (p.interest.Some? ==> rate >= p.bstopRate)
    ensures PoolOk(UpdateTake(p, rate).value)
  {
    UpdateTakeExact(p, rate);
    hide BooksOk;
    hide Solvent;
    hide CreditCovers;
    hide LotFits;
  }

  lemma ReceiveKeeps(p: Pool, asset: Address, amount: nat)
    requires BooksOk(p)
    ensures PoolKept(p, Receive(p, asset, amount))
  {
    var q := Receive(p, asset, amount);
    KeysAgree(p);
    StoreKeeps(p, q, p.data);
    hide Books;
    hide CreditOk;
    hide Owed;
    if Solvent(p) {
      forall a: Address
        ensures Owed(p.data, a) <= Gathered(q, NoFlows(), a)
      {
        assert Owed(p.data, a) <= Gathered(p, NoFlows(), a);
      }
    }
  }

  /** Bad debt only changes hands. */
  lemma {:induction false} MoveBadDebtKeeps(p: Pool, user: Address)
    requires BooksOk(p) && MoveBadDebt(p, user).Ok?
    ensures PoolKept(p, MoveBadDebt(p, user).value)
  {
    hide Books;
    hide Funded;
    hide CreditOk;
    hide LoadAll;
    hide PositionsOf;
    var q := MoveBadDebt(p, user).value;
    var assets := AssetsOf(p.resList, PositionsOf(p, user).liabilities);
    var cache := LoadAll(Idle(p), assets).value;
    BooksAt(p, p.data, 0, user);
    BooksAt(p, p.data, 0, p.backstop);
    var (pu, pb) := (q.accounts[user], q.accounts[p.backstop]);
    DebtMoves(p, user, pu, pb);
    hide PositionsOk;
    hide BTokens;
    hide DTokens;
    LoadsKeep(p, assets);
    TransferKeeps(p, p.data + cache, NoFlows(), p.backstop, user, pb, pu);
    StoreView(p.(accounts := p.accounts[p.backstop := pb][user := pu]), q, p.data + cache);
  }

  /** Loading reserves outside a submission. */
  lemma LoadsKeep(p: Pool, assets: set<Address>)
    requires BooksOk(p) && LoadAll(Idle(p), assets).Ok?
    ensures LoadAll(Idle(p), assets).value.Keys <= p.data.Keys
    ensures Preserves(p, p.data, NoFlows(), p, p.data + LoadAll(Idle(p), assets).value, NoFlows())
  {
    hide Books;
    hide Funded;
    hide CreditOk;
    hide LoadAll;
    assert View(Idle(p)) == p.data;
    LoadAllKeeps(Idle(p), assets);
  }

  lemma DebtMoves(p: Pool, user: Address, pu: Positions, pb: Positions)
    requires PositionsOk(PositionsOf(p, user)) && PositionsOk(PositionsOf(p, p.backstop))
    requires var (u, b) := (PositionsOf(p, user), PositionsOf(p, p.backstop));
      && pu == u.(liabilities := map[])
      && pb == b.(liabilities := Merged(b.liabilities, u.liabilities))
    ensures PositionsOk(pu) && PositionsOk(pb)
    ensures forall i: nat :: BTokens(pb, i) + BTokens(pu, i) == BTokens(PositionsOf(p, p.backstop), i) + BTokens(PositionsOf(p, user), i)
    ensures forall i: nat :: DTokens(pb, i) + DTokens(pu, i) == DTokens(PositionsOf(p, p.backstop), i) + DTokens(PositionsOf(p, user), i)
  {
    hide PositionsOf;
  }

  lemma StoreView(p: Pool, q: Pool, view: map<Address, ReserveData>)
    requires Books(p, view) && view.Keys == p.data.Keys && q == p.(data := view)
    ensures Preserves(p, view, NoFlows(), q, q.data, NoFlows())
  {
    StoreKeeps(p, q, view);
    hide Books;
    hide CreditOk;
    hide Owed;
  }

  /** A validated configuration for an up-to-date reserve, with or without a fresh rate modifier. */
  ghost predicate Reconfigured(p: Pool, q: Pool, asset: Address)
  {
    && asset in p.configs && asset in p.data && asset in q.configs && asset in q.data
    && q == p.(configs := p.configs[asset := q.configs[asset]], data := p.data[asset := q.data[asset]])
    && ValidMetadata(q.configs[asset]) && q.configs[asset].index == p.configs[asset].index
    && p.data[asset].lastTime == p.now
    && q.data[asset] == p.data[asset].(irMod := q.data[asset].irMod) && IR_MOD_MIN <= q.data[asset].irMod <= IR_MOD_MAX
  }

  lemma ReconfigureKeeps(p: Pool, q: Pool, asset: Address)
    requires BooksOk(p) && Reconfigured(p, q, asset)
    ensures PoolKept(p, q)
  {
    assert Listed(q) && ReservesOk(q, q.data) && AccountsOk(q) by { ReconfigureBooks(p, q, asset); }
    assert SharesAgree(q, q.data) by { ReconfigureShares(p, q, asset); }
    assert Solvent(p) ==> Solvent(q) by { ReconfigureFunds(p, q, asset); }
    assert CreditCovers(p) ==> CreditCovers(q) by { ReconfigureCredit(p, q, asset); }
    hide Listed;
    hide ReservesOk;
    hide AccountsOk;
    hide SharesAgree;
    hide Funded;
    hide CreditOk;
    hide Reconfigured;
  }

  lemma ReconfigureBooks(p: Pool, q: Pool, asset: Address)
    requires BooksOk(p) && Reconfigured(p, q, asset)
    ensures Listed(q) && ReservesOk(q, q.data) && AccountsOk(q)
  {
    ReconfigureReserves(p, q, asset);
    hide ValidMetadata;
    hide ReserveOk;
    hide PositionsOk;
    hide SharesAgree;
    hide ReservesOk;
  }

  lemma ReconfigureReserves(p: Pool, q: Pool, asset: Address)
    requires ReservesOk(p, p.data) && Reconfigured(p, q, asset)
    ensures ReservesOk(q, q.data)
  {
    hide ValidMetadata;
  }

  lemma ReconfigureFunds(p: Pool, q: Pool, asset: Address)
    requires Reconfigured(p, q, asset)
    ensures Solvent(p) ==> Solvent(q)
  {
    hide Floor;
    hide Ceil;
    hide ValidMetadata;
    forall a: Address
      ensures Owed(q.data, a) == Owed(p.data, a)
    {
    }
    hide Owed;
  }

  lemma ReconfigureShares(p: Pool, q: Pool, asset: Address)
    requires Reconfigured(p, q, asset) && SharesAgree(p, p.data)
    ensures SharesAgree(q, q.data)
  {
    hide ValidMetadata;
    hide TotalB;
    hide TotalD;
  }

  lemma ReconfigureCredit(p: Pool, q: Pool, asset: Address)
    requires Reconfigured(p, q, asset)
    ensures CreditCovers(p) ==> CreditCovers(q)
  {
    hide ValidMetadata;
    LoadedIsCurrent(p.configs[asset], p.bstopRate, p.data[asset], p.now);
    LoadedIsCurrent(q.configs[asset], q.bstopRate, q.data[asset], q.now);
    hide Load;
  }

  /** A new asset takes the next index, starts empty and owes nothing. */
  lemma AddReserveKeeps(p: Pool, asset: Address, config: ReserveConfig)
    requires BooksOk(p) && asset !in p.configs && ValidMetadata(config)
    ensures PoolKept(p, p.(resList := p.resList + [asset],
                           configs := p.configs[asset := config.(index := |p.resList|)],
                           data := p.data[asset := NEW_RESERVE.(lastTime := p.now)]))
  {
    var q := p.(resList := p.resList + [asset],
                configs := p.configs[asset := config.(index := |p.resList|)],
                data := p.data[asset := NEW_RESERVE.(lastTime := p.now)]);
    assert Listed(q) && ReservesOk(q, q.data) && AccountsOk(q) by { AddReserveBooks(p, q, asset, config); }
    assert SharesAgree(q, q.data) by { AddReserveShares(p, q, asset, config); }
    assert Solvent(p) ==> Solvent(q) by { AddReserveFunds(p, q, asset, config); }
    assert CreditCovers(p) ==> CreditCovers(q) by { AddReserveCredit(p, q, asset, config); }
    hide Listed;
    hide ReservesOk;
    hide AccountsOk;
    hide SharesAgree;
    hide Funded;
    hide CreditOk;
    hide ValidMetadata;
  }

  ghost predicate Extended(p: Pool, q: Pool, asset: Address, config: ReserveConfig)
  {
    && asset !in p.configs && ValidMetadata(config)
    && q == p.(resList := p.resList + [asset],
               configs := p.configs[asset := config.(index := |p.resList|)],
               data := p.data[asset := NEW_RESERVE.(lastTime := p.now)])
  }

  lemma AddReserveBooks(p: Pool, q: Pool, asset: Address, config: ReserveConfig)
    requires BooksOk(p) && Extended(p, q, asset, config)
    ensures Listed(q) && ReservesOk(q, q.data) && AccountsOk(q)
  {
    hide PositionsOk;
    hide SharesAgree;
    assert ValidMetadata(config.(index := |p.resList|));
    assert ReserveOk(NEW_RESERVE.(lastTime := p.now));
    hide ValidMetadata;
    hide ReserveOk;
  }

  lemma NothingOwedYet(now: nat)
    ensures NetOwed(NEW_RESERVE.(lastTime := now)) == 0
  {
    hide Floor;
    hide Ceil;
    FloorExact(0, SCALAR_9);
    var r := NEW_RESERVE.(lastTime := now);
    assert TotalSupply(r) == 0;
    assert TotalLiabilities(r) == 0;
  }

  lemma AddReserveFunds(p: Pool, q: Pool, asset: Address, config: ReserveConfig)
    requires p.configs.Keys == p.data.Keys && Extended(p, q, asset, config)
    ensures Solvent(p) ==> Solvent(q)
  {
    hide ValidMetadata;
    hide NetOwed;
    NothingOwedYet(p.now);
    if Solvent(p) {
      forall a: Address
        ensures Owed(q.data, a) <= Gathered(q, NoFlows(), a)
      {
        assert Owed(p.data, a) <= Gathered(p, NoFlows(), a);
      }
    }
  }

  lemma AddReserveShares(p: Pool, q: Pool, asset: Address, config: ReserveConfig)
    requires p.configs.Keys == p.data.Keys && Extended(p, q, asset, config) && SharesAgree(p, p.data)
    requires forall i :: 0 <= i < |p.resList| ==> p.resList[i] in p.configs
    ensures SharesAgree(q, q.data)
  {
    hide ValidMetadata;
    hide TotalB;
    hide TotalD;
    forall i: nat
      ensures TotalB(q.accounts, i) == SupplyAt(q.resList, q.data, i) && TotalD(q.accounts, i) == DebtAt(q.resList, q.data, i)
    {
      assert TotalB(p.accounts, i) == SupplyAt(p.resList, p.data, i);
    }
  }

  lemma AddReserveCredit(p: Pool, q: Pool, asset: Address, config: ReserveConfig)
    requires p.configs.Keys == p.data.Keys && Extended(p, q, asset, config)
    ensures CreditCovers(p) ==> CreditCovers(q)
  {
    hide ValidMetadata;
    hide Covered;
  }

  lemma {:induction false} SetReserveKeeps(p: Pool, asset: Address, config: ReserveConfig)
    requires BooksOk(p) && SetReserve(p, asset, config).Ok?
    ensures PoolKept(p, SetReserve(p, asset, config).value)
  {
    hide Books;
    hide Funded;
    hide CreditOk;
    hide Load;
    hide ReserveOk;
    BooksAt(p, p.data, 0, 0);
    if asset in p.configs {
      var r := Load(p.configs[asset], p.bstopRate, p.data[asset], p.now).value;
      Refresh(p, p.data, p.data[asset := r], NoFlows());
      LoadTime(p.configs[asset], p.bstopRate, p.data[asset], p.now);
      var loaded := p.(data := p.data[asset := r]);
      StoreView(p, loaded, p.data[asset := r]);
      BooksAt(loaded, loaded.data, asset, 0);
      ModifierInRange(r);
      ReconfigureKeeps(loaded, SetReserve(p, asset, config).value, asset);
    } else {
      AddReserveKeeps(p, asset, config);
    }
  }

  lemma ModifierInRange(r: ReserveData)
    requires ReserveOk(r)
    ensures IR_MOD_MIN <= r.irMod <= IR_MOD_MAX
  {}

  // ----- runs -----

  datatype Action =
    | Wait(seconds: nat, blocks: nat)
    | UserSubmits(from: Address, spender: Address, to: Address, requests: seq<Request>, answers: Answers)
    | InterestAuctioned(assets: seq<Address>, quote: Quote)
    | BadDebtAuctioned(quote: Quote)
    | UserLiquidated(user: Address, percent: int, decimals: nat)
    | BadDebtMoved(user: Address)
    | ReserveSet(asset: Address, config: ReserveConfig)
    | TakeSet(rate: nat)
    | StatusSet(status: nat)
    | TokensReceived(asset: Address, amount: nat)
    // auctions are kept in temporary storage, which can run out
    | InterestLapses
    | BadDebtLapses
    | LiquidationLapses(user: Address)

  function Attempt(p: Pool, a: Action): Outcome<Pool>
  {
    match a
    case Wait(seconds, blocks) => Ok(Tick(p, seconds, blocks))
    case UserSubmits(from, spender, to, requests, answers) => Submit(p, from, spender, to, requests, answers)
    case InterestAuctioned(assets, quote) => CreateInterest(p, assets, quote)
    case BadDebtAuctioned(quote) => CreateBadDebt(p, quote)
    case UserLiquidated(user, percent, decimals) => CreateLiquidation(p, user, percent, decimals)
    case BadDebtMoved(user) => MoveBadDebt(p, user)
    case ReserveSet(asset, config) => SetReserve(p, asset, config)
    case TakeSet(rate) => UpdateTake(p, rate)
    case StatusSet(status) => Ok(p.(status := status))
    case TokensReceived(asset, amount) => Ok(Receive(p, asset, amount))
    case InterestLapses => Ok(p.(interest := None))
    case BadDebtLapses => Ok(p.(badDebt := None))
    case LiquidationLapses(user) => Ok(p.(liquidations := p.liquidations - {user}))
  }

  /** An aborted call leaves the pool as it was. */
  function Step(p: Pool, a: Action): Pool
  {
    if Attempt(p, a).Ok? then Attempt(p, a).value else p
  }

  function Run(p: Pool, actions: seq<Action>): Pool
    decreases |actions|
  {
    if actions == [] then p else Step(Run(p, actions[..|actions| - 1]), actions[|actions| - 1])
  }

  /** A submission that goes through misses no more than there is to spare. */
  ghost predicate Delivers(p: Pool, a: Action)
  {
    a.UserSubmits? && Submit(p, a.from, a.spender, a.to, a.requests, a.answers).Ok? ==>
      SpareCovers(Process(p, a.from, a.requests, a.answers.replies, |a.requests|).value, a.answers)
  }

  /** A change of the take that goes through fits the stored lot. */
  ghost predicate Fits(p: Pool, a: Action)
  {
    a.TakeSet? && UpdateTake(p, a.rate).Ok? ==> TakeFits(p, a.rate)
  }

  /** Every step keeps the books in order. It keeps the pool solvent exactly when it is not a submission that
      misses more than there is to spare, and the credit covered exactly when it is not a change of the take
      that the stored lot does not fit. */
  ghost predicate StepExact(p: Pool, a: Action, q: Pool)
  {
    && BooksOk(q)
    && (Solvent(p) ==> (Solvent(q) <==> Delivers(p, a)))
    && (CreditCovers(p) ==> (CreditCovers(q) <==> Fits(p, a)))
  }

  lemma {:induction false} StepKeeps(p: Pool, a: Action)
    requires BooksOk(p)
    ensures StepExact(p, a, Step(p, a))
  {
    hide Books;
    hide Funded;
    hide CreditOk;
    hide Submit;
    hide Process;
    hide SpareCovers;
    hide TakeFits;
    hide CreateInterest;
    hide CreateBadDebt;
    hide LiquidationAuction;
    hide MoveBadDebt;
    hide SetReserve;
    hide UpdateTake;
    hide Tick;
    hide Receive;
    if Attempt(p, a).Ok? {
      match a
      case Wait(seconds, blocks) => TickKeeps(p, seconds, blocks);
      case UserSubmits(from, spender, to, requests, answers) =>
        SubmitBooks(p, from, spender, to, requests, answers);
        if Solvent(p) {
          SubmitExact(p, from, spender, to, requests, answers);
        }
      case InterestAuctioned(assets, quote) => CreateInterestKeeps(p, assets, quote);
      case BadDebtAuctioned(quote) => BadDebtAside(p, quote);
      case UserLiquidated(user, percent, decimals) =>
        AuctionsAside(p, CreateLiquidation(p, user, percent, decimals).value);
      case BadDebtMoved(user) => MoveBadDebtKeeps(p, user);
      case ReserveSet(asset, config) => SetReserveKeeps(p, asset, config);
      case TakeSet(rate) => UpdateTakeExact(p, rate);
      case StatusSet(status) => StatusAside(p, status);
      case TokensReceived(asset, amount) => ReceiveKeeps(p, asset, amount);
      case InterestLapses => LapseKeeps(p);
      case BadDebtLapses => AuctionsAside(p, p.(badDebt := None));
      case LiquidationLapses(user) => AuctionsAside(p, p.(liquidations := p.liquidations - {user}));
    }
  }

  lemma AuctionsAside(p: Pool, q: Pool)
    requires BooksOk(p) && q == p.(liquidations := q.liquidations, badDebt := q.badDebt)
    ensures PoolKept(p, q)
  {
    hide Books;
    hide Funded;
    hide CreditOk;
    AuctionsIrrelevant(p, q, p.data, NoFlows());
  }

  lemma BadDebtAside(p: Pool, quote: Quote)
    requires BooksOk(p) && CreateBadDebt(p, quote).Ok?
    ensures PoolKept(p, CreateBadDebt(p, quote).value)
  {
    hide DebtBid;
    hide Floor;
    hide DivFloor;
    hide Pow10;
    hide BooksOk;
    hide Solvent;
    hide CreditCovers;
    hide PoolKept;
    AuctionsAside(p, CreateBadDebt(p, quote).value);
  }

  lemma LapseKeeps(p: Pool)
    requires BooksOk(p)
    ensures PoolKept(p, p.(interest := None))
  {
    InterestAside(p, p.(interest := None));
    hide Books;
    hide Funded;
  }

  lemma StatusAside(p: Pool, status: nat)
    requires BooksOk(p)
    ensures PoolKept(p, p.(status := status))
  {
    StillOk(p, p.(status := status));
    hide Funded;
    hide Covered;
    hide AccountsOk;
    hide SharesAgree;
    hide ReservesOk;
  }

  function Earlier(actions: seq<Action>): seq<Action>
    requires actions != []
  {
    actions[..|actions| - 1]
  }

  /** Every state of a run is solvent. */
  ghost predicate SolventThroughout(p: Pool, actions: seq<Action>)
    decreases |actions|
  {
    Solvent(Run(p, actions)) && (actions == [] || SolventThroughout(p, Earlier(actions)))
  }

  /** Every state of a run has its credit covered. */
  ghost predicate CoveredThroughout(p: Pool, actions: seq<Action>)
    decreases |actions|
  {
    CreditCovers(Run(p, actions)) && (actions == [] || CoveredThroughout(p, Earlier(actions)))
  }

  /** Every submission of a run misses no more than there is to spare. */
  ghost predicate AllDelivered(p: Pool, actions: seq<Action>)
    decreases |actions|
  {
    actions == [] ||
    (Delivers(Run(p, Earlier(actions)), actions[|actions| - 1]) && AllDelivered(p, Earlier(actions)))
  }

  /** Every change of the take in a run fits the lot stored then. */
  ghost predicate AllFit(p: Pool, actions: seq<Action>)
    decreases |actions|
  {
    actions == [] ||
    (Fits(Run(p, Earlier(actions)), actions[|actions| - 1]) && AllFit(p, Earlier(actions)))
  }

  /** The books are in order in every state of every run. The pool is solvent throughout exactly when no
      submission misses more than there is to spare, and the credit is covered throughout exactly when every
      change of the take fits the stored lot. */
  lemma {:induction false} RunKeeps(p: Pool, actions: seq<Action>)
    requires BooksOk(p)
    ensures BooksOk(Run(p, actions))
    ensures Solvent(p) ==> (SolventThroughout(p, actions) <==> AllDelivered(p, actions))
    ensures CreditCovers(p) ==> (CoveredThroughout(p, actions) <==> AllFit(p, actions))
    ensures SolventThroughout(p, actions) ==> Solvent(Run(p, actions))
    ensures CoveredThroughout(p, actions) ==> CreditCovers(Run(p, actions))
    decreases |actions|
  {
    hide BooksOk;
    hide Solvent;
    hide CreditCovers;
    hide Step;
    hide Delivers;
    hide Fits;
    if actions == [] {
      return;
    }
    RunKeeps(p, Earlier(actions));
    StepKeeps(Run(p, Earlier(actions)), actions[|actions| - 1]);
  }

  /** A pool as it is initialised. */
  ghost predicate IsGenesis(p: Pool)
  {
    && p.bstopRate < SCALAR_7 && p.resList == [] && p.configs == map[] && p.data == map[] && p.accounts == map[]
    && p.interest == None && p.badDebt == None && p.liquidations == map[] && p.cash == map[]
  }

  lemma GenesisOk(p: Pool)
    requires IsGenesis(p)
    ensures PoolOk(p)
  {
    forall i: nat
      ensures TotalB(p.accounts, i) == 0 && TotalD(p.accounts, i) == 0
    {
      TotalOfNothing(Bs(p.accounts, i));
      TotalOfNothing(Ds(p.accounts, i));
    }
    hide TotalB;
    hide TotalD;
  }

  /** The pool's promise. In every state of every run, whatever transfers fail: the supplies are the sums of the
      users' balances, and no reserve is ahead of the clock, so accrual never takes its branch for a clock running
      backwards. In every state of a run, for every reserve, loaded or as stored, cash and liabilities cover the
      supply and the backstop's credit, exactly when no submission misses more than there is to spare; the
      backstop's take does not matter. */
  lemma {:induction false} PoolIsSolvent(p: Pool, actions: seq<Action>, a: Address)
    requires IsGenesis(p) && a in Run(p, actions).data
    ensures SolventThroughout(p, actions) <==> AllDelivered(p, actions)
    ensures var q := Run(p, actions);
      && a in q.configs && q.data[a].lastTime <= q.now
      && q.data[a].bSupply == TotalB(q.accounts, q.configs[a].index) && q.data[a].dSupply == TotalD(q.accounts, q.configs[a].index)
      && (AllDelivered(p, actions) ==> ReserveCovered(q, a))
  {
    hide Run;
    hide IsGenesis;
    hide BooksOk;
    hide Solvent;
    hide SolventThroughout;
    hide CoveredThroughout;
    hide AllDelivered;
    hide AllFit;
    GenesisOk(p);
    RunKeeps(p, actions);
    BookedReserve(Run(p, actions), a);
    if AllDelivered(p, actions) {
      SolventReserve(Run(p, actions), a);
    }
    hide CreditCovers;
    hide ReserveCovered;
    hide TotalB;
    hide TotalD;
  }

  // ----- runs in which everything arrives -----

  /** No request of a list writes debt off: there is enough behind the pool at every fill of bad debt. */
  predicate KeepsDebt(requests: seq<Request>, replies: seq<Reply>)
  {
    forall k :: 0 <= k < |requests| && requests[k].kind == 7 ==>
      BackstopThreshold(ReplyTo(replies, k).blnd, ReplyTo(replies, k).usdc) >= 3
  }

  /** Every payment of a submission arrives, and none of its requests writes debt off. */
  predicate Complete(a: Action)
  {
    a.UserSubmits? ==> a.answers.unpaid == {} && KeepsDebt(a.requests, a.answers.replies)
  }

  lemma TurnBurnsNothing(b: Batch, from: Address, q: Request, reply: Reply)
    requires Turn(b, from, q, reply).Ok? && (q.kind == 7 ==> BackstopThreshold(reply.blnd, reply.usdc) >= 3)
    ensures Turn(b, from, q, reply).value.flows.burned == b.flows.burned
  {
    hide Scale;
    hide LoadReserve;
    hide LoadAll;
    hide Perform;
    hide MoveBetween;
    hide BackstopThreshold;
    hide HandOut;
    hide DrawCredit;
    if q.kind == 6 {
      var fill := Scale(b.pool.liquidations[q.address], q.amount % U64_LIMIT, b.pool.block).value.0;
      MoveBetweenAside(b, q.address, from, fill.lot, fill.bid);
    } else if q.kind == 7 {
      var fill := Scale(b.pool.badDebt.value, q.amount % U64_LIMIT, b.pool.block).value.0;
      MoveBetweenAside(b, q.address, from, map[], fill.bid);
    }
  }

  lemma {:induction false} ProcessBurnsNothing(p: Pool, from: Address, requests: seq<Request>, replies: seq<Reply>, k: nat)
    requires k <= |requests| && Process(p, from, requests, replies, k).Ok? && KeepsDebt(requests, replies)
    ensures Process(p, from, requests, replies, k).value.flows.burned == map[]
    decreases k
  {
    hide Turn;
    hide BackstopThreshold;
    if k > 0 {
      ProcessBurnsNothing(p, from, requests, replies, k - 1);
      TurnBurnsNothing(Process(p, from, requests, replies, k - 1).value, from, requests[k - 1], ReplyTo(replies, k - 1));
    }
  }

  lemma CompleteDelivers(p: Pool, a: Action)
    requires BooksOk(p) && Solvent(p) && Complete(a)
    ensures Delivers(p, a)
  {
    hide BooksOk;
    hide Solvent;
    hide Submit;
    hide Process;
    hide KeepsDebt;
    hide Spare;
    if a.UserSubmits? && Submit(p, a.from, a.spender, a.to, a.requests, a.answers).Ok? {
      SubmitProcesses(p, a.from, a.spender, a.to, a.requests, a.answers);
      ProcessBurnsNothing(p, a.from, a.requests, a.answers.replies, |a.requests|);
    }
  }

  lemma SubmitProcesses(p: Pool, from: Address, spender: Address, to: Address, requests: seq<Request>, answers: Answers)
    requires Submit(p, from, spender, to, requests, answers).Ok?
    ensures Process(p, from, requests, answers.replies, |requests|).Ok?
  {
    hide Process;
    hide HealthAfter;
    hide Settle;
  }

  /** If every payment arrives and nothing is written off, every state of a run is solvent. */
  lemma {:induction false} CompleteRunsAreSolvent(p: Pool, actions: seq<Action>)
    requires BooksOk(p) && Solvent(p) && forall k :: 0 <= k < |actions| ==> Complete(actions[k])
    ensures SolventThroughout(p, actions)
    decreases |actions|
  {
    hide BooksOk;
    hide Solvent;
    hide CreditCovers;
    hide Step;
    hide Complete;
    hide Delivers;
    hide Fits;
    if actions == [] {
      return;
    }
    var n := |actions| - 1;
    assert forall k :: 0 <= k < n ==> Earlier(actions)[k] == actions[k];
    CompleteRunsAreSolvent(p, Earlier(actions));
    RunKeeps(p, Earlier(actions));
    CompleteDelivers(Run(p, Earlier(actions)), actions[n]);
    StepKeeps(Run(p, Earlier(actions)), actions[n]);
  }

  /** Cash and liabilities cover the supply and the backstop's credit, before and after accrual. */
  ghost predicate ReserveCovered(q: Pool, a: Address)
    requires a in q.data && a in q.configs
  {
    && TotalSupply(q.data[a]) + q.data[a].backstopCredit <= Amount(q.cash, a) + TotalLiabilities(q.data[a])
    && (Load(q.configs[a], q.bstopRate, q.data[a], q.now).Ok? ==>
          var r := Load(q.configs[a], q.bstopRate, q.data[a], q.now).value;
          TotalSupply(r) + r.backstopCredit <= Amount(q.cash, a) + TotalLiabilities(r))
  }

  lemma BookedReserve(q: Pool, a: Address)
    requires BooksOk(q) && a in q.data
    ensures a in q.configs && q.data[a].lastTime <= q.now
    ensures q.data[a].bSupply == TotalB(q.accounts, q.configs[a].index) && q.data[a].dSupply == TotalD(q.accounts, q.configs[a].index)
  {
    hide TotalB;
    hide TotalD;
    hide AccountsOk;
    hide ReserveOk;
    hide ValidMetadata;
    assert TotalB(q.accounts, q.configs[a].index) == SupplyAt(q.resList, q.data, q.configs[a].index);
  }

  lemma SolventReserve(q: Pool, a: Address)
    requires BooksOk(q) && Solvent(q) && a in q.data && a in q.configs
    ensures ReserveCovered(q, a)
  {
    hide Load;
    hide TotalSupply;
    hide TotalLiabilities;
    hide AccountsOk;
    hide SharesAgree;
    assert Owed(q.data, a) <= Gathered(q, NoFlows(), a);
    if Load(q.configs[a], q.bstopRate, q.data[a], q.now).Ok? {
      LoadKeeps(q.configs[a], q.bstopRate, q.data[a], q.now);
    }
  }

  /** The interest auction's promise: in every state of a run the backstop's credit is not negative and a stored lot
      can be paid from the credit its reserves load, although creating the auction stored nothing in them, exactly
      when every change of the take fits the stored lot; failed transfers do not matter. */
  lemma {:induction false} InterestLotIsCovered(p: Pool, actions: seq<Action>, a: Address)
    requires IsGenesis(p)
    ensures CoveredThroughout(p, actions) <==> AllFit(p, actions)
    ensures AllFit(p, actions) ==> LotIsPayable(Run(p, actions), a)
  {
    hide Run;
    hide IsGenesis;
    hide BooksOk;
    hide Solvent;
    hide SolventThroughout;
    hide CoveredThroughout;
    hide AllDelivered;
    hide AllFit;
    GenesisOk(p);
    RunKeeps(p, actions);
    hide Load;
  }

  ghost predicate LotIsPayable(q: Pool, a: Address)
  {
    && (a in q.data ==> q.data[a].backstopCredit >= 0)
    && (q.interest.Some? && a in q.interest.value.lot ==>
          && a in q.data && a in q.configs && 0 <= q.interest.value.lot[a]
          && (Load(q.configs[a], q.bstopRate, q.data[a], q.now).Ok? ==>
                q.interest.value.lot[a] <= Load(q.configs[a], q.bstopRate, q.data[a], q.now).value.backstopCredit))
  }
}
