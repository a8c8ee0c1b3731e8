/** What every step of the lending pool keeps: reserves covered by cash, token supplies that agree with the
    users' balances, and an interest lot the backstop's credit can pay. */
module LendingPoolProofs {
  import opened Outcomes
  import opened FixedPoint
  import opened Totals
  import opened Interest
  import opened Reserves
  import opened PoolUsers
  import opened PoolStates
  import opened LendingPools

  // ----- the invariant -----

  function Bs(accounts: map<Address, Positions>, i: nat): map<Address, int>
  {
    map u | u in accounts :: BTokens(accounts[u], i)
  }

  function Ds(accounts: map<Address, Positions>, i: nat): map<Address, int>
  {
    map u | u in accounts :: DTokens(accounts[u], i)
  }

  /** All users' b and d tokens of the reserve at an index. */
  ghost function TotalB(accounts: map<Address, Positions>, i: nat): int { Total(Bs(accounts, i)) }
  ghost function TotalD(accounts: map<Address, Positions>, i: nat): int { Total(Ds(accounts, i)) }

  function SupplyAt(resList: seq<Address>, view: map<Address, ReserveData>, i: nat): int
  {
    if i < |resList| && resList[i] in view then view[resList[i]].bSupply else 0
  }

  function DebtAt(resList: seq<Address>, view: map<Address, ReserveData>, i: nat): int
  {
    if i < |resList| && resList[i] in view then view[resList[i]].dSupply else 0
  }

  /** The reserve list, the configurations and the reserves name the same assets, one index each. */
  ghost predicate Listed(p: Pool)
  {
    && p.bstopRate < SCALAR_7
    && p.configs.Keys == p.data.Keys
    && (forall i :: 0 <= i < |p.resList| ==> p.resList[i] in p.configs && p.configs[p.resList[i]].index == i)
    && (forall a :: a in p.configs ==>
          p.configs[a].index < |p.resList| && p.resList[p.configs[a].index] == a && ValidMetadata(p.configs[a]))
  }

  ghost predicate ReservesOk(p: Pool, view: map<Address, ReserveData>)
  {
    view.Keys == p.configs.Keys && forall a :: a in view ==> ReserveOk(view[a]) && view[a].lastTime <= p.now
  }

  /** What the pool owes of an asset beyond what it is owed; nothing for an asset it does not list. */
  function Owed(view: map<Address, ReserveData>, a: Address): int
  {
    if a in view then NetOwed(view[a]) else 0
  }

  /** For every asset: cash, with what has been gathered, and liabilities cover the supply and the backstop's
      credit. */
  ghost predicate Funded(p: Pool, view: map<Address, ReserveData>, flows: Flows)
  {
    forall a: Address :: Owed(view, a) <= Gathered(p, flows, a)
  }

  /** The cash there will be once everything gathered has moved, with the debt written off counted back in. */
  function Gathered(p: Pool, flows: Flows, a: Address): int
  {
    Amount(p.cash, a) + Amount(flows.paid, a) - Amount(flows.out, a) + Amount(flows.burned, a)
  }

  ghost predicate SharesAgree(p: Pool, view: map<Address, ReserveData>)
  {
    forall i: nat :: TotalB(p.accounts, i) == SupplyAt(p.resList, view, i) && TotalD(p.accounts, i) == DebtAt(p.resList, view, i)
  }

  ghost predicate AccountsOk(p: Pool)
  {
    forall u :: u in p.accounts ==> PositionsOk(p.accounts[u])
  }

  /** The books of the pool as seen through a view of its reserves: well formed, and in agreement with the users'
      balances. */
  ghost predicate Books(p: Pool, view: map<Address, ReserveData>)
  {
    Listed(p) && ReservesOk(p, view) && AccountsOk(p) && SharesAgree(p, view)
  }

  /** Loaded now, the reserve's credit covers a lot entry. */
  ghost predicate Covered(c: ReserveConfig, bstopRate: nat, r: ReserveData, now: nat, lot: int)
  {
    Load(c, bstopRate, r, now).Ok? ==> lot <= Load(c, bstopRate, r, now).value.backstopCredit
  }

  ghost predicate InterestOk(p: Pool, view: map<Address, ReserveData>)
  {
    p.interest.Some? ==> forall a :: a in p.interest.value.lot ==>
      a in view && a in p.configs && 0 <= p.interest.value.lot[a]
      && Covered(p.configs[a], p.bstopRate, view[a], p.now, p.interest.value.lot[a])
  }

  ghost predicate CreditNonNeg(view: map<Address, ReserveData>)
  {
    forall a :: a in view ==> view[a].backstopCredit >= 0
  }

  /** The backstop's credit is never negative and covers the interest auction's lot. */
  ghost predicate CreditOk(p: Pool, view: map<Address, ReserveData>)
  {
    CreditNonNeg(view) && InterestOk(p, view)
  }

  /** The three parts of the invariant, for the pool as it is stored. */
  ghost predicate BooksOk(p: Pool) { Books(p, p.data) }
  ghost predicate Solvent(p: Pool) { Funded(p, p.data, NoFlows()) }
  ghost predicate CreditCovers(p: Pool) { CreditOk(p, p.data) }

  ghost predicate PoolOk(p: Pool)
  {
    BooksOk(p) && Solvent(p) && CreditCovers(p)
  }

  /** What a step does to the invariant: the books stay in order whatever else holds; funding does not need the
      credit to be covered, nor the cover of the credit the funding. */
  ghost predicate Preserves(p: Pool, view: map<Address, ReserveData>, flows: Flows,
                       q: Pool, next: map<Address, ReserveData>, moreFlows: Flows)
  {
    && Books(q, next)
    && (Funded(p, view, flows) ==> Funded(q, next, moreFlows))
    && (CreditOk(p, view) ==> CreditOk(q, next))
  }

  ghost predicate PoolKept(p: Pool, q: Pool)
  {
    Preserves(p, p.data, NoFlows(), q, q.data, NoFlows())
  }

  /** The books in the middle of a submission; what is cached is up to date. */
  ghost predicate BatchOk(b: Batch)
  {
    && b.cache.Keys <= b.pool.data.Keys
    && (forall a :: a in b.cache ==> b.cache[a].lastTime == b.pool.now)
    && (forall a :: a in b.flows.out ==> b.flows.out[a] >= 0)
    && Books(b.pool, View(b))
  }

  ghost predicate BatchKept(b: Batch, n: Batch)
  {
    BatchOk(n) && Preserves(b.pool, View(b), b.flows, n.pool, View(n), n.flows)
  }

  // ----- sums over the users -----

  lemma TotalsMove(p: Pool, u: Address, q: Positions, i: nat)
    ensures TotalB(p.accounts[u := q], i) == TotalB(p.accounts, i) - BTokens(PositionsOf(p, u), i) + BTokens(q, i)
    ensures TotalD(p.accounts[u := q], i) == TotalD(p.accounts, i) - DTokens(PositionsOf(p, u), i) + DTokens(q, i)
  {
    assert Bs(p.accounts[u := q], i) == Bs(p.accounts, i)[u := BTokens(q, i)];
    assert Ds(p.accounts[u := q], i) == Ds(p.accounts, i)[u := DTokens(q, i)];
    assert Amount(Bs(p.accounts, i), u) == BTokens(PositionsOf(p, u), i);
    assert Amount(Ds(p.accounts, i), u) == DTokens(PositionsOf(p, u), i);
    hide Total;
    hide Bs;
    hide Ds;
    TotalUpdate(Bs(p.accounts, i), u, BTokens(q, i));
    TotalUpdate(Ds(p.accounts, i), u, DTokens(q, i));
  }

  lemma TotalsNonNeg(p: Pool, i: nat)
    requires AccountsOk(p)
    ensures TotalB(p.accounts, i) >= 0 && TotalD(p.accounts, i) >= 0
  {
    hide Total;
    TotalNonNeg(Bs(p.accounts, i));
    TotalNonNeg(Ds(p.accounts, i));
  }

  // ----- bringing reserves up to date -----

  /** A reserve as it was, or loaded now. */
  ghost predicate Aged(c: ReserveConfig, bstopRate: nat, r: ReserveData, n: ReserveData, now: nat)
  {
    n == r || (Load(c, bstopRate, r, now).Ok? && n == Load(c, bstopRate, r, now).value)
  }

  /** Loading keeps the reserve well formed, moves no tokens, never raises what the cash must cover and never
      lowers what the backstop's credit covers. */
  lemma {:induction false} AgedKeeps(c: ReserveConfig, bstopRate: nat, r: ReserveData, n: ReserveData, now: nat, lot: int)
    requires Aged(c, bstopRate, r, n, now) && ReserveOk(r) && ValidMetadata(c) && bstopRate < SCALAR_7 && r.lastTime <= now
    ensures ReserveOk(n) && n.lastTime <= now && NetOwed(n) <= NetOwed(r)
    ensures n.bSupply == r.bSupply && n.dSupply == r.dSupply && n.backstopCredit >= r.backstopCredit
    ensures Covered(c, bstopRate, r, now, lot) ==> Covered(c, bstopRate, n, now, lot)
  {
    hide ReserveOk;
    hide ValidMetadata;
    hide NetOwed;
    if n != r {
      LoadKeeps(c, bstopRate, r, now);
      LoadedIsCurrent(c, bstopRate, n, now);
      hide Load;
    }
  }

  lemma LoadedIsCurrent(c: ReserveConfig, bstopRate: nat, r: ReserveData, now: nat)
    requires r.lastTime == now
    ensures Load(c, bstopRate, r, now) == Ok(r)
  {}

  /** Refreshing any reserves of a view keeps everything. */
  lemma Refresh(p: Pool, view: map<Address, ReserveData>, next: map<Address, ReserveData>, flows: Flows)
    requires Books(p, view) && next.Keys == view.Keys
    requires forall a :: a in view ==> Aged(p.configs[a], p.bstopRate, view[a], next[a], p.now)
    ensures Preserves(p, view, flows, p, next, flows)
  {
    hide Aged;
    hide ReserveOk;
    hide ValidMetadata;
    hide NetOwed;
    hide Covered;
    hide TotalB;
    hide TotalD;
    hide AccountsOk;
    forall a | a in view
      ensures ReserveOk(next[a]) && next[a].lastTime <= p.now && NetOwed(next[a]) <= NetOwed(view[a])
      ensures next[a].bSupply == view[a].bSupply && next[a].dSupply == view[a].dSupply
      ensures next[a].backstopCredit >= view[a].backstopCredit
      ensures p.interest.Some? && a in p.interest.value.lot ==>
        (Covered(p.configs[a], p.bstopRate, view[a], p.now, p.interest.value.lot[a]) ==>
           Covered(p.configs[a], p.bstopRate, next[a], p.now, p.interest.value.lot[a]))
    {
      AgedKeeps(p.configs[a], p.bstopRate, view[a], next[a], p.now,
        if p.interest.Some? then Amount(p.interest.value.lot, a) else 0);
    }
    hide Gathered;
  }

  // ----- one request against one reserve -----

  lemma ChangeShares(p: Pool, view: map<Address, ReserveData>, from: Address, a: Address, change: Change)
    requires Listed(p) && view.Keys == p.configs.Keys && SharesAgree(p, view) && a in view
    requires Sound(p.configs[a], view[a], PositionsOf(p, from), change)
    ensures SharesAgree(p.(accounts := p.accounts[from := change.positions]), view[a := change.reserve])
  {
    hide NetOwed;
    hide ValidMetadata;
    hide TotalB;
    hide TotalD;
    hide BTokens;
    hide DTokens;
    hide PositionsOk;
    hide PositionsOf;
    var next := view[a := change.reserve];
    forall i: nat
      ensures TotalB(p.accounts[from := change.positions], i) == SupplyAt(p.resList, next, i)
      ensures TotalD(p.accounts[from := change.positions], i) == DebtAt(p.resList, next, i)
    {
      TotalsMove(p, from, change.positions, i);
      assert TotalB(p.accounts, i) == SupplyAt(p.resList, view, i);
    }
  }

  /** Balances that agree with the supplies keep these from being negative. */
  lemma SuppliesNonNeg(p: Pool, view: map<Address, ReserveData>, a: Address)
    requires Listed(p) && view.Keys == p.configs.Keys && SharesAgree(p, view) && AccountsOk(p) && a in view
    ensures view[a].bSupply >= 0 && view[a].dSupply >= 0
  {
    hide TotalB;
    hide TotalD;
    hide AccountsOk;
    hide ValidMetadata;
    TotalsNonNeg(p, p.configs[a].index);
    assert TotalB(p.accounts, p.configs[a].index) == SupplyAt(p.resList, view, p.configs[a].index);
  }

  lemma ChangeCredit(p: Pool, view: map<Address, ReserveData>, a: Address, n: ReserveData)
    requires CreditOk(p, view) && a in view && view[a].lastTime == p.now
    requires n.lastTime == p.now && n.backstopCredit == view[a].backstopCredit
    ensures CreditOk(p, view[a := n])
  {
    if p.interest.Some? && a in p.interest.value.lot {
      LoadedIsCurrent(p.configs[a], p.bstopRate, view[a], p.now);
      LoadedIsCurrent(p.configs[a], p.bstopRate, n, p.now);
    }
    hide Load;
  }

  /** Nothing but positions moved: the rest of the invariant reads the same. */
  lemma SameBooks(p: Pool, q: Pool, view: map<Address, ReserveData>, flows: Flows)
    requires q == p.(accounts := q.accounts)
    ensures Listed(p) ==> Listed(q)
    ensures Funded(p, view, flows) ==> Funded(q, view, flows)
    ensures CreditOk(p, view) ==> CreditOk(q, view)
  {
    hide NetOwed;
    hide ValidMetadata;
    hide Covered;
  }

  lemma ChangeFunds(p: Pool, view: map<Address, ReserveData>, flows: Flows, a: Address, change: Change)
    requires Funded(p, view, flows) && a in view
    requires NetOwed(change.reserve) <= NetOwed(view[a]) + Paid(change) - Out(change)
    ensures Funded(p, view[a := change.reserve], Transfers(flows, a, change))
  {
    hide NetOwed;
    forall x: Address
      ensures Owed(view[a := change.reserve], x) <= Gathered(p, Transfers(flows, a, change), x)
    {
      assert Owed(view, x) <= Gathered(p, flows, x);
    }
  }

  lemma ChangeReserve(p: Pool, view: map<Address, ReserveData>, a: Address, n: ReserveData)
    requires ReservesOk(p, view) && a in view
    requires ReserveOk(n) && n.lastTime <= p.now
    ensures ReservesOk(p, view[a := n])
  {
    hide ReserveOk;
  }

  lemma ChangeAccount(p: Pool, from: Address, q: Positions)
    requires AccountsOk(p) && PositionsOk(q)
    ensures AccountsOk(p.(accounts := p.accounts[from := q]))
  {
    hide PositionsOk;
  }

  lemma SoundReserve(p: Pool, view: map<Address, ReserveData>, from: Address, a: Address, change: Change)
    requires ReservesOk(p, view) && a in view
    requires Sound(p.configs[a], view[a], PositionsOf(p, from), change)
    requires change.reserve.bSupply >= 0 && change.reserve.dSupply >= 0
    ensures ReserveOk(change.reserve) && change.reserve.lastTime == view[a].lastTime
  {
    hide PositionsOk;
    hide NetOwed;
    hide BTokens;
    hide DTokens;
  }

  /** A sound change of an up-to-date reserve and one user's positions keeps everything. */
  lemma ChangeOne(p: Pool, view: map<Address, ReserveData>, flows: Flows, from: Address, a: Address, change: Change)
    requires Books(p, view) && a in view && view[a].lastTime == p.now
    requires Sound(p.configs[a], view[a], PositionsOf(p, from), change)
    ensures Preserves(p, view, flows, p.(accounts := p.accounts[from := change.positions]), view[a := change.reserve],
                 Transfers(flows, a, change))
  {
    hide NetOwed;
    hide Listed;
    hide AccountsOk;
    hide Funded;
    hide SharesAgree;
    hide CreditOk;
    hide ReserveOk;
    hide PositionsOk;
    hide BTokens;
    hide DTokens;
    hide PositionsOf;
    hide Gather;
    var q := p.(accounts := p.accounts[from := change.positions]);
    var next := view[a := change.reserve];
    ChangeShares(p, view, from, a, change);
    ChangeAccount(p, from, change.positions);
    SameBooks(p, q, next, Transfers(flows, a, change));
    SuppliesNonNeg(q, next, a);
    SoundReserve(p, view, from, a, change);
    ChangeReserve(p, view, a, change.reserve);
    if Funded(p, view, flows) {
      ChangeFunds(p, view, flows, a, change);
    }
    if CreditOk(p, view) {
      ChangeCredit(p, view, a, change.reserve);
    }
  }

  // ----- the requests -----

  lemma ViewAged(b: Batch, a: Address)
    requires b.pool.configs.Keys == b.pool.data.Keys && b.cache.Keys <= b.pool.data.Keys
    requires a in b.pool.data && LoadReserve(b, a).Ok?
    ensures Aged(b.pool.configs[a], b.pool.bstopRate, View(b)[a], LoadReserve(b, a).value, b.pool.now)
  {
    hide Load;
  }

  lemma LoadsAreCurrent(b: Batch, a: Address)
    requires BatchOk(b) && LoadReserve(b, a).Ok?
    ensures LoadReserve(b, a).value.lastTime == b.pool.now
  {
    hide Books;
    if a !in b.cache {
      LoadTime(b.pool.configs[a], b.pool.bstopRate, b.pool.data[a], b.pool.now);
    }
    hide Load;
  }

  lemma LoadTime(c: ReserveConfig, bstopRate: nat, r: ReserveData, now: nat)
    requires Load(c, bstopRate, r, now).Ok?
    ensures Load(c, bstopRate, r, now).value.lastTime == now
  {
    hide Utilization;
    hide CalcAccrual;
    hide ApplyAccrual;
  }

  /** Loading reserves into the cache keeps everything. */
  lemma {:induction false} LoadAllKeeps(b: Batch, assets: set<Address>)
    requires BatchOk(b) && LoadAll(b, assets).Ok?
    ensures BatchKept(b, b.(cache := LoadAll(b, assets).value))
    ensures forall a :: a in assets ==> a in LoadAll(b, assets).value
  {
    hide ReservesOk;
    hide AccountsOk;
    hide Funded;
    hide SharesAgree;
    hide CreditOk;
    var n := b.(cache := LoadAll(b, assets).value);
    assert b.pool.configs.Keys == b.pool.data.Keys by { KeysAgree(b.pool); }
    hide Listed;
    forall a | a in n.cache
      ensures a in b.pool.data && n.cache[a].lastTime == b.pool.now
    {
      if a !in b.cache {
        assert LoadReserve(b, a).Ok?;
        LoadsAreCurrent(b, a);
      }
    }
    forall a | a in View(b)
      ensures Aged(b.pool.configs[a], b.pool.bstopRate, View(b)[a], View(n)[a], b.pool.now)
    {
      if a in assets && a !in b.cache {
        ViewAged(b, a);
      }
    }
    hide LoadReserve;
    hide Aged;
    Refresh(b.pool, View(b), View(n), b.flows);
  }

  lemma KeysAgree(p: Pool)
    requires Listed(p)
    ensures p.configs.Keys == p.data.Keys
  {}

  lemma RatesPositive(r: ReserveData)
    requires ReserveOk(r)
    ensures r.bRate > 0 && r.dRate > 0
  {}

  lemma PaysOut(c: ReserveConfig, r: ReserveData, p: Positions, change: Change)
    requires Sound(c, r, p, change)
    ensures Out(change) >= 0 && change.reserve.lastTime == r.lastTime
  {
    hide PositionsOk;
    hide NetOwed;
  }

  /** What the books say of one reserve and one user. */
  lemma BooksAt(p: Pool, view: map<Address, ReserveData>, a: Address, u: Address)
    requires Books(p, view)
    ensures p.configs.Keys == p.data.Keys == view.Keys
    ensures a in view ==> ReserveOk(view[a])
    ensures PositionsOk(PositionsOf(p, u))
  {
    HoldersOk(p, u);
    hide ReserveOk;
    hide PositionsOk;
    hide ValidMetadata;
    hide SharesAgree;
  }

  /** Two steps, one after the other. */
  lemma KeptTwice(b: Batch, m: Batch, n: Batch)
    requires BatchKept(b, m) && BatchKept(m, n)
    ensures BatchKept(b, n)
  {
    hide BatchOk;
    hide Books;
    hide Funded;
    hide CreditOk;
  }

  lemma {:induction false} PerformRequestKeeps(b: Batch, from: Address, q: Request)
    requires BatchOk(b) && q.kind <= 5 && q.amount >= 0 && PerformRequest(b, from, q).Ok?
    ensures BatchKept(b, PerformRequest(b, from, q).value)
  {
    hide Books;
    hide Funded;
    hide CreditOk;
    hide Perform;
    hide Load;
    hide Sound;
    hide ReserveOk;
    hide PositionsOk;
    hide PositionsOf;
    var a := q.address;
    BooksAt(b.pool, View(b), a, from);
    var r := LoadReserve(b, a).value;
    var next := View(b)[a := r];
    LoadsAreCurrent(b, a);
    ViewAged(b, a);
    Refresh(b.pool, View(b), next, b.flows);
    BooksAt(b.pool, next, a, from);
    RatesPositive(r);
    PerformSound(q.kind, b.pool.configs[a], r, PositionsOf(b.pool, from), q.amount);
    var change := Perform(q.kind, b.pool.configs[a], r, PositionsOf(b.pool, from), q.amount).value;
    PaysOut(b.pool.configs[a], r, PositionsOf(b.pool, from), change);
    ChangeOne(b.pool, next, b.flows, from, a, change);
    assert View(PerformRequest(b, from, q).value) == next[a := change.reserve];
  }

  /** A request against a reserve stores its change: the reserve, the sender's positions and what is to be paid in and
      out of that asset, and nothing else. */
  lemma PerformRequestIs(b: Batch, from: Address, q: Request)
    requires q.kind <= 5 && PerformRequest(b, from, q).Ok?
    ensures LoadReserve(b, q.address).Ok?
    ensures var r := LoadReserve(b, q.address).value;
      Perform(q.kind, b.pool.configs[q.address], r, PositionsOf(b.pool, from), q.amount).Ok?
    ensures var n := PerformRequest(b, from, q).value;
      var change := Perform(q.kind, b.pool.configs[q.address], LoadReserve(b, q.address).value, PositionsOf(b.pool, from), q.amount).value;
      && (forall u :: PositionsOf(n.pool, u) == if u == from then change.positions else PositionsOf(b.pool, u))
      && (forall a :: View(n).Keys == View(b).Keys + {q.address} && a in View(n) ==>
            View(n)[a] == if a == q.address then change.reserve else View(b)[a])
      && (forall a :: Amount(n.flows.paid, a) == Amount(b.flows.paid, a) + if a == q.address then Paid(change) else 0)
      && (forall a :: Amount(n.flows.out, a) == Amount(b.flows.out, a) + if a == q.address then Out(change) else 0)
      && n.flows.burned == b.flows.burned && n.pool == b.pool.(accounts := n.pool.accounts)
      && (n.checkHealth <==> b.checkHealth || q.kind == 3 || q.kind == 4)
  {
    hide Perform;
    hide Load;
  }

  lemma HoldersOk(p: Pool, u: Address)
    requires AccountsOk(p)
    ensures PositionsOk(PositionsOf(p, u))
  {}
}
