/** A lending pool together with the emissions it streams: the balances and supplies the emissions are computed
    from are those of the pool's users and reserves, in every run. */
module PoolJointRuns {
  import opened Outcomes
  import opened FixedPoint
  import opened Totals
  import opened Interest
  import opened Reserves
  import opened PoolUsers
  import opened PoolStates
  import P = LendingPoolProofs
  import opened LendingPools
  import opened Liquidations
  import L = LendingPoolRuns
  import LendingPoolLimits
  import M = PoolEmissions
  import E = PoolEmissionRuns

  datatype Joint = Joint(pool: Pool, emissions: E.EmissionPool)

  /** A change of one balance of the reserve token `id`, made as pool users make it: emissions first. */
  datatype Move = Move(id: nat, user: Address, delta: int)

  /** A user's balance of the reserve token `id`: d tokens of a reserve for even ids, b tokens for odd ones. */
  function TokensOf(u: Positions, id: nat): int
  {
    if id % 2 == 0 then DTokens(u, id / 2) else BTokens(u, id / 2)
  }

  function BalanceOf(e: E.EmissionPool, id: nat, user: Address): int
  {
    if id in e.tokens then M.HolderOf(e.tokens[id], user).balance else 0
  }

  function MoveAll(e: E.EmissionPool, log: seq<Move>): Outcome<E.EmissionPool>
    decreases |log|
  {
    if log == [] then Ok(e)
    else
      var n :- E.Move(e, log[0].id, log[0].user, log[0].delta);
      MoveAll(n, log[1..])
  }

  /** What a log adds to a balance. */
  function Net(log: seq<Move>, id: nat, user: Address): int
    decreases |log|
  {
    if log == [] then 0
    else (if log[0].id == id && log[0].user == user then log[0].delta else 0) + Net(log[1..], id, user)
  }

  /** The log accounts for every balance that differs between two states of the pool. */
  ghost predicate Accounts(log: seq<Move>, p: Pool, q: Pool)
  {
    forall id: nat, user: Address :: Net(log, id, user) == TokensOf(PositionsOf(q, user), id) - TokensOf(PositionsOf(p, user), id)
  }

  ghost predicate Agree(s: Joint)
  {
    && s.emissions.now == s.pool.now && s.emissions.reserves == |s.pool.resList|
    && forall id: nat, user: Address :: id < 2 * |s.pool.resList| ==>
         BalanceOf(s.emissions, id, user) == TokensOf(PositionsOf(s.pool, user), id)
  }

  ghost predicate JointOk(s: Joint)
  {
    P.BooksOk(s.pool) && E.EmissionsOk(s.emissions) && Agree(s)
  }

  // ----- supplies -----

  lemma SameTotals(a: map<Address, int>, b: map<Address, int>)
    requires forall k :: Amount(a, k) == Amount(b, k)
    ensures Total(a) == Total(b)
  {
    hide Total;
    var full := map k | k in a.Keys + b.Keys :: Amount(a, k);
    E.TotalPad(a, full);
    E.TotalPad(b, full);
  }

  /** The supplies the emission index is computed from are the reserves' own. */
  lemma {:induction false} SuppliesAgree(s: Joint, i: nat)
    requires JointOk(s) && i < |s.pool.resList|
    ensures var (a, d, b) := (s.pool.resList[i], 2 * i, 2 * i + 1);
      && a in s.pool.data && d in s.emissions.tokens && b in s.emissions.tokens
      && s.emissions.tokens[d].supply == s.pool.data[a].dSupply
      && s.emissions.tokens[b].supply == s.pool.data[a].bSupply
  {
    hide E.EmissionsOk;
    hide P.TotalB;
    hide P.TotalD;
    hide P.AccountsOk;
    hide P.ReservesOk;
    hide ValidMetadata;
    TokenSupply(s.emissions, 2 * i);
    TokenSupply(s.emissions, 2 * i + 1);
    HoldersAgree(s, i);
    hide Agree;
    assert P.TotalB(s.pool.accounts, i) == P.SupplyAt(s.pool.resList, s.pool.data, i);
  }

  lemma HoldersAgree(s: Joint, i: nat)
    requires Agree(s) && i < |s.pool.resList| && 2 * i in s.emissions.tokens && 2 * i + 1 in s.emissions.tokens
    ensures Total(M.BalancesBy(s.emissions.tokens[2 * i].holders)) == P.TotalD(s.pool.accounts, i)
    ensures Total(M.BalancesBy(s.emissions.tokens[2 * i + 1].holders)) == P.TotalB(s.pool.accounts, i)
  {
    hide Total;
    var (p, e) := (s.pool, s.emissions);
    var (d, b) := (2 * i, 2 * i + 1);
    forall u: Address
      ensures Amount(M.BalancesBy(e.tokens[d].holders), u) == Amount(P.Ds(p.accounts, i), u)
      ensures Amount(M.BalancesBy(e.tokens[b].holders), u) == Amount(P.Bs(p.accounts, i), u)
    {
      assert BalanceOf(e, d, u) == TokensOf(PositionsOf(p, u), d);
      assert BalanceOf(e, b, u) == TokensOf(PositionsOf(p, u), b);
    }
    SameTotals(M.BalancesBy(e.tokens[d].holders), P.Ds(p.accounts, i));
    SameTotals(M.BalancesBy(e.tokens[b].holders), P.Bs(p.accounts, i));
  }

  lemma TokenSupply(e: E.EmissionPool, id: nat)
    requires E.EmissionsOk(e) && id < 2 * e.reserves
    ensures id in e.tokens && e.tokens[id].supply == Total(M.BalancesBy(e.tokens[id].holders))
  {
    hide Total;
    hide M.Obligation;
    hide M.HolderOk;
    assert E.TokenFunded(e.tokens[id], e.now, e.given[id], e.claimed[id]);
  }

  // ----- balance changes -----

  /** A balance change moves one balance, whatever the emission update before it does. */
  lemma ChangeMoves(t: M.ReserveToken, now: nat, user: Address, delta: int, other: Address)
    requires M.ChangeBalance(t, now, user, delta).Ok?
    ensures M.HolderOf(M.ChangeBalance(t, now, user, delta).value, other).balance
      == M.HolderOf(t, other).balance + if other == user then delta else 0
  {
    hide Floor;
    hide DivFloor;
  }

  lemma BalanceMoves(e: E.EmissionPool, id: nat, user: Address, delta: int, i: nat, u: Address)
    requires E.Move(e, id, user, delta).Ok?
    ensures BalanceOf(E.Move(e, id, user, delta).value, i, u) == BalanceOf(e, i, u) + if i == id && u == user then delta else 0
  {
    hide M.ChangeBalance;
    ChangeMoves(e.tokens[id], e.now, user, delta, u);
    hide M.HolderOf;
  }

  lemma MoveMoves(e: E.EmissionPool, id: nat, user: Address, delta: int)
    requires E.EmissionsOk(e) && E.Move(e, id, user, delta).Ok?
    ensures var n := E.Move(e, id, user, delta).value;
      && E.EmissionsOk(n) && n == e.(tokens := n.tokens) && n.tokens.Keys == e.tokens.Keys
      && forall i: nat, u: Address :: BalanceOf(n, i, u) == BalanceOf(e, i, u) + if i == id && u == user then delta else 0
  {
    E.MoveKeeps(e, id, user, delta);
    hide E.EmissionsOk;
    hide M.ChangeBalance;
    hide BalanceOf;
    var n := E.Move(e, id, user, delta).value;
    forall i: nat, u: Address
      ensures BalanceOf(n, i, u) == BalanceOf(e, i, u) + if i == id && u == user then delta else 0
    {
      BalanceMoves(e, id, user, delta, i, u);
    }
  }

  lemma {:induction false} MoveAllMoves(e: E.EmissionPool, log: seq<Move>)
    requires E.EmissionsOk(e) && MoveAll(e, log).Ok?
    ensures var n := MoveAll(e, log).value;
      && E.EmissionsOk(n) && n == e.(tokens := n.tokens) && n.tokens.Keys == e.tokens.Keys
      && forall id: nat, user: Address :: BalanceOf(n, id, user) == BalanceOf(e, id, user) + Net(log, id, user)
    decreases |log|
  {
    hide E.EmissionsOk;
    hide E.Move;
    hide BalanceOf;
    if log != [] {
      MoveMoves(e, log[0].id, log[0].user, log[0].delta);
      MoveAllMoves(E.Move(e, log[0].id, log[0].user, log[0].delta).value, log[1..]);
    }
  }

  // ----- a log for every step -----

  function Delta(p: Pool, q: Pool, id: nat, user: Address): int
  {
    TokensOf(PositionsOf(q, user), id) - TokensOf(PositionsOf(p, user), id)
  }

  /** One move for each of some balances. */
  ghost function DiffLog(pairs: set<(nat, Address)>, p: Pool, q: Pool): seq<Move>
    decreases |pairs|
  {
    if pairs == {} then []
    else
      var x :| x in pairs;
      [Move(x.0, x.1, Delta(p, q, x.0, x.1))] + DiffLog(pairs - {x}, p, q)
  }

  lemma {:induction false} DiffLogNets(pairs: set<(nat, Address)>, p: Pool, q: Pool, id: nat, user: Address)
    ensures Net(DiffLog(pairs, p, q), id, user) == if (id, user) in pairs then Delta(p, q, id, user) else 0
    decreases |pairs|
  {
    hide Delta;
    if pairs != {} {
      var log := DiffLog(pairs, p, q);
      var x :| x in pairs && log == [Move(x.0, x.1, Delta(p, q, x.0, x.1))] + DiffLog(pairs - {x}, p, q);
      assert log[0] == Move(x.0, x.1, Delta(p, q, x.0, x.1)) && log[1..] == DiffLog(pairs - {x}, p, q);
      assert x == (x.0, x.1);
      DiffLogNets(pairs - {x}, p, q, id, user);
    }
  }

  /** Moves to balances that are not negative go through. */
  lemma {:induction false} DiffLogMoves(e: E.EmissionPool, pairs: set<(nat, Address)>, p: Pool, q: Pool)
    requires E.EmissionsOk(e)
    requires forall x :: x in pairs ==> x.0 in e.tokens && BalanceOf(e, x.0, x.1) + Delta(p, q, x.0, x.1) >= 0
    ensures MoveAll(e, DiffLog(pairs, p, q)).Ok?
    decreases |pairs|
  {
    hide Delta;
    hide E.EmissionsOk;
    hide BalanceOf;
    if pairs != {} {
      var log := DiffLog(pairs, p, q);
      var x :| x in pairs && log == [Move(x.0, x.1, Delta(p, q, x.0, x.1))] + DiffLog(pairs - {x}, p, q);
      assert log[1..] == DiffLog(pairs - {x}, p, q);
      MoveSucceeds(e, x.0, x.1, Delta(p, q, x.0, x.1));
      var n := E.Move(e, x.0, x.1, Delta(p, q, x.0, x.1)).value;
      MoveMoves(e, x.0, x.1, Delta(p, q, x.0, x.1));
      hide E.Move;
      DiffLogMoves(n, pairs - {x}, p, q);
    }
  }

  lemma MoveSucceeds(e: E.EmissionPool, id: nat, user: Address, delta: int)
    requires E.EmissionsOk(e) && id in e.tokens && BalanceOf(e, id, user) + delta >= 0
    ensures E.Move(e, id, user, delta).Ok?
  {
    hide Total;
    hide M.ChangeBalance;
    hide M.TokenOk;
    hide M.Obligation;
    assert E.TokenFunded(e.tokens[id], e.now, e.given[id], e.claimed[id]);
    M.ChangeBalanceKeeps(e.tokens[id], e.now, user, delta);
  }

  /** Beyond the reserve list nobody holds anything. */
  lemma NothingBeyond(p: Pool, id: nat, user: Address)
    requires P.BooksOk(p) && id >= 2 * |p.resList|
    ensures TokensOf(PositionsOf(p, user), id) == 0
  {
    hide Total;
    hide P.Listed;
    hide P.ReservesOk;
    var i := id / 2;
    assert P.TotalB(p.accounts, i) == P.SupplyAt(p.resList, p.data, i);
    TotalNonNeg(P.Bs(p.accounts, i));
    TotalNonNeg(P.Ds(p.accounts, i));
    if user in p.accounts {
      HoldsLittle(p, i, user);
    }
  }

  lemma HoldsLittle(p: Pool, i: nat, user: Address)
    requires user in p.accounts && P.AccountsOk(p)
    requires forall u :: u in P.Bs(p.accounts, i) ==> P.Bs(p.accounts, i)[u] <= 0
    requires forall u :: u in P.Ds(p.accounts, i) ==> P.Ds(p.accounts, i)[u] <= 0
    ensures BTokens(p.accounts[user], i) == 0 && DTokens(p.accounts[user], i) == 0
  {
    assert P.Bs(p.accounts, i)[user] <= 0 && P.Ds(p.accounts, i)[user] <= 0;
  }

  // ----- joint runs -----

  /** A call of the pool with the moves it makes on the way, or one of its emissions. */
  datatype Action =
    | PoolActs(a: L.Action, log: seq<Move>)
    | SharesSet(metadata: seq<E.Metadata>)
    | Gulped(newEmissions: int)
    | Claimed(user: Address, ids: seq<nat>)

  /** The decimals of the reserve listed last. */
  function NewDecimals(q: Pool): nat
  {
    if q.resList != [] && q.resList[|q.resList| - 1] in q.configs then q.configs[q.resList[|q.resList| - 1]].decimals else 0
  }

  /** The clock and the reserve list are shared. */
  function Follow(p: Pool, q: Pool, e: E.EmissionPool): E.EmissionPool
  {
    var later := e.(now := q.now);
    if |q.resList| > |p.resList| then E.List(later, NewDecimals(q)) else later
  }

  function Own(a: Action): E.Action
    requires !a.PoolActs?
  {
    match a
    case SharesSet(metadata) => E.SharesSet(metadata)
    case Gulped(newEmissions) => E.Gulped(newEmissions)
    case Claimed(user, ids) => E.Claimed(user, ids)
  }

  /** An aborted call leaves both sides as they were. */
  function Step(s: Joint, a: Action): Joint
  {
    if a.PoolActs? then
      var q := L.Step(s.pool, a.a);
      var n := MoveAll(Follow(s.pool, q, s.emissions), a.log);
      if n.Ok? then Joint(q, n.value) else s
    else s.(emissions := E.Step(s.emissions, Own(a)))
  }

  /** Every balance the call changes is accounted for. */
  ghost predicate Accounted(s: Joint, a: Action)
  {
    a.PoolActs? ==> Accounts(a.log, s.pool, L.Step(s.pool, a.a))
  }

  function Run(s: Joint, actions: seq<Action>): Joint
    decreases |actions|
  {
    if actions == [] then s else Step(Run(s, actions[..|actions| - 1]), actions[|actions| - 1])
  }

  ghost predicate AllAccounted(s: Joint, actions: seq<Action>)
    decreases |actions|
  {
    actions == [] ||
    (AllAccounted(s, actions[..|actions| - 1]) && Accounted(Run(s, actions[..|actions| - 1]), actions[|actions| - 1]))
  }

  /** A step of the pool extends the reserve list by at most one and never turns back the clock. */
  ghost predicate Onward(p: Pool, q: Pool)
  {
    q.now >= p.now && (q.resList == p.resList || |q.resList| == |p.resList| + 1)
  }

  lemma SubmitOnward(p: Pool, from: Address, spender: Address, to: Address, requests: seq<Request>, answers: Answers)
    requires Submit(p, from, spender, to, requests, answers).Ok?
    ensures Onward(p, Submit(p, from, spender, to, requests, answers).value)
  {
    hide Process;
    hide HealthAfter;
    hide CashAfter;
    LendingPoolLimits.ProcessAside(p, from, requests, answers.replies, |requests|);
  }

  lemma AuctionsOnward(p: Pool, assets: seq<Address>, quote: Quote, user: Address, percent: int, decimals: nat)
    ensures CreateInterest(p, assets, quote).Ok? ==> Onward(p, CreateInterest(p, assets, quote).value)
    ensures CreateBadDebt(p, quote).Ok? ==> Onward(p, CreateBadDebt(p, quote).value)
    ensures CreateLiquidation(p, user, percent, decimals).Ok? ==> Onward(p, CreateLiquidation(p, user, percent, decimals).value)
  {
    hide InterestLot;
    hide DebtBid;
    hide LiquidationAuction;
    hide Floor;
    hide DivFloor;
    hide Pow10;
  }

  const NO_CONFIG := ReserveConfig(0, 0, 0, 0, 0, 0, 0, 0, 0, 0, 0)

  lemma AdministrationOnward(p: Pool, user: Address, asset: Address, config: ReserveConfig, rate: nat)
    ensures MoveBadDebt(p, user).Ok? ==> Onward(p, MoveBadDebt(p, user).value)
    ensures SetReserve(p, asset, config).Ok? ==> Onward(p, SetReserve(p, asset, config).value)
    ensures UpdateTake(p, rate).Ok? ==> Onward(p, UpdateTake(p, rate).value)
  {
    hide LoadAll;
    hide Load;
    hide ValidMetadata;
  }

  lemma StepOnward(p: Pool, a: L.Action)
    ensures Onward(p, L.Step(p, a))
  {
    hide Submit;
    hide CreateInterest;
    hide CreateBadDebt;
    hide CreateLiquidation;
    hide MoveBadDebt;
    hide SetReserve;
    hide UpdateTake;
    match a
    case UserSubmits(from, spender, to, requests, answers) =>
      if Submit(p, from, spender, to, requests, answers).Ok? {
        SubmitOnward(p, from, spender, to, requests, answers);
      }
    case InterestAuctioned(assets, quote) => AuctionsOnward(p, assets, quote, 0, 0, 0);
    case BadDebtAuctioned(quote) => AuctionsOnward(p, [], quote, 0, 0, 0);
    case UserLiquidated(user, percent, decimals) => AuctionsOnward(p, [], Quote(map[], 0, 0, 0), user, percent, decimals);
    case BadDebtMoved(user) => AdministrationOnward(p, user, 0, NO_CONFIG, 0);
    case ReserveSet(asset, config) => AdministrationOnward(p, 0, asset, config, 0);
    case TakeSet(rate) => AdministrationOnward(p, 0, 0, NO_CONFIG, rate);
    case _ =>
  }

  // ----- every joint step -----

  lemma ListBalances(e: E.EmissionPool, decimals: nat, id: nat, user: Address)
    requires E.Keyed(e)
    ensures BalanceOf(E.List(e, decimals), id, user) == BalanceOf(e, id, user)
    ensures id >= 2 * e.reserves ==> BalanceOf(e, id, user) == 0
    ensures id in E.List(e, decimals).tokens <==> id < 2 * (e.reserves + 1)
  {
    hide Pow10;
  }

  lemma FollowOk(p: Pool, q: Pool, e: E.EmissionPool)
    requires E.EmissionsOk(e) && e.now == p.now && e.reserves == |p.resList| && Onward(p, q)
    ensures E.EmissionsOk(Follow(p, q, e)) && Follow(p, q, e).now == q.now && Follow(p, q, e).reserves == |q.resList|
  {
    hide E.EmissionsOk;
    var later := e.(now := q.now);
    E.WaitKeeps(e, q.now - e.now);
    assert later == e.(now := e.now + (q.now - e.now));
    E.ListKeeps(later, NewDecimals(q));
    ListAside(later, NewDecimals(q));
    hide E.List;
    hide NewDecimals;
  }

  lemma FollowBalance(p: Pool, q: Pool, e: E.EmissionPool, id: nat, user: Address)
    requires E.Keyed(e) && e.reserves == |p.resList| && Onward(p, q)
    ensures BalanceOf(Follow(p, q, e), id, user) == if id < 2 * |p.resList| then BalanceOf(e, id, user) else 0
    ensures id in Follow(p, q, e).tokens <==> id < 2 * |q.resList|
  {
    var later := e.(now := q.now);
    ListBalances(e, NewDecimals(q), id, user);
    ListBalances(later, NewDecimals(q), id, user);
    SameTokens(e, later, id, user);
    hide E.List;
    hide BalanceOf;
    hide NewDecimals;
  }

  lemma FollowKeeps(p: Pool, q: Pool, e: E.EmissionPool)
    requires E.EmissionsOk(e) && e.now == p.now && e.reserves == |p.resList| && Onward(p, q)
    ensures var n := Follow(p, q, e);
      && E.EmissionsOk(n) && n.now == q.now && n.reserves == |q.resList|
      && (forall id: nat, user: Address :: BalanceOf(n, id, user) == if id < 2 * |p.resList| then BalanceOf(e, id, user) else 0)
      && (forall id: nat :: id in n.tokens <==> id < 2 * |q.resList|)
  {
    assert E.Keyed(e);
    FollowOk(p, q, e);
    hide E.EmissionsOk;
    hide Follow;
    hide BalanceOf;
    var n := Follow(p, q, e);
    forall id: nat, user: Address
      ensures BalanceOf(n, id, user) == if id < 2 * |p.resList| then BalanceOf(e, id, user) else 0
      ensures id in n.tokens <==> id < 2 * |q.resList|
    {
      FollowBalance(p, q, e, id, user);
    }
    assert forall id: nat :: id in n.tokens <==> id < 2 * |q.resList| by {
      forall id: nat
        ensures id in n.tokens <==> id < 2 * |q.resList|
      {
        FollowBalance(p, q, e, id, 0);
      }
    }
  }

  lemma SameTokens(e: E.EmissionPool, n: E.EmissionPool, id: nat, user: Address)
    requires n.tokens == e.tokens
    ensures BalanceOf(n, id, user) == BalanceOf(e, id, user)
  {}

  lemma ListAside(e: E.EmissionPool, decimals: nat)
    ensures E.List(e, decimals).reserves == e.reserves + 1 && E.List(e, decimals).now == e.now
  {
    hide Pow10;
  }

  /** Emissions keep balances, clock and list. */
  ghost predicate SameBalances(e: E.EmissionPool, n: E.EmissionPool)
  {
    && n.now == e.now && n.reserves == e.reserves
    && forall id: nat, user: Address :: BalanceOf(n, id, user) == BalanceOf(e, id, user)
  }

  lemma UpdateSame(t: M.ReserveToken, now: nat, user: Address, claim: bool, other: Address)
    requires M.Update(t, now, user, claim).Ok?
    ensures M.HolderOf(M.Update(t, now, user, claim).value.0, other).balance == M.HolderOf(t, other).balance
  {
    hide Floor;
    hide DivFloor;
  }

  lemma RestreamSame(t: M.ReserveToken, now: nat, newTokens: int)
    requires M.Restream(t, now, newTokens).Ok?
    ensures M.Restream(t, now, newTokens).value.holders == t.holders
  {
    hide Floor;
    hide Ceil;
    hide DivFloor;
  }

  lemma ClaimTokenSame(e: E.EmissionPool, user: Address, id: nat)
    requires E.ClaimToken(e, user, id).Ok?
    ensures SameBalances(e, E.ClaimToken(e, user, id).value.0)
  {
    hide M.Update;
    forall other: Address
      ensures M.HolderOf(M.Update(e.tokens[id], e.now, user, true).value.0, other).balance == M.HolderOf(e.tokens[id], other).balance
    {
      UpdateSame(e.tokens[id], e.now, user, true, other);
    }
    hide M.HolderOf;
  }

  lemma {:induction false} ClaimAllSame(e: E.EmissionPool, user: Address, ids: seq<nat>, k: nat)
    requires k <= |ids| && E.ClaimAll(e, user, ids, k).Ok?
    ensures SameBalances(e, E.ClaimAll(e, user, ids, k).value.0)
    decreases k
  {
    hide E.ClaimToken;
    hide BalanceOf;
    if k > 0 {
      ClaimAllSame(e, user, ids, k - 1);
      ClaimTokenSame(E.ClaimAll(e, user, ids, k - 1).value.0, user, ids[k - 1]);
    }
  }

  lemma GulpSame(e: E.EmissionPool, newEmissions: int)
    requires E.Gulp(e, newEmissions).Ok?
    ensures SameBalances(e, E.Gulp(e, newEmissions).value)
  {
    hide M.Restream;
    hide E.Allotment;
    var n := E.Gulp(e, newEmissions).value;
    forall id | id in e.tokens
      ensures n.tokens[id].holders == e.tokens[id].holders
    {
      if id in e.shares {
        RestreamSame(e.tokens[id], e.now, E.Allotment(e.shares[id], newEmissions));
      }
    }
    hide E.Gulp;
    forall id: nat, user: Address
      ensures BalanceOf(n, id, user) == BalanceOf(e, id, user)
    {}
  }

  lemma OwnSame(e: E.EmissionPool, a: Action)
    requires !a.PoolActs?
    ensures SameBalances(e, E.Step(e, Own(a)))
  {
    hide E.Gulp;
    hide E.ClaimAll;
    hide E.SharesOf;
    hide BalanceOf;
    if E.Attempt(e, Own(a)).Ok? {
      match a
      case SharesSet(metadata) => SharesSame(e, metadata);
      case Gulped(newEmissions) => GulpSame(e, newEmissions);
      case Claimed(user, ids) => ClaimAllSame(e, user, ids, |ids|);
    }
    hide SameBalances;
  }

  lemma SharesSame(e: E.EmissionPool, metadata: seq<E.Metadata>)
    requires E.SetPoolEmissions(e, metadata).Ok?
    ensures SameBalances(e, E.SetPoolEmissions(e, metadata).value)
  {
    hide E.SharesOf;
  }

  /** A call of the pool whose moves are accounted for keeps both sides in order and in agreement. */
  lemma {:induction false} PoolActsKeeps(s: Joint, a: Action)
    requires JointOk(s) && a.PoolActs? && Accounted(s, a)
    ensures JointOk(Step(s, a))
  {
    hide P.Books;
    hide P.Solvent;
    hide P.CreditCovers;
    hide L.Step;
    hide E.EmissionsOk;
    hide Follow;
    hide MoveAll;
    hide BalanceOf;
    hide TokensOf;
    var (p, q) := (s.pool, L.Step(s.pool, a.a));
    L.StepKeeps(p, a.a);
    StepOnward(p, a.a);
    FollowKeeps(p, q, s.emissions);
    var e := Follow(p, q, s.emissions);
    if MoveAll(e, a.log).Ok? {
      MoveAllMoves(e, a.log);
      var n := MoveAll(e, a.log).value;
      forall id: nat, user: Address | id < 2 * |q.resList|
        ensures BalanceOf(n, id, user) == TokensOf(PositionsOf(q, user), id)
      {
        assert Net(a.log, id, user) == TokensOf(PositionsOf(q, user), id) - TokensOf(PositionsOf(p, user), id);
        if id >= 2 * |p.resList| {
          NothingBeyond(p, id, user);
        }
      }
    }
    hide L.StepExact;
    hide Onward;
    hide Accounts;
  }

  lemma {:induction false} StepKeeps(s: Joint, a: Action)
    requires JointOk(s) && Accounted(s, a)
    ensures JointOk(Step(s, a))
  {
    if a.PoolActs? {
      PoolActsKeeps(s, a);
      hide *;
    } else {
      OwnSame(s.emissions, a);
      E.AttemptKeeps(s.emissions, Own(a));
      hide P.BooksOk;
      hide E.EmissionsOk;
      hide E.Attempt;
      hide BalanceOf;
      hide TokensOf;
    }
  }

  /** Every call of the pool has a log that accounts for it and goes through: the settled balance changes never
      abort a call the pool itself accepts. */
  lemma {:induction false} LogExists(s: Joint, a: L.Action) returns (log: seq<Move>)
    requires JointOk(s)
    ensures Accounted(s, PoolActs(a, log))
    ensures MoveAll(Follow(s.pool, L.Step(s.pool, a), s.emissions), log).Ok?
  {
    hide P.Books;
    hide P.Solvent;
    hide P.CreditCovers;
    hide L.Step;
    hide E.EmissionsOk;
    hide Follow;
    hide MoveAll;
    hide BalanceOf;
    hide TokensOf;
    var (p, q) := (s.pool, L.Step(s.pool, a));
    L.StepKeeps(p, a);
    StepOnward(p, a);
    FollowKeeps(p, q, s.emissions);
    var e := Follow(p, q, s.emissions);
    var pairs := Pairs(p, q);
    log := DiffLog(pairs, p, q);
    forall id: nat, user: Address
      ensures Net(log, id, user) == Delta(p, q, id, user)
    {
      DiffLogNets(pairs, p, q, id, user);
      OthersUnmoved(p, q, id, user);
    }
    forall x | x in pairs
      ensures x.0 in e.tokens && BalanceOf(e, x.0, x.1) + Delta(p, q, x.0, x.1) >= 0
    {
      PairsListed(p, q, x.0, x.1);
      TokensNonNeg(q, x.0, x.1);
      if x.0 >= 2 * |p.resList| {
        NothingBeyond(p, x.0, x.1);
      }
    }
    DiffLogMoves(e, pairs, p, q);
    hide L.StepExact;
  }

  /** Every balance that can differ. */
  ghost function Pairs(p: Pool, q: Pool): set<(nat, Address)>
  {
    set id: nat, user | id < 2 * |q.resList| && user in p.accounts.Keys + q.accounts.Keys :: (id, user)
  }

  lemma PairsListed(p: Pool, q: Pool, id: nat, user: Address)
    requires (id, user) in Pairs(p, q)
    ensures id < 2 * |q.resList|
  {}

  lemma OthersUnmoved(p: Pool, q: Pool, id: nat, user: Address)
    requires P.BooksOk(p) && P.BooksOk(q) && Onward(p, q)
    ensures (id, user) !in Pairs(p, q) ==> Delta(p, q, id, user) == 0
  {
    hide P.Books;
    if id >= 2 * |q.resList| {
      NothingBeyond(p, id, user);
      NothingBeyond(q, id, user);
    }
  }

  lemma TokensNonNeg(p: Pool, id: nat, user: Address)
    requires P.BooksOk(p)
    ensures TokensOf(PositionsOf(p, user), id) >= 0
  {
    P.HoldersOk(p, user);
    hide P.Books;
  }

  lemma {:induction false} RunKeeps(s: Joint, actions: seq<Action>)
    requires JointOk(s) && AllAccounted(s, actions)
    ensures JointOk(Run(s, actions))
    decreases |actions|
  {
    hide JointOk;
    hide Step;
    hide Accounted;
    if actions != [] {
      RunKeeps(s, actions[..|actions| - 1]);
      StepKeeps(Run(s, actions[..|actions| - 1]), actions[|actions| - 1]);
    }
  }

  /** A pool and its emissions as they are initialised. */
  ghost predicate IsGenesis(s: Joint)
  {
    L.IsGenesis(s.pool) && E.IsGenesis(s.emissions) && s.emissions.now == s.pool.now
  }

  lemma GenesisOk(s: Joint)
    requires IsGenesis(s)
    ensures JointOk(s)
  {
    L.GenesisOk(s.pool);
    E.GenesisOk(s.emissions);
    hide P.Books;
    hide E.EmissionsOk;
  }

  /** The emissions of a lending pool stay funded while it is used: in every run of calls, each with the moves that
      account for it, gulps and claims, the emission index of every reserve token is computed from that reserve's
      own supply and every user's own balance, each token pays out at most what gulps gave it, and all tokens at
      most what was gulped. */
  lemma {:induction false} EmissionsFollowPositions(s: Joint, actions: seq<Action>, i: nat, user: Address)
    requires IsGenesis(s) && AllAccounted(s, actions)
    ensures var (p, e) := (Run(s, actions).pool, Run(s, actions).emissions);
      && (i < |p.resList| ==>
            && p.resList[i] in p.data && 2 * i in e.tokens && 2 * i + 1 in e.tokens
            && e.tokens[2 * i].supply == p.data[p.resList[i]].dSupply
            && e.tokens[2 * i + 1].supply == p.data[p.resList[i]].bSupply
            && M.HolderOf(e.tokens[2 * i], user).balance == DTokens(PositionsOf(p, user), i)
            && M.HolderOf(e.tokens[2 * i + 1], user).balance == BTokens(PositionsOf(p, user), i))
      && (forall id :: id in e.tokens ==> id in e.given && id in e.claimed && 0 <= e.claimed[id] <= e.given[id])
      && Total(e.claimed) <= Total(e.given) <= e.gulped
  {
    hide JointOk;
    hide IsGenesis;
    hide Run;
    GenesisOk(s);
    RunKeeps(s, actions);
    var n := Run(s, actions);
    EmissionsOf(n);
    FundedNow(n.emissions);
    if i < |n.pool.resList| {
      SuppliesAgree(n, i);
      BalancesOf(n, i, user);
    }
  }

  lemma EmissionsOf(s: Joint)
    requires JointOk(s)
    ensures E.EmissionsOk(s.emissions)
  {}

  lemma BalancesOf(s: Joint, i: nat, user: Address)
    requires JointOk(s) && i < |s.pool.resList| && 2 * i in s.emissions.tokens && 2 * i + 1 in s.emissions.tokens
    ensures M.HolderOf(s.emissions.tokens[2 * i], user).balance == DTokens(PositionsOf(s.pool, user), i)
    ensures M.HolderOf(s.emissions.tokens[2 * i + 1], user).balance == BTokens(PositionsOf(s.pool, user), i)
  {
    hide P.BooksOk;
    hide E.EmissionsOk;
    assert BalanceOf(s.emissions, 2 * i, user) == TokensOf(PositionsOf(s.pool, user), 2 * i);
    assert BalanceOf(s.emissions, 2 * i + 1, user) == TokensOf(PositionsOf(s.pool, user), 2 * i + 1);
  }

  lemma FundedNow(e: E.EmissionPool)
    requires E.EmissionsOk(e)
    ensures forall id :: id in e.tokens ==> id in e.given && id in e.claimed && 0 <= e.claimed[id] <= e.given[id]
    ensures Total(e.claimed) <= Total(e.given) <= e.gulped
  {
    hide Total;
    hide M.TokenOk;
    hide M.Obligation;
    forall id | id in e.tokens
      ensures 0 <= e.claimed[id] <= e.given[id]
    {
      assert E.TokenFunded(e.tokens[id], e.now, e.given[id], e.claimed[id]);
      M.TokenSums(e.tokens[id], e.now);
      MultiplesOrdered(e.claimed[id], e.given[id], e.tokens[id].scalar);
    }
    E.TotalMono(e.claimed, e.given);
  }
}
