/** The whole way of a BLND token: minted by the emitter for the backstop, claimed there by depositors or pulled by
    lending pools, and claimed by the pools' users. */
module FundingChain {
  import opened Outcomes
  import opened FixedPoint
  import opened Totals
  import M = Emitters
  import WorldProofs = BackstopWorldProofs
  import BackstopLedger
  import W = BackstopWorld
  import R = BackstopRuns
  import F = BackstopFunding
  import E = PoolEmissionRuns
  import J = PoolJointRuns
  import L = LendingPoolRuns

  datatype Chain = Chain(
    emitter: M.State,
    world: W.World,                  // the backstop
    pools: map<Address, J.Joint>,    // lending pools with their emissions
    // counted, not stored
    backstopPaid: int,               // BLND claimed by depositors or pulled by pools that are not listed
    poolPaid: map<Address, int>,     // BLND each listed pool has paid to its users
    unfunded: int)                   // SCALAR_7 times what may be called for without having been minted

  datatype Action =
    | Wait(seconds: nat, blocks: nat)
    | EmitterActs(m: M.Action)
    | BackstopActs(w: W.Action)
    | PoolActs(pool: Address, j: J.Action)
    | PoolGulps(pool: Address)
    | PoolPays(pool: Address, user: Address, ids: seq<nat>, to: Address)

  // ----- steps -----

  /** A call of the emitter mints for the backstop when it distributes to it. A backstop that is installed again starts
      with the emitter's clock, as if it had been paid for the time between. */
  function EmitterStep(c: Chain, a: M.Action): Chain
  {
    var (s, w) := (M.Step(c.emitter, a), c.world);
    if M.Attempt(c.emitter, a).Ok? && (a.Distributed? || a.SwapExecuted?) && c.emitter.backstop == w.self then
      c.(emitter := s, world := W.After(w, W.EmitterDistributes))
    else if c.emitter.backstop != w.self && s.backstop == w.self then
      c.(emitter := s, world := w.(emitterLast := w.now), unfunded := c.unfunded + Scaled(Scaled(w.now - w.emitterLast)))
    else c.(emitter := s)
  }

  ghost function BackstopStep(c: Chain, a: W.Action): Chain
  {
    c.(world := W.After(c.world, a), backstopPaid := c.backstopPaid + F.PaidOut(c.world, a),
       unfunded := c.unfunded + F.Promising(c.world, a))
  }

  function PoolStep(c: Chain, pool: Address, a: J.Action): Chain
    requires pool in c.pools
  {
    c.(pools := c.pools[pool := J.Step(c.pools[pool], a)])
  }

  /** A pool's gulp takes what the backstop holds ready for it, or nothing happens. */
  function GulpStep(c: Chain, pool: Address): Chain
    requires pool in c.pools
  {
    var j := c.pools[pool];
    var w := W.ExecuteGulpPool(c.world, pool);
    var e := E.Gulp(j.emissions, W.PoolOf(c.world, pool).poolEmissions);
    if w.Ok? && e.Ok? then c.(world := w.value, pools := c.pools[pool := j.(emissions := e.value)]) else c
  }

  /** What a pool pays of a claim: all of it from its allowance, or nothing when that transfer fails. */
  function Payout(w: W.World, pool: Address, toClaim: int, to: Address): int
  {
    if toClaim > 0 && W.PullAllowance(w, pool, toClaim, to).Ok? then toClaim else 0
  }

  function AfterPayout(w: W.World, pool: Address, toClaim: int, to: Address): W.World
  {
    if toClaim > 0 && W.PullAllowance(w, pool, toClaim, to).Ok? then W.PullAllowance(w, pool, toClaim, to).value else w
  }

  /** A pool's claim; that its transfer fails is ignored. */
  function PayStep(c: Chain, pool: Address, user: Address, ids: seq<nat>, to: Address): Chain
    requires pool in c.pools
  {
    var j := c.pools[pool];
    var r := E.ClaimAll(j.emissions, user, ids, |ids|);
    if r.Abort? then c
    else
      var (e, toClaim) := r.value;
      c.(world := AfterPayout(c.world, pool, toClaim, to), pools := c.pools[pool := j.(emissions := e)],
         poolPaid := c.poolPaid[pool := Amount(c.poolPaid, pool) + Payout(c.world, pool, toClaim, to)])
  }

  function Elapse(j: J.Joint, seconds: nat, blocks: nat): J.Joint
  {
    J.Step(j, J.PoolActs(L.Wait(seconds, blocks), []))
  }

  function Later(pools: map<Address, J.Joint>, seconds: nat, blocks: nat): (later: map<Address, J.Joint>)
    ensures later.Keys == pools.Keys
  {
    map a | a in pools :: Elapse(pools[a], seconds, blocks)
  }

  function WaitStep(c: Chain, seconds: nat, blocks: nat): Chain
  {
    c.(emitter := M.Step(c.emitter, M.Wait(seconds)), world := W.After(c.world, W.Tick(seconds)),
       pools := Later(c.pools, seconds, blocks))
  }

  /** Time passes for all at once; a listed pool calls the backstop only through its own gulps and claims, and every
      balance its other calls change is accounted for. */
  ghost predicate Allowed(c: Chain, a: Action)
  {
    match a
    case Wait(_, _) => true
    case EmitterActs(m) => !m.Wait?
    case BackstopActs(w) =>
      && !w.Tick? && !w.EmitterDistributes?
      && (w.GulpPoolEmissions? || w.PoolPulls? ==> w.pool !in c.pools)
    case PoolActs(pool, j) =>
      pool in c.pools && (j.SharesSet? || (j.PoolActs? && !j.a.Wait? && J.Accounted(c.pools[pool], j)))
    case PoolGulps(pool) => pool in c.pools
    case PoolPays(pool, _, _, _) => pool in c.pools
  }

  ghost function Step(c: Chain, a: Action): Chain
    requires Allowed(c, a)
  {
    match a
    case Wait(seconds, blocks) => WaitStep(c, seconds, blocks)
    case EmitterActs(m) => EmitterStep(c, m)
    case BackstopActs(w) => BackstopStep(c, w)
    case PoolActs(pool, j) => PoolStep(c, pool, j)
    case PoolGulps(pool) => GulpStep(c, pool)
    case PoolPays(pool, user, ids, to) => PayStep(c, pool, user, ids, to)
  }

  // ----- the invariant -----

  ghost predicate PoolsOk(pools: map<Address, J.Joint>)
  {
    forall a :: a in pools ==> J.JointOk(pools[a])
  }

  /** The backstop's view of the emitter is the emitter's. */
  ghost predicate InStep(s: M.State, w: W.World)
  {
    && s.now == w.now
    && (s.backstop == w.self ==> w.self in s.lastDistro && s.lastDistro[w.self] == w.emitterLast)
  }

  /** What has been paid and may still be called for has been minted, but for what is counted as unfunded. */
  ghost predicate Funded(c: Chain)
  {
    F.Outstanding(c.world) + Scaled(c.backstopPaid + Total(c.poolPaid)) <= Scaled(c.emitter.distributed) + c.unfunded
  }

  /** What a pool has paid is part of what its users have claimed; with its allowance it is part of what it gulped. */
  ghost predicate PaidWithin(c: Chain)
  {
    forall a :: a in c.pools ==> PaysWithin(c.pools[a].emissions, Amount(c.poolPaid, a), W.AllowanceOf(c.world, a))
  }

  ghost predicate PaysWithin(e: E.EmissionPool, paid: int, allowance: int)
  {
    0 <= paid <= Total(e.claimed) && 0 <= allowance && allowance + paid <= e.gulped
  }

  /** Two states of a pool's emissions with the same claims and gulps. */
  ghost predicate SameAccount(e: E.EmissionPool, n: E.EmissionPool)
  {
    Total(n.claimed) == Total(e.claimed) && n.gulped == e.gulped
  }

  ghost predicate ChainOk(c: Chain, start: nat)
  {
    W.WorldOk(c.world) && PoolsOk(c.pools) && InStep(c.emitter, c.world) && M.EmitterOk(c.emitter, start)
    && Funded(c) && PaidWithin(c)
  }

  // ----- the emitter -----

  lemma DistributeMints(s: M.State, w: W.World)
    requires InStep(s, w) && s.backstop == w.self && W.WorldOk(w)
    ensures M.Distribute(s, s.backstop).Ok?
    ensures M.Distribute(s, s.backstop).value.distributed == s.distributed + F.Minted(w, W.EmitterDistributes)
    ensures M.Distribute(s, s.backstop).value.lastDistro == s.lastDistro[w.self := w.now]
    ensures W.After(w, W.EmitterDistributes) == w.(emitterLast := w.now, blnd := w.blnd + Scaled(w.now - w.emitterLast))
  {
    hide W.LedgersOk;
    hide W.TokenTotal;
  }

  /** Installing the backstop again makes it expect exactly the emissions of the time between. */
  lemma Reinstalled(w: W.World)
    requires W.WorldOk(w)
    ensures var v := w.(emitterLast := w.now);
      W.WorldOk(v) && F.Outstanding(v) == F.Outstanding(w) + Scaled(Scaled(w.now - w.emitterLast))
  {
    hide W.LedgersOk;
    hide W.TokenTotal;
    hide W.LiabilityTotal;
    hide Total;
  }

  /** What an emitter call does to what it has distributed, and to whom. */
  lemma EmitterMoves(s: M.State, a: M.Action)
    requires !a.Wait?
    ensures var t := M.Step(s, a);
      && t.now == s.now
      && (t == s || !(a.Distributed? || a.SwapExecuted?) ==>
            t.distributed == s.distributed && t.backstop == s.backstop && t.lastDistro == s.lastDistro)
      && (M.Attempt(s, a).Ok? && a.Distributed? ==> M.Distribute(s, s.backstop) == Ok(t) && t.backstop == s.backstop)
      && (M.Attempt(s, a).Ok? && a.SwapExecuted? ==>
            && M.Distribute(s, s.backstop).Ok?
            && t.distributed == M.Distribute(s, s.backstop).value.distributed
            && t.lastDistro == M.Distribute(s, s.backstop).value.lastDistro[t.backstop := s.now])
      && (M.Attempt(s, a).Abort? ==> t == s)
  {
    hide M.DropSum;
    hide M.IsLarger;
  }

  lemma DistributedGrows(s: M.State, start: nat)
    requires M.EmitterOk(s, start)
    ensures M.Distribute(s, s.backstop).Ok? ==> M.Distribute(s, s.backstop).value.distributed >= s.distributed
  {}

  lemma {:induction false} EmitterStepKeeps(c: Chain, a: M.Action, start: nat)
    requires ChainOk(c, start) && !a.Wait?
    ensures ChainOk(EmitterStep(c, a), start)
  {
    hide W.WorldOk;
    hide PoolsOk;
    hide Total;
    hide PaysWithin;
    hide F.Outstanding;
    hide M.EmitterOk;
    hide M.Distribute;
    hide M.Attempt;
    M.StepKeeps(c.emitter, a, start);
    EmitterMoves(c.emitter, a);
    hide M.Step;
    DistributedGrows(c.emitter, start);
    if c.emitter.backstop == c.world.self {
      DistributeMints(c.emitter, c.world);
      F.StepIsFunded(c.world, W.EmitterDistributes);
      hide F.Minted;
    } else {
      Reinstalled(c.world);
    }
  }

  // ----- the backstop -----

  lemma {:induction false} BackstopStepKeeps(c: Chain, a: W.Action, start: nat)
    requires ChainOk(c, start) && Allowed(c, BackstopActs(a))
    ensures ChainOk(BackstopStep(c, a), start)
  {
    hide W.WorldOk;
    hide PoolsOk;
    hide Total;
    hide PaysWithin;
    hide F.Outstanding;
    hide F.PaidOut;
    hide F.Promising;
    hide M.EmitterOk;
    hide W.AllowanceOf;
    hide W.After;
    F.StepIsFunded(c.world, a);
    ClockStands(c.world, a);
    forall p | p in c.pools
      ensures PaysWithin(c.pools[p].emissions, Amount(c.poolPaid, p), W.AllowanceOf(W.After(c.world, a), p))
    {
      AllowanceStands(c.world, a, p);
      LessAllowance(c.pools[p].emissions, Amount(c.poolPaid, p), W.AllowanceOf(c.world, p), W.AllowanceOf(W.After(c.world, a), p));
    }
  }

  lemma LessAllowance(e: E.EmissionPool, paid: int, allowance: int, less: int)
    requires PaysWithin(e, paid, allowance) && (less == allowance || less == 0)
    ensures PaysWithin(e, paid, less)
  {
    hide Total;
  }

  /** Only gulps and pulls for a pool, and its expiry, touch its allowance. */
  lemma AllowanceStands(w: W.World, a: W.Action, p: Address)
    requires !a.EmitterDistributes? && (a.GulpPoolEmissions? || a.PoolPulls? ==> a.pool != p)
    ensures W.AllowanceOf(W.After(w, a), p) == (if a == W.AllowanceExpires(p) then 0 else W.AllowanceOf(w, p))
  {
    hide BackstopLedger.Deposit;
    hide BackstopLedger.QueueWithdrawal;
    hide BackstopLedger.DequeueWithdrawal;
    hide BackstopLedger.Withdraw;
    hide BackstopLedger.Draw;
    hide W.TotalNonQueued;
    hide W.GulpLoop;
    hide W.SettleAll;
    hide W.RedepositAll;
  }

  lemma ClockStands(w: W.World, a: W.Action)
    requires !a.Tick? && !a.EmitterDistributes?
    ensures var v := W.After(w, a);
      v.now == w.now && v.self == w.self && v.emitterLast == w.emitterLast && F.Minted(w, a) == 0
  {
    hide BackstopLedger.Deposit;
    hide BackstopLedger.QueueWithdrawal;
    hide BackstopLedger.DequeueWithdrawal;
    hide BackstopLedger.Withdraw;
    hide BackstopLedger.Draw;
    hide W.TotalNonQueued;
    hide W.GulpLoop;
    hide W.SettleAll;
    hide W.RedepositAll;
  }

  // ----- the pools -----

  lemma PoolsOkAfter(pools: map<Address, J.Joint>, a: Address, j: J.Joint)
    requires PoolsOk(pools) && J.JointOk(j)
    ensures PoolsOk(pools[a := j])
  {
    hide J.JointOk;
  }

  /** Calls of a pool claim nothing. */
  lemma PoolCallClaimsNothing(j: J.Joint, a: J.Action)
    requires J.JointOk(j) && (a.SharesSet? || (a.PoolActs? && J.Accounted(j, a)))
    ensures J.JointOk(J.Step(j, a)) && SameAccount(j.emissions, J.Step(j, a).emissions)
  {
    hide J.JointOk;
    hide J.Step;
    hide J.Accounts;
    hide SameAccount;
    J.StepKeeps(j, a);
    if a.PoolActs? {
      CallsClaimNothing(j, a);
    } else {
      SharesClaimNothing(j, a);
    }
  }

  lemma SharesClaimNothing(j: J.Joint, a: J.Action)
    requires a.SharesSet?
    ensures SameAccount(j.emissions, J.Step(j, a).emissions)
  {
    hide E.SharesOf;
    hide Total;
  }

  lemma CallsClaimNothing(j: J.Joint, a: J.Action)
    requires J.JointOk(j) && a.PoolActs?
    ensures SameAccount(j.emissions, J.Step(j, a).emissions)
  {
    hide J.JointOk;
    hide L.Step;
    hide J.MoveAll;
    hide Total;
    var q := L.Step(j.pool, a.a);
    var e := J.Follow(j.pool, q, j.emissions);
    FollowClaimsNothing(j, a.a);
    hide J.Follow;
    if J.MoveAll(e, a.log).Ok? {
      J.MoveAllMoves(e, a.log);
    }
  }

  lemma FollowClaimsNothing(j: J.Joint, a: L.Action)
    requires J.JointOk(j)
    ensures var e := J.Follow(j.pool, L.Step(j.pool, a), j.emissions);
      E.EmissionsOk(e) && SameAccount(j.emissions, e)
  {
    hide Total;
    hide L.Step;
    hide E.EmissionsOk;
    assert E.Keyed(j.emissions.(now := L.Step(j.pool, a).now)) by { StillKeyed(j.emissions, L.Step(j.pool, a).now); }
    J.StepOnward(j.pool, a);
    J.FollowOk(j.pool, L.Step(j.pool, a), j.emissions);
    NewTokensClaimNothing(j.emissions.(now := L.Step(j.pool, a).now), J.NewDecimals(L.Step(j.pool, a)));
    hide E.List;
  }

  lemma StillKeyed(e: E.EmissionPool, now: nat)
    requires E.EmissionsOk(e)
    ensures E.Keyed(e.(now := now))
  {
    hide E.TokenFunded;
  }

  lemma NewTokensClaimNothing(e: E.EmissionPool, decimals: nat)
    requires E.Keyed(e)
    ensures SameAccount(e, E.List(e, decimals))
  {
    hide Total;
    hide Pow10;
    var (d, b) := (e.reserves * 2, e.reserves * 2 + 1);
    TotalUpdate(e.claimed, d, 0);
    TotalUpdate(e.claimed[d := 0], b, 0);
  }

  lemma {:induction false} PoolStepKeeps(c: Chain, pool: Address, a: J.Action, start: nat)
    requires ChainOk(c, start) && Allowed(c, PoolActs(pool, a))
    ensures ChainOk(PoolStep(c, pool, a), start)
  {
    hide W.WorldOk;
    hide J.JointOk;
    hide F.Outstanding;
    hide M.EmitterOk;
    hide J.Step;
    hide Total;
    hide PaysWithin;
    hide W.AllowanceOf;
    var j := c.pools[pool];
    assert J.JointOk(j);
    PoolCallClaimsNothing(j, a);
    PoolsOkAfter(c.pools, pool, J.Step(j, a));
    SamePays(j.emissions, J.Step(j, a).emissions, Amount(c.poolPaid, pool), W.AllowanceOf(c.world, pool));
    hide PoolsOk;
    hide J.Accounted;
    hide SameAccount;
  }

  lemma SamePays(e: E.EmissionPool, n: E.EmissionPool, paid: int, allowance: int)
    requires SameAccount(e, n)
    ensures PaysWithin(n, paid, allowance) <==> PaysWithin(e, paid, allowance)
  {
    hide Total;
  }

  lemma PoolGulpKeeps(j: J.Joint, newEmissions: int)
    requires J.JointOk(j) && E.Gulp(j.emissions, newEmissions).Ok?
    ensures var n := j.(emissions := E.Gulp(j.emissions, newEmissions).value);
      && J.JointOk(n) && n.emissions.claimed == j.emissions.claimed
      && n.emissions.gulped == j.emissions.gulped + newEmissions
  {
    hide J.JointOk;
    hide J.Step;
    hide J.Accounts;
    J.StepKeeps(j, J.Gulped(newEmissions));
    GulpIsStep(j, newEmissions);
    hide E.Gulp;
  }

  lemma GulpIsStep(j: J.Joint, newEmissions: int)
    requires E.Gulp(j.emissions, newEmissions).Ok?
    ensures J.Step(j, J.Gulped(newEmissions)) == j.(emissions := E.Gulp(j.emissions, newEmissions).value)
    ensures E.Gulp(j.emissions, newEmissions).value.claimed == j.emissions.claimed
    ensures E.Gulp(j.emissions, newEmissions).value.gulped == j.emissions.gulped + newEmissions
  {
    GulpClaimsNothing(j.emissions, newEmissions);
    hide E.Gulp;
  }

  lemma GulpClaimsNothing(e: E.EmissionPool, newEmissions: int)
    requires E.Gulp(e, newEmissions).Ok?
    ensures E.Gulp(e, newEmissions).value.claimed == e.claimed
    ensures E.Gulp(e, newEmissions).value.gulped == e.gulped + newEmissions
  {
    hide E.Allotment;
  }

  /** A gulp from the backstop raises the allowance by what the pool then divides. */
  lemma GulpAllows(w: W.World, pool: Address)
    requires W.WorldOk(w) && W.ExecuteGulpPool(w, pool).Ok?
    ensures var v := W.ExecuteGulpPool(w, pool).value;
      && v == W.After(w, W.GulpPoolEmissions(pool))
      && W.AllowanceOf(v, pool) == W.AllowanceOf(w, pool) + W.PoolOf(w, pool).poolEmissions
      && (forall p :: p != pool ==> W.AllowanceOf(v, p) == W.AllowanceOf(w, p))
      && v.now == w.now && v.self == w.self && v.emitterLast == w.emitterLast && W.PoolOf(w, pool).poolEmissions >= 0
  {
    WorldProofs.PoolIsOk(w.pools, w.now, pool);
    WorldProofs.PoolEmissionsGulped(W.PoolOf(w, pool), w.now);
    hide W.LedgersOk;
    hide W.TokenTotal;
    hide BackstopLedger.LedgerOk;
    hide W.Liability;
  }

  lemma {:induction false} GulpStepKeeps(c: Chain, pool: Address, start: nat)
    requires ChainOk(c, start) && pool in c.pools
    ensures ChainOk(GulpStep(c, pool), start)
  {
    hide W.WorldOk;
    hide J.JointOk;
    hide F.Outstanding;
    hide M.EmitterOk;
    hide E.Gulp;
    hide Total;
    hide W.ExecuteGulpPool;
    hide W.AllowanceOf;
    var j := c.pools[pool];
    assert J.JointOk(j);
    var amount := W.PoolOf(c.world, pool).poolEmissions;
    if W.ExecuteGulpPool(c.world, pool).Ok? && E.Gulp(j.emissions, amount).Ok? {
      GulpAllows(c.world, pool);
      PoolGulpKeeps(j, amount);
      PoolsOkAfter(c.pools, pool, j.(emissions := E.Gulp(j.emissions, amount).value));
      F.StepIsFunded(c.world, W.GulpPoolEmissions(pool));
    }
    hide PoolsOk;
    hide W.After;
  }

  /** What a pool pulls it may no longer call for. */
  lemma PayoutTakes(w: W.World, pool: Address, toClaim: int, to: Address)
    requires W.WorldOk(w)
    ensures var (v, paid) := (AfterPayout(w, pool, toClaim, to), Payout(w, pool, toClaim, to));
      && W.WorldOk(v) && F.Outstanding(v) + Scaled(paid) == F.Outstanding(w)
      && v.now == w.now && v.self == w.self && v.emitterLast == w.emitterLast
      && W.AllowanceOf(v, pool) == W.AllowanceOf(w, pool) - paid
      && (forall p :: p != pool ==> W.AllowanceOf(v, p) == W.AllowanceOf(w, p))
      && 0 <= W.AllowanceOf(v, pool)
  {
    hide W.LedgersOk;
    hide W.TokenTotal;
    hide W.LiabilityTotal;
    hide Total;
    TotalUpdate(w.allowances, pool, W.AllowanceOf(w, pool) - toClaim);
  }

  lemma PoolClaimKeeps(j: J.Joint, user: Address, ids: seq<nat>)
    requires J.JointOk(j) && E.ClaimAll(j.emissions, user, ids, |ids|).Ok?
    ensures var (e, toClaim) := E.ClaimAll(j.emissions, user, ids, |ids|).value;
      && J.JointOk(j.(emissions := e)) && toClaim >= 0 && Total(e.claimed) == Total(j.emissions.claimed) + toClaim
      && e.gulped == j.emissions.gulped
  {
    hide J.JointOk;
    hide J.Step;
    hide J.Accounts;
    hide E.EmissionsOk;
    hide E.ClaimAll;
    hide Total;
    J.EmissionsOf(j);
    J.StepKeeps(j, J.Claimed(user, ids));
    E.ClaimAllKeeps(j.emissions, user, ids, |ids|);
    ClaimIsStep(j, user, ids);
  }

  lemma ClaimIsStep(j: J.Joint, user: Address, ids: seq<nat>)
    requires E.ClaimAll(j.emissions, user, ids, |ids|).Ok?
    ensures J.Step(j, J.Claimed(user, ids)) == j.(emissions := E.ClaimAll(j.emissions, user, ids, |ids|).value.0)
  {
    hide E.ClaimAll;
  }

  lemma {:induction false} PayStepKeeps(c: Chain, pool: Address, user: Address, ids: seq<nat>, to: Address, start: nat)
    requires ChainOk(c, start) && pool in c.pools
    ensures ChainOk(PayStep(c, pool, user, ids, to), start)
  {
    hide W.WorldOk;
    hide J.JointOk;
    hide F.Outstanding;
    hide M.EmitterOk;
    hide E.ClaimAll;
    hide Total;
    hide AfterPayout;
    hide W.AllowanceOf;
    var j := c.pools[pool];
    assert J.JointOk(j);
    if E.ClaimAll(j.emissions, user, ids, |ids|).Ok? {
      PoolClaimKeeps(j, user, ids);
      var (e, toClaim) := E.ClaimAll(j.emissions, user, ids, |ids|).value;
      PoolsOkAfter(c.pools, pool, j.(emissions := e));
      PayoutTakes(c.world, pool, toClaim, to);
      PayoutIsPart(c.world, pool, toClaim, to);
      TotalUpdate(c.poolPaid, pool, Amount(c.poolPaid, pool) + Payout(c.world, pool, toClaim, to));
    }
    hide PoolsOk;
    hide Payout;
  }

  lemma PayoutIsPart(w: W.World, pool: Address, toClaim: int, to: Address)
    requires toClaim >= 0
    ensures 0 <= Payout(w, pool, toClaim, to) <= toClaim
  {
    hide W.PullAllowance;
  }

  // ----- time -----

  lemma ElapseKeeps(j: J.Joint, seconds: nat, blocks: nat)
    requires J.JointOk(j)
    ensures J.JointOk(Elapse(j, seconds, blocks)) && SameAccount(j.emissions, Elapse(j, seconds, blocks).emissions)
  {
    var a := J.PoolActs(L.Wait(seconds, blocks), []);
    assert J.Accounted(j, a);
    PoolCallClaimsNothing(j, a);
    hide J.JointOk;
    hide J.Step;
    hide Total;
  }

  lemma PoolsElapse(c: Chain, seconds: nat, blocks: nat)
    requires PoolsOk(c.pools)
    ensures PoolsOk(Later(c.pools, seconds, blocks))
    ensures forall a :: a in c.pools ==> SameAccount(c.pools[a].emissions, Later(c.pools, seconds, blocks)[a].emissions)
  {
    hide J.JointOk;
    hide Elapse;
    hide SameAccount;
    var later := Later(c.pools, seconds, blocks);
    forall a | a in c.pools
      ensures J.JointOk(later[a]) && SameAccount(c.pools[a].emissions, later[a].emissions)
    {
      ElapseKeeps(c.pools[a], seconds, blocks);
    }
  }

  lemma {:induction false} WaitStepKeeps(c: Chain, seconds: nat, blocks: nat, start: nat)
    requires ChainOk(c, start)
    ensures ChainOk(WaitStep(c, seconds, blocks), start)
  {
    hide W.WorldOk;
    hide PoolsOk;
    hide Total;
    hide PaysWithin;
    hide Later;
    hide SameAccount;
    hide F.Outstanding;
    hide M.EmitterOk;
    M.StepKeeps(c.emitter, M.Wait(seconds), start);
    F.StepIsFunded(c.world, W.Tick(seconds));
    PoolsElapse(c, seconds, blocks);
    forall a | a in c.pools
      ensures PaysWithin(Later(c.pools, seconds, blocks)[a].emissions, Amount(c.poolPaid, a), W.AllowanceOf(c.world, a))
    {
      SamePays(c.pools[a].emissions, Later(c.pools, seconds, blocks)[a].emissions, Amount(c.poolPaid, a), W.AllowanceOf(c.world, a));
    }
  }

  // ----- runs -----

  lemma {:induction false} StepKeeps(c: Chain, a: Action, start: nat)
    requires ChainOk(c, start) && Allowed(c, a)
    ensures ChainOk(Step(c, a), start)
  {
    hide ChainOk;
    hide WaitStep;
    hide EmitterStep;
    hide BackstopStep;
    hide PoolStep;
    hide GulpStep;
    hide PayStep;
    match a
    case Wait(seconds, blocks) => WaitStepKeeps(c, seconds, blocks, start);
    case EmitterActs(m) => EmitterStepKeeps(c, m, start);
    case BackstopActs(w) => BackstopStepKeeps(c, w, start);
    case PoolActs(pool, j) => PoolStepKeeps(c, pool, j, start);
    case PoolGulps(pool) => GulpStepKeeps(c, pool, start);
    case PoolPays(pool, user, ids, to) => PayStepKeeps(c, pool, user, ids, to, start);
  }

  /** The states a run goes through. */
  ghost predicate Leads(c: Chain, actions: seq<Action>, d: Chain)
    decreases |actions|
  {
    if actions == [] then d == c
    else Allowed(c, actions[0]) && Leads(Step(c, actions[0]), actions[1..], d)
  }

  lemma {:induction false} RunKeeps(c: Chain, actions: seq<Action>, d: Chain, start: nat)
    requires ChainOk(c, start) && Leads(c, actions, d)
    ensures ChainOk(d, start)
    decreases |actions|
  {
    hide ChainOk;
    hide Allowed;
    hide Step;
    if actions != [] {
      StepKeeps(c, actions[0], start);
      RunKeeps(Step(c, actions[0]), actions[1..], d, start);
    }
  }

  /** Emitter, backstop and pools as they are initialised. */
  ghost predicate IsGenesis(c: Chain)
  {
    && M.IsGenesis(c.emitter) && W.IsGenesis(c.world) && (forall a :: a in c.pools ==> J.IsGenesis(c.pools[a]))
    && c.emitter.backstop == c.world.self && c.emitter.now == c.world.now == c.world.emitterLast
    && c.backstopPaid == 0 && c.poolPaid == map[] && c.unfunded == 0
  }

  lemma GenesisOk(c: Chain)
    requires IsGenesis(c)
    ensures ChainOk(c, c.emitter.now)
  {
    F.NothingOutstanding(c.world);
    forall a | a in c.pools
      ensures J.JointOk(c.pools[a]) && Total(c.pools[a].emissions.claimed) == 0
    {
      J.GenesisOk(c.pools[a]);
      TotalOfNothing(c.pools[a].emissions.claimed);
    }
    TotalOfNothing(c.poolPaid);
    hide Total;
    hide J.JointOk;
    hide W.WorldOk;
    hide F.Outstanding;
  }

  /** No claim goes to someone else, and the backstop is not installed again. */
  ghost predicate Plain(c: Chain, a: Action)
  {
    && (a.BackstopActs? ==> R.OwnClaim(a.w))
    && (a.EmitterActs? ==> c.emitter.backstop == c.world.self || M.Step(c.emitter, a.m).backstop != c.world.self)
  }

  ghost predicate AllPlain(c: Chain, actions: seq<Action>)
    decreases |actions|
  {
    actions == [] || (Allowed(c, actions[0]) && Plain(c, actions[0]) && AllPlain(Step(c, actions[0]), actions[1..]))
  }

  lemma PlainIsFunded(c: Chain, a: Action, start: nat)
    requires ChainOk(c, start) && Allowed(c, a) && Plain(c, a)
    ensures Step(c, a).unfunded == c.unfunded
  {
    hide M.Step;
    hide M.Attempt;
    hide F.Promising;
    hide F.PaidOut;
    hide W.After;
    hide J.Step;
    hide E.ClaimAll;
    hide E.Gulp;
    hide W.WorldOk;
    hide PoolsOk;
    hide Funded;
    hide M.EmitterOk;
    if a.BackstopActs? {
      F.StepIsFunded(c.world, a.w);
    }
  }

  lemma {:induction false} PlainRunIsFunded(c: Chain, actions: seq<Action>, d: Chain, start: nat)
    requires ChainOk(c, start) && Leads(c, actions, d) && AllPlain(c, actions)
    ensures d.unfunded == c.unfunded
    decreases |actions|
  {
    hide ChainOk;
    hide Allowed;
    hide Step;
    hide Plain;
    if actions != [] {
      StepKeeps(c, actions[0], start);
      PlainIsFunded(c, actions[0], start);
      PlainRunIsFunded(Step(c, actions[0]), actions[1..], d, start);
    }
  }

  /** From the emitter to the users of every pool. In a run from initialisation, what depositors have claimed, what the
      listed pools have paid their users and what other pools have pulled, together with everything still called for, is
      at most what the emitter has distributed, one BLND for every second to its current backstop's last distribution,
      plus what is unfunded: nothing, unless a claim goes to someone else or the backstop is installed again. */
  lemma {:induction false} UsersArePaidFromMinting(c: Chain, actions: seq<Action>, d: Chain)
    requires IsGenesis(c) && Leads(c, actions, d)
    ensures d.emitter.backstop in d.emitter.lastDistro
    ensures d.emitter.distributed == SCALAR_7 * (d.emitter.lastDistro[d.emitter.backstop] - c.emitter.now)
    ensures F.Outstanding(d.world) + Scaled(d.backstopPaid + Total(d.poolPaid)) <= Scaled(d.emitter.distributed) + d.unfunded
    ensures AllPlain(c, actions) ==> d.backstopPaid + Total(d.poolPaid) <= d.emitter.distributed
    ensures forall a :: a in d.pools ==> 0 <= Amount(d.poolPaid, a) <= Total(d.pools[a].emissions.claimed) <= d.pools[a].emissions.gulped
  {
    hide Leads;
    hide AllPlain;
    hide W.WorldOk;
    hide PoolsOk;
    hide Total;
    hide PaysWithin;
    hide F.Outstanding;
    GenesisOk(c);
    assert c.unfunded == 0;
    hide IsGenesis;
    RunKeeps(c, actions, d, c.emitter.now);
    if AllPlain(c, actions) {
      PlainRunIsFunded(c, actions, d, c.emitter.now);
      F.OutstandingNonNeg(d.world);
    }
    hide Total;
    forall a | a in d.pools
      ensures 0 <= Amount(d.poolPaid, a) <= Total(d.pools[a].emissions.claimed) <= d.pools[a].emissions.gulped
    {
      ClaimedWithin(d, a);
    }
  }

  lemma ClaimedWithin(c: Chain, a: Address)
    requires PoolsOk(c.pools) && PaidWithin(c) && a in c.pools
    ensures 0 <= Amount(c.poolPaid, a) <= Total(c.pools[a].emissions.claimed) <= c.pools[a].emissions.gulped
  {
    hide J.JointOk;
    hide Total;
    assert J.JointOk(c.pools[a]);
    assert PaysWithin(c.pools[a].emissions, Amount(c.poolPaid, a), W.AllowanceOf(c.world, a));
    J.EmissionsOf(c.pools[a]);
    J.FundedNow(c.pools[a].emissions);
  }

  // ----- claims that arrive -----

  /** Every pool has paid what its users claimed, and may still pull the rest of what it gulped. */
  ghost predicate Arrived(c: Chain)
  {
    forall a :: a in c.pools ==> AllPaid(c.pools[a].emissions, Amount(c.poolPaid, a), W.AllowanceOf(c.world, a))
  }

  ghost predicate AllPaid(e: E.EmissionPool, paid: int, allowance: int)
  {
    paid == Total(e.claimed) && allowance + paid == e.gulped
  }

  lemma SameAllPaid(e: E.EmissionPool, n: E.EmissionPool, paid: int, allowance: int)
    requires SameAccount(e, n)
    ensures AllPaid(n, paid, allowance) <==> AllPaid(e, paid, allowance)
  {
    hide Total;
  }

  /** No allowance of a listed pool runs out. */
  predicate Lasting(c: Chain, a: Action)
  {
    a.BackstopActs? && a.w.AllowanceExpires? ==> a.w.pool !in c.pools
  }

  /** A pool's claim pays in full: what its users ever claim is within what it gulped, and the BLND is there. */
  lemma {:induction false} ClaimIsPaid(c: Chain, pool: Address, user: Address, ids: seq<nat>, to: Address, start: nat)
    requires ChainOk(c, start) && W.BlndSolvent(c.world) && Arrived(c) && pool in c.pools
    requires E.ClaimAll(c.pools[pool].emissions, user, ids, |ids|).Ok?
    ensures var toClaim := E.ClaimAll(c.pools[pool].emissions, user, ids, |ids|).value.1;
      Payout(c.world, pool, toClaim, to) == toClaim
  {
    hide W.WorldOk;
    hide W.BlndSolvent;
    hide J.JointOk;
    hide F.Outstanding;
    hide M.EmitterOk;
    hide E.ClaimAll;
    hide E.EmissionsOk;
    hide Total;
    hide W.PullAllowance;
    hide W.AllowanceOf;
    var j := c.pools[pool];
    assert J.JointOk(j) && AllPaid(j.emissions, Amount(c.poolPaid, pool), W.AllowanceOf(c.world, pool));
    PoolClaimKeeps(j, user, ids);
    var (e, toClaim) := E.ClaimAll(j.emissions, user, ids, |ids|).value;
    J.EmissionsOf(j.(emissions := e));
    J.FundedNow(e);
    R.AllowancesAreFunded(c.world, pool, toClaim, to);
  }

  lemma {:induction false} PayArrives(c: Chain, pool: Address, user: Address, ids: seq<nat>, to: Address, start: nat)
    requires ChainOk(c, start) && W.BlndSolvent(c.world) && Arrived(c) && pool in c.pools
    ensures W.BlndSolvent(PayStep(c, pool, user, ids, to).world) && Arrived(PayStep(c, pool, user, ids, to))
  {
    hide W.WorldOk;
    hide W.BlndSolvent;
    hide PoolsOk;
    hide F.Outstanding;
    hide M.EmitterOk;
    hide E.ClaimAll;
    hide Total;
    hide AfterPayout;
    hide W.AllowanceOf;
    if E.ClaimAll(c.pools[pool].emissions, user, ids, |ids|).Ok? {
      var toClaim := E.ClaimAll(c.pools[pool].emissions, user, ids, |ids|).value.1;
      assert J.JointOk(c.pools[pool]) by { APoolIsOk(c.pools, pool); }
      hide J.JointOk;
      PoolClaimKeeps(c.pools[pool], user, ids);
      ClaimIsPaid(c, pool, user, ids, to, start);
      PayoutTakes(c.world, pool, toClaim, to);
      PayoutSolvent(c.world, pool, toClaim, to);
    }
    hide Payout;
  }

  lemma APoolIsOk(pools: map<Address, J.Joint>, a: Address)
    requires PoolsOk(pools) && a in pools
    ensures J.JointOk(pools[a])
  {
    hide J.JointOk;
  }

  lemma PayoutSolvent(w: W.World, pool: Address, toClaim: int, to: Address)
    requires W.WorldOk(w) && W.BlndSolvent(w)
    ensures W.BlndSolvent(AfterPayout(w, pool, toClaim, to))
  {
    hide W.WorldOk;
    hide W.BlndSolvent;
    hide W.PullAllowance;
    R.StepKeeps(w, W.PoolPulls(pool, toClaim, to));
    PullIsStep(w, pool, toClaim, to);
    hide W.After;
  }

  lemma PullIsStep(w: W.World, pool: Address, toClaim: int, to: Address)
    ensures W.PullAllowance(w, pool, toClaim, to).Ok? ==>
      W.After(w, W.PoolPulls(pool, toClaim, to)) == W.PullAllowance(w, pool, toClaim, to).value
    ensures R.Fits(w, W.PoolPulls(pool, toClaim, to))
  {
    hide W.PullAllowance;
  }

  lemma {:induction false} GulpArrives(c: Chain, pool: Address, start: nat)
    requires ChainOk(c, start) && W.BlndSolvent(c.world) && Arrived(c) && pool in c.pools
    ensures W.BlndSolvent(GulpStep(c, pool).world) && Arrived(GulpStep(c, pool))
  {
    hide W.WorldOk;
    hide W.BlndSolvent;
    hide PoolsOk;
    hide F.Outstanding;
    hide M.EmitterOk;
    hide E.Gulp;
    hide Total;
    hide W.ExecuteGulpPool;
    hide W.AllowanceOf;
    hide W.After;
    var amount := W.PoolOf(c.world, pool).poolEmissions;
    if W.ExecuteGulpPool(c.world, pool).Ok? && E.Gulp(c.pools[pool].emissions, amount).Ok? {
      assert J.JointOk(c.pools[pool]) by { APoolIsOk(c.pools, pool); }
      hide J.JointOk;
      GulpAllows(c.world, pool);
      PoolGulpKeeps(c.pools[pool], amount);
      R.StepKeeps(c.world, W.GulpPoolEmissions(pool));
    }
  }

  lemma {:induction false} EmitterArrives(c: Chain, a: M.Action, start: nat)
    requires ChainOk(c, start) && W.BlndSolvent(c.world) && Arrived(c) && !a.Wait? && Plain(c, EmitterActs(a))
    ensures W.BlndSolvent(EmitterStep(c, a).world) && Arrived(EmitterStep(c, a))
  {
    hide W.WorldOk;
    hide W.BlndSolvent;
    hide PoolsOk;
    hide Total;
    hide AllPaid;
    hide F.Outstanding;
    hide M.EmitterOk;
    hide M.Attempt;
    hide M.Step;
    if c.emitter.backstop == c.world.self {
      DistributeMints(c.emitter, c.world);
      R.StepKeeps(c.world, W.EmitterDistributes);
    }
    hide W.ExecuteDistribute;
  }

  lemma {:induction false} BackstopArrives(c: Chain, a: W.Action, start: nat)
    requires ChainOk(c, start) && W.BlndSolvent(c.world) && Arrived(c)
    requires Allowed(c, BackstopActs(a)) && R.OwnClaim(a) && Lasting(c, BackstopActs(a))
    ensures W.BlndSolvent(BackstopStep(c, a).world) && Arrived(BackstopStep(c, a))
  {
    hide W.WorldOk;
    hide W.BlndSolvent;
    hide PoolsOk;
    hide Total;
    hide AllPaid;
    hide F.Outstanding;
    hide F.PaidOut;
    hide F.Promising;
    hide M.EmitterOk;
    hide W.After;
    hide W.AllowanceOf;
    hide R.Fits;
    R.StepKeeps(c.world, a);
    forall p | p in c.pools
      ensures W.AllowanceOf(W.After(c.world, a), p) == W.AllowanceOf(c.world, p)
    {
      AllowanceStands(c.world, a, p);
    }
  }

  lemma {:induction false} PoolArrives(c: Chain, pool: Address, a: J.Action, start: nat)
    requires ChainOk(c, start) && Arrived(c) && Allowed(c, PoolActs(pool, a))
    ensures Arrived(PoolStep(c, pool, a))
  {
    hide W.WorldOk;
    hide Total;
    hide AllPaid;
    hide J.JointOk;
    hide J.Step;
    hide J.Accounted;
    hide SameAccount;
    hide F.Outstanding;
    hide M.EmitterOk;
    hide W.AllowanceOf;
    var j := c.pools[pool];
    PoolCallClaimsNothing(j, a);
    SameAllPaid(j.emissions, J.Step(j, a).emissions, Amount(c.poolPaid, pool), W.AllowanceOf(c.world, pool));
  }

  lemma {:induction false} WaitArrives(c: Chain, seconds: nat, blocks: nat, start: nat)
    requires ChainOk(c, start) && W.BlndSolvent(c.world) && Arrived(c)
    ensures W.BlndSolvent(WaitStep(c, seconds, blocks).world) && Arrived(WaitStep(c, seconds, blocks))
  {
    hide W.WorldOk;
    hide W.BlndSolvent;
    hide PoolsOk;
    hide Total;
    hide AllPaid;
    hide Later;
    hide SameAccount;
    hide F.Outstanding;
    hide M.EmitterOk;
    R.StepKeeps(c.world, W.Tick(seconds));
    PoolsElapse(c, seconds, blocks);
    forall a | a in c.pools
      ensures AllPaid(Later(c.pools, seconds, blocks)[a].emissions, Amount(c.poolPaid, a), W.AllowanceOf(c.world, a))
    {
      SameAllPaid(c.pools[a].emissions, Later(c.pools, seconds, blocks)[a].emissions, Amount(c.poolPaid, a), W.AllowanceOf(c.world, a));
    }
  }

  lemma {:induction false} StepArrives(c: Chain, a: Action, start: nat)
    requires ChainOk(c, start) && W.BlndSolvent(c.world) && Arrived(c) && Allowed(c, a) && Plain(c, a) && Lasting(c, a)
    ensures W.BlndSolvent(Step(c, a).world) && Arrived(Step(c, a))
  {
    hide ChainOk;
    hide Arrived;
    hide W.BlndSolvent;
    hide WaitStep;
    hide EmitterStep;
    hide GulpStep;
    hide PayStep;
    match a
    case Wait(seconds, blocks) => WaitArrives(c, seconds, blocks, start);
    case EmitterActs(m) => EmitterArrives(c, m, start);
    case BackstopActs(w) => BackstopArrives(c, w, start);
    case PoolActs(pool, j) => PoolArrives(c, pool, j, start);
    case PoolGulps(pool) => GulpArrives(c, pool, start);
    case PoolPays(pool, user, ids, to) => PayArrives(c, pool, user, ids, to, start);
  }

  ghost predicate AllLasting(c: Chain, actions: seq<Action>)
    decreases |actions|
  {
    actions == [] ||
    (Allowed(c, actions[0]) && Plain(c, actions[0]) && Lasting(c, actions[0]) && AllLasting(Step(c, actions[0]), actions[1..]))
  }

  lemma {:induction false} RunArrives(c: Chain, actions: seq<Action>, d: Chain, start: nat)
    requires ChainOk(c, start) && W.BlndSolvent(c.world) && Arrived(c) && Leads(c, actions, d) && AllLasting(c, actions)
    ensures W.BlndSolvent(d.world) && Arrived(d)
    decreases |actions|
  {
    hide ChainOk;
    hide Arrived;
    hide W.BlndSolvent;
    hide Allowed;
    hide Step;
    hide Plain;
    hide Lasting;
    if actions != [] {
      StepKeeps(c, actions[0], start);
      StepArrives(c, actions[0], start);
      RunArrives(Step(c, actions[0]), actions[1..], d, start);
    }
  }

  lemma GenesisArrived(c: Chain)
    requires IsGenesis(c)
    ensures W.BlndSolvent(c.world) && Arrived(c)
  {
    R.GenesisOk(c.world);
    TotalOfNothing(map[]);
    hide Total;
    hide W.BlndSolvent;
  }

  /** A claim's transfer may fail unnoticed, but none does: in a run from initialisation in which claims go to the
      claimant, the backstop is not installed again and no allowance of a listed pool runs out, every pool has paid its
      users exactly what they claimed, and the next claim is paid in full. */
  lemma {:induction false} UsersGetWhatTheyClaim(c: Chain, actions: seq<Action>, d: Chain, pool: Address,
                                                 user: Address, ids: seq<nat>, to: Address)
    requires IsGenesis(c) && Leads(c, actions, d) && AllLasting(c, actions) && pool in d.pools
    ensures Amount(d.poolPaid, pool) == Total(d.pools[pool].emissions.claimed)
    ensures E.ClaimAll(d.pools[pool].emissions, user, ids, |ids|).Ok? ==>
      var toClaim := E.ClaimAll(d.pools[pool].emissions, user, ids, |ids|).value.1;
      Payout(d.world, pool, toClaim, to) == toClaim
  {
    hide ChainOk;
    hide IsGenesis;
    hide Leads;
    hide AllLasting;
    hide W.BlndSolvent;
    hide E.ClaimAll;
    hide Payout;
    hide Total;
    GenesisOk(c);
    GenesisArrived(c);
    RunKeeps(c, actions, d, c.emitter.now);
    RunArrives(c, actions, d, c.emitter.now);
    assert AllPaid(d.pools[pool].emissions, Amount(d.poolPaid, pool), W.AllowanceOf(d.world, pool));
    if E.ClaimAll(d.pools[pool].emissions, user, ids, |ids|).Ok? {
      ClaimIsPaid(d, pool, user, ids, to, c.emitter.now);
    }
  }

  /** When a claim's transfer arrives; otherwise the claim counts as paid all the same. */
  lemma {:induction false} PayoutExact(w: W.World, pool: Address, toClaim: nat, to: Address)
    requires W.WorldOk(w) && W.BlndSolvent(w)
    ensures Payout(w, pool, toClaim, to) == toClaim <==> toClaim <= W.AllowanceOf(w, pool) || toClaim == 0
  {
    R.AllowancesAreFunded(w, pool, toClaim, to);
    hide W.PullAllowance;
    hide W.WorldOk;
    hide W.BlndSolvent;
    hide W.AllowanceOf;
  }
}
