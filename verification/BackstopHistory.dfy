/** What whole runs of the backstop add up to: emissions streamed in are paid out or still owed, pool by
    pool and up to bounded rounding, and nothing is withdrawn that was not queued 21 days earlier. */
module BackstopHistory {
  import opened Outcomes
  import opened FixedPoint
  import opened Totals
  import opened UserBalances
  import opened PoolBalances
  import opened BackstopLedger
  import opened BackstopLedgerProofs
  import opened BackstopWorld
  import opened BackstopWorldProofs
  import opened BackstopGulpProofs
  import opened BackstopClaimProofs
  import opened BackstopRuns

  // ----- emissions, pool by pool -----

  /** BLND one gulp adds to the depositor stream of pool p. */
  ghost function GulpStream(w: World, p: Address): int
  {
    var balances := ZoneBalances(w.pools, w.rewardZone);
    var total := TotalNonQueued(balances, |balances|);
    if total.Ok? && total.value > 0 then
      StreamedTo(w.rewardZone, ZoneShares(balances, total.value), |balances|, ToBackstop(NewEmissions(w)), p)
    else 0
  }

  /** BLND a step adds to the depositor stream of pool p. */
  ghost function Streamed(w: World, a: Action, p: Address): int
  {
    if a.GulpEmissions? && Step(w, a).Ok? then GulpStream(w, p) else 0
  }

  /** BLND a step pays out for settled positions in pool p. */
  ghost function Paid(w: World, a: Action, p: Address): int
  {
    if a.Claim? && Step(w, a).Ok? then
      ClaimIsLoops(w, a.from, a.ids, a.to, a.lpOut);
      PaidFrom(w.pools, a.ids, |a.ids|, w.now, a.from, p)
    else 0
  }

  /** SCALAR_7 times what a step's re-deposits newly promise a recipient in pool p. */
  ghost function NewlyPromised(w: World, a: Action, p: Address): int
  {
    if a.Claim? && Step(w, a).Ok? then
      ClaimIsLoops(w, a.from, a.ids, a.to, a.lpOut);
      var s := SettleAll(w.pools, a.ids, |a.ids|, w.now, a.from).value;
      if s.claimed > 0 then PromisedIn(s, a.ids, |a.ids|, a.lpOut, a.to, p) else 0
    else 0
  }

  /** SCALAR_7 times the most a step may lose of pool p's emissions: the rounding of one emission update where
      it makes one, and what restarting the stream loses. */
  ghost function MayLose(w: World, a: Action, p: Address): int
  {
    if Step(w, a).Abort? then 0
    else
      match a
      case DepositTokens(_, pool, _) => if pool == p then Rounding(PoolOf(w, p)) else 0
      case QueueForExit(_, pool, _) => if pool == p then Rounding(PoolOf(w, p)) else 0
      case CancelQueued(_, pool, _) => if pool == p then Rounding(PoolOf(w, p)) else 0
      case Claim(_, ids, _, _) => if p in ids then Rounding(PoolOf(w, p)) else 0
      case GulpEmissions => if p in w.rewardZone then RestartLoss(PoolOf(w, p), w.now) else 0
      case _ => 0
  }

  /** The balance of pool p over a step: what it owes after, plus what was paid, is what it owed before plus
      what was streamed in and newly promised, short by no more than the step may lose. */
  ghost predicate Covered(w: World, a: Action, p: Address)
  {
    var before := Obligation(PoolOf(w, p)) + Scaled(Streamed(w, a, p)) + NewlyPromised(w, a, p);
    var after := Obligation(PoolOf(After(w, a), p)) + Scaled(Paid(w, a, p));
    after <= before <= after + MayLose(w, a, p)
  }

  /** What a gulp does to one pool's debt, from its turn in the loop. */
  lemma TurnCovered(was: PoolLedger, l: PoolLedger, zone: seq<Address>, shares: seq<int>, now: nat, toPools: int, toBackstop: int, p: Address)
    requires |zone| == |shares| && TurnTaken(was, l, zone, shares, |shares|, now, toPools, toBackstop, p)
    requires LedgerOk(was, now) && toPools >= 0 && toBackstop >= 0 && forall i :: 0 <= i < |shares| ==> shares[i] >= 0
    ensures Obligation(l) <= Obligation(was) + Scaled(StreamedTo(zone, shares, |shares|, toBackstop, p))
                          <= Obligation(l) + if p in zone then RestartLoss(was, now) else 0
    ensures l.accounts == was.accounts
  {
    hide LedgerOk;
    hide Obligation;
    hide Liability;
    hide GulpOne;
    hide RestartLoss;
    hide StreamedTo;
    hide Floor;
    assert zone[..|shares|] == zone;
    if p in zone {
      var i :| 0 <= i < |zone| && zone[i] == p;
      GulpOneKeeps(was, now, shares[i], toPools, toBackstop);
    }
  }

  lemma SharesNonNegative(balances: seq<PoolHolding>, total: int)
    requires BalancesOk(balances) && total > 0
    ensures forall i :: 0 <= i < |balances| ==> ZoneShares(balances, total)[i] >= 0
  {
    hide BalancesOk;
    hide ZoneShares;
    forall i | 0 <= i < |balances|
      ensures ZoneShares(balances, total)[i] >= 0
    {
      ShareIsPart(balances, i, total);
    }
  }

  /** The loop, pool by pool. */
  lemma LoopCovered(pools: map<Address, PoolLedger>, now: nat, zone: seq<Address>, balances: seq<PoolHolding>,
                    total: int, toPools: int, toBackstop: int, p: Address)
    requires LedgersOk(pools, now) && BalancesOk(balances) && |zone| == |balances| && total > 0 && Distinct(zone)
    requires toPools >= 0 && toBackstop >= 0
    requires GulpLoop(pools, zone, balances, |zone|, now, total, toPools, toBackstop).Ok?
    ensures var l := PoolIn(GulpLoop(pools, zone, balances, |zone|, now, total, toPools, toBackstop).value, p);
      var was := PoolIn(pools, p);
      && Obligation(l) <= Obligation(was) + Scaled(StreamedTo(zone, ZoneShares(balances, total), |zone|, toBackstop, p))
                       <= Obligation(l) + (if p in zone then RestartLoss(was, now) else 0)
      && l.accounts == was.accounts
  {
    hide GulpLoop;
    hide ZoneShares;
    hide StreamedTo;
    hide Obligation;
    hide LedgersOk;
    hide LedgerOk;
    hide BalancesOk;
    hide TurnTaken;
    hide RestartLoss;
    hide PoolIn;
    GulpLoopIs(pools, now, zone, balances, |zone|, total, toPools, toBackstop, p);
    PoolIsOk(pools, now, p);
    SharesNonNegative(balances, total);
    TurnCovered(PoolIn(pools, p), PoolIn(GulpLoop(pools, zone, balances, |zone|, now, total, toPools, toBackstop).value, p),
      zone, ZoneShares(balances, total), now, toPools, toBackstop, p);
  }

  lemma GulpCovered(w: World, p: Address)
    requires WorldOk(w) && ExecuteGulp(w).Ok?
    ensures var v := ExecuteGulp(w).value;
      && Obligation(PoolOf(v, p)) <= Obligation(PoolOf(w, p)) + Scaled(GulpStream(w, p))
           <= Obligation(PoolOf(v, p)) + (if p in w.rewardZone then RestartLoss(PoolOf(w, p), w.now) else 0)
      && PoolOf(v, p).accounts == PoolOf(w, p).accounts
  {
    hide ExecuteGulp;
    hide TotalNonQueued;
    hide ZoneBalances;
    hide ZoneShares;
    hide GulpLoop;
    hide Obligation;
    hide LedgersOk;
    hide TokenTotal;
    hide StreamedTo;
    hide BalancesOk;
    hide ToPools;
    hide ToBackstop;
    hide NewEmissions;
    hide MaxZoneSize;
    hide RestartLoss;
    hide PoolIn;
    GulpHasTotal(w);
    GulpIsLoop(w);
    SplitIsExact(w);
    var balances := ZoneBalances(w.pools, w.rewardZone);
    LoopCovered(w.pools, w.now, w.rewardZone, balances, TotalNonQueued(balances, |balances|).value,
      ToPools(NewEmissions(w)), ToBackstop(NewEmissions(w)), p);
  }

  lemma {:induction false} ClaimCovered(w: World, a: Action, p: Address)
    requires WorldOk(w) && a.Claim? && ExecuteClaim(w, a.from, a.ids, a.to, a.lpOut).Ok?
    ensures var v := ExecuteClaim(w, a.from, a.ids, a.to, a.lpOut).value.0;
      && Obligation(PoolOf(v, p)) + Scaled(Paid(w, a, p)) <= Obligation(PoolOf(w, p)) + NewlyPromised(w, a, p)
           <= Obligation(PoolOf(v, p)) + Scaled(Paid(w, a, p)) + (if p in a.ids then Rounding(PoolOf(w, p)) else 0)
      && NewlyPromised(w, a, p) >= 0 && (a.to == a.from ==> NewlyPromised(w, a, p) == 0)
      && (forall u :: AccountOf(PoolOf(v, p), u).holding.q4w == AccountOf(PoolOf(w, p), u).holding.q4w)
  {
    hide SettleAll;
    hide RedepositAll;
    hide LedgersOk;
    hide Obligation;
    hide AllDone;
    hide HasClaims;
    hide TokenTotal;
    hide LiabilityTotal;
    hide Promised;
    hide PromisedIn;
    hide AllSettled;
    hide Due;
    hide Rounding;
    ClaimIsLoops(w, a.from, a.ids, a.to, a.lpOut);
    hide ExecuteClaim;
    var n := |a.ids|;
    assert a.ids[..n] == a.ids;
    SettleAllPerPool(w.pools, a.ids, n, w.now, a.from, p);
    SettleAllKeeps(w.pools, a.ids, n, w.now, a.from);
    SettleAllRecords(w.pools, a.ids, n, w.now, a.from);
    var s := SettleAll(w.pools, a.ids, n, w.now, a.from).value;
    if s.claimed > 0 {
      RedepositAllKeeps(s, a.ids, n, a.lpOut, a.to, w.now, p);
      RedepositAllPromises(s, a.ids, n, a.lpOut, a.to, w.now, p);
      ListedPoolsSettled(s.pools, a.ids, w.now, a.from);
    }
  }

  /** A call on one pool: that pool's debt does not grow, and shrinks by no more than rounding; no queue changes
      but the caller's. */
  ghost predicate OnePool(w: World, v: World, pool: Address, user: Address)
  {
    && (forall p :: p != pool ==> PoolOf(v, p) == PoolOf(w, p))
    && Obligation(PoolOf(v, pool)) <= Obligation(PoolOf(w, pool)) <= Obligation(PoolOf(v, pool)) + Rounding(PoolOf(w, pool))
    && (forall u :: u != user ==> AccountOf(PoolOf(v, pool), u) == AccountOf(PoolOf(w, pool), u))
  }

  lemma DepositOnePool(w: World, from: Address, pool: Address, amount: int)
    requires WorldOk(w) && ExecuteDeposit(w, from, pool, amount).Ok?
    ensures var v := ExecuteDeposit(w, from, pool, amount).value.0;
      && OnePool(w, v, pool, from)
      && AccountOf(PoolOf(v, pool), from).holding.q4w == AccountOf(PoolOf(w, pool), from).holding.q4w
  {
    hide Deposit;
    hide Rounding;
    hide Obligation;
    hide LedgerOk;
    PoolIsOk(w.pools, w.now, pool);
    DepositKeeps(PoolOf(w, pool), w.now, from, amount);
  }

  lemma QueueOnePool(w: World, from: Address, pool: Address, amount: int)
    requires WorldOk(w) && ExecuteQueue(w, from, pool, amount).Ok?
    ensures var v := ExecuteQueue(w, from, pool, amount).value;
      && OnePool(w, v, pool, from)
      && Ok(AccountOf(PoolOf(v, pool), from).holding) == QueueShares(AccountOf(PoolOf(w, pool), from).holding, w.now, amount)
  {
    hide QueueWithdrawal;
    hide QueueShares;
    hide Rounding;
    hide Obligation;
    hide LedgerOk;
    PoolIsOk(w.pools, w.now, pool);
    QueueKeeps(PoolOf(w, pool), w.now, from, amount);
  }

  lemma DequeueOnePool(w: World, from: Address, pool: Address, amount: int)
    requires WorldOk(w) && ExecuteDequeue(w, from, pool, amount).Ok?
    ensures var v := ExecuteDequeue(w, from, pool, amount).value;
      var r := DequeueShares(AccountOf(PoolOf(w, pool), from).holding, w.now, amount, false);
      && OnePool(w, v, pool, from)
      && r.Ok? && AccountOf(PoolOf(v, pool), from).holding.q4w == r.value.q4w
  {
    hide DequeueWithdrawal;
    hide DequeueShares;
    hide Rounding;
    hide Obligation;
    hide LedgerOk;
    PoolIsOk(w.pools, w.now, pool);
    DequeueKeeps(PoolOf(w, pool), w.now, from, amount);
  }

  lemma WithdrawOnePool(w: World, from: Address, pool: Address, amount: int)
    requires WorldOk(w) && ExecuteWithdraw(w, from, pool, amount).Ok?
    ensures var v := ExecuteWithdraw(w, from, pool, amount).value.0;
      && OnePool(w, v, pool, from)
      && Ok(AccountOf(PoolOf(v, pool), from).holding) == DequeueShares(AccountOf(PoolOf(w, pool), from).holding, w.now, amount, true)
      && Obligation(PoolOf(v, pool)) == Obligation(PoolOf(w, pool))
  {
    hide Withdraw;
    hide DequeueShares;
    hide Rounding;
    hide Obligation;
    hide LedgerOk;
    PoolIsOk(w.pools, w.now, pool);
    WithdrawKeeps(PoolOf(w, pool), w.now, from, amount);
    RoundingNonNegative(PoolOf(w, pool), w.now);
    hide Unqueued;
  }

  /** Fund moves and pool gulps touch no account. */
  lemma AccountsUntouched(w: World, a: Action, p: Address)
    requires WorldOk(w) && Step(w, a).Ok?
    requires a.DrawTokens? || a.DonateTokens? || a.GulpPoolEmissions?
    ensures PoolOf(Step(w, a).value, p).accounts == PoolOf(w, p).accounts
    ensures Obligation(PoolOf(Step(w, a).value, p)) == Obligation(PoolOf(w, p))
  {
    hide LedgerOk;
    hide Obligation;
    match a
    case DrawTokens(pool, amount, to) =>
      PoolIsOk(w.pools, w.now, pool);
      FundsMoveKeeps(PoolOf(w, pool), w.now, amount);
    case DonateTokens(from, pool, amount) =>
      PoolIsOk(w.pools, w.now, pool);
      FundsMoveKeeps(PoolOf(w, pool), w.now, amount);
    case GulpPoolEmissions(pool) =>
      PoolIsOk(w.pools, w.now, pool);
      PoolEmissionsTaken(PoolOf(w, pool), w.now);
  }

  lemma StepIsCovered(w: World, a: Action, p: Address)
    requires WorldOk(w)
    ensures Covered(w, a, p)
    ensures OwnClaim(a) ==> NewlyPromised(w, a, p) == 0
  {
    hide Obligation;
    hide WorldOk;
    hide Streamed;
    hide Paid;
    hide NewlyPromised;
    hide ExecuteDeposit;
    hide ExecuteQueue;
    hide ExecuteDequeue;
    hide ExecuteWithdraw;
    hide ExecuteGulp;
    hide ExecuteClaim;
    hide Rounding;
    hide RestartLoss;
    OnlyGulpsAndClaims(w, a, p);
    if Step(w, a).Ok? {
      match a
      case GulpEmissions => GulpCovered(w, p);
      case Claim(from, ids, to, lpOut) => ClaimCovered(w, a, p);
      case DepositTokens(from, pool, amount) => DepositOnePool(w, from, pool, amount);
      case QueueForExit(from, pool, amount) => QueueOnePool(w, from, pool, amount);
      case CancelQueued(from, pool, amount) => DequeueOnePool(w, from, pool, amount);
      case WithdrawShares(from, pool, amount) => WithdrawOnePool(w, from, pool, amount);
      case DrawTokens(_, _, _) => AccountsUntouched(w, a, p);
      case DonateTokens(_, _, _) => AccountsUntouched(w, a, p);
      case GulpPoolEmissions(_) => AccountsUntouched(w, a, p);
      case _ => assert PoolOf(Step(w, a).value, p) == PoolOf(w, p);
    }
  }

  lemma OnlyGulpsAndClaims(w: World, a: Action, p: Address)
    ensures Step(w, a).Abort? ==> Streamed(w, a, p) == 0 && Paid(w, a, p) == 0 && NewlyPromised(w, a, p) == 0
    ensures !a.GulpEmissions? ==> Streamed(w, a, p) == 0
    ensures !a.Claim? ==> Paid(w, a, p) == 0 && NewlyPromised(w, a, p) == 0
    ensures a.GulpEmissions? && Step(w, a).Ok? ==> Streamed(w, a, p) == GulpStream(w, p)
  {
    hide Step;
    hide GulpStream;
    hide PaidFrom;
    hide PromisedIn;
  }

  ghost function StreamedDuring(w: World, actions: seq<Action>, p: Address): int
    decreases |actions|
  {
    if actions == [] then 0
    else
      Streamed(w, actions[0], p) + StreamedDuring(After(w, actions[0]), actions[1..], p)
  }

  ghost function PaidDuring(w: World, actions: seq<Action>, p: Address): int
    decreases |actions|
  {
    if actions == [] then 0
    else Paid(w, actions[0], p) + PaidDuring(After(w, actions[0]), actions[1..], p)
  }

  ghost function PromisedDuring(w: World, actions: seq<Action>, p: Address): int
    decreases |actions|
  {
    if actions == [] then 0
    else NewlyPromised(w, actions[0], p) + PromisedDuring(After(w, actions[0]), actions[1..], p)
  }

  ghost function MayLoseDuring(w: World, actions: seq<Action>, p: Address): int
    decreases |actions|
  {
    if actions == [] then 0
    else MayLose(w, actions[0], p) + MayLoseDuring(After(w, actions[0]), actions[1..], p)
  }

  /** Over any run, what a pool's depositors were paid plus all they are still owed and all that is still
      streaming is what was streamed to them and what claims for others promised, which is nothing while users
      claim for themselves, and falls short of it only by the rounding of the steps taken. */
  lemma {:induction false} EmissionsAreFunded(w: World, actions: seq<Action>, p: Address)
    requires WorldOk(w)
    ensures var after := Scaled(PaidDuring(w, actions, p)) + Obligation(PoolOf(Run(w, actions), p));
      var before := Obligation(PoolOf(w, p)) + Scaled(StreamedDuring(w, actions, p)) + PromisedDuring(w, actions, p);
      after <= before <= after + MayLoseDuring(w, actions, p)
    ensures OwnClaims(actions) ==> PromisedDuring(w, actions, p) == 0
    decreases |actions|
  {
    hide Obligation;
    hide WorldOk;
    hide Streamed;
    hide Paid;
    hide NewlyPromised;
    hide After;
    hide OwnClaim;
    hide Fits;
    hide MayLose;
    if actions != [] {
      StepKeeps(w, actions[0]);
      StepIsCovered(w, actions[0], p);
      EmissionsAreFunded(After(w, actions[0]), actions[1..], p);
    }
  }

  // ----- the withdrawal lock -----

  function QueueOf(w: World, pool: Address, user: Address): seq<Q4W>
  {
    AccountOf(PoolOf(w, pool), user).holding.q4w
  }

  /** Shares a step queues for a user, counting only steps taken at time `until` or before. */
  function NewlyQueued(w: World, a: Action, pool: Address, user: Address, until: int): int
  {
    if a.QueueForExit? && a.from == user && a.pool == pool && Step(w, a).Ok? && w.now <= until then a.amount else 0
  }

  /** Shares a step withdraws for a user. */
  function NewlyWithdrawn(w: World, a: Action, pool: Address, user: Address): int
  {
    if a.WithdrawShares? && a.from == user && a.pool == pool && Step(w, a).Ok? then a.amount else 0
  }

  lemma {:induction false} MaturedGrows(q: seq<Q4W>, t: int, later: int)
    requires UserBalances.NonNegative(q) && t <= later
    ensures Matured(q, t) <= Matured(q, later)
  {
    if q != [] {
      MaturedGrows(q[1..], t, later);
    }
  }

  lemma HoldingIsOk(w: World, pool: Address, user: Address)
    requires WorldOk(w)
    ensures HoldingOk(AccountOf(PoolOf(w, pool), user).holding, w.now)
  {
    PoolIsOk(w.pools, w.now, pool);
    LedgerSums(PoolOf(w, pool), w.now);
    assert AccountOk(AccountOf(PoolOf(w, pool), user), Index(PoolOf(w, pool)), w.now);
  }

  /** Calls other than the three on the queue itself leave every queue as it is. */
  lemma QueueUntouched(w: World, a: Action, pool: Address, user: Address)
    requires WorldOk(w) && Step(w, a).Ok?
    requires (a.QueueForExit? || a.CancelQueued? || a.WithdrawShares?) ==> a.pool != pool || a.from != user
    ensures QueueOf(Step(w, a).value, pool, user) == QueueOf(w, pool, user)
  {
    hide WorldOk;
    hide Obligation;
    hide ExecuteDeposit;
    hide ExecuteQueue;
    hide ExecuteDequeue;
    hide ExecuteWithdraw;
    hide ExecuteGulp;
    hide ExecuteClaim;
    match a
    case GulpEmissions => GulpCovered(w, pool);
    case Claim(from, ids, to, lpOut) => ClaimCovered(w, a, pool);
    case DepositTokens(from, p, amount) => DepositOnePool(w, from, p, amount);
    case QueueForExit(from, p, amount) => QueueOnePool(w, from, p, amount);
    case CancelQueued(from, p, amount) => DequeueOnePool(w, from, p, amount);
    case WithdrawShares(from, p, amount) => WithdrawOnePool(w, from, p, amount);
    case DrawTokens(_, _, _) => AccountsUntouched(w, a, pool);
    case DonateTokens(_, _, _) => AccountsUntouched(w, a, pool);
    case GulpPoolEmissions(_) => AccountsUntouched(w, a, pool);
    case _ => assert PoolOf(Step(w, a).value, pool) == PoolOf(w, pool);
  }

  /** One step: what it withdraws had matured, what it queues matures after the lock. */
  lemma LockStep(w: World, a: Action, pool: Address, user: Address, t: int)
    requires WorldOk(w) && t >= After(w, a).now
    ensures NewlyWithdrawn(w, a, pool, user) + Matured(QueueOf(After(w, a), pool, user), t)
      <= Matured(QueueOf(w, pool, user), t) + NewlyQueued(w, a, pool, user, t - Q4W_LOCK_TIME)
  {
    hide Obligation;
    hide Rounding;
    hide WorldOk;
    hide HoldingOk;
    if Step(w, a).Ok? {
      var h := AccountOf(PoolOf(w, pool), user).holding;
      HoldingIsOk(w, pool, user);
      TimeFlows(w, a);
      MaturedBounds(h.q4w, t);
      if a.QueueForExit? && a.pool == pool && a.from == user {
        QueueOnePool(w, user, pool, a.amount);
        QueueKeepsHolding(h, w.now, a.amount);
      } else if a.CancelQueued? && a.pool == pool && a.from == user {
        DequeueOnePool(w, user, pool, a.amount);
        DequeueKeepsHolding(h, w.now, a.amount, false);
      } else if a.WithdrawShares? && a.pool == pool && a.from == user {
        WithdrawOnePool(w, user, pool, a.amount);
        DequeueKeepsHolding(h, w.now, a.amount, true);
        TakeFrontSucceeds(h.q4w, a.amount, w.now, true);
        MaturedGrows(h.q4w, w.now, t);
      } else {
        QueueUntouched(w, a, pool, user);
      }
    }
  }

  lemma TimeFlows(w: World, a: Action)
    ensures After(w, a).now >= w.now
  {
    hide Deposit;
    hide QueueWithdrawal;
    hide DequeueWithdrawal;
    hide Withdraw;
    hide SettleAll;
    hide RedepositAll;
    hide GulpLoop;
    hide TotalNonQueued;
  }

  function QueuedDuring(w: World, actions: seq<Action>, pool: Address, user: Address, until: int): int
    decreases |actions|
  {
    if actions == [] then 0
    else NewlyQueued(w, actions[0], pool, user, until) + QueuedDuring(After(w, actions[0]), actions[1..], pool, user, until)
  }

  function WithdrawnDuring(w: World, actions: seq<Action>, pool: Address, user: Address): int
    decreases |actions|
  {
    if actions == [] then 0
    else NewlyWithdrawn(w, actions[0], pool, user) + WithdrawnDuring(After(w, actions[0]), actions[1..], pool, user)
  }

  lemma {:induction false} RunTime(w: World, actions: seq<Action>)
    ensures Run(w, actions).now >= w.now
    decreases |actions|
  {
    hide After;
    if actions != [] {
      TimeFlows(w, actions[0]);
      RunTime(After(w, actions[0]), actions[1..]);
    }
  }

  lemma {:induction false} LockedRun(w: World, actions: seq<Action>, pool: Address, user: Address, t: int)
    requires WorldOk(w) && t >= Run(w, actions).now
    ensures WithdrawnDuring(w, actions, pool, user) + Matured(QueueOf(Run(w, actions), pool, user), t)
      <= Matured(QueueOf(w, pool, user), t) + QueuedDuring(w, actions, pool, user, t - Q4W_LOCK_TIME)
    decreases |actions|
  {
    hide WorldOk;
    hide After;
    hide QueueOf;
    hide NewlyQueued;
    hide NewlyWithdrawn;
    hide Matured;
    if actions != [] {
      StepKeeps(w, actions[0]);
      RunTime(After(w, actions[0]), actions[1..]);
      LockStep(w, actions[0], pool, user, t);
      LockedRun(After(w, actions[0]), actions[1..], pool, user, t);
    }
  }

  /** After any run from a fresh backstop, whatever was queued and cancelled in between: the shares a
      user has withdrawn from a pool are at most those the user queued at least 21 days earlier, and
      the queue is in order of expiry and at most 21 entries long. */
  lemma WithdrawalsWereLocked(w: World, actions: seq<Action>, pool: Address, user: Address)
    requires IsGenesis(w)
    ensures var v := Run(w, actions);
      && WithdrawnDuring(w, actions, pool, user) <= QueuedDuring(w, actions, pool, user, v.now - Q4W_LOCK_TIME)
      && Sorted(QueueOf(v, pool, user)) && |QueueOf(v, pool, user)| <= MAX_Q4W_SIZE
  {
    hide Run;
    hide WorldOk;
    hide WithdrawnDuring;
    hide QueuedDuring;
    hide BlndSolvent;
    hide SolventThroughout;
    hide RunFits;
    hide OwnClaims;
    hide HoldingOk;
    GenesisOk(w);
    RunKeeps(w, actions);
    var v := Run(w, actions);
    LockedRun(w, actions, pool, user, v.now);
    HoldingIsOk(v, pool, user);
    MaturedBounds(QueueOf(v, pool, user), v.now);
    assert QueueOf(w, pool, user) == [];
  }
}
