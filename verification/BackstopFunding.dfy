/** From the emitter to the users: everything depositors claim and pools pull from the backstop is paid from what
    the emitter minted for it, one token a second. */
module BackstopFunding {
  import opened FixedPoint
  import opened Totals
  import opened BackstopLedger
  import opened BackstopWorld
  import opened BackstopWorldProofs
  import opened BackstopRuns

  /** BLND a step mints for the backstop. */
  function Minted(w: World, a: Action): int
  {
    if a.EmitterDistributes? && Step(w, a).Ok? then Scaled(w.now - w.emitterLast) else 0
  }

  /** BLND a step pays out: claimed by depositors, or pulled by a pool for its users. */
  function PaidOut(w: World, a: Action): int
  {
    if Step(w, a).Abort? then 0
    else if a.Claim? then Max(0, ExecuteClaim(w, a.from, a.ids, a.to, a.lpOut).value.1)
    else if a.PoolPulls? && a.to != w.self then a.amount
    else 0
  }

  /** SCALAR_7 times what a step's re-deposits newly promise. */
  ghost function Promising(w: World, a: Action): int
  {
    if a.Claim? && Step(w, a).Ok? && SettleAll(w.pools, a.ids, |a.ids|, w.now, a.from).Ok? then
      ClaimPromise(w, a.from, a.ids, a.to, a.lpOut)
    else 0
  }

  /** SCALAR_7 times everything that may still be called for. */
  ghost function Outstanding(w: World): int
  {
    Scaled(NewEmissions(w) + Total(w.allowances)) + LiabilityTotal(w.pools)
  }

  lemma SurplusIs(w: World)
    ensures Surplus(w) == Scaled(w.blnd) - Outstanding(w)
  {
    hide Total;
    hide LiabilityTotal;
  }

  /** The BLND held moves by what is minted, paid out and given. */
  lemma BlndMoves(w: World, a: Action)
    ensures After(w, a).blnd == w.blnd + Minted(w, a) - PaidOut(w, a)
      + if a.TokensArrive? then a.moreBlnd else 0
    ensures After(w, a).self == w.self
  {
    hide Deposit;
    hide QueueWithdrawal;
    hide DequeueWithdrawal;
    hide Withdraw;
    hide Draw;
    hide TotalNonQueued;
    hide GulpLoop;
    hide SettleAll;
    hide RedepositAll;
  }

  /** No step, whatever it does to single pools and users, lets more be called for or paid than is minted, except by
      what re-deposits promise. */
  lemma {:induction false} StepIsFunded(w: World, a: Action)
    requires WorldOk(w)
    ensures WorldOk(After(w, a))
    ensures Outstanding(After(w, a)) + Scaled(PaidOut(w, a)) <= Outstanding(w) + Scaled(Minted(w, a)) + Promising(w, a)
    ensures OwnClaim(a) ==> Promising(w, a) == 0
  {
    hide WorldOk;
    hide Outstanding;
    hide Surplus;
    hide ExecuteClaim;
    hide SettleAll;
    hide ClaimPromise;
    SurplusIs(w);
    SurplusIs(After(w, a));
    BlndMoves(w, a);
    if a.TokensArrive? {
      OtherStepKeeps(w, a);
      ArrivalChangesNothing(w, a.moreBlnd, a.moreLp);
    } else if !a.Claim? {
      OtherStepKeeps(w, a);
    } else if Step(w, a).Ok? {
      ClaimStep(w, a.from, a.ids, a.to, a.lpOut);
    }
    hide After;
    hide Minted;
    hide PaidOut;
  }

  lemma ArrivalChangesNothing(w: World, moreBlnd: nat, moreLp: nat)
    ensures Outstanding(w.(blnd := w.blnd + moreBlnd, lp := w.lp + moreLp)) == Outstanding(w)
  {
    hide Total;
    hide LiabilityTotal;
  }

  // ----- whole runs -----

  function MintedDuring(w: World, actions: seq<Action>): int
    decreases |actions|
  {
    if actions == [] then 0 else Minted(w, actions[0]) + MintedDuring(After(w, actions[0]), actions[1..])
  }

  function PaidOutDuring(w: World, actions: seq<Action>): int
    decreases |actions|
  {
    if actions == [] then 0 else PaidOut(w, actions[0]) + PaidOutDuring(After(w, actions[0]), actions[1..])
  }

  ghost function PromisingDuring(w: World, actions: seq<Action>): int
    decreases |actions|
  {
    if actions == [] then 0 else Promising(w, actions[0]) + PromisingDuring(After(w, actions[0]), actions[1..])
  }

  lemma {:induction false} RunIsFunded(w: World, actions: seq<Action>)
    requires WorldOk(w)
    ensures WorldOk(Run(w, actions))
    ensures Outstanding(Run(w, actions)) + Scaled(PaidOutDuring(w, actions))
      <= Outstanding(w) + Scaled(MintedDuring(w, actions)) + PromisingDuring(w, actions)
    ensures OwnClaims(actions) ==> PromisingDuring(w, actions) == 0
    decreases |actions|
  {
    hide WorldOk;
    hide Outstanding;
    hide After;
    hide Minted;
    hide PaidOut;
    hide Promising;
    hide OwnClaim;
    if actions != [] {
      StepIsFunded(w, actions[0]);
      RunIsFunded(After(w, actions[0]), actions[1..]);
    }
  }

  /** One token a second. */
  lemma ClockMoves(w: World, a: Action)
    ensures Scaled(After(w, a).emitterLast) == Scaled(w.emitterLast) + Minted(w, a)
  {
    hide Deposit;
    hide QueueWithdrawal;
    hide DequeueWithdrawal;
    hide Withdraw;
    hide Draw;
    hide TotalNonQueued;
    hide GulpLoop;
    hide SettleAll;
    hide RedepositAll;
  }

  lemma {:induction false} MintedByTheClock(w: World, actions: seq<Action>)
    ensures MintedDuring(w, actions) == Scaled(Run(w, actions).emitterLast - w.emitterLast)
    decreases |actions|
  {
    hide After;
    hide Minted;
    if actions != [] {
      ClockMoves(w, actions[0]);
      MintedByTheClock(After(w, actions[0]), actions[1..]);
    }
  }

  lemma NothingOutstanding(w: World)
    requires IsGenesis(w)
    ensures WorldOk(w) && Outstanding(w) == 0
  {
    GenesisOk(w);
    TotalOfNothing(w.allowances);
    TotalOfNothing(LiabilityBy(w.pools));
    hide WorldOk;
    hide Total;
  }

  lemma OutstandingNonNeg(w: World)
    requires WorldOk(w)
    ensures Outstanding(w) >= 0
  {
    LiabilityIsNonNegative(w.pools, w.now);
    TotalNonNeg(w.allowances);
    hide LedgersOk;
    hide LiabilityTotal;
    hide TokenTotal;
    hide Total;
  }

  /** From the emitter to the users: in a run of an initialised backstop, what depositors have claimed and what pools
      have pulled for their users, plus what is still owed to either, is at most one BLND for every second up to the
      emitter's last distribution, as long as users claim for themselves; claims for others add at most what
      their re-deposits promise. */
  lemma {:induction false} PaymentsAreMinted(w: World, actions: seq<Action>)
    requires IsGenesis(w)
    ensures var seconds := Run(w, actions).emitterLast - w.emitterLast;
      && MintedDuring(w, actions) == Scaled(seconds)
      && Scaled(PaidOutDuring(w, actions)) + Outstanding(Run(w, actions)) <= Scaled(Scaled(seconds)) + PromisingDuring(w, actions)
      && (OwnClaims(actions) ==> PaidOutDuring(w, actions) <= Scaled(seconds))
  {
    hide WorldOk;
    hide Outstanding;
    hide IsGenesis;
    hide Run;
    hide PaidOutDuring;
    hide PromisingDuring;
    hide OwnClaims;
    NothingOutstanding(w);
    RunIsFunded(w, actions);
    MintedByTheClock(w, actions);
    OutstandingNonNeg(Run(w, actions));
  }
}
