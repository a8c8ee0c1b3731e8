/** A backstop that is replaced and installed again expects emissions that went to another. */
module FundingInputs {
  import opened Outcomes
  import opened FixedPoint
  import opened Totals
  import opened FundingChain

  /** Installing a backstop again leaves its BLND sufficient exactly when it has enough to spare for the emissions of
      the time it was not installed. */
  lemma {:induction false} ReinstalledSolventExactly(w: W.World)
    requires W.WorldOk(w)
    ensures W.BlndSolvent(w.(emitterLast := w.now)) <==> Scaled(Scaled(w.now - w.emitterLast)) <= WorldProofs.Surplus(w)
  {
    Reinstalled(w);
    F.SurplusIs(w);
    F.SurplusIs(w.(emitterLast := w.now));
    R.SolventIsSurplus(w.(emitterLast := w.now));
    hide W.WorldOk;
    hide W.BlndSolvent;
    hide F.Outstanding;
    hide WorldProofs.Surplus;
  }

  // ----- a backstop that leaves and returns -----

  const OURS: Address := 100
  const THEIRS: Address := 200
  const TOKEN: Address := 50

  function Holding(holder: Address): M.Balances { map[TOKEN := map[holder := 1]] }

  const NOTHING: map<Address, int> := map[]
  const NO_JOINTS: map<Address, J.Joint> := map[]

  function Emitting(now: nat, backstop: Address, last: map<Address, nat>, queued: Option<M.Swap>, minted: int): M.State
  {
    M.State(now, backstop, TOKEN, last, queued, {}, minted, NOTHING)
  }

  function Expecting(now: nat, emitterLast: nat, blnd: int): W.World
  {
    W.World(OURS, {}, now, map[], [], 0, None, emitterLast, blnd, 0, map[])
  }

  function At(s: M.State, w: W.World, unfunded: int): Chain { Chain(s, w, NO_JOINTS, 0, NOTHING, unfunded) }

  function Start(): Chain { At(Emitting(0, OURS, map[OURS := 0], None, 0), Expecting(0, 0, 0), 0) }

  const DAYS: nat := M.SWAP_DELAY
  const MINTED: int := DAYS * SCALAR_7

  /** 31 days as the backstop, 31 days replaced, and installed again. */
  function Replacing(): seq<Action>
  {
    [EmitterActs(M.SwapQueued(THEIRS, TOKEN, Holding(THEIRS))), Wait(DAYS, 0), EmitterActs(M.SwapExecuted(Holding(THEIRS)))]
  }

  function Returning(): seq<Action>
  {
    [EmitterActs(M.SwapQueued(OURS, TOKEN, Holding(OURS))), Wait(DAYS, 0), EmitterActs(M.SwapExecuted(Holding(OURS)))]
  }

  function Replaced(): Chain
  {
    At(Emitting(DAYS, THEIRS, map[OURS := DAYS, THEIRS := DAYS], None, MINTED), Expecting(DAYS, DAYS, MINTED), 0)
  }

  function Returned(): Chain
  {
    At(Emitting(2 * DAYS, OURS, map[OURS := 2 * DAYS, THEIRS := 2 * DAYS], None, 2 * MINTED), Expecting(2 * DAYS, 2 * DAYS, MINTED),
       Scaled(MINTED))
  }

  lemma SwapIsQueued(c: Chain, to: Address)
    requires c.emitter.queued.None? && c.emitter.backstop != to && c.emitter.backstopToken == TOKEN
    requires c.emitter.backstop == c.world.self || to == c.world.self
    ensures EmitterStep(c, M.SwapQueued(to, TOKEN, Holding(to)))
      == c.(emitter := c.emitter.(queued := Some(M.Swap(to, TOKEN, c.emitter.now + DAYS))))
  {
    assert M.IsLarger(c.emitter, to, Holding(to));
  }

  lemma TimePasses(c: Chain)
    requires c.pools == NO_JOINTS
    ensures WaitStep(c, DAYS, 0)
      == c.(emitter := c.emitter.(now := c.emitter.now + DAYS), world := c.world.(now := c.world.now + DAYS))
  {
    assert Later(c.pools, DAYS, 0).Keys == {};
    hide Later;
  }

  lemma SwapGoesThrough(s: M.State, to: Address)
    requires s.queued == Some(M.Swap(to, TOKEN, s.now)) && s.backstop != to && s.backstopToken == TOKEN
    requires s.backstop in s.lastDistro && s.lastDistro[s.backstop] <= s.now
    ensures M.Attempt(s, M.SwapExecuted(Holding(to))) == Ok(M.Step(s, M.SwapExecuted(Holding(to))))
    ensures M.Step(s, M.SwapExecuted(Holding(to)))
      == s.(queued := None, backstop := to, lastDistro := s.lastDistro[s.backstop := s.now][to := s.now],
            distributed := s.distributed + (s.now - s.lastDistro[s.backstop]) * SCALAR_7)
  {
    assert M.IsLarger(s, to, Holding(to));
  }

  lemma Leaves()
    ensures Leads(Start(), Replacing(), Replaced())
  {
    hide EmitterStep;
    hide WaitStep;
    var c1 := Start().(emitter := Start().emitter.(queued := Some(M.Swap(THEIRS, TOKEN, DAYS))));
    var c2 := c1.(emitter := c1.emitter.(now := DAYS), world := c1.world.(now := DAYS));
    SwapIsQueued(Start(), THEIRS);
    TimePasses(c1);
    assert EmitterStep(c2, M.SwapExecuted(Holding(THEIRS))) == Replaced() by { LeavesNow(c2); }
    ThreeSteps(Start(), Replacing(), c1, c2, Replaced());
  }

  lemma LeavesNow(c: Chain)
    requires c == At(Emitting(DAYS, OURS, map[OURS := 0], Some(M.Swap(THEIRS, TOKEN, DAYS)), 0), Expecting(DAYS, 0, 0), 0)
    ensures EmitterStep(c, M.SwapExecuted(Holding(THEIRS))) == Replaced()
  {
    SwapGoesThrough(c.emitter, THEIRS);
    assert c.emitter.lastDistro[OURS := DAYS][THEIRS := DAYS] == Replaced().emitter.lastDistro;
    hide M.Step;
    hide M.Attempt;
  }

  lemma Returns()
    ensures Leads(Replaced(), Returning(), Returned())
  {
    hide EmitterStep;
    hide WaitStep;
    var c1 := Replaced().(emitter := Replaced().emitter.(queued := Some(M.Swap(OURS, TOKEN, 2 * DAYS))));
    var c2 := c1.(emitter := c1.emitter.(now := 2 * DAYS), world := c1.world.(now := 2 * DAYS));
    SwapIsQueued(Replaced(), OURS);
    TimePasses(c1);
    assert EmitterStep(c2, M.SwapExecuted(Holding(OURS))) == Returned() by { ReturnsNow(c2); }
    ThreeSteps(Replaced(), Returning(), c1, c2, Returned());
  }

  lemma ReturnsNow(c: Chain)
    requires c == At(Emitting(2 * DAYS, THEIRS, map[OURS := DAYS, THEIRS := DAYS], Some(M.Swap(OURS, TOKEN, 2 * DAYS)), MINTED),
                     Expecting(2 * DAYS, DAYS, MINTED), 0)
    ensures EmitterStep(c, M.SwapExecuted(Holding(OURS))) == Returned()
  {
    SwapGoesThrough(c.emitter, OURS);
    assert c.emitter.lastDistro[THEIRS := 2 * DAYS][OURS := 2 * DAYS] == Returned().emitter.lastDistro;
    hide M.Step;
    hide M.Attempt;
  }

  /** A call, a wait and a call. */
  lemma ThreeSteps(c: Chain, actions: seq<Action>, c1: Chain, c2: Chain, d: Chain)
    requires |actions| == 3 && actions[0].EmitterActs? && !actions[0].m.Wait? && actions[1].Wait?
    requires actions[2].EmitterActs? && !actions[2].m.Wait?
    requires EmitterStep(c, actions[0].m) == c1 && WaitStep(c1, actions[1].seconds, actions[1].blocks) == c2
    requires EmitterStep(c2, actions[2].m) == d
    ensures Leads(c, actions, d)
  {
    hide EmitterStep;
    hide WaitStep;
    assert actions[1..][0] == actions[1] && actions[1..][1..] == actions[2..] && actions[2..][0] == actions[2];
    assert actions[2..][1..] == [];
    assert Leads(d, [], d);
    assert Leads(c2, actions[2..], d);
    assert Leads(c1, actions[1..], d);
  }

  /** From initialisation: after 31 days the backstop is replaced, and after 31 more installed again. It then counts the
      emissions of the time between, which went to the other, and holds too little BLND. */
  lemma {:induction false} ReturningBreaks()
    ensures FundingChain.IsGenesis(Start())
    ensures Leads(Start(), Replacing(), Replaced()) && Leads(Replaced(), Returning(), Returned())
    ensures W.BlndSolvent(Replaced().world) && !W.BlndSolvent(Returned().world)
  {
    Leaves();
    Returns();
    hide Leads;
    NobodyIsOwed(Replaced().world);
    NobodyIsOwed(Returned().world);
    hide W.LiabilityTotal;
    hide Total;
  }

  lemma NobodyIsOwed(w: W.World)
    requires w.pools == map[] && w.allowances == map[]
    ensures W.LiabilityTotal(w.pools) == 0 && Total(w.allowances) == 0
  {
    TotalOfNothing(W.LiabilityBy(w.pools));
    TotalOfNothing(w.allowances);
    hide Total;
  }
}
