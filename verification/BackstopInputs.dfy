/** Runs of an initialised backstop at whose end its promises fail: a claim for someone else that leaves it short of
    BLND, and a deposit that returns more than was paid in. */
module BackstopInputs {
  import opened Outcomes
  import opened FixedPoint
  import opened Totals
  import opened UserBalances
  import opened PoolBalances
  import opened BackstopLedger
  import opened BackstopWorld
  import opened BackstopWorldProofs
  import opened BackstopClaimProofs
  import opened BackstopRuns
  import opened BackstopLimits

  const NO_POOLS: map<Address, PoolLedger> := map[]

  /** An initialised backstop whose factory knows one pool, with LP tokens worth one BLND and one USDC. */
  function Genesis(): World
  {
    World(100, {POOL}, 0, NO_POOLS, [], 0, Some((SCALAR_7, SCALAR_7)), 0, 0, 0, map[])
  }

  /** One pool and its LP tokens; nothing else has moved but clock and zone. */
  function OnePoolWorld(now: nat, l: PoolLedger, zone: seq<Address>, distributed: nat, gulped: nat, blnd: int): World
  {
    Genesis().(now := now, pools := map[POOL := l], rewardZone := zone, emitterLast := distributed, lastDistribution := gulped,
               blnd := blnd, lp := l.balance.tokens)
  }

  lemma RunTurn(w: World, a: Action, rest: seq<Action>, v: World)
    requires After(w, a) == v
    ensures Run(w, [a] + rest) == Run(v, rest)
  {
    assert ([a] + rest)[0] == a && ([a] + rest)[1..] == rest;
    hide After;
  }

  lemma OneSet(pools: map<Address, PoolLedger>, l: PoolLedger)
    requires pools.Keys <= {POOL}
    ensures pools[POOL := l] == map[POOL := l]
  {}

  // ----- a deposit that takes a gift -----

  const DEPOSITOR: Address := 2

  function Given(): PoolLedger { NO_LEDGER.(balance := PoolHolding(0, 100, 0)) }

  function Holding1(h: Holding, q4w: int): PoolLedger
  {
    PoolLedger(PoolHolding(1, 101, q4w), map[DEPOSITOR := Account(h, None)], None, None, 0)
  }

  function Queueing(): Holding { Holding(0, [Q4W(1, Q4W_LOCK_TIME)]) }

  lemma GiftArrives()
    ensures After(Genesis(), DonateTokens(1, POOL, 100)) == OnePoolWorld(0, Given(), [], 0, 0, 0)
  {
    OneSet(NO_POOLS, Given());
  }

  lemma FirstShare()
    ensures ExecuteDeposit(OnePoolWorld(0, Given(), [], 0, 0, 0), DEPOSITOR, POOL, 1)
      == Ok((OnePoolWorld(0, Holding1(Holding(1, []), 0), [], 0, 0, 0), 1))
  {
    var w := OnePoolWorld(0, Given(), [], 0, 0, 0);
    var l := Holding1(Holding(1, []), 0);
    assert Deposit(Given(), 0, DEPOSITOR, 1) == Ok((l, 1)) by { ShareMinted(); }
    hide Deposit;
    OneSet(w.pools, l);
  }

  lemma ShareMinted()
    ensures Deposit(Given(), 0, DEPOSITOR, 1) == Ok((Holding1(Holding(1, []), 0), 1))
  {
    assert UpdateEmissions(Given(), 0, DEPOSITOR, false) == Ok((Given(), 0));
    assert ConvertToShares(Given().balance, 1) == Ok(1);
    hide UpdateEmissions;
    hide ConvertToShares;
    var none: map<Address, Account> := map[];
    assert none[DEPOSITOR := Account(Holding(1, []), None)] == map[DEPOSITOR := Account(Holding(1, []), None)];
  }

  lemma ShareQueued()
    ensures After(OnePoolWorld(0, Holding1(Holding(1, []), 0), [], 0, 0, 0), QueueForExit(DEPOSITOR, POOL, 1))
      == OnePoolWorld(0, Holding1(Queueing(), 1), [], 0, 0, 0)
  {
    var (l, q) := (Holding1(Holding(1, []), 0), Holding1(Queueing(), 1));
    assert l.accounts[DEPOSITOR := Account(Queueing(), None)] == q.accounts;
    assert UpdateEmissions(l, 0, DEPOSITOR, false) == Ok((l, 0));
    assert QueueShares(Holding(1, []), 0, 1) == Ok(Queueing()) by { OneQueued(); }
    assert AccountOf(l, DEPOSITOR) == Account(Holding(1, []), None);
    hide QueueShares;
    hide UpdateEmissions;
    assert QueueWithdrawal(l, 0, DEPOSITOR, 1) == Ok(q);
    hide QueueWithdrawal;
    OneSet(map[POOL := l], q);
  }

  lemma AllIsPaid()
    ensures Withdraw(Holding1(Queueing(), 1), Q4W_LOCK_TIME, DEPOSITOR, 1).Ok?
    ensures Withdraw(Holding1(Queueing(), 1), Q4W_LOCK_TIME, DEPOSITOR, 1).value.1 == 101
  {
    FloorExact(101, 1);
    hide Floor;
    assert Queueing().q4w[1..] == [];
    assert TakeFront(Queueing().q4w, 1, Q4W_LOCK_TIME, true) == Ok([]);
  }

  lemma OneQueued()
    ensures QueueShares(Holding(1, []), 0, 1) == Ok(Queueing())
  {
    var none: seq<Q4W> := [];
    assert none + [Q4W(1, Q4W_LOCK_TIME)] == [Q4W(1, Q4W_LOCK_TIME)];
  }

  /** A gift to a pool without shares goes to the next depositor: one token in, after the lock a hundred and one out. */
  lemma {:induction false} GiftIsTaken()
    ensures IsGenesis(Genesis())
    ensures var w := Run(Genesis(), [DonateTokens(1, POOL, 100)]);
      ExecuteDeposit(w, DEPOSITOR, POOL, 1).Ok? && ExecuteDeposit(w, DEPOSITOR, POOL, 1).value.1 == 1
    ensures var w := Run(Genesis(), [DonateTokens(1, POOL, 100), DepositTokens(DEPOSITOR, POOL, 1),
                                     QueueForExit(DEPOSITOR, POOL, 1), Tick(Q4W_LOCK_TIME)]);
      ExecuteWithdraw(w, DEPOSITOR, POOL, 1).Ok? && ExecuteWithdraw(w, DEPOSITOR, POOL, 1).value.1 == 101
  {
    hide After;
    hide ExecuteDeposit;
    hide Withdraw;
    GiftArrives();
    FirstShare();
    ShareQueued();
    AllIsPaid();
    var (w1, w2, w3) := (OnePoolWorld(0, Given(), [], 0, 0, 0), OnePoolWorld(0, Holding1(Holding(1, []), 0), [], 0, 0, 0),
                         OnePoolWorld(0, Holding1(Queueing(), 1), [], 0, 0, 0));
    DepositIsStep(w1, w2, DEPOSITOR, POOL, 1);
    TickIsStep(w3, Q4W_LOCK_TIME);
    var w4 := w3.(now := Q4W_LOCK_TIME);
    var donation := DonateTokens(1, POOL, 100);
    var (deposit, queue, wait) := (DepositTokens(DEPOSITOR, POOL, 1), QueueForExit(DEPOSITOR, POOL, 1), Tick(Q4W_LOCK_TIME));
    RunTurn(Genesis(), donation, [], w1);
    RunTurn(Genesis(), donation, [deposit, queue, wait], w1);
    RunTurn(w1, deposit, [queue, wait], w2);
    RunTurn(w2, queue, [wait], w3);
    RunTurn(w3, wait, [], w4);
    assert [donation] + [] == [donation] && [donation] + [deposit, queue, wait] == [donation, deposit, queue, wait];
    assert [deposit] + [queue, wait] == [deposit, queue, wait] && [queue] + [wait] == [queue, wait] && [wait] + [] == [wait];
    assert Run(w1, []) == w1 && Run(w4, []) == w4;
    hide Run;
    assert PoolOf(w4, POOL) == Holding1(Queueing(), 1);
  }

  lemma DepositIsStep(w: World, v: World, from: Address, pool: Address, amount: int)
    requires ExecuteDeposit(w, from, pool, amount).Ok? && ExecuteDeposit(w, from, pool, amount).value.0 == v
    ensures After(w, DepositTokens(from, pool, amount)) == v
  {
    hide ExecuteDeposit;
  }

  lemma TickIsStep(w: World, seconds: nat)
    ensures After(w, Tick(seconds)) == w.(now := w.now + seconds)
  {}

  // ----- a claim for someone else -----

  const CLAIMANT: Address := 1
  const RECIPIENT: Address := 2
  const TOKENS: int := 1_000_000 * SCALAR_7

  /** The pool of one depositor with a million LP tokens. */
  function Staked(emission: Option<UserEmission>, config: Option<EmissionConfig>, data: Option<EmissionData>, poolEmissions: int): PoolLedger
  {
    PoolLedger(PoolHolding(TOKENS, TOKENS, 0), map[CLAIMANT := Account(Holding(TOKENS, []), emission)], config, data, poolEmissions)
  }

  /** After two hours of emissions: 70 percent stream for a week, 30 percent wait for the pool. */
  const EPS: int := 83333
  const STREAM: Option<EmissionConfig> := Some(EmissionConfig(612000, EPS))

  function Unstreamed(): PoolLedger { Staked(None, None, None, 0) }
  function Streaming(): PoolLedger { Staked(None, STREAM, Some(EmissionData(0, 7200)), 2160_0000000) }
  function Settled(): PoolLedger
  {
    Staked(Some(UserEmission(50399, 0)), STREAM, Some(EmissionData(50399, 612000)), 2160_0000000)
  }

  lemma StakeIsMinted()
    ensures Deposit(Genesis().pools[POOL := NO_LEDGER][POOL], 0, CLAIMANT, TOKENS) == Ok((Unstreamed(), TOKENS))
  {
    assert UpdateEmissions(NO_LEDGER, 0, CLAIMANT, false) == Ok((NO_LEDGER, 0));
    assert ConvertToShares(NO_LEDGER.balance, TOKENS) == Ok(TOKENS);
    hide UpdateEmissions;
    hide ConvertToShares;
    var a := Account(Holding(TOKENS, []), None);
    var none: map<Address, Account> := map[];
    assert none[CLAIMANT := a] == map[CLAIMANT := a];
  }

  lemma StakeArrives()
    ensures After(Genesis(), DepositTokens(CLAIMANT, POOL, TOKENS)) == OnePoolWorld(0, Unstreamed(), [], 0, 0, 0)
  {
    StakeIsMinted();
    hide Deposit;
    OneSet(NO_POOLS, Unstreamed());
    assert PoolOf(Genesis(), POOL) == NO_LEDGER;
  }

  lemma PoolIsAdded()
    requires WorldOk(OnePoolWorld(0, Unstreamed(), [], 0, 0, 0))
    ensures After(OnePoolWorld(0, Unstreamed(), [], 0, 0, 0), AddReward(POOL, 0)) == OnePoolWorld(0, Unstreamed(), [POOL], 0, 0, 0)
  {
    var w := OnePoolWorld(0, Unstreamed(), [], 0, 0, 0);
    hide WorldOk;
    MillionIsWorthEnough();
    AddRewardSucceeds(w, POOL, 0);
    hide WorthEnough;
    hide AboveThreshold;
    hide Floor;
    assert [POOL] + w.rewardZone == [POOL];
    assert MaxZoneSize(0) == 10;
  }

  lemma TwoHoursPass()
    ensures After(OnePoolWorld(0, Unstreamed(), [POOL], 0, 0, 0), Tick(7200)) == OnePoolWorld(7200, Unstreamed(), [POOL], 0, 0, 0)
    ensures After(OnePoolWorld(7200, Unstreamed(), [POOL], 0, 0, 0), EmitterDistributes)
      == OnePoolWorld(7200, Unstreamed(), [POOL], 7200, 0, 7200_0000000)
  {}

  lemma GulpOnePool(w: World, l: PoolLedger, total: int, share: int, q: PoolLedger)
    requires w.rewardZone == [POOL] && w.pools == map[POOL := l] && w.emitterLast > w.lastDistribution + GULP_INTERVAL
    requires NonQueuedTokens(l.balance) == Ok(total) && ZoneShare(l.balance, total) == Ok(share)
    requires GulpOne(l, w.now, share, ToPools(NewEmissions(w)), ToBackstop(NewEmissions(w))) == Ok(q)
    ensures After(w, GulpEmissions) == w.(pools := map[POOL := q], lastDistribution := w.emitterLast)
  {
    hide NonQueuedTokens;
    hide ZoneShare;
    hide GulpOne;
    hide ToPools;
    hide ToBackstop;
    var balances := ZoneBalances(w.pools, w.rewardZone);
    assert balances == [l.balance];
    hide ZoneBalances;
    assert TotalNonQueued(balances, 0) == Ok(0);
    assert TotalNonQueued(balances, 1) == Ok(total);
    hide TotalNonQueued;
    var (pools, backstop) := (ToPools(NewEmissions(w)), ToBackstop(NewEmissions(w)));
    assert GulpLoop(w.pools, w.rewardZone, balances, 0, w.now, total, pools, backstop) == Ok(w.pools);
    assert GulpLoop(w.pools, w.rewardZone, balances, 1, w.now, total, pools, backstop) == Ok(w.pools[POOL := q]);
    hide GulpLoop;
    OneSet(w.pools, q);
  }

  /** Two hours of emissions, split. */
  lemma TwoHoursSplit(w: World)
    requires w.emitterLast == 7200 && w.lastDistribution == 0
    ensures ToPools(NewEmissions(w)) == 2160_0000000 && ToBackstop(NewEmissions(w)) == 5040_0000000
  {}

  lemma AllInOnePool()
    ensures NonQueuedTokens(Unstreamed().balance) == Ok(TOKENS) && ZoneShare(Unstreamed().balance, TOKENS) == Ok(SCALAR_7)
  {
    WholeShare(Unstreamed().balance);
    hide NonQueuedTokens;
    hide ZoneShare;
  }

  lemma WholeShare(b: PoolHolding)
    requires b.tokens > 0 && b.shares > 0 && b.q4w == 0
    ensures NonQueuedTokens(b) == Ok(b.tokens) && ZoneShare(b, b.tokens) == Ok(SCALAR_7)
  {
    FloorExact(0, b.shares);
    FloorExact(SCALAR_7, b.tokens);
    hide Floor;
  }

  lemma EmissionsAreGulped(w: World)
    requires w == OnePoolWorld(7200, Unstreamed(), [POOL], 7200, 0, 7200_0000000)
    ensures After(w, GulpEmissions) == OnePoolWorld(7200, Streaming(), [POOL], 7200, 7200, 7200_0000000)
  {
    hide After;
    hide ToPools;
    hide ToBackstop;
    hide GulpOne;
    hide NonQueuedTokens;
    hide ZoneShare;
    TwoHoursSplit(w);
    AllInOnePool();
    StreamStarts();
    GulpOnePool(w, Unstreamed(), TOKENS, SCALAR_7, Streaming());
  }

  lemma StreamStarts()
    ensures GulpOne(Unstreamed(), 7200, SCALAR_7, 2160_0000000, 5040_0000000) == Ok(Streaming())
  {
    assert Floor(SCALAR_7 * 2160_0000000, SCALAR_7) == 2160_0000000;
    assert Floor(SCALAR_7 * 5040_0000000, SCALAR_7) == 5040_0000000;
    assert Floor(5040_0000000, EMISSION_WINDOW) == EPS;
    hide Floor;
  }

  lemma AWeekPasses()
    ensures After(OnePoolWorld(7200, Streaming(), [POOL], 7200, 7200, 7200_0000000), Tick(604800)) == Claimable()
  {}

  /** The stream has ended and the depositor claims for someone else. */
  function Claimable(): World { OnePoolWorld(612000, Streaming(), [POOL], 7200, 7200, 7200_0000000) }

  const PAID: int := 5039_9000000

  lemma IndexIsAdvanced()
    ensures UpdateEmissionData(Streaming(), 612000) == Ok(Streaming().(data := Some(EmissionData(50399, 612000))))
  {
    assert Floor((612000 - 7200) * EPS * SCALAR_7, TOKENS) == 50399;
    hide Floor;
  }

  lemma ClaimantIsPaid()
    ensures UpdateEmissions(Streaming(), 612000, CLAIMANT, true) == Ok((Settled(), PAID))
  {
    IndexIsAdvanced();
    hide UpdateEmissionData;
    assert Floor(TOKENS * 50399, SCALAR_7) == PAID;
    hide Floor;
    var (a, b) := (Account(Holding(TOKENS, []), None), Account(Holding(TOKENS, []), Some(UserEmission(50399, 0))));
    assert SettleAccount(a, 50399, true) == Ok((b, PAID));
    hide SettleAccount;
    assert Streaming().accounts[CLAIMANT := b] == Settled().accounts;
  }

  lemma SettledOwesNobody()
    ensures LedgerOk(Settled(), 612000) && Obligation(Settled()) == 0
  {
    hide ShareTotal;
    hide QueuedTotal;
    hide OwedTotal;
    OneAccount(Account(Holding(TOKENS, []), Some(UserEmission(50399, 0))), CLAIMANT, 50399);
  }

  /** Two thousand LP tokens become as many shares, which start with the index gain since index 0. */
  const LP_OUT: nat := 2000 * 1_0000000

  lemma RecipientIsPromised()
    ensures Redeposit(Settled(), RECIPIENT, LP_OUT).Ok? && Promise(Settled(), RECIPIENT, LP_OUT) == LP_OUT * 50399
  {
    FloorExact(LP_OUT, TOKENS);
    hide Floor;
    assert ConvertToShares(Settled().balance, LP_OUT) == Ok(LP_OUT);
    hide ConvertToShares;
  }

  /** Settling leaves a tenth of a BLND beyond what the pool has yet to gulp. */
  lemma SettledSurplus(w: World)
    requires w == Claimable().(pools := map[POOL := Settled()], blnd := 7200_0000000 - PAID)
    ensures Surplus(w) == Scaled(0_1000000)
  {
    hide LedgerOk;
    hide Obligation;
    hide Surplus;
    SettledOwesNobody();
    OnePoolSurplus(w, POOL, Settled());
  }

  const LIFE: seq<Action> := [DepositTokens(CLAIMANT, POOL, TOKENS), AddReward(POOL, 0), Tick(7200), EmitterDistributes,
                              GulpEmissions, Tick(604800)]

  lemma LifeRuns()
    ensures Run(Genesis(), LIFE) == Claimable()
  {
    hide After;
    var w1 := OnePoolWorld(0, Unstreamed(), [], 0, 0, 0);
    var w2 := OnePoolWorld(0, Unstreamed(), [POOL], 0, 0, 0);
    var w3 := OnePoolWorld(7200, Unstreamed(), [POOL], 0, 0, 0);
    var w4 := OnePoolWorld(7200, Unstreamed(), [POOL], 7200, 0, 7200_0000000);
    var w5 := OnePoolWorld(7200, Streaming(), [POOL], 7200, 7200, 7200_0000000);
    StakeArrives();
    StakeIsOk();
    PoolIsAdded();
    TwoHoursPass();
    EmissionsAreGulped(w4);
    AWeekPasses();
    hide Unstreamed;
    hide Streaming;
    hide Claimable;
    assert LIFE[0] == DepositTokens(CLAIMANT, POOL, TOKENS);
    RunTurn(Genesis(), LIFE[0], LIFE[1..], w1);
    RunTurn(w1, LIFE[1], LIFE[2..], w2);
    RunTurn(w2, LIFE[2], LIFE[3..], w3);
    RunTurn(w3, LIFE[3], LIFE[4..], w4);
    RunTurn(w4, LIFE[4], LIFE[5..], w5);
    RunTurn(w5, LIFE[5], [], Claimable());
    assert forall i :: 0 <= i < 6 ==> [LIFE[i]] + LIFE[i + 1..] == LIFE[i..];
    assert LIFE[0..] == LIFE && LIFE[6..] == [];
    assert Run(Claimable(), []) == Claimable();
    hide Run;
  }

  lemma StakeIsOk()
    ensures WorldOk(OnePoolWorld(0, Unstreamed(), [], 0, 0, 0))
  {
    StakeArrives();
    BackstopRuns.GenesisOk(Genesis());
    hide WorldOk;
    hide BlndSolvent;
    hide After;
    StepKeeps(Genesis(), DepositTokens(CLAIMANT, POOL, TOKENS));
  }

  lemma LifeIsOk()
    ensures IsGenesis(Genesis()) && OwnClaims(LIFE)
    ensures WorldOk(Claimable()) && BlndSolvent(Claimable())
  {
    BackstopRuns.GenesisOk(Genesis());
    LifeRuns();
    hide WorldOk;
    hide BlndSolvent;
    hide Run;
    hide Claimable;
    RunKeeps(Genesis(), LIFE);
  }

  /** In a run from initialisation a pool is deposited into, streams for a week, and its depositor claims for an
      address without a record: the claim goes through and leaves less BLND than is owed. */
  lemma {:induction false} ClaimForOtherBreaks()
    ensures IsGenesis(Genesis()) && Run(Genesis(), LIFE) == Claimable()
    ensures WorldOk(Claimable()) && BlndSolvent(Claimable())
    ensures ExecuteClaim(Claimable(), CLAIMANT, [POOL], RECIPIENT, LP_OUT).Ok?
    ensures !BlndSolvent(ExecuteClaim(Claimable(), CLAIMANT, [POOL], RECIPIENT, LP_OUT).value.0)
  {
    hide ExecuteClaim;
    hide SettleAll;
    hide ClaimPromise;
    hide Settling;
    hide Surplus;
    hide WorldOk;
    hide BlndSolvent;
    hide Redeposit;
    hide UpdateEmissions;
    hide Promise;
    hide Run;
    LifeIsOk();
    LifeRuns();
    ClaimantIsPaid();
    RecipientIsPromised();
    OnePoolClaim(Claimable(), POOL, Streaming(), Settled(), CLAIMANT, RECIPIENT, PAID, LP_OUT);
    ClaimSolventExactly(Claimable(), CLAIMANT, [POOL], RECIPIENT, LP_OUT);
    SettledSurplus(Claimable().(pools := map[POOL := Settled()], blnd := 7200_0000000 - PAID));
  }
}
