/** Every transition of one pool's backstop ledger keeps the record in agreement with its users
    and never lets the emissions it owes outgrow what was streamed into it. */
module BackstopLedgerProofs {
  import opened Outcomes
  import opened FixedPoint
  import opened Totals
  import opened UserBalances
  import opened PoolBalances
  import opened BackstopLedger

  // ----- sums over accounts -----

  /** Writing one account moves each sum by that account's difference. */
  lemma SumsAfterSet(m: map<Address, Account>, user: Address, a: Account)
    ensures var was := if user in m then m[user] else NO_ACCOUNT;
      && ShareTotal(m[user := a]) == ShareTotal(m) - was.holding.shares + a.holding.shares
      && QueuedTotal(m[user := a]) == QueuedTotal(m) - Queued(was.holding.q4w) + Queued(a.holding.q4w)
  {
    assert SharesBy(m[user := a]) == SharesBy(m)[user := a.holding.shares];
    TotalUpdate(SharesBy(m), user, a.holding.shares);
    assert QueuedBy(m[user := a]) == QueuedBy(m)[user := Queued(a.holding.q4w)];
    TotalUpdate(QueuedBy(m), user, Queued(a.holding.q4w));
  }

  lemma NothingOwed(index: int)
    ensures Owed(NO_ACCOUNT, index) == 0
  {}

  lemma OwedAfterSet(m: map<Address, Account>, user: Address, a: Account, index: int)
    ensures var was := if user in m then m[user] else NO_ACCOUNT;
      OwedTotal(m[user := a], index) == OwedTotal(m, index) - Owed(was, index) + Owed(a, index)
  {
    hide Owed;
    NothingOwed(index);
    assert OwedBy(m[user := a], index) == OwedBy(m, index)[user := Owed(a, index)];
    TotalUpdate(OwedBy(m, index), user, Owed(a, index));
  }

  /** Moving the index moves the owed total by the unqueued shares times the step. */
  lemma OwedAtNewIndex(m: map<Address, Account>, from: int, to: int)
    ensures OwedTotal(m, to) == OwedTotal(m, from) + (to - from) * ShareTotal(m)
  {
    forall u | u in m
      ensures OwedBy(m, to)[u] == OwedBy(m, from)[u] + (to - from) * SharesBy(m)[u]
    {
      MulDistributes(m[u].holding.shares, from - UserIndex(m[u]), to - from);
    }
    TotalLinear(OwedBy(m, from), OwedBy(m, to), SharesBy(m), to - from);
  }

  lemma OwedIsNonNegative(m: map<Address, Account>, index: int, now: nat)
    requires AccountsOk(m, index, now)
    ensures OwedTotal(m, index) >= 0
  {
    forall u | u in m
      ensures OwedBy(m, index)[u] >= 0
    {
      assert AccountOk(m[u], index, now);
      MulMono(0, m[u].holding.shares, index - UserIndex(m[u]));
    }
    TotalNonNeg(OwedBy(m, index));
  }

  lemma SumsAreNonNegative(m: map<Address, Account>, index: int, now: nat)
    requires AccountsOk(m, index, now)
    ensures ShareTotal(m) >= 0 && QueuedTotal(m) >= 0
    ensures forall u :: u in m ==> Queued(m[u].holding.q4w) <= QueuedTotal(m)
  {
    forall u | u in m
      ensures m[u].holding.shares >= 0 && Queued(m[u].holding.q4w) >= 0
    {
      assert AccountOk(m[u], index, now);
      MaturedBounds(m[u].holding.q4w, 0);
    }
    TotalNonNeg(SharesBy(m));
    TotalNonNeg(QueuedBy(m));
    forall u | u in m
      ensures Queued(m[u].holding.q4w) <= QueuedTotal(m)
    {
      assert QueuedBy(m)[u] <= Total(QueuedBy(m));
    }
  }

  /** A well-formed ledger has a well-formed pool record, and owes a non-negative amount. */
  lemma LedgerSums(p: PoolLedger, now: nat)
    requires LedgerOk(p, now)
    ensures PoolHoldingOk(p.balance)
    ensures ShareTotal(p.accounts) == p.balance.shares - p.balance.q4w >= 0
    ensures Obligation(p) >= 0
    ensures forall u :: Queued(AccountOf(p, u).holding.q4w) <= p.balance.q4w
    ensures forall u :: AccountOk(AccountOf(p, u), Index(p), now)
  {
    hide Owed;
    SumsAreNonNegative(p.accounts, Index(p), now);
    OwedIsNonNegative(p.accounts, Index(p), now);
    if p.config.Some? {
      MulMono(0, p.config.value.eps, Max(0, p.config.value.expiration - p.data.value.lastTime));
    }
  }

  lemma TimePasses(p: PoolLedger, now: nat, later: nat)
    requires LedgerOk(p, now) && now <= later
    ensures LedgerOk(p, later)
  {
    forall u | u in p.accounts
      ensures AccountOk(p.accounts[u], Index(p), later)
    {
      assert AccountOk(p.accounts[u], Index(p), now);
    }
  }

  lemma NobodyOwed(m: map<Address, Account>, index: int)
    requires m == map[]
    ensures OwedTotal(m, index) == 0
  {
    TotalOfNothing(OwedBy(m, index));
  }

  lemma NobodyHolds(b: PoolHolding, m: map<Address, Account>)
    requires m == map[] && b == EMPTY_POOL
    ensures SumsAgree(b, m)
  {
    TotalOfNothing(SharesBy(m));
    TotalOfNothing(QueuedBy(m));
  }

  lemma EmptyLedger(p: PoolLedger, now: nat)
    requires p.balance == EMPTY_POOL && p.accounts == map[] && p.poolEmissions == 0
    requires p.config == None && p.data == None
    ensures LedgerOk(p, now) && Obligation(p) == 0
  {
    NobodyHolds(p.balance, p.accounts);
    NobodyOwed(p.accounts, 0);
    hide SumsAgree;
    hide OwedTotal;
  }

  lemma LedgerStartsOk(now: nat)
    ensures LedgerOk(NO_LEDGER, now) && Obligation(NO_LEDGER) == 0
  {
    EmptyLedger(NO_LEDGER, now);
    hide LedgerOk;
    hide Obligation;
  }

  // ----- the emission index -----

  /** The index takes out of the stream what the stream loses, short by less than one unit per share. */
  lemma IndexStepIsFunded(eps: int, last: int, now: int, exp: int, unqueued: int, step: int)
    requires eps >= 0 && last < exp && last < now && unqueued > 0
    requires step == Floor((Min(now, exp) - last) * eps * SCALAR_7, unqueued)
    ensures step >= 0
    ensures Scaled(StreamLeft(eps, exp, now)) + step * unqueued <= Scaled(StreamLeft(eps, exp, last))
                                             < Scaled(StreamLeft(eps, exp, now)) + step * unqueued + unqueued
  {
    var dt := Min(now, exp) - last;
    assert Max(0, exp - last) == Max(0, exp - now) + dt;
    MulDistributes(eps, Max(0, exp - now), dt);
    assert dt * eps * SCALAR_7 == Scaled(eps * dt);
    MulMono(0, dt, eps);
    FloorNonNeg(dt * eps * SCALAR_7, unqueued);
    FloorBounds(dt * eps * SCALAR_7, unqueued);
    hide Floor;
  }

  /** What a storing index update writes. */
  lemma IndexAdvance(p: PoolLedger, now: nat)
    requires LedgerOk(p, now) && p.config.Some?
    requires UpdateEmissionData(p, now).Ok? && UpdateEmissionData(p, now).value != p
    ensures var q := UpdateEmissionData(p, now).value;
      var config, last := p.config.value, p.data.value.lastTime;
      && q == p.(data := Some(EmissionData(Index(q), now)))
      && last < config.expiration && last < now && ShareTotal(p.accounts) > 0
      && Index(q) - Index(p)
           == Floor((Min(now, config.expiration) - last) * config.eps * SCALAR_7, ShareTotal(p.accounts))
  {
    hide StreamLeft;
    hide Owed;
    LedgerSums(p, now);
  }

  lemma {:induction false} UpdateEmissionDataKeeps(p: PoolLedger, now: nat)
    requires LedgerOk(p, now) && p.config.Some? && UpdateEmissionData(p, now).Ok?
    ensures var q := UpdateEmissionData(p, now).value;
      && LedgerOk(q, now)
      && q == p.(data := q.data) && Index(q) >= Index(p)
      && Obligation(q) <= Obligation(p) <= Obligation(q) + Unqueued(p)
  {
    var q := UpdateEmissionData(p, now).value;
    LedgerSums(p, now);
    if q != p {
      IndexAdvance(p, now);
      hide UpdateEmissionData;
      hide StreamLeft;
      hide OwedTotal;
      var config := p.config.value;
      IndexStepIsFunded(config.eps, p.data.value.lastTime, now, config.expiration,
        ShareTotal(p.accounts), Index(q) - Index(p));
      OwedAtNewIndex(p.accounts, Index(p), Index(q));
      forall u | u in p.accounts
        ensures AccountOk(p.accounts[u], Index(q), now)
      {
        assert AccountOk(p.accounts[u], Index(p), now);
      }
    }
  }

  /** While there are shares, an update puts everything emitted by now into the index; without any it waits. */
  lemma {:induction false} IndexIsCurrent(p: PoolLedger, now: nat)
    requires LedgerOk(p, now) && p.config.Some? && UpdateEmissionData(p, now).Ok?
    ensures var q := UpdateEmissionData(p, now).value;
      if p.balance.shares == 0 then q == p
      else RemainingStream(q) == StreamLeft(p.config.value.eps, p.config.value.expiration, now)
  {
    hide SumsAgree;
    hide AccountsOk;
    hide DivFloor;
  }

  /** The index can be advanced unless shares exist, all of them queued, while the stream runs. */
  lemma UpdateEmissionDataSucceeds(p: PoolLedger, now: nat)
    requires LedgerOk(p, now) && p.config.Some?
    ensures UpdateEmissionData(p, now).Ok? <==>
      !(&& p.balance.shares > 0 && p.balance.q4w == p.balance.shares
        && p.config.value.eps > 0
        && p.data.value.lastTime < now && p.data.value.lastTime < p.config.value.expiration)
  {
    hide StreamLeft;
    hide Owed;
    LedgerSums(p, now);
  }

  /** A user whose record is at the pool's index. */
  ghost predicate Settled(p: PoolLedger, user: Address)
  {
    UserIndex(AccountOf(p, user)) == Index(p)
  }

  /** Settling an account pays or records what had accrued plus the floor of its index gain, so what is paid
      and what is still owed are what was owed, short by less than one token. */
  lemma {:induction false} SettleAccountKeeps(a: Account, index: int, now: nat, claim: bool)
    requires AccountOk(a, index, now)
    ensures SettleAccount(a, index, claim).Ok?
    ensures var (b, paid) := SettleAccount(a, index, claim).value;
      && AccountOk(b, index, now) && b.holding == a.holding && UserIndex(b) == index && b.emission.Some?
      && (if claim then paid >= 0 && Accrued(b) == 0 else paid == 0)
      && paid + Accrued(b) == Accrued(a) + Floor(a.holding.shares * (index - UserIndex(a)), SCALAR_7)
      && Owed(b, index) + Scaled(paid) <= Owed(a, index) < Owed(b, index) + Scaled(paid) + SCALAR_7
  {
    var gain := a.holding.shares * (index - UserIndex(a));
    MulMono(0, a.holding.shares, index - UserIndex(a));
    FloorNonNeg(gain, SCALAR_7);
    ScaledFloor(gain);
    hide Floor;
  }

  /** Replacing one account by a well-formed one with the same holding keeps the ledger well formed. */
  lemma RecordChangeKeeps(p: PoolLedger, now: nat, user: Address, a: Account)
    requires LedgerOk(p, now) && p.config.Some?
    requires AccountOk(a, Index(p), now) && a.holding == AccountOf(p, user).holding
    ensures LedgerOk(SetAccount(p, user, a), now)
    ensures Obligation(SetAccount(p, user, a)) == Obligation(p) - Owed(AccountOf(p, user), Index(p)) + Owed(a, Index(p))
  {
    hide Owed;
    hide StreamLeft;
    hide HoldingOk;
    SumsAfterSet(p.accounts, user, a);
    OwedAfterSet(p.accounts, user, a, Index(p));
  }

  /** What settling a user at an index comes to, in whole tokens. */
  function DueAt(p: PoolLedger, user: Address, index: int): int
  {
    var a := AccountOf(p, user);
    Accrued(a) + Floor(a.holding.shares * (index - UserIndex(a)), SCALAR_7)
  }

  /** Settling pays out or records what is due, which it takes off the obligation with less than a token of
      rounding, and leaves the user settled. */
  lemma UpdateUserKeeps(p: PoolLedger, now: nat, user: Address, claim: bool)
    requires LedgerOk(p, now) && p.data.Some?
    ensures UpdateUserEmissions(p, user, claim).Ok?
    ensures var (q, paid) := UpdateUserEmissions(p, user, claim).value;
      && LedgerOk(q, now)
      && q == p.(accounts := q.accounts)
      && AccountOf(q, user).holding == AccountOf(p, user).holding
      && (forall u :: u != user ==> AccountOf(q, u) == AccountOf(p, u))
      && Settled(q, user) && user in q.accounts && AccountOf(q, user).emission.Some?
      && (if claim then paid >= 0 && Accrued(AccountOf(q, user)) == 0 else paid == 0)
      && paid + Accrued(AccountOf(q, user)) == DueAt(p, user, Index(p))
      && Obligation(q) + Scaled(paid) <= Obligation(p) <= Obligation(q) + Scaled(paid) + SCALAR_7
  {
    hide Owed;
    hide Obligation;
    hide HoldingOk;
    hide SettleAccount;
    var a := AccountOf(p, user);
    LedgerSums(p, now);
    assert AccountOk(a, Index(p), now);
    SettleAccountKeeps(a, Index(p), now, claim);
    RecordChangeKeeps(p, now, user, SettleAccount(a, Index(p), claim).value.0);
  }

  lemma RoundingNonNegative(p: PoolLedger, now: nat)
    requires LedgerOk(p, now)
    ensures 0 <= Unqueued(p) == Rounding(p) - SCALAR_7
  {
    LedgerSums(p, now);
  }

  lemma NothingBeforeStreams(p: PoolLedger, now: nat, user: Address)
    requires LedgerOk(p, now) && p.config.None?
    ensures AccountOf(p, user).emission.None? && Index(p) == 0
  {}

  /** Both updates together, at any time and for any user: what is due at the new index is paid or recorded,
      and the pool owes that much less, up to rounding. */
  lemma UpdateEmissionsKeeps(p: PoolLedger, now: nat, user: Address, claim: bool)
    requires LedgerOk(p, now) && UpdateEmissions(p, now, user, claim).Ok?
    ensures var (q, paid) := UpdateEmissions(p, now, user, claim).value;
      && LedgerOk(q, now)
      && q == p.(accounts := q.accounts, data := q.data)
      && AccountOf(q, user).holding == AccountOf(p, user).holding
      && (forall u :: u != user ==> AccountOf(q, u) == AccountOf(p, u))
      && Settled(q, user)
      && (if claim then paid >= 0 && Accrued(AccountOf(q, user)) == 0 else paid == 0)
      && paid + Accrued(AccountOf(q, user)) == (if p.config.Some? then DueAt(p, user, Index(q)) else 0)
      && Obligation(q) + Scaled(paid) <= Obligation(p) <= Obligation(q) + Scaled(paid) + Rounding(p)
  {
    hide UpdateEmissionData;
    hide UpdateUserEmissions;
    hide Obligation;
    hide LedgerOk;
    hide DueAt;
    RoundingNonNegative(p, now);
    hide Rounding;
    hide Unqueued;
    if p.config.Some? {
      UpdateEmissionDataKeeps(p, now);
      var r := UpdateEmissionData(p, now).value;
      assert r.data.Some?;
      UpdateUserKeeps(r, now, user, claim);
      assert DueAt(r, user, Index(r)) == DueAt(p, user, Index(r)) by {
        DueIgnoresIndex(p, r, user, Index(r));
      }
    } else {
      NothingBeforeStreams(p, now, user);
    }
  }

  lemma DueIgnoresIndex(p: PoolLedger, q: PoolLedger, user: Address, index: int)
    requires q.accounts == p.accounts
    ensures DueAt(q, user, index) == DueAt(p, user, index)
  {}

  /** An emission update writes only the pool's index and the user's record. */
  lemma UpdateKeepsHoldings(p: PoolLedger, now: nat, user: Address, claim: bool)
    requires UpdateEmissions(p, now, user, claim).Ok?
    ensures var q := UpdateEmissions(p, now, user, claim).value.0;
      && q == p.(accounts := q.accounts, data := q.data)
      && forall u :: AccountOf(q, u).holding == AccountOf(p, u).holding
  {}

  /** An account that has just been paid is owed nothing more at the same index. */
  lemma PaidAccountIsDone(a: Account, index: int)
    requires a.emission == Some(UserEmission(index, 0))
    ensures SettleAccount(a, index, true) == Ok((a, 0))
  {
    FloorExact(0, SCALAR_7);
  }

  /** Updating the index twice at one time is updating it once, whatever happens to the users between. */
  lemma IndexUpdateIsIdempotent(p: PoolLedger, now: nat, m: map<Address, Account>)
    requires p.config.Some? && UpdateEmissionData(p, now).Ok?
    ensures var q := UpdateEmissionData(p, now).value.(accounts := m);
      UpdateEmissionData(q, now) == Ok(q)
  {}

  lemma ClaimedRecord(p: PoolLedger, now: nat, user: Address)
    requires LedgerOk(p, now) && p.data.Some?
    ensures UpdateUserEmissions(p, user, true).Ok?
    ensures var q := UpdateUserEmissions(p, user, true).value.0;
      && q == p.(accounts := q.accounts) && user in q.accounts
      && q.accounts[user].emission == Some(UserEmission(Index(p), 0))
  {
    hide Obligation;
    hide LedgerOk;
    hide DueAt;
    hide UpdateUserEmissions;
    UpdateUserKeeps(p, now, user, true);
  }

  /** Claiming twice in one call: the second settlement changes nothing and pays nothing. */
  lemma SecondClaimPaysNothing(p: PoolLedger, now: nat, user: Address)
    requires LedgerOk(p, now) && UpdateEmissions(p, now, user, true).Ok?
    ensures var q := UpdateEmissions(p, now, user, true).value.0;
      UpdateEmissions(q, now, user, true) == Ok((q, 0))
  {
    hide Obligation;
    hide LedgerOk;
    if p.config.Some? {
      var r := UpdateEmissionData(p, now).value;
      UpdateEmissionDataKeeps(p, now);
      ClaimedRecord(r, now, user);
      IndexUpdateIsIdempotent(p, now, UpdateUserEmissions(r, user, true).value.0.accounts);
      hide UpdateEmissionData;
      var q := UpdateUserEmissions(r, user, true).value.0;
      PaidAccountIsDone(q.accounts[user], Index(q));
      hide SettleAccount;
      assert q.accounts[user := q.accounts[user]] == q.accounts;
    }
  }

  // ----- balance transitions -----

  lemma OwedAfterHoldingChange(was: Account, h: Holding, index: int)
    requires UserIndex(was) == index || h.shares == was.holding.shares
    ensures Owed(was.(holding := h), index) == Owed(was, index)
  {}

  lemma AccountsAfterSet(m: map<Address, Account>, index: int, now: nat, user: Address, a: Account)
    requires AccountsOk(m, index, now) && AccountOk(a, index, now)
    ensures AccountsOk(m[user := a], index, now)
  {
    hide AccountOk;
  }

  lemma NoRecordsAfterSet(m: map<Address, Account>, user: Address, a: Account)
    requires NoRecords(m) && a.emission.None?
    ensures NoRecords(m[user := a])
  {}

  /** A new holding with the pool record adjusted to it keeps the ledger well formed. */
  lemma HoldingChangeKeeps(p: PoolLedger, now: nat, user: Address, h: Holding, b: PoolHolding)
    requires LedgerOk(p, now) && HoldingOk(h, now)
    requires var was := AccountOf(p, user).holding;
      && b.tokens >= 0
      && b.q4w == p.balance.q4w - Queued(was.q4w) + Queued(h.q4w)
      && b.shares == p.balance.shares - was.shares - Queued(was.q4w) + h.shares + Queued(h.q4w)
    ensures LedgerOk(SetHolding(p.(balance := b), user, h), now)
  {
    LedgerSums(p, now);
    var was := AccountOf(p, user);
    assert AccountOk(was, Index(p), now);
    var a := was.(holding := h);
    SumsAfterSet(p.accounts, user, a);
    AccountsAfterSet(p.accounts, Index(p), now, user, a);
    if p.config.None? {
      NoRecordsAfterSet(p.accounts, user, a);
    }
  }

  /** Changing a settled user's holding, or anyone's queue, leaves every obligation as it was. */
  lemma HoldingChangeIsNeutral(p: PoolLedger, now: nat, user: Address, h: Holding, b: PoolHolding)
    requires LedgerOk(p, now) && HoldingOk(h, now)
    requires Settled(p, user) || h.shares == AccountOf(p, user).holding.shares
    requires var was := AccountOf(p, user).holding;
      && b.tokens >= 0
      && b.q4w == p.balance.q4w - Queued(was.q4w) + Queued(h.q4w)
      && b.shares == p.balance.shares - was.shares - Queued(was.q4w) + h.shares + Queued(h.q4w)
    ensures var q := SetHolding(p.(balance := b), user, h);
      && LedgerOk(q, now) && Obligation(q) == Obligation(p)
      && AccountOf(q, user) == AccountOf(p, user).(holding := h)
      && (forall u :: u != user ==> AccountOf(q, u) == AccountOf(p, u))
  {
    hide LedgerOk;
    hide StreamLeft;
    hide OwedTotal;
    hide HoldingOk;
    hide Queued;
    HoldingChangeKeeps(p, now, user, h, b);
    var was := AccountOf(p, user);
    OwedAfterHoldingChange(was, h, Index(p));
    hide Owed;
    OwedAfterSet(p.accounts, user, was.(holding := h), Index(p));
  }

  lemma MintedNonNegative(b: PoolHolding, amount: int)
    requires PoolHoldingOk(b) && amount >= 0 && ConvertToShares(b, amount).Ok?
    ensures ConvertToShares(b, amount).value >= 0
  {
    if b.shares > 0 { DepositKeepsShareValue(b, amount); }
  }

  lemma {:induction false} DepositKeeps(p: PoolLedger, now: nat, user: Address, amount: int)
    requires LedgerOk(p, now) && amount >= 0 && Deposit(p, now, user, amount).Ok?
    ensures var (q, minted) := Deposit(p, now, user, amount).value;
      && LedgerOk(q, now) && Obligation(q) <= Obligation(p) <= Obligation(q) + Rounding(p) && minted > 0
      && q.balance == AddDeposit(p.balance, amount, minted) && FairMint(p.balance, amount, minted)
      && q.poolEmissions == p.poolEmissions
      && AccountOf(q, user).holding == AddShares(AccountOf(p, user).holding, minted)
      && (forall u :: u != user ==> AccountOf(q, u) == AccountOf(p, u))
  {
    hide UpdateEmissions;
    hide Obligation;
    UpdateEmissionsKeeps(p, now, user, false);
    var q := UpdateEmissions(p, now, user, false).value.0;
    LedgerSums(q, now);
    MintedNonNegative(q.balance, amount);
    MintIsFair(q.balance, amount);
    hide ConvertToShares;
    hide FairMint;
    var minted := ConvertToShares(q.balance, amount).value;
    var h := AddShares(AccountOf(q, user).holding, minted);
    HoldingChangeIsNeutral(q, now, user, h, AddDeposit(q.balance, amount, minted));
  }

  lemma QueueKeeps(p: PoolLedger, now: nat, user: Address, amount: int)
    requires LedgerOk(p, now) && amount >= 0 && QueueWithdrawal(p, now, user, amount).Ok?
    ensures var q := QueueWithdrawal(p, now, user, amount).value;
      && LedgerOk(q, now) && Obligation(q) <= Obligation(p) <= Obligation(q) + Rounding(p)
      && q.balance.tokens == p.balance.tokens
      && q.poolEmissions == p.poolEmissions
      && Ok(AccountOf(q, user).holding) == QueueShares(AccountOf(p, user).holding, now, amount)
      && (forall u :: u != user ==> AccountOf(q, u) == AccountOf(p, u))
  {
    hide UpdateEmissions;
    hide Obligation;
    UpdateEmissionsKeeps(p, now, user, false);
    var q := UpdateEmissions(p, now, user, false).value.0;
    LedgerSums(q, now);
    assert AccountOk(AccountOf(q, user), Index(q), now);
    QueueKeepsHolding(AccountOf(q, user).holding, now, amount);
    hide QueueShares;
    HoldingChangeIsNeutral(q, now, user, QueueShares(AccountOf(q, user).holding, now, amount).value,
      QueueForWithdraw(q.balance, amount));
  }

  lemma {:induction false} DequeueKeeps(p: PoolLedger, now: nat, user: Address, amount: int)
    requires LedgerOk(p, now) && amount >= 0 && DequeueWithdrawal(p, now, user, amount).Ok?
    ensures var q := DequeueWithdrawal(p, now, user, amount).value;
      && LedgerOk(q, now) && Obligation(q) <= Obligation(p) <= Obligation(q) + Rounding(p)
      && q.balance.tokens == p.balance.tokens
      && q.poolEmissions == p.poolEmissions
      && DequeueShares(AccountOf(p, user).holding, now, amount, false).Ok?
      && AccountOf(q, user).holding
           == AddShares(DequeueShares(AccountOf(p, user).holding, now, amount, false).value, amount)
      && (forall u :: u != user ==> AccountOf(q, u) == AccountOf(p, u))
  {
    hide UpdateEmissions;
    hide Obligation;
    hide DequeueShares;
    UpdateEmissionsKeeps(p, now, user, false);
    var q := UpdateEmissions(p, now, user, false).value.0;
    LedgerSums(q, now);
    assert AccountOk(AccountOf(q, user), Index(q), now);
    DequeueKeepsHolding(AccountOf(q, user).holding, now, amount, false);
    var h := DequeueShares(AccountOf(q, user).holding, now, amount, false).value;
    HoldingChangeIsNeutral(q, now, user, AddShares(h, amount), DequeueQ4W(q.balance, amount).value);
  }

  /** A withdrawal touches no unqueued share, so it needs no emission update. */
  lemma {:induction false} WithdrawKeeps(p: PoolLedger, now: nat, user: Address, amount: int)
    requires LedgerOk(p, now) && amount >= 0 && Withdraw(p, now, user, amount).Ok?
    ensures var (q, out) := Withdraw(p, now, user, amount).value;
      && LedgerOk(q, now) && Obligation(q) == Obligation(p)
      && out > 0 && q.balance.tokens == p.balance.tokens - out && FairPayout(p.balance, amount, out)
      && q.poolEmissions == p.poolEmissions
      && Ok(AccountOf(q, user).holding) == DequeueShares(AccountOf(p, user).holding, now, amount, true)
      && (forall u :: u != user ==> AccountOf(q, u) == AccountOf(p, u))
  {
    hide Obligation;
    hide DequeueShares;
    hide ConvertToTokens;
    var (q, out) := Withdraw(p, now, user, amount).value;
    LedgerSums(p, now);
    assert AccountOk(AccountOf(p, user), Index(p), now);
    DequeueKeepsHolding(AccountOf(p, user).holding, now, amount, true);
    WithdrawKeepsShareValue(p.balance, amount);
    PayoutIsFair(p.balance, amount);
    hide FairPayout;
    HoldingChangeIsNeutral(p, now, user, DequeueShares(AccountOf(p, user).holding, now, amount, true).value, q.balance);
  }

  /** What a share amount is worth is at least one token exactly when it outweighs one share's price. */
  lemma WorthOneToken(b: PoolHolding, amount: int)
    requires PoolHoldingOk(b) && 0 <= amount <= b.q4w
    ensures ConvertToTokens(b, amount).Ok?
    ensures ConvertToTokens(b, amount).value != 0 <==> b.shares > 0 && amount * b.tokens >= b.shares
  {
    if b.shares > 0 {
      WithdrawKeepsShareValue(b, amount);
      FloorBounds(amount * b.tokens, b.shares);
      var out := ConvertToTokens(b, amount).value;
      hide Floor;
      if amount * b.tokens >= b.shares {
        FloorGreatest(1, amount * b.tokens, b.shares);
      } else if out >= 1 {
        MulMono(1, out, b.shares);
      }
    }
  }

  /** Once the user's queue allows it, the pool-level checks of a withdrawal cannot fail: it
      succeeds exactly when enough shares have matured and they are worth at least one token. */
  lemma WithdrawSucceeds(p: PoolLedger, now: nat, user: Address, amount: int)
    requires LedgerOk(p, now) && amount >= 0
    ensures Withdraw(p, now, user, amount).Ok? <==>
      && amount <= Matured(AccountOf(p, user).holding.q4w, now)
      && p.balance.shares > 0 && amount * p.balance.tokens >= p.balance.shares
  {
    hide Obligation;
    var h := AccountOf(p, user).holding;
    LedgerSums(p, now);
    assert AccountOk(AccountOf(p, user), Index(p), now);
    TakeFrontSucceeds(h.q4w, amount, now, true);
    hide TakeFront;
    MaturedBounds(h.q4w, now);
    if amount <= Queued(h.q4w) {
      WorthOneToken(p.balance, amount);
      WithdrawKeepsShareValue(p.balance, amount);
    }
    hide ConvertToTokens;
    if p.balance.shares > 0 && amount == 0 {
      assert amount * p.balance.tokens == 0;
    }
  }

  /** Likewise for cancelling: it succeeds exactly when the emission update does and the user
      has that many shares queued. */
  lemma DequeueSucceeds(p: PoolLedger, now: nat, user: Address, amount: int)
    requires LedgerOk(p, now) && amount >= 0
    ensures DequeueWithdrawal(p, now, user, amount).Ok? <==>
      && UpdateEmissions(p, now, user, false).Ok?
      && amount <= Queued(AccountOf(p, user).holding.q4w)
  {
    hide UpdateEmissions;
    hide Obligation;
    var h := AccountOf(p, user).holding;
    LedgerSums(p, now);
    assert AccountOk(AccountOf(p, user), Index(p), now);
    TakeFrontSucceeds(h.q4w, amount, now, false);
    hide TakeFront;
    if UpdateEmissions(p, now, user, false).Ok? {
      UpdateEmissionsKeeps(p, now, user, false);
    }
  }

  lemma FundsMoveKeeps(p: PoolLedger, now: nat, amount: int)
    requires LedgerOk(p, now) && amount >= 0
    ensures LedgerOk(Donate(p, amount), now) && Obligation(Donate(p, amount)) == Obligation(p)
    ensures Draw(p, amount).Ok? <==> amount <= p.balance.tokens
    ensures Draw(p, amount).Ok? ==>
      LedgerOk(Draw(p, amount).value, now) && Obligation(Draw(p, amount).value) == Obligation(p)
  {
    hide Owed;
    hide StreamLeft;
    LedgerSums(p, now);
  }

  // ----- new streams and re-deposits -----

  /** What an old stream still holds shrinks as its index advances, and never goes negative. */
  lemma CarriedOver(eps: int, exp: int, last: int, now: int)
    requires eps >= 0 && last <= now
    ensures 0 <= StreamLeft(eps, exp, now) <= StreamLeft(eps, exp, last)
    ensures StreamLeft(eps, exp, now) == if exp > now then eps * (exp - now) else 0
  {
    MulMono(0, Max(0, exp - now), eps);
    MulMono(Max(0, exp - now), Max(0, exp - last), eps);
  }

  /** A new stream holds at most the tokens it was given, short by less than one for every second. */
  lemma StreamIsFunded(p: PoolLedger, now: nat, tokens: int)
    requires tokens >= 0
    ensures StartStream(p, now, tokens).Ok?
    ensures var config := StartStream(p, now, tokens).value.config.value;
      && config.eps >= 0 && config.expiration == now + EMISSION_WINDOW
      && StreamLeft(config.eps, config.expiration, now) <= tokens < StreamLeft(config.eps, config.expiration, now) + EMISSION_WINDOW
  {
    FloorNonNeg(tokens, EMISSION_WINDOW);
    FloorBounds(tokens, EMISSION_WINDOW);
  }

  /** Starting a stream adds the new tokens to what the pool owes, whatever is carried over, short by less than
      one token a second of the new stream, the rounding of the index, and what the old stream emitted to nobody. */
  lemma {:induction false} SetEmissionConfigKeeps(p: PoolLedger, now: nat, newTokens: int)
    requires LedgerOk(p, now) && newTokens >= 0 && SetEmissionConfig(p, now, newTokens).Ok?
    ensures var q := SetEmissionConfig(p, now, newTokens).value;
      && LedgerOk(q, now)
      && q == p.(config := q.config, data := q.data)
      && Obligation(q) <= Obligation(p) + Scaled(newTokens)
      && Obligation(p) + Scaled(newTokens) <= Obligation(q) + RestartLoss(p, now)
  {
    LedgerSums(p, now);
    hide UpdateEmissionData;
    hide StreamLeft;
    hide OwedTotal;
    if p.config.Some? {
      UpdateEmissionDataKeeps(p, now);
      IndexIsCurrent(p, now);
      var r := UpdateEmissionData(p, now).value;
      var config := p.config.value;
      CarriedOver(config.eps, config.expiration, r.data.value.lastTime, now);
      StreamIsFunded(r.(data := Some(r.data.value.(lastTime := now))), now,
        newTokens + StreamLeft(config.eps, config.expiration, now));
    } else {
      StreamIsFunded(p.(data := Some(EmissionData(0, now))), now, newTokens);
    }
  }

  /** Re-depositing a claim for a settled user owes nobody anything new. */
  lemma RedepositKeeps(p: PoolLedger, now: nat, to: Address, amount: int)
    requires LedgerOk(p, now) && Settled(p, to) && amount >= 0 && Redeposit(p, to, amount).Ok?
    ensures var q := Redeposit(p, to, amount).value;
      && LedgerOk(q, now) && Obligation(q) == Obligation(p)
      && q.balance.tokens == p.balance.tokens + amount
      && q == p.(balance := q.balance, accounts := q.accounts)
      && FairMint(p.balance, amount, AccountOf(q, to).holding.shares - AccountOf(p, to).holding.shares)
      && Settled(q, to)
      && AccountOf(q, to).holding.q4w == AccountOf(p, to).holding.q4w
      && (forall u :: u != to ==> AccountOf(q, u) == AccountOf(p, u))
  {
    hide Obligation;
    LedgerSums(p, now);
    assert AccountOk(AccountOf(p, to), Index(p), now);
    MintedNonNegative(p.balance, amount);
    MintIsFair(p.balance, amount);
    hide ConvertToShares;
    hide FairMint;
    var minted := ConvertToShares(p.balance, amount).value;
    HoldingChangeIsNeutral(p, now, to, AddShares(AccountOf(p, to).holding, minted), AddDeposit(p.balance, amount, minted));
  }

  lemma OwedAfterMint(a: Account, minted: int, index: int)
    ensures Owed(a.(holding := AddShares(a.holding, minted)), index) == Owed(a, index) + minted * (index - UserIndex(a))
    ensures minted * (index - UserIndex(a)) == 0 <==> minted == 0 || UserIndex(a) == index
  {
    MulDistributes(index - UserIndex(a), a.holding.shares, minted);
  }

  /** Re-depositing for a user who is not settled promises that user the index gain since their
      last record on the new shares; it is neutral exactly when nothing is minted or the user is settled. */
  lemma RedepositToOther(p: PoolLedger, to: Address, amount: int)
    requires Redeposit(p, to, amount).Ok?
    ensures var minted := ConvertToShares(p.balance, amount).value;
      var q := Redeposit(p, to, amount).value;
      && Obligation(q) == Obligation(p) + minted * (Index(p) - UserIndex(AccountOf(p, to)))
      && (Obligation(q) == Obligation(p) <==> minted == 0 || Settled(p, to))
  {
    hide Owed;
    hide StreamLeft;
    hide ConvertToShares;
    var minted := ConvertToShares(p.balance, amount).value;
    var a := AccountOf(p, to);
    OwedAfterMint(a, minted, Index(p));
    OwedAfterSet(p.accounts, to, a.(holding := AddShares(a.holding, minted)), Index(p));
  }
}
