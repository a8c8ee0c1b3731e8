/** Emissions a lending pool streams to the holders of its reserve tokens: one lazy index per token, settled
    before every balance change (pool/src/emissions/distributor.rs, pool/src/emissions/manager.rs,
    pool/src/pool/user.rs). */
module PoolEmissions {
  import opened Outcomes
  import opened FixedPoint
  import opened Totals
  import B = BackstopLedger

  datatype ReserveEmissionsConfig = ReserveEmissionsConfig(expiration: nat, eps: int)
  datatype ReserveEmissionsData = ReserveEmissionsData(index: int, lastTime: nat)
  datatype UserEmissionData = UserEmissionData(index: int, accrued: int)

  /** A holder's balance of one reserve token and the emission record stored for it. */
  datatype Holder = Holder(balance: int, record: Option<UserEmissionData>)

  const NOBODY := Holder(0, None)

  /** One whole token in its smallest unit. */
  type Scalar = s: int | s > 0 witness 1

  /** One reserve token: d tokens (even ids) or b tokens (odd ids) of a reserve. */
  datatype ReserveToken = ReserveToken(
    scalar: Scalar,
    supply: int,
    holders: map<Address, Holder>,
    config: Option<ReserveEmissionsConfig>,
    data: Option<ReserveEmissionsData>)

  function HolderOf(t: ReserveToken, user: Address): Holder
  {
    if user in t.holders then t.holders[user] else NOBODY
  }

  function SetHolder(t: ReserveToken, user: Address, h: Holder): ReserveToken
  {
    t.(holders := t.holders[user := h])
  }

  // ----- distributor -----

  /** Advance the index, at most to the end of the stream (update_emission_data_with_config). */
  function UpdateData(t: ReserveToken, now: nat): Outcome<ReserveToken>
    requires t.config.Some?
  {
    var config := t.config.value;
    if t.data.None? then Abort(ArithmeticError)
    else
      var data := t.data.value;
      if data.lastTime >= config.expiration || now == data.lastTime || config.eps == 0 || t.supply == 0 then Ok(t)
      else
        var timestamp := if now > config.expiration then config.expiration else now;
        if timestamp - data.lastTime > 0 && config.eps > 0 then
          var additional := DivFloor((timestamp - data.lastTime) * config.eps * t.scalar, t.supply).value;
          Ok(t.(data := Some(ReserveEmissionsData(additional + data.index, timestamp))))
        else Ok(t.(data := Some(ReserveEmissionsData(data.index, timestamp))))
  }

  /** Bring a holder's record to an index. An index behind the record is read as nothing accrued. */
  function Settle(h: Holder, scalar: int, index: int, claim: bool): (Holder, int)
    requires scalar > 0
  {
    match h.record
    case Some(record) =>
      if record.index != index || claim then
        if index - record.index >= 0 then
          WithRecord(h, index, record.accrued + Floor(h.balance * (index - record.index), scalar), claim)
        else WithRecord(h, index, 0, claim)
      else (h, 0)
    case None =>
      if h.balance == 0 then WithRecord(h, index, 0, claim)
      else WithRecord(h, index, Floor(h.balance * index, scalar), claim)
  }

  function WithRecord(h: Holder, index: int, accrued: int, claim: bool): (Holder, int)
  {
    if claim then (h.(record := Some(UserEmissionData(index, 0))), accrued)
    else (h.(record := Some(UserEmissionData(index, accrued))), 0)
  }

  /** update_emissions, or claim_emissions with `claim`: nothing happens without a stream. */
  function Update(t: ReserveToken, now: nat, user: Address, claim: bool): Outcome<(ReserveToken, int)>
  {
    if t.config.None? then Ok((t, 0))
    else
      var q :- UpdateData(t, now);
      if q.data.None? then Abort(ArithmeticError)
      else
        var (h, paid) := Settle(HolderOf(q, user), t.scalar, q.data.value.index, claim);
        Ok((SetHolder(q, user, h), paid))
  }

  /** A balance change, as every method of a pool user makes it: emissions first, then balance and supply. */
  function Changed(t: ReserveToken, now: nat, user: Address, delta: int): Outcome<ReserveToken>
  {
    var (q, _) :- Update(t, now, user, false);
    var h := HolderOf(q, user);
    Ok(SetHolder(q, user, h.(balance := h.balance + delta)).(supply := q.supply + delta))
  }

  function ChangeBalance(t: ReserveToken, now: nat, user: Address, delta: int): Outcome<ReserveToken>
  {
    if HolderOf(t, user).balance + delta < 0 then Abort(NegativeAmount) else Changed(t, now, user, delta)
  }

  // ----- manager -----

  /** Start a seven-day stream of new tokens plus what the old one has not emitted
      (update_reserve_emission_config). */
  function Restream(t: ReserveToken, now: nat, newTokens: int): Outcome<ReserveToken>
  {
    if t.config.Some? then
      var config := t.config.value;
      var q :- UpdateData(t, now);
      if q.data.None? then Abort(ArithmeticError)
      else
        StartStream(q.(data := Some(q.data.value.(lastTime := now))), now,
          newTokens + if config.expiration > now then config.eps * (config.expiration - now) else 0)
    else StartStream(t.(data := Some(ReserveEmissionsData(0, now))), now, newTokens)
  }

  function StartStream(t: ReserveToken, now: nat, tokens: int): Outcome<ReserveToken>
  {
    var eps := if tokens >= 0 then Floor(tokens, B.EMISSION_WINDOW) else Ceil(tokens, B.EMISSION_WINDOW);
    if eps < 0 then Abort(ArithmeticError)
    else Ok(t.(config := Some(ReserveEmissionsConfig(now + B.EMISSION_WINDOW, eps))))
  }

  // ----- what a reserve token promises -----

  function Index(t: ReserveToken): int { if t.data.Some? then t.data.value.index else 0 }
  function UserIndex(h: Holder): int { if h.record.Some? then h.record.value.index else 0 }
  function Accrued(h: Holder): int { if h.record.Some? then h.record.value.accrued else 0 }

  function Remaining(t: ReserveToken): int
  {
    if t.config.None? || t.data.None? then 0
    else B.StreamLeft(t.config.value.eps, t.config.value.expiration, t.data.value.lastTime)
  }

  /** The scalar times what a holder is owed: accrued plus unsettled index gain. */
  function Owed(h: Holder, scalar: int, index: int): int
  {
    scalar * Accrued(h) + h.balance * (index - UserIndex(h))
  }

  function BalancesBy(m: map<Address, Holder>): map<Address, int> { map u | u in m :: m[u].balance }
  function OwedBy(m: map<Address, Holder>, scalar: int, index: int): map<Address, int>
  {
    map u | u in m :: Owed(m[u], scalar, index)
  }

  ghost function BalanceTotal(m: map<Address, Holder>): int { Total(BalancesBy(m)) }
  ghost function OwedTotal(m: map<Address, Holder>, scalar: int, index: int): int { Total(OwedBy(m, scalar, index)) }

  /** The scalar times everything the token's emissions may still pay out. */
  ghost function Obligation(t: ReserveToken): int
  {
    t.scalar * Remaining(t) + OwedTotal(t.holders, t.scalar, Index(t))
  }

  /** The scalar times what one emission update may lose to rounding: less than a unit of the index for every token
      held, and less than a unit for the holder. */
  function Rounding(t: ReserveToken): int
  {
    t.supply + t.scalar
  }

  /** What a stream has emitted while nobody held the token: nobody's, once a new stream starts. */
  function Idle(t: ReserveToken, now: nat): int
  {
    if t.config.None? || t.data.None? || t.supply != 0 then 0
    else Remaining(t) - B.StreamLeft(t.config.value.eps, t.config.value.expiration, now)
  }

  /** The scalar times what starting a new stream may lose: rounding of the index, less than a unit for every second
      of the new stream, and what nobody was there to get. */
  function RestartLoss(t: ReserveToken, now: nat): int
  {
    t.supply + t.scalar * (B.EMISSION_WINDOW + Idle(t, now))
  }

  ghost predicate HolderOk(h: Holder, index: int)
  {
    h.balance >= 0 && 0 <= UserIndex(h) <= index && Accrued(h) >= 0
  }

  /** Balances add up to the supply; no record is ahead of the index, nor the index ahead of the clock. */
  ghost predicate TokenOk(t: ReserveToken, now: nat)
  {
    && t.supply == BalanceTotal(t.holders)
    && (forall u :: u in t.holders ==> HolderOk(t.holders[u], Index(t)))
    && (t.config.Some? <==> t.data.Some?)
    && (t.config.Some? ==> t.config.value.eps >= 0 && t.data.value.lastTime <= now && t.data.value.index >= 0)
    && (t.config.None? ==> forall u :: u in t.holders ==> t.holders[u].record.None?)
  }

  // ----- sums over holders -----

  lemma BalancesAfterSet(m: map<Address, Holder>, user: Address, h: Holder)
    ensures BalanceTotal(m[user := h]) == BalanceTotal(m) - (if user in m then m[user] else NOBODY).balance + h.balance
  {
    assert BalancesBy(m[user := h]) == BalancesBy(m)[user := h.balance];
    hide Total;
    TotalUpdate(BalancesBy(m), user, h.balance);
  }

  lemma OwedAfterSet(m: map<Address, Holder>, scalar: int, index: int, user: Address, h: Holder)
    ensures OwedTotal(m[user := h], scalar, index)
      == OwedTotal(m, scalar, index) - Owed(if user in m then m[user] else NOBODY, scalar, index) + Owed(h, scalar, index)
  {
    assert Owed(NOBODY, scalar, index) == 0;
    hide Owed;
    assert OwedBy(m[user := h], scalar, index) == OwedBy(m, scalar, index)[user := Owed(h, scalar, index)];
    hide Total;
    TotalUpdate(OwedBy(m, scalar, index), user, Owed(h, scalar, index));
  }

  lemma OwedAtNewIndex(m: map<Address, Holder>, scalar: int, from: int, to: int)
    ensures OwedTotal(m, scalar, to) == OwedTotal(m, scalar, from) + (to - from) * BalanceTotal(m)
  {
    forall u | u in m
      ensures OwedBy(m, scalar, to)[u] == OwedBy(m, scalar, from)[u] + (to - from) * BalancesBy(m)[u]
    {
      MulDistributes(m[u].balance, from - UserIndex(m[u]), to - from);
    }
    TotalLinear(OwedBy(m, scalar, from), OwedBy(m, scalar, to), BalancesBy(m), to - from);
  }

  /** A well-formed token has a supply that is not negative and covers each balance, and owes nothing negative. */
  lemma TokenSums(t: ReserveToken, now: nat)
    requires TokenOk(t, now)
    ensures t.supply >= 0 && Obligation(t) >= 0 && Remaining(t) >= 0
    ensures forall u :: HolderOk(HolderOf(t, u), Index(t))
  {
    hide Total;
    forall u | u in t.holders
      ensures BalancesBy(t.holders)[u] >= 0 && OwedBy(t.holders, t.scalar, Index(t))[u] >= 0
    {
      assert HolderOk(t.holders[u], Index(t));
      MulMono(0, t.scalar, Accrued(t.holders[u]));
      MulMono(0, t.holders[u].balance, Index(t) - UserIndex(t.holders[u]));
    }
    TotalNonNeg(BalancesBy(t.holders));
    TotalNonNeg(OwedBy(t.holders, t.scalar, Index(t)));
    if t.config.Some? {
      MulMono(0, t.config.value.eps, Max(0, t.config.value.expiration - t.data.value.lastTime));
    }
    MulMono(0, Remaining(t), t.scalar);
  }

  // ----- the index -----

  /** The index takes out of the stream what the stream loses, short by less than one unit for every token held. */
  lemma StepIsFunded(scalar: int, eps: int, last: int, time: int, exp: int, supply: int)
    requires scalar > 0 && eps >= 0 && last < time <= exp && supply > 0
    ensures var step := Floor((time - last) * eps * scalar, supply);
      var after := scalar * B.StreamLeft(eps, exp, time) + step * supply;
      step >= 0 && after <= scalar * B.StreamLeft(eps, exp, last) < after + supply
  {
    var x := (time - last) * eps;
    MulMono(0, time - last, eps);
    MulMono(0, x, scalar);
    FloorNonNeg(x * scalar, supply);
    FloorBounds(x * scalar, supply);
    MulDistributes(eps, exp - time, time - last);
    MulDistributes(scalar, eps * (exp - time), x);
    hide Floor;
  }

  lemma UpdateDataKeeps(t: ReserveToken, now: nat)
    requires TokenOk(t, now) && t.config.Some?
    ensures UpdateData(t, now).Ok?
    ensures var q := UpdateData(t, now).value;
      && TokenOk(q, now) && q == t.(data := q.data) && Index(q) >= Index(t)
      && Obligation(q) <= Obligation(t) <= Obligation(q) + t.supply
  {
    hide B.StreamLeft;
    hide Floor;
    hide BalanceTotal;
    TokenSums(t, now);
    var (config, data) := (t.config.value, t.data.value);
    if !(data.lastTime >= config.expiration || now == data.lastTime || config.eps == 0 || t.supply == 0) {
      var time := Min(now, config.expiration);
      StepIsFunded(t.scalar, config.eps, data.lastTime, time, config.expiration, t.supply);
      var step := Floor((time - data.lastTime) * config.eps * t.scalar, t.supply);
      OwedAtNewIndex(t.holders, t.scalar, data.index, data.index + step);
      hide OwedTotal;
    }
  }

  /** While the token is held, an update puts everything emitted by now into the index; while it is not, it waits. */
  lemma {:induction false} IndexIsCurrent(t: ReserveToken, now: nat)
    requires TokenOk(t, now) && t.config.Some?
    ensures UpdateData(t, now).Ok?
    ensures var q := UpdateData(t, now).value;
      if t.supply == 0 then q == t
      else q.data.Some? && Remaining(q) == B.StreamLeft(t.config.value.eps, t.config.value.expiration, now)
  {
    hide BalanceTotal;
    hide HolderOk;
    hide DivFloor;
    TokenSums(t, now);
  }

  /** With a clock that never runs backwards, no index is ever behind a holder's record, so the branch that
      forgets what was accrued is never taken, and time never runs backwards in the index update. */
  lemma NeverBackwards(t: ReserveToken, now: nat, user: Address)
    requires TokenOk(t, now) && t.config.Some?
    ensures var q := UpdateData(t, now).value;
      && Index(q) - UserIndex(HolderOf(t, user)) >= 0
      && (q != t ==> t.data.value.lastTime < q.data.value.lastTime <= now)
  {
    UpdateDataKeeps(t, now);
    TokenSums(t, now);
    assert HolderOk(HolderOf(t, user), Index(t));
    hide Floor;
    hide Obligation;
    hide BalanceTotal;
  }

  /** What settling a holder at an index comes to, in whole units. */
  function Due(h: Holder, scalar: int, index: int): int
    requires scalar > 0
  {
    Accrued(h) + Floor(h.balance * (index - UserIndex(h)), scalar)
  }

  /** What settling writes and pays. */
  lemma SettleIs(h: Holder, scalar: int, index: int, claim: bool)
    requires scalar > 0 && HolderOk(h, index)
    ensures var (g, paid) := Settle(h, scalar, index, claim);
      && g.balance == h.balance && g.record.Some? && UserIndex(g) == index
      && (if claim then Accrued(g) == 0 else paid == 0)
      && paid + Accrued(g) == Due(h, scalar, index)
  {
    FloorExact(0, scalar);
    hide Floor;
  }

  lemma DueIsFloor(h: Holder, scalar: int, index: int)
    requires scalar > 0 && HolderOk(h, index)
    ensures Due(h, scalar, index) >= 0
    ensures scalar * Due(h, scalar, index) <= Owed(h, scalar, index) < scalar * Due(h, scalar, index) + scalar
  {
    var gain := h.balance * (index - UserIndex(h));
    MulMono(0, h.balance, index - UserIndex(h));
    FloorNonNeg(gain, scalar);
    FloorBounds(gain, scalar);
    hide Floor;
    MulDistributes(scalar, Accrued(h), Floor(gain, scalar));
  }

  /** Settling pays or records what had accrued plus the floor of the index gain, less than a unit short of what was
      owed. */
  lemma {:induction false} SettleKeeps(h: Holder, scalar: int, index: int, claim: bool)
    requires scalar > 0 && HolderOk(h, index)
    ensures var (g, paid) := Settle(h, scalar, index, claim);
      && HolderOk(g, index) && g.balance == h.balance && g.record.Some? && UserIndex(g) == index
      && (if claim then paid >= 0 && Accrued(g) == 0 else paid == 0)
      && paid + Accrued(g) == Due(h, scalar, index)
      && Owed(g, scalar, index) + scalar * paid <= Owed(h, scalar, index) < Owed(g, scalar, index) + scalar * paid + scalar
  {
    SettleIs(h, scalar, index, claim);
    DueIsFloor(h, scalar, index);
    hide Settle;
    hide Due;
    var (g, paid) := Settle(h, scalar, index, claim);
    MulDistributes(scalar, Accrued(g), paid);
    assert g.balance * (index - UserIndex(g)) == 0;
  }

  /** Writing one holder of a token with a stream. */
  lemma SetHolderKeeps(t: ReserveToken, now: nat, user: Address, h: Holder, supply: int)
    requires TokenOk(t, now) && t.config.Some? && HolderOk(h, Index(t))
    requires supply == t.supply - HolderOf(t, user).balance + h.balance
    ensures TokenOk(SetHolder(t, user, h).(supply := supply), now)
    ensures Obligation(SetHolder(t, user, h).(supply := supply))
      == Obligation(t) - Owed(HolderOf(t, user), t.scalar, Index(t)) + Owed(h, t.scalar, Index(t))
  {
    BalancesAfterSet(t.holders, user, h);
    OwedAfterSet(t.holders, t.scalar, Index(t), user, h);
    hide BalanceTotal;
    hide OwedTotal;
    hide Owed;
    hide B.StreamLeft;
  }

  lemma UnstreamedHolder(t: ReserveToken, now: nat, user: Address)
    requires TokenOk(t, now) && t.config.None?
    ensures Update(t, now, user, true) == Ok((t, 0)) && Update(t, now, user, false) == Ok((t, 0))
    ensures UserIndex(HolderOf(t, user)) == 0 == Index(t) && Accrued(HolderOf(t, user)) == 0
  {
    hide BalanceTotal;
  }

  /** Both updates together: what is due at the new index is paid or recorded, and the token owes that much less, up to
      rounding. */
  lemma UpdateKeeps(t: ReserveToken, now: nat, user: Address, claim: bool)
    requires TokenOk(t, now)
    ensures Update(t, now, user, claim).Ok?
    ensures var (q, paid) := Update(t, now, user, claim).value;
      && TokenOk(q, now) && q == t.(holders := q.holders, data := q.data)
      && HolderOf(q, user).balance == HolderOf(t, user).balance
      && (forall u :: u != user ==> HolderOf(q, u) == HolderOf(t, u))
      && UserIndex(HolderOf(q, user)) == Index(q)
      && (if claim then paid >= 0 && Accrued(HolderOf(q, user)) == 0 else paid == 0)
      && paid + Accrued(HolderOf(q, user)) == (if t.config.Some? then Due(HolderOf(t, user), t.scalar, Index(q)) else 0)
      && Obligation(q) + t.scalar * paid <= Obligation(t) <= Obligation(q) + t.scalar * paid + Rounding(t)
  {
    TokenSums(t, now);
    if t.config.None? {
      UnstreamedHolder(t, now, user);
      return;
    }
    UpdateDataKeeps(t, now);
    var q := UpdateData(t, now).value;
    hide UpdateData;
    hide Obligation;
    hide Due;
    TokenSums(q, now);
    var h := HolderOf(q, user);
    assert HolderOk(h, Index(q));
    SettleKeeps(h, t.scalar, Index(q), claim);
    var g := Settle(h, t.scalar, Index(q), claim).0;
    hide Settle;
    hide HolderOk;
    hide Owed;
    hide BalanceTotal;
    SetHolderKeeps(q, now, user, g, q.supply);
  }

  /** At the index of the record a balance change gains nothing. */
  lemma SettledOwes(h: Holder, delta: int, scalar: int, index: int)
    requires UserIndex(h) == index
    ensures Owed(h.(balance := h.balance + delta), scalar, index) == Owed(h, scalar, index)
  {}

  lemma UpdatedHolderOk(t: ReserveToken, now: nat, user: Address)
    requires TokenOk(t, now)
    ensures HolderOk(HolderOf(t, user), Index(t)) && (t.config.None? ==> HolderOf(t, user).record.None?)
  {
    hide BalanceTotal;
  }

  /** A balance change with its emission update never raises what the emissions may pay out, nor lowers it by more than
      rounding. */
  lemma ChangeBalanceKeeps(t: ReserveToken, now: nat, user: Address, delta: int)
    requires TokenOk(t, now)
    ensures ChangeBalance(t, now, user, delta).Ok? <==> HolderOf(t, user).balance + delta >= 0
    ensures ChangeBalance(t, now, user, delta).Ok? ==>
      var q := ChangeBalance(t, now, user, delta).value;
      && TokenOk(q, now) && q.scalar == t.scalar && q.supply == t.supply + delta
      && HolderOf(q, user).balance == HolderOf(t, user).balance + delta
      && Obligation(q) <= Obligation(t) <= Obligation(q) + Rounding(t)
  {
    hide Update;
    hide Due;
    hide Rounding;
    hide Obligation;
    hide Owed;
    hide BalanceTotal;
    hide TokenOk;
    UpdateKeeps(t, now, user, false);
    var q := Update(t, now, user, false).value.0;
    UpdatedHolderOk(q, now, user);
    var h := HolderOf(q, user);
    if h.balance + delta < 0 {
      return;
    }
    var g := h.(balance := h.balance + delta);
    if t.config.None? {
      UnstreamedBalance(q, now, user, g, q.supply + delta);
      return;
    }
    SetHolderKeeps(q, now, user, g, q.supply + delta);
    SettledOwes(h, delta, t.scalar, Index(q));
  }

  /** Without a stream nobody is owed anything. */
  lemma UnstreamedBalance(t: ReserveToken, now: nat, user: Address, h: Holder, supply: int)
    requires TokenOk(t, now) && t.config.None? && h.balance >= 0 && h.record.None?
    requires supply == t.supply - HolderOf(t, user).balance + h.balance
    ensures TokenOk(SetHolder(t, user, h).(supply := supply), now)
    ensures Obligation(SetHolder(t, user, h).(supply := supply)) == Obligation(t)
  {
    BalancesAfterSet(t.holders, user, h);
    OwedAfterSet(t.holders, t.scalar, 0, user, h);
    hide BalanceTotal;
    hide OwedTotal;
  }

  // ----- streams -----

  lemma StreamIsFunded(tokens: int, now: nat)
    requires tokens >= 0
    ensures var eps := Floor(tokens, B.EMISSION_WINDOW);
      && eps >= 0
      && B.StreamLeft(eps, now + B.EMISSION_WINDOW, now) <= tokens <= B.StreamLeft(eps, now + B.EMISSION_WINDOW, now) + B.EMISSION_WINDOW
  {
    FloorNonNeg(tokens, B.EMISSION_WINDOW);
    FloorBounds(tokens, B.EMISSION_WINDOW);
    hide Floor;
  }

  lemma StartStreamKeeps(t: ReserveToken, now: nat, tokens: int)
    requires t.data.Some? && t.data.value.lastTime == now && t.data.value.index >= 0
    requires t.supply == BalanceTotal(t.holders) && tokens >= 0
    requires forall u :: u in t.holders ==> HolderOk(t.holders[u], Index(t))
    ensures StartStream(t, now, tokens).Ok?
    ensures var q := StartStream(t, now, tokens).value;
      var most := t.scalar * tokens + OwedTotal(t.holders, t.scalar, Index(t));
      TokenOk(q, now) && q.scalar == t.scalar && q.supply == t.supply && Obligation(q) <= most <= Obligation(q) + t.scalar * B.EMISSION_WINDOW
  {
    StreamIsFunded(tokens, now);
    hide B.StreamLeft;
    hide Floor;
    hide Ceil;
    hide BalanceTotal;
    hide OwedTotal;
    var q := StartStream(t, now, tokens).value;
    MulMono(Remaining(q), tokens, t.scalar);
    MulMono(tokens, Remaining(q) + B.EMISSION_WINDOW, t.scalar);
    MulDistributes(t.scalar, Remaining(q), B.EMISSION_WINDOW);
  }

  /** Moving the last update to now at most forgets part of the running stream; what is left of it is what
      the next stream carries over. */
  lemma CarriedOver(eps: int, exp: int, last: int, now: int)
    requires eps >= 0 && last <= now
    ensures var left := if exp > now then eps * (exp - now) else 0;
      0 <= left <= B.StreamLeft(eps, exp, last)
  {
    MulMono(0, Max(0, exp - now), eps);
    MulMono(Max(0, exp - now), Max(0, exp - last), eps);
  }

  lemma StreamLeftIs(eps: int, exp: int, now: int)
    ensures B.StreamLeft(eps, exp, now) == if exp > now then eps * (exp - now) else 0
  {}

  lemma RestartSums(scalar: int, more: int, left: int, idle: int, window: int, owedBefore: int, owedAfter: int, remaining: int,
                    supply: int, obligation: int)
    requires scalar > 0 && scalar * remaining + owedAfter <= owedBefore <= scalar * remaining + owedAfter + supply
    requires 0 <= remaining - left <= idle
    requires obligation <= scalar * (more + left) + owedAfter <= obligation + scalar * window
    ensures obligation <= owedBefore + scalar * more <= obligation + (supply + scalar * (window + idle))
  {
    MulMono(left, remaining, scalar);
    MulMono(remaining, left + idle, scalar);
    MulDistributes(scalar, more, left);
    MulDistributes(scalar, window, idle);
    MulDistributes(scalar, left, idle);
  }

  lemma IdleNonNeg(t: ReserveToken, now: nat)
    requires TokenOk(t, now)
    ensures Idle(t, now) >= 0 && RestartLoss(t, now) >= t.scalar * B.EMISSION_WINDOW
  {
    TokenSums(t, now);
    if t.config.Some? {
      CarriedOver(t.config.value.eps, t.config.value.expiration, t.data.value.lastTime, now);
      StreamLeftIs(t.config.value.eps, t.config.value.expiration, now);
    }
    hide BalanceTotal;
    hide Obligation;
    hide B.StreamLeft;
    MulMono(B.EMISSION_WINDOW, B.EMISSION_WINDOW + Idle(t, now), t.scalar);
  }

  /** What a running stream still holds once its index is current. */
  function CarriedBy(t: ReserveToken, now: nat): int
    requires t.config.Some?
  {
    if t.config.value.expiration > now then t.config.value.eps * (t.config.value.expiration - now) else 0
  }

  lemma RestreamParts(t: ReserveToken, now: nat, newTokens: int)
    requires TokenOk(t, now) && t.config.Some?
    ensures UpdateData(t, now).Ok?
    ensures var u := UpdateData(t, now).value;
      && TokenOk(u, now) && u.data.Some? && u.scalar == t.scalar && u.supply == t.supply
      && Obligation(u) <= Obligation(t) <= Obligation(u) + t.supply
      && CarriedBy(t, now) >= 0 && 0 <= Remaining(u) - CarriedBy(t, now) <= Idle(t, now)
      && Restream(t, now, newTokens) == StartStream(u.(data := Some(u.data.value.(lastTime := now))), now, newTokens + CarriedBy(t, now))
  {
    hide StartStream;
    hide B.StreamLeft;
    hide BalanceTotal;
    hide OwedTotal;
    UpdateDataKeeps(t, now);
    IndexIsCurrent(t, now);
    var u := UpdateData(t, now).value;
    hide UpdateData;
    hide Obligation;
    var config := t.config.value;
    StreamLeftIs(config.eps, config.expiration, now);
    CarriedOver(config.eps, config.expiration, u.data.value.lastTime, now);
  }

  lemma RestreamRunning(t: ReserveToken, now: nat, newTokens: int)
    requires TokenOk(t, now) && t.config.Some? && newTokens >= 0
    ensures Restream(t, now, newTokens).Ok?
    ensures var q := Restream(t, now, newTokens).value;
      && TokenOk(q, now) && q.scalar == t.scalar && q.supply == t.supply
      && Obligation(q) <= Obligation(t) + t.scalar * newTokens <= Obligation(q) + RestartLoss(t, now)
  {
    RestreamParts(t, now, newTokens);
    hide Restream;
    hide UpdateData;
    hide StartStream;
    hide BalanceTotal;
    hide OwedTotal;
    hide Idle;
    var u := UpdateData(t, now).value;
    var left := CarriedBy(t, now);
    hide CarriedBy;
    var v := u.(data := Some(u.data.value.(lastTime := now)));
    StartStreamKeeps(v, now, newTokens + left);
    assert Obligation(u) == t.scalar * Remaining(u) + OwedTotal(u.holders, t.scalar, Index(u));
    assert OwedTotal(v.holders, v.scalar, Index(v)) == OwedTotal(u.holders, t.scalar, Index(u));
    hide Obligation;
    hide Remaining;
    RestartSums(t.scalar, newTokens, left, Idle(t, now), B.EMISSION_WINDOW, Obligation(t), OwedTotal(u.holders, t.scalar, Index(u)),
      Remaining(u), t.supply, Obligation(Restream(t, now, newTokens).value));
  }

  /** A new stream adds the new tokens to what may be paid out, less at most what restarting loses. */
  lemma {:induction false} RestreamKeeps(t: ReserveToken, now: nat, newTokens: int)
    requires TokenOk(t, now) && newTokens >= 0
    ensures Restream(t, now, newTokens).Ok?
    ensures var q := Restream(t, now, newTokens).value;
      && TokenOk(q, now) && q.scalar == t.scalar && q.supply == t.supply
      && Obligation(q) <= Obligation(t) + t.scalar * newTokens <= Obligation(q) + RestartLoss(t, now)
  {
    if t.config.Some? {
      RestreamRunning(t, now, newTokens);
      return;
    }
    hide StartStream;
    hide B.StreamLeft;
    hide BalanceTotal;
    hide OwedTotal;
    IdleNonNeg(t, now);
    hide RestartLoss;
    StartStreamKeeps(t.(data := Some(ReserveEmissionsData(0, now))), now, newTokens);
  }
}
