/** The lending pool's emission storage as it is read and overwritten step by step
    (pool/src/emissions/distributor.rs, pool/src/emissions/manager.rs). Each method is proved against its
    transition; an aborted entry point leaves the storage as it was. */
module PoolEmissionContract {
  import opened Outcomes
  import opened FixedPoint
  import opened Totals
  import opened PoolEmissions
  import opened PoolEmissionRuns

  /** Once one token aborts a claim, the claim aborts. */
  lemma {:induction false} ClaimStopsAt(p: EmissionPool, user: Address, ids: seq<nat>, k: nat, n: nat)
    requires k <= n <= |ids| && ClaimAll(p, user, ids, k).Abort?
    ensures ClaimAll(p, user, ids, n) == Abort(ClaimAll(p, user, ids, k).error)
    decreases n
  {
    hide ClaimToken;
    if k < n { ClaimStopsAt(p, user, ids, k, n - 1); }
  }

  /** Once one entry aborts the share list, the list aborts. */
  lemma {:induction false} SharesStopAt(metadata: seq<Metadata>, reserves: nat, k: nat, n: nat)
    requires k <= n <= |metadata| && SharesOf(metadata, reserves, k).Abort?
    ensures SharesOf(metadata, reserves, n) == Abort(SharesOf(metadata, reserves, k).error)
    decreases n
  {
    if k < n { SharesStopAt(metadata, reserves, k, n - 1); }
  }

  class EmissionStore {
    var now: nat
    var reserves: nat
    var tokens: map<nat, ReserveToken>
    var shares: map<nat, int>

    /** The stored state; nothing is counted here. */
    function Value(): EmissionPool
      reads this
    {
      EmissionPool(now, reserves, tokens, shares, 0, map[], map[])
    }

    constructor (now: nat)
      ensures IsGenesis(Value()) && this.now == now
    {
      this.now, reserves, tokens, shares := now, 0, map[], map[];
    }

    method UpdateEmissionDataWithConfig(id: nat, config: ReserveEmissionsConfig) returns (r: Outcome<ReserveEmissionsData>)
      requires id in tokens && tokens[id].config == Some(config)
      modifies this`tokens
      ensures var spec := UpdateData(old(tokens)[id], now);
        match r
        case Ok(data) => spec.Ok? && tokens == old(tokens)[id := spec.value] && Some(data) == spec.value.data
        case Abort(e) => spec == Abort(e) && tokens == old(tokens)
    {
      var t := tokens[id];
      if t.data.None? {
        return Abort(ArithmeticError);
      }
      var data := t.data.value;
      if data.lastTime >= config.expiration || now == data.lastTime || config.eps == 0 || t.supply == 0 {
        assert tokens == tokens[id := t];
        return Ok(data);
      }
      var timestamp := now;
      if now > config.expiration {
        timestamp := config.expiration;
      }
      var additional := 0;
      if timestamp - data.lastTime > 0 && config.eps > 0 {
        additional := DivFloor((timestamp - data.lastTime) * config.eps * t.scalar, t.supply).value;
      }
      var newData := ReserveEmissionsData(additional + data.index, timestamp);
      tokens := tokens[id := t.(data := Some(newData))];
      return Ok(newData);
    }

    method SetUserEmissions(id: nat, user: Address, index: int, accrued: int, claim: bool) returns (paid: int)
      requires id in tokens
      modifies this`tokens
      ensures var (h, amount) := WithRecord(HolderOf(old(tokens)[id], user), index, accrued, claim);
        tokens == old(tokens)[id := SetHolder(old(tokens)[id], user, h)] && paid == amount
    {
      var h := HolderOf(tokens[id], user);
      if claim {
        tokens := tokens[id := SetHolder(tokens[id], user, h.(record := Some(UserEmissionData(index, 0))))];
        return accrued;
      }
      tokens := tokens[id := SetHolder(tokens[id], user, h.(record := Some(UserEmissionData(index, accrued))))];
      return 0;
    }

    method UpdateUserEmissions(id: nat, user: Address, data: ReserveEmissionsData, claim: bool) returns (paid: int)
      requires id in tokens
      modifies this`tokens
      ensures var (h, amount) := Settle(HolderOf(old(tokens)[id], user), old(tokens)[id].scalar, data.index, claim);
        tokens == old(tokens)[id := SetHolder(old(tokens)[id], user, h)] && paid == amount
    {
      var t := tokens[id];
      var h := HolderOf(t, user);
      if h.record.Some? {
        var record := h.record.value;
        if record.index != data.index || claim {
          var accrual := record.accrued;
          if data.index - record.index >= 0 {
            if h.balance != 0 {
              accrual := accrual + Floor(h.balance * (data.index - record.index), t.scalar);
            } else {
              FloorExact(0, t.scalar);
            }
          } else {
            accrual := 0;
          }
          paid := SetUserEmissions(id, user, data.index, accrual, claim);
          return;
        }
        assert t.holders[user := h] == t.holders;
        assert SetHolder(t, user, h) == t;
        assert tokens[id := t] == tokens;
        return 0;
      }
      if h.balance == 0 {
        paid := SetUserEmissions(id, user, data.index, 0, claim);
      } else {
        paid := SetUserEmissions(id, user, data.index, Floor(h.balance * data.index, t.scalar), claim);
      }
    }

    /** update_emissions, and claim_emissions with `claim`. */
    method UpdateEmissions(id: nat, user: Address, claim: bool) returns (r: Outcome<int>)
      requires id in tokens
      modifies this`tokens
      ensures var spec := Update(old(tokens)[id], now, user, claim);
        match r
        case Ok(paid) => spec.Ok? && tokens == old(tokens)[id := spec.value.0] && paid == spec.value.1
        case Abort(e) => spec == Abort(e) && tokens == old(tokens)
    {
      hide Settle;
      hide DivFloor;
      if tokens[id].config.None? {
        assert tokens == tokens[id := tokens[id]];
        return Ok(0);
      }
      var data := UpdateEmissionDataWithConfig(id, tokens[id].config.value);
      if data.Abort? {
        return Abort(data.error);
      }
      var paid := UpdateUserEmissions(id, user, data.value, claim);
      return Ok(paid);
    }

    /** The balance and the supply that updates are passed. */
    method SetBalance(id: nat, user: Address, balance: int, supply: int)
      requires id in tokens
      modifies this`tokens
      ensures tokens == old(tokens)[id := SetHolder(old(tokens)[id], user, HolderOf(old(tokens)[id], user).(balance := balance)).(supply := supply)]
    {
      var t := tokens[id];
      tokens := tokens[id := SetHolder(t, user, HolderOf(t, user).(balance := balance)).(supply := supply)];
    }

    /** The claim loop; the sum is what the backstop is asked to pay. */
    method ExecuteClaim(user: Address, ids: seq<nat>) returns (r: Outcome<int>)
      modifies this`tokens
      ensures var spec := ClaimAll(old(Value()), user, ids, |ids|);
        match r
        case Ok(total) => spec.Ok? && tokens == spec.value.0.tokens && total == spec.value.1
        case Abort(e) => spec == Abort(e) && tokens == old(tokens)
    {
      hide Update;
      var before := tokens;
      ghost var start := Value();
      ghost var claimed: map<nat, int> := map[];
      var toClaim := 0;
      var k := 0;
      while k < |ids|
        invariant 0 <= k <= |ids|
        invariant now == start.now && reserves == start.reserves && shares == start.shares
        invariant ClaimAll(start, user, ids, k) == Ok((start.(tokens := tokens, claimed := claimed), toClaim))
      {
        ghost var here := start.(tokens := tokens, claimed := claimed);
        var id := ids[k];
        if id / 2 >= reserves || id !in tokens {
          assert ClaimToken(here, user, id).Abort?;
          ClaimStopsAt(start, user, ids, k + 1, |ids|);
          tokens := before;
          return Abort(BadRequest);
        }
        var now1 := UpdateEmissions(id, user, true);
        if now1.Abort? {
          assert ClaimToken(here, user, id).Abort?;
          ClaimStopsAt(start, user, ids, k + 1, |ids|);
          tokens := before;
          return Abort(now1.error);
        }
        claimed := claimed[id := Amount(claimed, id) + now1.value];
        toClaim := toClaim + now1.value;
        k := k + 1;
      }
      return Ok(toClaim);
    }

    method SetPoolEmissions(metadata: seq<Metadata>) returns (r: Outcome<()>)
      modifies this`shares
      ensures var spec := PoolEmissionRuns.SetPoolEmissions(old(Value()), metadata);
        match r
        case Ok(_) => spec == Ok(Value())
        case Abort(e) => spec == Abort(e) && shares == old(shares)
    {
      var poolEmissions: map<nat, int>, totalShare := map[], 0;
      var k := 0;
      while k < |metadata|
        invariant 0 <= k <= |metadata|
        invariant SharesOf(metadata, reserves, k) == Ok((poolEmissions, totalShare))
      {
        var m := metadata[k];
        if m.resType > 1 || m.resIndex >= reserves {
          SharesStopAt(metadata, reserves, k + 1, |metadata|);
          return Abort(BadRequest);
        }
        poolEmissions := poolEmissions[m.resIndex * 2 + m.resType := m.share];
        totalShare := totalShare + m.share;
        k := k + 1;
      }
      if totalShare > SCALAR_7 {
        return Abort(BadRequest);
      }
      shares := poolEmissions;
      return Ok(());
    }

    method UpdateReserveEmissionConfig(id: nat, newTokens: int) returns (r: Outcome<()>)
      requires id in tokens
      modifies this`tokens
      ensures var spec := Restream(old(tokens)[id], now, newTokens);
        match r
        case Ok(_) => spec.Ok? && tokens == old(tokens)[id := spec.value]
        case Abort(e) => spec == Abort(e)
    {
      hide UpdateData;
      hide Floor;
      hide Ceil;
      var left := newTokens;
      var config := tokens[id].config;
      if config.Some? {
        var data := UpdateEmissionDataWithConfig(id, config.value);
        if data.Abort? {
          return Abort(data.error);
        }
        if data.value.lastTime != now {
          tokens := tokens[id := tokens[id].(data := Some(data.value.(lastTime := now)))];
        }
        if config.value.expiration > now {
          left := left + config.value.eps * (config.value.expiration - now);
        }
      } else {
        tokens := tokens[id := tokens[id].(data := Some(ReserveEmissionsData(0, now)))];
      }
      var eps := if left >= 0 then Floor(left, B.EMISSION_WINDOW) else Ceil(left, B.EMISSION_WINDOW);
      if eps < 0 {
        return Abort(ArithmeticError);
      }
      tokens := tokens[id := tokens[id].(config := Some(ReserveEmissionsConfig(now + B.EMISSION_WINDOW, eps)))];
      return Ok(());
    }

    /** The loop over the shares; which failing token aborts it is not kept. */
    method DoGulpEmissions(newEmissions: int) returns (r: Outcome<()>)
      modifies this`tokens
      ensures var spec := Gulp(old(Value()), newEmissions);
        match r
        case Ok(_) => spec.Ok? && tokens == spec.value.tokens
        case Abort(_) => spec.Abort? && tokens == old(tokens)
    {
      hide Restream;
      hide Allotment;
      if newEmissions < SCALAR_7 {
        return Abort(BadRequest);
      }
      var before := tokens;
      var left := shares;
      while left != map[]
        invariant left.Keys <= shares.Keys && tokens.Keys == before.Keys
        invariant forall id :: id in shares && id !in left ==> id in before
        invariant forall id :: id in shares && id !in left ==>
          Restream(before[id], now, Allotment(shares[id], newEmissions)) == Ok(tokens[id])
        invariant forall id :: id in before && (id !in shares || id in left) ==> tokens[id] == before[id]
        decreases |left|
      {
        var id :| id in left;
        RemoveShrinks(left, id);
        if id !in tokens {
          tokens := before;
          return Abort(ArithmeticError);
        }
        var done := UpdateReserveEmissionConfig(id, Allotment(shares[id], newEmissions));
        if done.Abort? {
          assert Restream(before[id], now, Allotment(shares[id], newEmissions)).Abort?;
          tokens := before;
          return Abort(done.error);
        }
        left := left - {id};
      }
      return Ok(());
    }
  }
}
