/** A lending pool user whose emissions are brought up to date before every change of a balance; an abort leaves
    everything as it was (pool/src/pool/user.rs). */
module UserEmissions {
  import opened Outcomes
  import opened FixedPoint
  import opened Totals
  import opened Reserves
  import opened PoolUsers
  import opened PoolEmissions
  import opened PoolEmissionContract

  /** The reserve token ids of a reserve's d tokens and b tokens. */
  function DId(index: nat): nat { 2 * index }
  function BId(index: nat): nat { 2 * index + 1 }

  /** An emission update moves neither the supply nor a balance. */
  lemma UpdateLeaves(t: ReserveToken, now: nat, user: Address)
    ensures Update(t, now, user, false).Ok? ==>
      var q := Update(t, now, user, false).value.0;
      q.supply == t.supply && HolderOf(q, user).balance == HolderOf(t, user).balance
  {
    hide Floor;
    hide DivFloor;
  }

  class SettlingUser {
    const address: Address
    const user: User
    const store: EmissionStore

    /** The emission storage is passed the user's balances and the reserve's supplies. */
    ghost predicate Agrees(reserve: Reserve)
      reads user, reserve, store
    {
      var (d, b) := (DId(reserve.config.index), BId(reserve.config.index));
      && d in store.tokens && b in store.tokens
      && store.tokens[d].supply == reserve.dSupply && store.tokens[b].supply == reserve.bSupply
      && HolderOf(store.tokens[d], address).balance == DTokens(user.positions, reserve.config.index)
      && HolderOf(store.tokens[b], address).balance == BTokens(user.positions, reserve.config.index)
    }

    constructor (address: Address, user: User, store: EmissionStore)
      ensures this.address == address && this.user == user && this.store == store
    {
      this.address, this.user, this.store := address, user, store;
    }

    /** Debt is minted: emissions on the old debt and supply come first. */
    method AddLiabilities(reserve: Reserve, amount: int) returns (r: Outcome<()>)
      requires Agrees(reserve)
      modifies user, reserve, store`tokens
      ensures var id := DId(reserve.config.index);
        var spec := Added(old(user.positions).liabilities, reserve.config.index, amount, InvalidDTokenMintAmount);
        var emissions := Changed(old(store.tokens)[id], store.now, address, amount);
        match r
        case Ok(_) =>
          && spec.Ok? && user.positions == old(user.positions).(liabilities := spec.value)
          && reserve.Value() == old(reserve.Value()).(dSupply := old(reserve.dSupply) + amount)
          && emissions.Ok? && store.tokens == old(store.tokens)[id := emissions.value]
          && Agrees(reserve)
        case Abort(_) =>
          && (spec.Abort? || emissions.Abort?)
          && unchanged(user) && unchanged(reserve) && store.tokens == old(store.tokens)
    {
      hide Update;
      var id := DId(reserve.config.index);
      if amount == 0 {
        return Abort(InvalidDTokenMintAmount);
      }
      var _ :- store.UpdateEmissions(id, address, false);
      var added := user.AddLiabilities(reserve, amount);
      UpdateLeaves(old(store.tokens)[id], store.now, address);
      store.SetBalance(id, address, DTokens(user.positions, reserve.config.index), reserve.dSupply);
      return Ok(());
    }

    /** Debt is burned. */
    method RemoveLiabilities(reserve: Reserve, amount: int) returns (r: Outcome<()>)
      requires Agrees(reserve)
      modifies user, reserve, store`tokens
      ensures var id := DId(reserve.config.index);
        var spec := Taken(old(user.positions).liabilities, reserve.config.index, amount, InvalidDTokenBurnAmount);
        var emissions := Changed(old(store.tokens)[id], store.now, address, -amount);
        match r
        case Ok(_) =>
          && spec.Ok? && user.positions == old(user.positions).(liabilities := spec.value)
          && reserve.Value() == old(reserve.Value()).(dSupply := old(reserve.dSupply) - amount)
          && emissions.Ok? && store.tokens == old(store.tokens)[id := emissions.value]
          && Agrees(reserve)
        case Abort(_) =>
          && (spec.Abort? || emissions.Abort?)
          && unchanged(user) && unchanged(reserve) && store.tokens == old(store.tokens)
    {
      hide Update;
      var id := DId(reserve.config.index);
      if amount == 0 {
        return Abort(InvalidDTokenBurnAmount);
      }
      var before := store.tokens;
      var _ :- store.UpdateEmissions(id, address, false);
      var removed := user.RemoveLiabilities(reserve, amount);
      if removed.Abort? {
        store.tokens := before;
        return removed;
      }
      UpdateLeaves(old(store.tokens)[id], store.now, address);
      store.SetBalance(id, address, DTokens(user.positions, reserve.config.index), reserve.dSupply);
      return Ok(());
    }

    /** Collateral is minted: it counts for emissions together with what is only supplied. */
    method AddCollateral(reserve: Reserve, amount: int) returns (r: Outcome<()>)
      requires Agrees(reserve)
      modifies user, reserve, store`tokens
      ensures var id := BId(reserve.config.index);
        var spec := Added(old(user.positions).collateral, reserve.config.index, amount, InvalidBTokenMintAmount);
        var emissions := Changed(old(store.tokens)[id], store.now, address, amount);
        match r
        case Ok(_) =>
          && spec.Ok? && user.positions == old(user.positions).(collateral := spec.value)
          && reserve.Value() == old(reserve.Value()).(bSupply := old(reserve.bSupply) + amount)
          && emissions.Ok? && store.tokens == old(store.tokens)[id := emissions.value]
          && Agrees(reserve)
        case Abort(_) =>
          && (spec.Abort? || emissions.Abort?)
          && unchanged(user) && unchanged(reserve) && store.tokens == old(store.tokens)
    {
      hide Update;
      var id := BId(reserve.config.index);
      if amount == 0 {
        return Abort(InvalidBTokenMintAmount);
      }
      var _ :- store.UpdateEmissions(id, address, false);
      var added := user.AddCollateral(reserve, amount);
      UpdateLeaves(old(store.tokens)[id], store.now, address);
      store.SetBalance(id, address, BTokens(user.positions, reserve.config.index), reserve.bSupply);
      return Ok(());
    }

    /** Collateral is burned. */
    method RemoveCollateral(reserve: Reserve, amount: int) returns (r: Outcome<()>)
      requires Agrees(reserve)
      modifies user, reserve, store`tokens
      ensures var id := BId(reserve.config.index);
        var spec := Taken(old(user.positions).collateral, reserve.config.index, amount, InvalidBTokenBurnAmount);
        var emissions := Changed(old(store.tokens)[id], store.now, address, -amount);
        match r
        case Ok(_) =>
          && spec.Ok? && user.positions == old(user.positions).(collateral := spec.value)
          && reserve.Value() == old(reserve.Value()).(bSupply := old(reserve.bSupply) - amount)
          && emissions.Ok? && store.tokens == old(store.tokens)[id := emissions.value]
          && Agrees(reserve)
        case Abort(_) =>
          && (spec.Abort? || emissions.Abort?)
          && unchanged(user) && unchanged(reserve) && store.tokens == old(store.tokens)
    {
      hide Update;
      var id := BId(reserve.config.index);
      if amount == 0 {
        return Abort(InvalidBTokenBurnAmount);
      }
      var before := store.tokens;
      var _ :- store.UpdateEmissions(id, address, false);
      var removed := user.RemoveCollateral(reserve, amount);
      if removed.Abort? {
        store.tokens := before;
        return removed;
      }
      UpdateLeaves(old(store.tokens)[id], store.now, address);
      store.SetBalance(id, address, BTokens(user.positions, reserve.config.index), reserve.bSupply);
      return Ok(());
    }

    /** Supply that is not collateral is minted. */
    method AddSupply(reserve: Reserve, amount: int) returns (r: Outcome<()>)
      requires Agrees(reserve)
      modifies user, reserve, store`tokens
      ensures var id := BId(reserve.config.index);
        var spec := Added(old(user.positions).supply, reserve.config.index, amount, InvalidBTokenMintAmount);
        var emissions := Changed(old(store.tokens)[id], store.now, address, amount);
        match r
        case Ok(_) =>
          && spec.Ok? && user.positions == old(user.positions).(supply := spec.value)
          && reserve.Value() == old(reserve.Value()).(bSupply := old(reserve.bSupply) + amount)
          && emissions.Ok? && store.tokens == old(store.tokens)[id := emissions.value]
          && Agrees(reserve)
        case Abort(_) =>
          && (spec.Abort? || emissions.Abort?)
          && unchanged(user) && unchanged(reserve) && store.tokens == old(store.tokens)
    {
      hide Update;
      var id := BId(reserve.config.index);
      if amount == 0 {
        return Abort(InvalidBTokenMintAmount);
      }
      var _ :- store.UpdateEmissions(id, address, false);
      var added := user.AddSupply(reserve, amount);
      UpdateLeaves(old(store.tokens)[id], store.now, address);
      store.SetBalance(id, address, BTokens(user.positions, reserve.config.index), reserve.bSupply);
      return Ok(());
    }

    /** Supply that is not collateral is burned. */
    method RemoveSupply(reserve: Reserve, amount: int) returns (r: Outcome<()>)
      requires Agrees(reserve)
      modifies user, reserve, store`tokens
      ensures var id := BId(reserve.config.index);
        var spec := Taken(old(user.positions).supply, reserve.config.index, amount, InvalidBTokenBurnAmount);
        var emissions := Changed(old(store.tokens)[id], store.now, address, -amount);
        match r
        case Ok(_) =>
          && spec.Ok? && user.positions == old(user.positions).(supply := spec.value)
          && reserve.Value() == old(reserve.Value()).(bSupply := old(reserve.bSupply) - amount)
          && emissions.Ok? && store.tokens == old(store.tokens)[id := emissions.value]
          && Agrees(reserve)
        case Abort(_) =>
          && (spec.Abort? || emissions.Abort?)
          && unchanged(user) && unchanged(reserve) && store.tokens == old(store.tokens)
    {
      hide Update;
      var id := BId(reserve.config.index);
      if amount == 0 {
        return Abort(InvalidBTokenBurnAmount);
      }
      var before := store.tokens;
      var _ :- store.UpdateEmissions(id, address, false);
      var removed := user.RemoveSupply(reserve, amount);
      if removed.Abort? {
        store.tokens := before;
        return removed;
      }
      UpdateLeaves(old(store.tokens)[id], store.now, address);
      store.SetBalance(id, address, BTokens(user.positions, reserve.config.index), reserve.bSupply);
      return Ok(());
    }
  }
}
