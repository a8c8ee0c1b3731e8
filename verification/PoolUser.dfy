/** A lending pool user's positions: what each request mints or burns, for which tokens, and what that
    does to the reserve (pool/src/pool/user.rs and the request arms of pool/src/pool/actions.rs). */
module PoolUsers {
  import opened Outcomes
  import opened FixedPoint
  import opened Totals
  import opened Interest
  import opened Reserves

  /** Balances by reserve index. */
  datatype Positions = Positions(liabilities: map<Address, int>, collateral: map<Address, int>, supply: map<Address, int>)

  const NO_POSITIONS: Positions := Positions(map[], map[], map[])

  function BTokens(p: Positions, index: nat): int { Amount(p.collateral, index) + Amount(p.supply, index) }
  function DTokens(p: Positions, index: nat): int { Amount(p.liabilities, index) }

  /** Add to a balance; nothing may be added. */
  function Added(m: map<Address, int>, index: nat, amount: int, error: Error): Outcome<map<Address, int>>
  {
    if amount == 0 then Abort(error) else Ok(m[index := Amount(m, index) + amount])
  }

  /** Take from a balance, dropping it at zero. */
  function Taken(m: map<Address, int>, index: nat, amount: int, error: Error): Outcome<map<Address, int>>
  {
    if amount == 0 then Abort(error)
    else if Amount(m, index) - amount < 0 then Abort(NegativeAmount)
    else if Amount(m, index) - amount == 0 then Ok(m - {index})
    else Ok(m[index := Amount(m, index) - amount])
  }

  // ----- requests against one reserve -----

  /** The new reserve and positions, and what the spender pays in and the pool pays out. */
  datatype Change = Change(reserve: ReserveData, positions: Positions, paid: Option<int>, out: Option<int>)

  function Supply(c: ReserveConfig, r: ReserveData, p: Positions, amount: int): Outcome<Change>
  {
    var minted :- BTokenDown(r, amount);
    var supply :- Added(p.supply, c.index, minted, InvalidBTokenMintAmount);
    Ok(Change(r.(bSupply := r.bSupply + minted), p.(supply := supply), Some(amount), None))
  }

  function SupplyCollateral(c: ReserveConfig, r: ReserveData, p: Positions, amount: int): Outcome<Change>
  {
    var minted :- BTokenDown(r, amount);
    var collateral :- Added(p.collateral, c.index, minted, InvalidBTokenMintAmount);
    Ok(Change(r.(bSupply := r.bSupply + minted), p.(collateral := collateral), Some(amount), None))
  }

  /** Tokens burned and underlying paid out for a withdrawal, clamped to the balance held. */
  function Burn(r: ReserveData, held: int, amount: int): Outcome<(int, int)>
  {
    var toBurn :- BTokenUp(r, amount);
    Ok(if toBurn > held then (held, AssetFromB(r, held)) else (toBurn, amount))
  }

  function Withdraw(c: ReserveConfig, r: ReserveData, p: Positions, amount: int): Outcome<Change>
  {
    var (burned, tokensOut) :- Burn(r, Amount(p.supply, c.index), amount);
    var supply :- Taken(p.supply, c.index, burned, InvalidBTokenBurnAmount);
    Ok(Change(r.(bSupply := r.bSupply - burned), p.(supply := supply), None, Some(tokensOut)))
  }

  function WithdrawCollateral(c: ReserveConfig, r: ReserveData, p: Positions, amount: int): Outcome<Change>
  {
    var (burned, tokensOut) :- Burn(r, Amount(p.collateral, c.index), amount);
    var collateral :- Taken(p.collateral, c.index, burned, InvalidBTokenBurnAmount);
    Ok(Change(r.(bSupply := r.bSupply - burned), p.(collateral := collateral), None, Some(tokensOut)))
  }

  function Borrow(c: ReserveConfig, r: ReserveData, p: Positions, amount: int): Outcome<Change>
  {
    var minted :- DTokenUp(r, amount);
    var liabilities :- Added(p.liabilities, c.index, minted, InvalidDTokenMintAmount);
    var lent := r.(dSupply := r.dSupply + minted);
    var util :- Utilization(lent);
    if util > c.maxUtil then Abort(InvalidUtilRate)
    else Ok(Change(lent, p.(liabilities := liabilities), None, Some(amount)))
  }

  /** A repayment is taken in full; what exceeds the debt is refunded. The utilisation is read for
      indexing afterwards, which aborts when nothing is supplied. */
  function Repay(c: ReserveConfig, r: ReserveData, p: Positions, amount: int): Outcome<Change>
  {
    var held := Amount(p.liabilities, c.index);
    var toBurn :- DTokenDown(r, amount);
    var burned := if toBurn > held then held else toBurn;
    var refund := amount - AssetFromD(r, held);
    if toBurn > held && refund < 0 then Abort(NegativeAmount)
    else
      var liabilities :- Taken(p.liabilities, c.index, burned, InvalidDTokenBurnAmount);
      var repaid := r.(dSupply := r.dSupply - burned);
      var util :- Utilization(repaid);
      Ok(Change(repaid, p.(liabilities := liabilities), Some(amount), if toBurn > held then Some(refund) else None))
  }

  /** The request arms by their type number. */
  function Perform(kind: nat, c: ReserveConfig, r: ReserveData, p: Positions, amount: int): Outcome<Change>
    requires kind <= 5
  {
    if kind == 0 then Supply(c, r, p, amount)
    else if kind == 1 then Withdraw(c, r, p, amount)
    else if kind == 2 then SupplyCollateral(c, r, p, amount)
    else if kind == 3 then WithdrawCollateral(c, r, p, amount)
    else if kind == 4 then Borrow(c, r, p, amount)
    else Repay(c, r, p, amount)
  }

  function Paid(change: Change): int { if change.paid.Some? then change.paid.value else 0 }
  function Out(change: Change): int { if change.out.Some? then change.out.value else 0 }

  // ----- the user's balances, updated in place -----

  class User {
    var positions: Positions

    constructor (p: Positions)
      ensures positions == p
    {
      positions := p;
    }

    method AddSupply(reserve: Reserve, amount: int) returns (result: Outcome<()>)
      modifies this, reserve
      ensures var spec := Added(old(positions).supply, reserve.config.index, amount, InvalidBTokenMintAmount);
        && (spec.Ok? ==> result.Ok? && positions == old(positions).(supply := spec.value))
        && (spec.Ok? ==> reserve.Value() == old(reserve.Value()).(bSupply := old(reserve.bSupply) + amount))
        && (spec.Abort? ==> result == Abort(spec.error) && unchanged(this) && unchanged(reserve))
    {
      if amount == 0 {
        return Abort(InvalidBTokenMintAmount);
      }
      var balance := Amount(positions.supply, reserve.config.index);
      positions := positions.(supply := positions.supply[reserve.config.index := balance + amount]);
      reserve.bSupply := reserve.bSupply + amount;
      return Ok(());
    }

    method AddCollateral(reserve: Reserve, amount: int) returns (result: Outcome<()>)
      modifies this, reserve
      ensures var spec := Added(old(positions).collateral, reserve.config.index, amount, InvalidBTokenMintAmount);
        && (spec.Ok? ==> result.Ok? && positions == old(positions).(collateral := spec.value))
        && (spec.Ok? ==> reserve.Value() == old(reserve.Value()).(bSupply := old(reserve.bSupply) + amount))
        && (spec.Abort? ==> result == Abort(spec.error) && unchanged(this) && unchanged(reserve))
    {
      if amount == 0 {
        return Abort(InvalidBTokenMintAmount);
      }
      var balance := Amount(positions.collateral, reserve.config.index);
      positions := positions.(collateral := positions.collateral[reserve.config.index := balance + amount]);
      reserve.bSupply := reserve.bSupply + amount;
      return Ok(());
    }

    method AddLiabilities(reserve: Reserve, amount: int) returns (result: Outcome<()>)
      modifies this, reserve
      ensures var spec := Added(old(positions).liabilities, reserve.config.index, amount, InvalidDTokenMintAmount);
        && (spec.Ok? ==> result.Ok? && positions == old(positions).(liabilities := spec.value))
        && (spec.Ok? ==> reserve.Value() == old(reserve.Value()).(dSupply := old(reserve.dSupply) + amount))
        && (spec.Abort? ==> result == Abort(spec.error) && unchanged(this) && unchanged(reserve))
    {
      if amount == 0 {
        return Abort(InvalidDTokenMintAmount);
      }
      var balance := Amount(positions.liabilities, reserve.config.index);
      positions := positions.(liabilities := positions.liabilities[reserve.config.index := balance + amount]);
      reserve.dSupply := reserve.dSupply + amount;
      return Ok(());
    }

    method RemoveSupply(reserve: Reserve, amount: int) returns (result: Outcome<()>)
      modifies this, reserve
      ensures var spec := Taken(old(positions).supply, reserve.config.index, amount, InvalidBTokenBurnAmount);
        && (spec.Ok? ==> result.Ok? && positions == old(positions).(supply := spec.value))
        && (spec.Ok? ==> reserve.Value() == old(reserve.Value()).(bSupply := old(reserve.bSupply) - amount))
        && (spec.Abort? ==> result == Abort(spec.error) && unchanged(this) && unchanged(reserve))
    {
      if amount == 0 {
        return Abort(InvalidBTokenBurnAmount);
      }
      var index := reserve.config.index;
      var newBalance := Amount(positions.supply, index) - amount;
      if newBalance < 0 {
        return Abort(NegativeAmount);
      }
      if newBalance == 0 {
        positions := positions.(supply := positions.supply - {index});
      } else {
        positions := positions.(supply := positions.supply[index := newBalance]);
      }
      reserve.bSupply := reserve.bSupply - amount;
      return Ok(());
    }

    method RemoveCollateral(reserve: Reserve, amount: int) returns (result: Outcome<()>)
      modifies this, reserve
      ensures var spec := Taken(old(positions).collateral, reserve.config.index, amount, InvalidBTokenBurnAmount);
        && (spec.Ok? ==> result.Ok? && positions == old(positions).(collateral := spec.value))
        && (spec.Ok? ==> reserve.Value() == old(reserve.Value()).(bSupply := old(reserve.bSupply) - amount))
        && (spec.Abort? ==> result == Abort(spec.error) && unchanged(this) && unchanged(reserve))
    {
      if amount == 0 {
        return Abort(InvalidBTokenBurnAmount);
      }
      var index := reserve.config.index;
      var newBalance := Amount(positions.collateral, index) - amount;
      if newBalance < 0 {
        return Abort(NegativeAmount);
      }
      if newBalance == 0 {
        positions := positions.(collateral := positions.collateral - {index});
      } else {
        positions := positions.(collateral := positions.collateral[index := newBalance]);
      }
      reserve.bSupply := reserve.bSupply - amount;
      return Ok(());
    }

    method RemoveLiabilities(reserve: Reserve, amount: int) returns (result: Outcome<()>)
      modifies this, reserve
      ensures var spec := Taken(old(positions).liabilities, reserve.config.index, amount, InvalidDTokenBurnAmount);
        && (spec.Ok? ==> result.Ok? && positions == old(positions).(liabilities := spec.value))
        && (spec.Ok? ==> reserve.Value() == old(reserve.Value()).(dSupply := old(reserve.dSupply) - amount))
        && (spec.Abort? ==> result == Abort(spec.error) && unchanged(this) && unchanged(reserve))
    {
      if amount == 0 {
        return Abort(InvalidDTokenBurnAmount);
      }
      var index := reserve.config.index;
      var newBalance := Amount(positions.liabilities, index) - amount;
      if newBalance < 0 {
        return Abort(NegativeAmount);
      }
      if newBalance == 0 {
        positions := positions.(liabilities := positions.liabilities - {index});
      } else {
        positions := positions.(liabilities := positions.liabilities[index := newBalance]);
      }
      reserve.dSupply := reserve.dSupply - amount;
      return Ok(());
    }
  }

  // ----- what a request is worth -----

  /** Tokens minted for an amount, rounded down, are worth at most that amount on top of any holding. */
  lemma MintedWorth(rate: int, held: int, amount: int)
    requires rate > 0 && amount >= 0
    ensures var minted := Floor(amount * SCALAR_9, rate);
      minted >= 0 && Floor((held + minted) * rate, SCALAR_9) <= Floor(held * rate, SCALAR_9) + amount
  {
    hide Floor;
    hide Ceil;
    var minted := Floor(amount * SCALAR_9, rate);
    FloorNonNeg(amount * SCALAR_9, rate);
    FloorBounds(amount * SCALAR_9, rate);
    MulDistributes(rate, held, minted);
    FloorAdd(held * rate, minted * rate, SCALAR_9);
    CeilLeast(amount, minted * rate, SCALAR_9);
  }

  /** Burning for a withdrawal gives up at least what is paid out. */
  lemma BurnedWorth(r: ReserveData, held: int, amount: int, base: int)
    requires r.bRate > 0 && held >= 0 && amount >= 0
    ensures Burn(r, held, amount).Ok?
    ensures var (burned, out) := Burn(r, held, amount).value;
      && 0 <= burned <= held && 0 <= out <= amount
      && AssetFromB(r, base - burned) + out <= AssetFromB(r, base)
  {
    hide Floor;
    hide Ceil;
    var toBurn := Ceil(amount * SCALAR_9, r.bRate);
    CeilNonNeg(amount * SCALAR_9, r.bRate);
    CeilBounds(amount * SCALAR_9, r.bRate);
    var (burned, out) := Burn(r, held, amount).value;
    MulDistributes(r.bRate, base - burned, burned);
    FloorAdd((base - burned) * r.bRate, burned * r.bRate, SCALAR_9);
    MulMono(0, held, r.bRate);
    FloorNonNeg(held * r.bRate, SCALAR_9);
    if toBurn > held {
      MulMono(held, toBurn - 1, r.bRate);
      MulDistributes(r.bRate, toBurn, -1);
      FloorBounds(held * r.bRate, SCALAR_9);
      MultiplesOrdered(Floor(held * r.bRate, SCALAR_9), amount, SCALAR_9);
    } else {
      FloorGreatest(amount, toBurn * r.bRate, SCALAR_9);
    }
  }

  /** Debt minted for a loan, rounded up, is worth at least the loan on top of any debt. */
  lemma OwedWorth(rate: int, held: int, amount: int)
    requires rate > 0 && amount >= 0
    ensures var minted := Ceil(amount * SCALAR_9, rate);
      minted >= 0 && Ceil((held + minted) * rate, SCALAR_9) >= Ceil(held * rate, SCALAR_9) + amount
  {
    hide Floor;
    hide Ceil;
    var minted := Ceil(amount * SCALAR_9, rate);
    CeilNonNeg(amount * SCALAR_9, rate);
    CeilBounds(amount * SCALAR_9, rate);
    MulDistributes(rate, held, minted);
    CeilAdd(held * rate, minted * rate, SCALAR_9);
    FloorGreatest(amount, minted * rate, SCALAR_9);
  }

  /** What a repayment burns and keeps. */
  function Burnt(r: ReserveData, held: int, amount: int): int
    requires r.dRate > 0
  {
    Min(held, Floor(amount * SCALAR_9, r.dRate))
  }

  function Kept(r: ReserveData, held: int, amount: int): int
    requires r.dRate > 0
  {
    if Floor(amount * SCALAR_9, r.dRate) > held then AssetFromD(r, held) else amount
  }

  /** A repayment is kept up to the debt it burns, never less; the refund of the rest is never negative. */
  lemma RepaidWorth(r: ReserveData, held: int, amount: int, base: int)
    requires r.dRate > 0 && held >= 0 && amount >= 0
    ensures 0 <= Burnt(r, held, amount) <= held && 0 <= Kept(r, held, amount) <= amount
    ensures AssetFromD(r, base - Burnt(r, held, amount)) + Kept(r, held, amount) >= AssetFromD(r, base)
  {
    hide Floor;
    hide Ceil;
    var toBurn := Floor(amount * SCALAR_9, r.dRate);
    FloorNonNeg(amount * SCALAR_9, r.dRate);
    FloorBounds(amount * SCALAR_9, r.dRate);
    var burned := Burnt(r, held, amount);
    MulMono(burned, toBurn, r.dRate);
    CeilLeast(amount, burned * r.dRate, SCALAR_9);
    MulMono(0, held, r.dRate);
    CeilNonNeg(held * r.dRate, SCALAR_9);
    MulDistributes(r.dRate, base - burned, burned);
    CeilAdd((base - burned) * r.dRate, burned * r.dRate, SCALAR_9);
  }

  ghost predicate PositionsOk(p: Positions)
  {
    && (forall i :: i in p.liabilities ==> p.liabilities[i] >= 0)
    && (forall i :: i in p.collateral ==> p.collateral[i] >= 0)
    && (forall i :: i in p.supply ==> p.supply[i] >= 0)
  }

  /** What every request keeps: the reserve and the user move by the same tokens, at the requested reserve
      only, the rates stand still, and what the pool must cover grows by at most what was paid in less
      what goes out. */
  ghost predicate Sound(c: ReserveConfig, r: ReserveData, p: Positions, change: Change)
  {
    var n := change.reserve;
    && n == r.(bSupply := n.bSupply, dSupply := n.dSupply)
    && PositionsOk(change.positions)
    && n.bSupply - r.bSupply == BTokens(change.positions, c.index) - BTokens(p, c.index)
    && n.dSupply - r.dSupply == DTokens(change.positions, c.index) - DTokens(p, c.index)
    && (forall i :: i != c.index ==>
          BTokens(change.positions, i) == BTokens(p, i) && DTokens(change.positions, i) == DTokens(p, i))
    && Paid(change) >= 0 && Out(change) >= 0
    && NetOwed(n) <= NetOwed(r) + Paid(change) - Out(change)
  }

  lemma SupplySound(c: ReserveConfig, r: ReserveData, p: Positions, amount: int)
    requires r.bRate > 0 && PositionsOk(p) && amount >= 0
    ensures Supply(c, r, p, amount).Ok? ==> Sound(c, r, p, Supply(c, r, p, amount).value)
    ensures SupplyCollateral(c, r, p, amount).Ok? ==> Sound(c, r, p, SupplyCollateral(c, r, p, amount).value)
  {
    hide Floor;
    hide Ceil;
    MintedWorth(r.bRate, r.bSupply, amount);
  }

  lemma {:induction false} WithdrawSound(c: ReserveConfig, r: ReserveData, p: Positions, amount: int)
    requires r.bRate > 0 && PositionsOk(p) && amount >= 0
    ensures Withdraw(c, r, p, amount).Ok? ==> Sound(c, r, p, Withdraw(c, r, p, amount).value)
    ensures WithdrawCollateral(c, r, p, amount).Ok? ==> Sound(c, r, p, WithdrawCollateral(c, r, p, amount).value)
  {
    hide Floor;
    hide Ceil;
    hide Burn;
    BurnedWorth(r, Amount(p.supply, c.index), amount, r.bSupply);
    BurnedWorth(r, Amount(p.collateral, c.index), amount, r.bSupply);
  }

  lemma BorrowSound(c: ReserveConfig, r: ReserveData, p: Positions, amount: int)
    requires r.dRate > 0 && PositionsOk(p) && amount >= 0
    ensures Borrow(c, r, p, amount).Ok? ==> Sound(c, r, p, Borrow(c, r, p, amount).value)
  {
    hide Floor;
    hide Ceil;
    hide Utilization;
    OwedWorth(r.dRate, r.dSupply, amount);
  }

  lemma RepaySound(c: ReserveConfig, r: ReserveData, p: Positions, amount: int)
    requires r.dRate > 0 && PositionsOk(p) && amount >= 0
    ensures Repay(c, r, p, amount).Ok? ==> Sound(c, r, p, Repay(c, r, p, amount).value)
  {
    hide Floor;
    hide Ceil;
    hide Utilization;
    RepaidWorth(r, Amount(p.liabilities, c.index), amount, r.dSupply);
  }

  lemma {:induction false} PerformSound(kind: nat, c: ReserveConfig, r: ReserveData, p: Positions, amount: int)
    requires kind <= 5 && r.bRate > 0 && r.dRate > 0 && PositionsOk(p) && amount >= 0
    ensures Perform(kind, c, r, p, amount).Ok? ==> Sound(c, r, p, Perform(kind, c, r, p, amount).value)
  {
    SupplySound(c, r, p, amount);
    WithdrawSound(c, r, p, amount);
    BorrowSound(c, r, p, amount);
    RepaySound(c, r, p, amount);
    hide Sound;
    hide Supply;
    hide SupplyCollateral;
    hide Withdraw;
    hide WithdrawCollateral;
    hide Borrow;
    hide Repay;
  }

  // ----- what a request does, exactly -----

  /** A balance moves by an amount at one index only. */
  ghost predicate MovesBy(m: map<Address, int>, n: map<Address, int>, index: nat, amount: int)
  {
    forall i: nat :: Amount(n, i) == Amount(m, i) + (if i == index then amount else 0)
  }

  /** A request that moves the user's supply, collateral and debt in one reserve, and the reserve's tokens with them,
      against payments in and out. */
  ghost predicate Does(c: ReserveConfig, r: ReserveData, p: Positions, change: Change,
                       supply: int, collateral: int, debt: int, paid: int, out: int)
  {
    && change.reserve == r.(bSupply := r.bSupply + supply + collateral, dSupply := r.dSupply + debt)
    && MovesBy(p.supply, change.positions.supply, c.index, supply)
    && MovesBy(p.collateral, change.positions.collateral, c.index, collateral)
    && MovesBy(p.liabilities, change.positions.liabilities, c.index, debt)
    && Paid(change) == paid && Out(change) == out
  }

  lemma AddedMoves(m: map<Address, int>, index: nat, amount: int, error: Error)
    ensures Added(m, index, amount, error).Ok? <==> amount != 0
    ensures amount != 0 ==> MovesBy(m, Added(m, index, amount, error).value, index, amount)
    ensures MovesBy(m, m, index, 0)
  {}

  lemma TakenMoves(m: map<Address, int>, index: nat, amount: int, error: Error)
    ensures Taken(m, index, amount, error).Ok? <==> amount != 0 && amount <= Amount(m, index)
    ensures Taken(m, index, amount, error).Ok? ==> MovesBy(m, Taken(m, index, amount, error).value, index, -amount)
  {}

  /** A supply mints the tokens the payment is worth, rounded down, as supply or as collateral; it aborts exactly
      when that is none. */
  lemma SupplyIs(c: ReserveConfig, r: ReserveData, p: Positions, amount: int)
    requires r.bRate > 0 && amount >= 0
    ensures var minted := Floor(amount * SCALAR_9, r.bRate);
      && PartDown(minted, amount, SCALAR_9, r.bRate)
      && (Supply(c, r, p, amount).Ok? <==> minted > 0) && (SupplyCollateral(c, r, p, amount).Ok? <==> minted > 0)
      && (minted > 0 ==> Does(c, r, p, Supply(c, r, p, amount).value, minted, 0, 0, amount, 0))
      && (minted > 0 ==> Does(c, r, p, SupplyCollateral(c, r, p, amount).value, 0, minted, 0, amount, 0))
  {
    var minted := Floor(amount * SCALAR_9, r.bRate);
    FloorNonNeg(amount * SCALAR_9, r.bRate);
    FloorBounds(amount * SCALAR_9, r.bRate);
    hide Floor;
    hide MovesBy;
    AddedMoves(p.supply, c.index, minted, InvalidBTokenMintAmount);
    AddedMoves(p.collateral, c.index, minted, InvalidBTokenMintAmount);
    AddedMoves(p.liabilities, c.index, 0, InvalidDTokenMintAmount);
    hide Added;
  }

  /** Tokens for a withdrawal of an amount from a balance: those the amount is worth, rounded up, paying the amount;
      or the whole balance, paying what that is worth, rounded down. */
  ghost predicate FairBurn(r: ReserveData, held: int, amount: int, burned: int, out: int)
  {
    exists toBurn ::
      && PartUp(toBurn, amount, SCALAR_9, r.bRate)
      && burned == Min(held, toBurn)
      && (if toBurn <= held then out == amount else PartDown(out, held, r.bRate, SCALAR_9))
  }

  lemma BurnIsFair(r: ReserveData, held: int, amount: int)
    requires r.bRate > 0 && held >= 0 && amount >= 0
    ensures Burn(r, held, amount).Ok?
    ensures var (burned, out) := Burn(r, held, amount).value;
      FairBurn(r, held, amount, burned, out) && 0 <= burned <= held && (burned > 0 <==> held > 0 && amount > 0)
  {
    hide Floor;
    hide Ceil;
    var toBurn := Ceil(amount * SCALAR_9, r.bRate);
    CeilBounds(amount * SCALAR_9, r.bRate);
    CeilNonNeg(amount * SCALAR_9, r.bRate);
    FloorBounds(held * r.bRate, SCALAR_9);
    if amount == 0 {
      CeilLeast(0, amount * SCALAR_9, r.bRate);
    }
    assert toBurn == 0 ==> amount <= 0;
    assert PartUp(toBurn, amount, SCALAR_9, r.bRate);
  }

  /** A withdrawal burns and pays just that, from supply or from collateral; it aborts exactly without a balance or
      an amount. */
  lemma {:induction false} WithdrawIs(c: ReserveConfig, r: ReserveData, p: Positions, amount: int)
    requires r.bRate > 0 && PositionsOk(p) && amount >= 0
    ensures var (held, change) := (Amount(p.supply, c.index), Withdraw(c, r, p, amount));
      && (change.Ok? <==> held > 0 && amount > 0)
      && (change.Ok? ==> exists burned, out ::
            FairBurn(r, held, amount, burned, out) && Does(c, r, p, change.value, -burned, 0, 0, 0, out))
    ensures var (held, change) := (Amount(p.collateral, c.index), WithdrawCollateral(c, r, p, amount));
      && (change.Ok? <==> held > 0 && amount > 0)
      && (change.Ok? ==> exists burned, out ::
            FairBurn(r, held, amount, burned, out) && Does(c, r, p, change.value, 0, -burned, 0, 0, out))
  {
    hide FairBurn;
    hide MovesBy;
    var (supply, collateral) := (Amount(p.supply, c.index), Amount(p.collateral, c.index));
    BurnIsFair(r, supply, amount);
    BurnIsFair(r, collateral, amount);
    var (s, sOut) := Burn(r, supply, amount).value;
    var (k, kOut) := Burn(r, collateral, amount).value;
    hide Burn;
    TakenMoves(p.supply, c.index, s, InvalidBTokenBurnAmount);
    TakenMoves(p.collateral, c.index, k, InvalidBTokenBurnAmount);
    AddedMoves(p.supply, c.index, 0, InvalidBTokenMintAmount);
    AddedMoves(p.collateral, c.index, 0, InvalidBTokenMintAmount);
    AddedMoves(p.liabilities, c.index, 0, InvalidDTokenMintAmount);
    hide Taken;
    if Withdraw(c, r, p, amount).Ok? {
      assert Does(c, r, p, Withdraw(c, r, p, amount).value, -s, 0, 0, 0, sOut);
    }
    if WithdrawCollateral(c, r, p, amount).Ok? {
      assert Does(c, r, p, WithdrawCollateral(c, r, p, amount).value, 0, -k, 0, 0, kOut);
    }
  }

  /** At most the allowed part of the supply is lent. */
  ghost predicate WithinLimit(c: ReserveConfig, r: ReserveData)
  {
    TotalSupply(r) > 0 && TotalLiabilities(r) * SCALAR_7 <= c.maxUtil * TotalSupply(r)
  }

  /** A loan mints the debt tokens it is worth, rounded up, and pays it out; it aborts exactly when there is nothing
      to lend or the reserve would be lent beyond its limit. */
  lemma {:induction false} BorrowIs(c: ReserveConfig, r: ReserveData, p: Positions, amount: int)
    requires ReserveOk(r) && amount >= 0
    ensures var minted := Ceil(amount * SCALAR_9, r.dRate);
      var change := Borrow(c, r, p, amount);
      && PartUp(minted, amount, SCALAR_9, r.dRate)
      && (change.Ok? <==> amount > 0 && WithinLimit(c, r.(dSupply := r.dSupply + minted)))
      && (change.Ok? ==> Does(c, r, p, change.value, 0, 0, minted, 0, amount))
  {
    hide Floor;
    hide Ceil;
    var minted := Ceil(amount * SCALAR_9, r.dRate);
    CeilBounds(amount * SCALAR_9, r.dRate);
    CeilNonNeg(amount * SCALAR_9, r.dRate);
    if amount == 0 {
      CeilLeast(0, amount * SCALAR_9, r.dRate);
    }
    assert minted == 0 ==> amount <= 0;
    hide MovesBy;
    AddedMoves(p.supply, c.index, 0, InvalidBTokenMintAmount);
    AddedMoves(p.collateral, c.index, 0, InvalidBTokenMintAmount);
    AddedMoves(p.liabilities, c.index, minted, InvalidDTokenMintAmount);
    hide Added;
    LimitIs(c, r.(dSupply := r.dSupply + minted));
    hide Utilization;
    hide WithinLimit;
  }

  lemma LimitIs(c: ReserveConfig, r: ReserveData)
    requires r.bSupply >= 0 && r.bRate >= 0
    ensures Utilization(r).Ok? && Utilization(r).value <= c.maxUtil <==> WithinLimit(c, r)
  {
    hide Floor;
    hide Ceil;
    var (l, s) := (TotalLiabilities(r) * SCALAR_7, TotalSupply(r));
    MulMono(0, r.bSupply, r.bRate);
    FloorNonNeg(r.bSupply * r.bRate, SCALAR_9);
    if s > 0 {
      CeilBounds(l, s);
      if l <= c.maxUtil * s {
        CeilLeast(c.maxUtil, l, s);
      }
      if Ceil(l, s) <= c.maxUtil {
        MulMono(Ceil(l, s), c.maxUtil, s);
      }
    }
  }

  /** A repayment burns the debt tokens it is worth, rounded down, up to all there are; it is taken in full, and what
      exceeds the worth of the whole debt, rounded up, is paid back. */
  lemma {:induction false} RepayIs(c: ReserveConfig, r: ReserveData, p: Positions, amount: int)
    requires r.dRate > 0 && r.bRate > 0 && PositionsOk(p) && amount >= 0 && r.bSupply >= 0 && Repay(c, r, p, amount).Ok?
    ensures var (held, toBurn) := (DTokens(p, c.index), Floor(amount * SCALAR_9, r.dRate));
      && PartDown(toBurn, amount, SCALAR_9, r.dRate)
      && PartUp(AssetFromD(r, held), held, r.dRate, SCALAR_9)
      && Does(c, r, p, Repay(c, r, p, amount).value, 0, 0, -Min(held, toBurn), amount,
              if toBurn > held then amount - AssetFromD(r, held) else 0)
  {
    hide Floor;
    hide Ceil;
    var (held, toBurn) := (DTokens(p, c.index), Floor(amount * SCALAR_9, r.dRate));
    FloorBounds(amount * SCALAR_9, r.dRate);
    CeilBounds(held * r.dRate, SCALAR_9);
    hide Utilization;
    hide MovesBy;
    AddedMoves(p.supply, c.index, 0, InvalidBTokenMintAmount);
    AddedMoves(p.collateral, c.index, 0, InvalidBTokenMintAmount);
    TakenMoves(p.liabilities, c.index, Min(held, toBurn), InvalidDTokenBurnAmount);
    hide Taken;
  }

  /** What the six kinds of request do: supply and collateral grow or shrink, debt grows or shrinks, nothing else of the
      user's moves; payments come in for supplies and repayments only. */
  ghost predicate DoesKind(kind: nat, c: ReserveConfig, r: ReserveData, p: Positions, change: Change, amount: int, x: int, out: int)
  {
    x > 0 && match kind
    case 0 => Does(c, r, p, change, x, 0, 0, amount, 0)
    case 1 => Does(c, r, p, change, -x, 0, 0, 0, out)
    case 2 => Does(c, r, p, change, 0, x, 0, amount, 0)
    case 3 => Does(c, r, p, change, 0, -x, 0, 0, out)
    case 4 => Does(c, r, p, change, 0, 0, x, 0, amount)
    case _ => Does(c, r, p, change, 0, 0, -x, amount, out)
  }

  lemma {:induction false} PerformIs(kind: nat, c: ReserveConfig, r: ReserveData, p: Positions, amount: int)
    requires kind <= 5 && ReserveOk(r) && PositionsOk(p) && amount >= 0 && Perform(kind, c, r, p, amount).Ok?
    ensures exists x, out :: DoesKind(kind, c, r, p, Perform(kind, c, r, p, amount).value, amount, x, out)
  {
    SupplyIs(c, r, p, amount);
    WithdrawIs(c, r, p, amount);
    BorrowIs(c, r, p, amount);
    var change := Perform(kind, c, r, p, amount).value;
    hide Does;
    hide Supply;
    hide SupplyCollateral;
    hide Withdraw;
    hide WithdrawCollateral;
    hide Borrow;
    hide FairBurn;
    hide WithinLimit;
    if kind == 0 || kind == 2 {
      hide Repay;
      assert DoesKind(kind, c, r, p, change, amount, Floor(amount * SCALAR_9, r.bRate), 0);
    } else if kind == 1 {
      hide Repay;
      var burned, out :| FairBurn(r, Amount(p.supply, c.index), amount, burned, out) && Does(c, r, p, change, -burned, 0, 0, 0, out);
      BurnPositive(r, Amount(p.supply, c.index), amount, burned, out);
      assert DoesKind(kind, c, r, p, change, amount, burned, out);
    } else if kind == 3 {
      hide Repay;
      var burned, out :| FairBurn(r, Amount(p.collateral, c.index), amount, burned, out) && Does(c, r, p, change, 0, -burned, 0, 0, out);
      BurnPositive(r, Amount(p.collateral, c.index), amount, burned, out);
      assert DoesKind(kind, c, r, p, change, amount, burned, out);
    } else if kind == 4 {
      hide Repay;
      var minted := Ceil(amount * SCALAR_9, r.dRate);
      PartPositive(minted, amount, SCALAR_9, r.dRate);
      assert DoesKind(kind, c, r, p, change, amount, minted, 0);
    } else {
      RepayIs(c, r, p, amount);
      RepaySucceeds(c, r, p, amount);
      hide Repay;
      hide AssetFromD;
      hide Floor;
      var (held, toBurn) := (DTokens(p, c.index), Floor(amount * SCALAR_9, r.dRate));
      assert DoesKind(kind, c, r, p, change, amount, Min(held, toBurn), if toBurn > held then amount - AssetFromD(r, held) else 0);
    }
  }

  lemma PartPositive(part: int, whole: int, n: int, d: int)
    requires PartUp(part, whole, n, d) && whole > 0 && n > 0 && d > 0
    ensures part > 0
  {
    MulMono(1, whole, n);
    if part <= 0 {
      MulMono(part, 0, d);
    }
  }

  lemma BurnPositive(r: ReserveData, held: int, amount: int, burned: int, out: int)
    requires FairBurn(r, held, amount, burned, out) && held > 0 && amount > 0 && r.bRate > 0
    ensures burned > 0
  {
    var toBurn :| PartUp(toBurn, amount, SCALAR_9, r.bRate) && burned == Min(held, toBurn);
    PartPositive(toBurn, amount, SCALAR_9, r.bRate);
  }

  // ----- round trips -----

  /** Supplying and then withdrawing any amount at the same rate never leaves the user with more, counting
      what stays supplied at its worth. */
  lemma SupplyThenWithdraw(c: ReserveConfig, r: ReserveData, p: Positions, amount: int, back: int)
    requires r.bRate > 0 && PositionsOk(p) && amount >= 0 && back >= 0
    requires Supply(c, r, p, amount).Ok?
    ensures var s := Supply(c, r, p, amount).value;
      Withdraw(c, s.reserve, s.positions, back).Ok? ==>
        var w := Withdraw(c, s.reserve, s.positions, back).value;
        Out(w) + AssetFromB(r, Amount(w.positions.supply, c.index)) <= amount + AssetFromB(r, Amount(p.supply, c.index))
  {
    hide Floor;
    hide Ceil;
    MintedWorth(r.bRate, Amount(p.supply, c.index), amount);
    var s := Supply(c, r, p, amount).value;
    var held := Amount(s.positions.supply, c.index);
    BurnedWorth(s.reserve, held, back, held);
    hide Burn;
  }

  /** The same of supply put up as collateral. */
  lemma CollateralThenWithdraw(c: ReserveConfig, r: ReserveData, p: Positions, amount: int, back: int)
    requires r.bRate > 0 && PositionsOk(p) && amount >= 0 && back >= 0
    requires SupplyCollateral(c, r, p, amount).Ok?
    ensures var s := SupplyCollateral(c, r, p, amount).value;
      WithdrawCollateral(c, s.reserve, s.positions, back).Ok? ==>
        var w := WithdrawCollateral(c, s.reserve, s.positions, back).value;
        Out(w) + AssetFromB(r, Amount(w.positions.collateral, c.index)) <= amount + AssetFromB(r, Amount(p.collateral, c.index))
  {
    hide Floor;
    hide Ceil;
    MintedWorth(r.bRate, Amount(p.collateral, c.index), amount);
    var s := SupplyCollateral(c, r, p, amount).value;
    var held := Amount(s.positions.collateral, c.index);
    BurnedWorth(s.reserve, held, back, held);
    hide Burn;
  }

  /** Borrowing and then repaying any amount at the same rate never leaves the user owing less than was
      borrowed, counting what is still owed at its worth. */
  lemma {:induction false} BorrowThenRepay(c: ReserveConfig, r: ReserveData, p: Positions, amount: int, back: int)
    requires r.dRate > 0 && PositionsOk(p) && amount >= 0 && back >= 0
    requires Borrow(c, r, p, amount).Ok?
    ensures var b := Borrow(c, r, p, amount).value;
      Repay(c, b.reserve, b.positions, back).Ok? ==>
        var w := Repay(c, b.reserve, b.positions, back).value;
        Paid(w) - Out(w) + AssetFromD(r, DTokens(w.positions, c.index)) >= amount + AssetFromD(r, DTokens(p, c.index))
  {
    hide Floor;
    hide Ceil;
    hide Utilization;
    OwedWorth(r.dRate, Amount(p.liabilities, c.index), amount);
    var b := Borrow(c, r, p, amount).value;
    var held := Amount(b.positions.liabilities, c.index);
    RepaidWorth(b.reserve, held, back, held);
  }

  /** A repayment aborts only when it burns nothing or when nothing is supplied: the refund is never negative. */
  lemma RepaySucceeds(c: ReserveConfig, r: ReserveData, p: Positions, amount: int)
    requires r.dRate > 0 && r.bRate > 0 && PositionsOk(p) && amount >= 0 && r.bSupply >= 0
    ensures Repay(c, r, p, amount).Ok? <==>
      DTokens(p, c.index) > 0 && Floor(amount * SCALAR_9, r.dRate) > 0 && TotalSupply(r) != 0
  {
    hide Floor;
    hide Ceil;
    RepaidWorth(r, Amount(p.liabilities, c.index), amount, 0);
    FloorNonNeg(amount * SCALAR_9, r.dRate);
  }
}
