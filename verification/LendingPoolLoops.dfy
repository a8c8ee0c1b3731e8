/** The loops that take positions from a user and give them to another (pool/src/pool/user.rs): their turns, and
    that they come to the moves of the lending pool's transitions. */
module LendingPoolLoops {
  import opened Outcomes
  import opened Totals
  import opened Interest
  import opened Reserves
  import opened Auctions
  import opened PoolUsers
  import opened PoolStates
  import opened LendingPools
  import opened LendingPoolProofs

  /** The sender's positions and the transfers gathered do not change what loads. */
  lemma SameLoadAll(b: Batch, c: Batch, assets: set<Address>)
    requires c.pool == b.pool.(accounts := c.pool.accounts) && c.cache == b.cache
    ensures LoadAll(c, assets) == LoadAll(b, assets)
  {
    forall a: Address
      ensures LoadReserve(c, a) == LoadReserve(b, a)
    {
      hide Load;
    }
    hide LoadReserve;
    if LoadAll(b, assets).Ok? {
      assert LoadAll(c, assets).Ok?;
      assert LoadAll(c, assets).value == LoadAll(b, assets).value;
    } else {
      var a :| a in assets && LoadReserve(b, a).Abort?;
      assert LoadReserve(c, a).Abort?;
    }
  }

  lemma LoadAllTurn(b: Batch, assets: set<Address>, a: Address)
    requires LoadAll(b, assets).Ok?
    ensures LoadAll(b, assets + {a}).Ok? <==> LoadReserve(b, a).Ok?
    ensures LoadReserve(b, a).Ok? ==> LoadAll(b, assets + {a}).value == LoadAll(b, assets).value[a := LoadReserve(b, a).value]
  {
    if a in b.cache && LoadReserve(b, a).Ok? {
      assert LoadReserve(b, a) == Ok(b.cache[a]);
    }
    hide LoadReserve;
  }

  // ----- loops that take and give positions -----

  /** Both loops of rm_positions. */
  function RmFrom(b: Batch, u: Positions, collateral: map<Address, int>, liabilities: map<Address, int>): Outcome<(Positions, map<Address, ReserveData>)>
  {
    var (v, cache) :- TakeFrom(b, u, false, collateral);
    TakeFrom(b.(cache := cache), v, true, liabilities)
  }

  /** What is taken has been loaded. */
  lemma RmLoads(b: Batch, u: Positions, liabilities: map<Address, int>)
    ensures RmFrom(b, u, map[], liabilities).Ok? ==> LoadAll(b, liabilities.Keys).Ok?
  {
    NothingTaken(b, u, false);
    hide LoadAll;
    hide TakeAll;
    hide Shrunk;
  }

  /** Both loops of add_positions. */
  function AddTo(b: Batch, u: Positions, collateral: map<Address, int>, liabilities: map<Address, int>): Outcome<(Positions, map<Address, ReserveData>)>
  {
    var (v, cache) :- GiveTo(b, u, false, collateral);
    GiveTo(b.(cache := cache), v, true, liabilities)
  }

  ghost predicate Part(some: map<Address, int>, all: map<Address, int>)
  {
    forall a :: a in some ==> a in all && some[a] == all[a]
  }

  lemma DoneIsPart(m: map<Address, int>, left: map<Address, int>, a: Address)
    requires left.Keys <= m.Keys && a in left
    ensures a in m && Part(Done(m, left)[a := m[a]], m)
  {}

  lemma NothingLoaded(b: Batch, debt: bool)
    ensures LoadAll(b, {}) == Ok(b.cache)
    ensures Shrunk(b.cache, debt, map[]) == b.cache == Grown(b.cache, debt, map[])
  {
    hide LoadReserve;
    assert LoadAll(b, {}).value == b.cache;
  }

  lemma NothingTaken(b: Batch, u: Positions, debt: bool)
    ensures TakeFrom(b, u, debt, map[]) == Ok((u, b.cache))
  {
    var none: map<Address, int> := map[];
    assert none.Keys == {};
    NothingLoaded(b, debt);
    hide LoadAll;
    hide Shrunk;
    assert Indices(b.pool.resList, none) == {};
    assert TakeAll(b.pool.resList, Held(u, debt), none).value == Held(u, debt);
  }

  lemma NothingGiven(b: Batch, u: Positions, debt: bool)
    ensures GiveTo(b, u, debt, map[]) == Ok((u, b.cache))
  {
    var none: map<Address, int> := map[];
    assert none.Keys == {};
    NothingLoaded(b, debt);
    hide LoadAll;
    hide Grown;
    assert Indices(b.pool.resList, none) == {};
    assert GiveAll(b.pool.resList, Held(u, debt), none) == Held(u, debt);
  }

  lemma LoadAllPart(b: Batch, some: set<Address>, all: set<Address>)
    requires some <= all && LoadAll(b, some).Abort?
    ensures LoadAll(b, all).Abort?
  {
    hide LoadReserve;
  }

  lemma TakeAllPart(resList: seq<Address>, m: map<Address, int>, some: map<Address, int>, all: map<Address, int>)
    requires Part(some, all) && TakeAll(resList, m, some).Abort?
    ensures TakeAll(resList, m, all).Abort?
  {
    var i :| i in Indices(resList, some) && Amount(m, i) < AtIndex(resList, some, i);
    assert i in Indices(resList, all) && AtIndex(resList, all, i) == AtIndex(resList, some, i);
  }

  lemma TakeStops(b: Batch, u: Positions, debt: bool, some: map<Address, int>, all: map<Address, int>)
    requires Part(some, all) && TakeFrom(b, u, debt, some).Abort?
    ensures TakeFrom(b, u, debt, all).Abort?
  {
    if LoadAll(b, some.Keys).Abort? {
      LoadAllPart(b, some.Keys, all.Keys);
    }
    hide LoadAll;
    if TakeAll(b.pool.resList, Held(u, debt), some).Abort? {
      TakeAllPart(b.pool.resList, Held(u, debt), some, all);
    }
    hide TakeAll;
    hide Shrunk;
  }

  lemma GiveStops(b: Batch, u: Positions, debt: bool, some: map<Address, int>, all: map<Address, int>)
    requires Part(some, all) && GiveTo(b, u, debt, some).Abort?
    ensures GiveTo(b, u, debt, all).Abort?
  {
    if LoadAll(b, some.Keys).Abort? {
      LoadAllPart(b, some.Keys, all.Keys);
    }
    hide LoadAll;
  }

  /** The index of one more asset is untouched so far. */
  lemma IndexTurn(p: Pool, amounts: map<Address, int>, a: Address, amount: int, i: nat)
    requires Listed(p) && a in p.configs && a !in amounts
    ensures var index := p.configs[a].index;
      && index !in Indices(p.resList, amounts)
      && Indices(p.resList, amounts[a := amount]) == Indices(p.resList, amounts) + {index}
      && AtIndex(p.resList, amounts[a := amount], i) == if i == index then amount else AtIndex(p.resList, amounts, i)
  {
    hide ValidMetadata;
  }

  /** The same for every index at once. */
  ghost predicate Widened(p: Pool, amounts: map<Address, int>, a: Address, amount: int, index: nat)
  {
    && index !in Indices(p.resList, amounts) && AtIndex(p.resList, amounts, index) == 0
    && Indices(p.resList, amounts[a := amount]) == Indices(p.resList, amounts) + {index}
    && (forall i: nat :: AtIndex(p.resList, amounts[a := amount], i) == if i == index then amount else AtIndex(p.resList, amounts, i))
  }

  lemma IndicesTurn(p: Pool, amounts: map<Address, int>, a: Address, amount: int)
    requires Listed(p) && a in p.configs && a !in amounts
    ensures Widened(p, amounts, a, amount, p.configs[a].index)
  {
    forall i: nat
      ensures var index := p.configs[a].index;
        && index !in Indices(p.resList, amounts)
        && Indices(p.resList, amounts[a := amount]) == Indices(p.resList, amounts) + {index}
        && AtIndex(p.resList, amounts[a := amount], i) == if i == index then amount else AtIndex(p.resList, amounts, i)
    {
      IndexTurn(p, amounts, a, amount, i);
    }
    IndexApart(p, amounts, a);
    hide Listed;
    hide Indices;
    hide AtIndex;
  }

  lemma IndexApart(p: Pool, amounts: map<Address, int>, a: Address)
    requires Listed(p) && a in p.configs && a !in amounts
    ensures AtIndex(p.resList, amounts, p.configs[a].index) == 0
  {
    hide ValidMetadata;
  }

  lemma TakeAllTurn(p: Pool, m: map<Address, int>, amounts: map<Address, int>, a: Address, amount: int, index: nat)
    requires Widened(p, amounts, a, amount, index) && amount != 0 && TakeAll(p.resList, m, amounts).Ok?
    ensures TakeAll(p.resList, m, amounts[a := amount]).Ok? <==> Amount(m, index) >= amount
    ensures Amount(TakeAll(p.resList, m, amounts).value, index) == Amount(m, index)
  {
    hide Indices;
    hide AtIndex;
    var more := amounts[a := amount];
    if Amount(m, index) < amount {
      assert index in Indices(p.resList, more) && Amount(m, index) < AtIndex(p.resList, more, index);
    } else {
      forall i | i in Indices(p.resList, more)
        ensures Amount(m, i) >= AtIndex(p.resList, more, i)
      {
        if i != index {
          assert i in Indices(p.resList, amounts);
        }
      }
    }
  }

  lemma TakenTurn(p: Pool, m: map<Address, int>, amounts: map<Address, int>, a: Address, amount: int, index: nat)
    requires Widened(p, amounts, a, amount, index) && amount != 0 && TakeAll(p.resList, m, amounts).Ok?
    requires TakeAll(p.resList, m, amounts[a := amount]).Ok? && Amount(m, index) >= amount
    requires Amount(TakeAll(p.resList, m, amounts).value, index) == Amount(m, index)
    ensures Taken(TakeAll(p.resList, m, amounts).value, index, amount, NegativeAmount)
      == Ok(TakeAll(p.resList, m, amounts[a := amount]).value)
  {
    hide Indices;
    hide AtIndex;
    var (k, n) := (TakeAll(p.resList, m, amounts).value, TakeAll(p.resList, m, amounts[a := amount]).value);
    forall i: nat | i != index
      ensures i in n <==> i in k
      ensures i in n ==> n[i] == k[i]
    {}
    if Amount(m, index) == amount {
      assert n == k - {index};
    } else {
      assert n == k[index := Amount(k, index) - amount];
    }
  }

  lemma ShiftTurn(cache: map<Address, ReserveData>, debt: bool, amounts: map<Address, int>, a: Address, amount: int, r: ReserveData)
    requires a !in amounts
    ensures Shrunk(cache[a := r], debt, amounts[a := amount]) == Shrunk(cache, debt, amounts)[a := Raise(r, debt, -amount)]
    ensures Grown(cache[a := r], debt, amounts[a := amount]) == Grown(cache, debt, amounts)[a := Raise(r, debt, amount)]
  {
    hide Raise;
  }

  lemma CacheTurn(b: Batch, debt: bool, amounts: map<Address, int>, a: Address, amount: int)
    requires a !in amounts && LoadAll(b, amounts.Keys).Ok?
    ensures LoadAll(b, amounts[a := amount].Keys).Ok? <==> LoadReserve(b, a).Ok?
    ensures LoadReserve(b, a).Ok? ==>
      Shrunk(LoadAll(b, amounts[a := amount].Keys).value, debt, amounts[a := amount])
        == Shrunk(LoadAll(b, amounts.Keys).value, debt, amounts)[a := Raise(LoadReserve(b, a).value, debt, -amount)]
    ensures LoadReserve(b, a).Ok? ==>
      Grown(LoadAll(b, amounts[a := amount].Keys).value, debt, amounts[a := amount])
        == Grown(LoadAll(b, amounts.Keys).value, debt, amounts)[a := Raise(LoadReserve(b, a).value, debt, amount)]
  {
    hide LoadReserve;
    hide Raise;
    hide Shrunk;
    hide Grown;
    assert amounts[a := amount].Keys == amounts.Keys + {a};
    LoadAllTurn(b, amounts.Keys, a);
    hide LoadAll;
    if LoadReserve(b, a).Ok? {
      ShiftTurn(LoadAll(b, amounts.Keys).value, debt, amounts, a, amount, LoadReserve(b, a).value);
    }
  }

  lemma LoadUntouched(b: Batch, debt: bool, amounts: map<Address, int>, a: Address)
    requires a !in amounts && LoadAll(b, amounts.Keys).Ok?
    ensures var cache := LoadAll(b, amounts.Keys).value;
      && LoadReserve(b.(cache := Shrunk(cache, debt, amounts)), a) == LoadReserve(b, a)
      && LoadReserve(b.(cache := Grown(cache, debt, amounts)), a) == LoadReserve(b, a)
  {
    hide Load;
  }

  lemma ZeroTurn(amounts: map<Address, int>, a: Address, amount: int)
    requires a !in amounts
    ensures HasZero(amounts[a := amount]) <==> amount == 0 || HasZero(amounts)
  {
    if amount == 0 {
      assert amounts[a := amount][a] == 0;
    } else if HasZero(amounts) {
      var x :| x in amounts && amounts[x] == 0;
      assert amounts[a := amount][x] == 0;
    }
  }

  /** One turn of a loop that takes: whether it goes through. */
  lemma TakeTurnSucceeds(b: Batch, u: Positions, debt: bool, amounts: map<Address, int>, a: Address, amount: int)
    requires Listed(b.pool) && a !in amounts && TakeFrom(b, u, debt, amounts).Ok?
    ensures LoadAll(b, amounts.Keys).Ok? && TakeAll(b.pool.resList, Held(u, debt), amounts).Ok?
    ensures TakeFrom(b, u, debt, amounts[a := amount]).Ok? <==>
      amount != 0 && LoadReserve(b, a).Ok? && TakeAll(b.pool.resList, Held(u, debt), amounts[a := amount]).Ok?
  {
    CacheTurn(b, debt, amounts, a, amount);
    ZeroTurn(amounts, a, amount);
    hide LoadAll;
    hide LoadReserve;
    hide TakeAll;
    hide Listed;
    hide Shrunk;
    hide HasZero;
  }

  /** And what it does. */
  lemma TakeTurn(b: Batch, u: Positions, debt: bool, amounts: map<Address, int>, a: Address, amount: int)
    requires Listed(b.pool) && a !in amounts && TakeFrom(b, u, debt, amounts).Ok?
    ensures var (v, cache) := TakeFrom(b, u, debt, amounts).value;
      var loaded := LoadReserve(b.(cache := cache), a);
      var next := TakeFrom(b, u, debt, amounts[a := amount]);
      if loaded.Abort? then next.Abort?
      else
        var taken := Taken(Held(v, debt), b.pool.configs[a].index, amount, NegativeAmount);
        if taken.Abort? then next.Abort?
        else next == Ok((SetHeld(v, debt, taken.value), cache[a := Raise(loaded.value, debt, -amount)]))
  {
    hide LoadAll;
    hide LoadReserve;
    hide TakeAll;
    hide Listed;
    hide Shrunk;
    hide Raise;
    hide Widened;
    TakeTurnSucceeds(b, u, debt, amounts, a, amount);
    CacheTurn(b, debt, amounts, a, amount);
    LoadUntouched(b, debt, amounts, a);
    if LoadReserve(b, a).Ok? && amount != 0 {
      var (m, index) := (Held(u, debt), b.pool.configs[a].index);
      IndicesTurn(b.pool, amounts, a, amount);
      TakeAllTurn(b.pool, m, amounts, a, amount, index);
      if Amount(m, index) >= amount {
        TakenTurn(b.pool, m, amounts, a, amount, index);
      }
    }
  }

  lemma GiveAllTurn(p: Pool, m: map<Address, int>, amounts: map<Address, int>, a: Address, amount: int, index: nat)
    requires Widened(p, amounts, a, amount, index) && amount != 0
    ensures Added(GiveAll(p.resList, m, amounts), index, amount, NegativeAmount) == Ok(GiveAll(p.resList, m, amounts[a := amount]))
  {
    hide Indices;
    hide AtIndex;
    assert GiveAll(p.resList, m, amounts)[index := Amount(GiveAll(p.resList, m, amounts), index) + amount]
        == GiveAll(p.resList, m, amounts[a := amount]);
  }

  lemma GiveTurnSucceeds(b: Batch, u: Positions, debt: bool, amounts: map<Address, int>, a: Address, amount: int)
    requires a !in amounts && GiveTo(b, u, debt, amounts).Ok?
    ensures LoadAll(b, amounts.Keys).Ok?
    ensures GiveTo(b, u, debt, amounts[a := amount]).Ok? <==> amount != 0 && LoadReserve(b, a).Ok?
  {
    CacheTurn(b, debt, amounts, a, amount);
    ZeroTurn(amounts, a, amount);
    hide LoadAll;
    hide LoadReserve;
    hide GiveAll;
    hide Grown;
    hide HasZero;
  }

  /** One turn of a loop that gives. */
  lemma GiveTurn(b: Batch, u: Positions, debt: bool, amounts: map<Address, int>, a: Address, amount: int)
    requires Listed(b.pool) && a !in amounts && GiveTo(b, u, debt, amounts).Ok?
    ensures var (v, cache) := GiveTo(b, u, debt, amounts).value;
      var loaded := LoadReserve(b.(cache := cache), a);
      var next := GiveTo(b, u, debt, amounts[a := amount]);
      if loaded.Abort? then next.Abort?
      else
        var added := Added(Held(v, debt), b.pool.configs[a].index, amount, NegativeAmount);
        if added.Abort? then next.Abort?
        else next == Ok((SetHeld(v, debt, added.value), cache[a := Raise(loaded.value, debt, amount)]))
  {
    hide LoadAll;
    hide LoadReserve;
    hide GiveAll;
    hide Listed;
    hide Grown;
    hide Raise;
    hide Widened;
    GiveTurnSucceeds(b, u, debt, amounts, a, amount);
    CacheTurn(b, debt, amounts, a, amount);
    LoadUntouched(b, debt, amounts, a);
    if LoadReserve(b, a).Ok? && amount != 0 {
      IndicesTurn(b.pool, amounts, a, amount);
      GiveAllTurn(b.pool, Held(u, debt), amounts, a, amount, b.pool.configs[a].index);
    }
  }

  lemma NoneByAsset(configs: map<Address, ReserveConfig>)
    ensures ByAsset(configs, map[]) == map[]
  {}

  lemma ByAssetTurn(p: Pool, m: map<Address, int>, i: nat, amount: int)
    requires Listed(p) && i !in m && i < |p.resList|
    ensures ByAsset(p.configs, m[i := amount]) == ByAsset(p.configs, m)[p.resList[i] := amount]
  {
    hide ValidMetadata;
  }

  /** Where a batch stands does not matter to the loops. */
  ghost predicate SameLoads(b: Batch, c: Batch)
  {
    c.pool == b.pool.(accounts := c.pool.accounts) && c.cache == b.cache
  }

  lemma TakeIs(c: Batch, b: Batch, user: Address, debt: bool, amounts: map<Address, int>)
    requires SameLoads(b, c)
    ensures var spec := TakeFrom(b, PositionsOf(c.pool, user), debt, amounts);
      if spec.Abort? then Take(c, user, debt, amounts).Abort?
      else Take(c, user, debt, amounts) == Ok(SetPositions(c, user, spec.value.0).(cache := spec.value.1))
  {
    SameLoadAll(b, c, amounts.Keys);
    hide LoadAll;
    hide TakeAll;
    hide Shrunk;
  }

  lemma GiveIs(c: Batch, b: Batch, user: Address, debt: bool, amounts: map<Address, int>)
    requires SameLoads(b, c)
    ensures var spec := GiveTo(b, PositionsOf(c.pool, user), debt, amounts);
      if spec.Abort? then Give(c, user, debt, amounts).Abort?
      else Give(c, user, debt, amounts) == Ok(SetPositions(c, user, spec.value.0).(cache := spec.value.1))
  {
    SameLoadAll(b, c, amounts.Keys);
    hide LoadAll;
    hide GiveAll;
    hide Grown;
  }

  lemma SetTwice(b: Batch, user: Address, v: Positions, cache: map<Address, ReserveData>, w: Positions, next: map<Address, ReserveData>)
    ensures SetPositions(SetPositions(b, user, v).(cache := cache), user, w).(cache := next) == SetPositions(b, user, w).(cache := next)
    ensures PositionsOf(SetPositions(b, user, v).pool, user) == v
  {}

  lemma RmIsLoops(c: Batch, b: Batch, user: Address, lot: map<Address, int>, bid: map<Address, int>)
    requires SameLoads(b, c)
    ensures var spec := RmFrom(b, PositionsOf(c.pool, user), lot, bid);
      if spec.Abort? then RmPositions(c, user, lot, bid).Abort?
      else RmPositions(c, user, lot, bid) == Ok(SetPositions(c, user, spec.value.0).(cache := spec.value.1))
  {
    hide TakeFrom;
    hide Take;
    TakeIs(c, b, user, false, lot);
    var first := TakeFrom(b, PositionsOf(c.pool, user), false, lot);
    if first.Ok? {
      TakeIs(Take(c, user, false, lot).value, b.(cache := first.value.1), user, true, bid);
      var second := TakeFrom(b.(cache := first.value.1), first.value.0, true, bid);
      if second.Ok? {
        SetTwice(c, user, first.value.0, first.value.1, second.value.0, second.value.1);
      }
    }
  }

  lemma AddIsLoops(c: Batch, b: Batch, user: Address, lot: map<Address, int>, bid: map<Address, int>)
    requires SameLoads(b, c)
    ensures var spec := AddTo(b, PositionsOf(c.pool, user), lot, bid);
      if spec.Abort? then AddPositions(c, user, lot, bid).Abort?
      else AddPositions(c, user, lot, bid) == Ok(SetPositions(c, user, spec.value.0).(cache := spec.value.1))
  {
    hide GiveTo;
    hide Give;
    GiveIs(c, b, user, false, lot);
    var first := GiveTo(b, PositionsOf(c.pool, user), false, lot);
    if first.Ok? {
      GiveIs(Give(c, user, false, lot).value, b.(cache := first.value.1), user, true, bid);
      var second := GiveTo(b.(cache := first.value.1), first.value.0, true, bid);
      if second.Ok? {
        SetTwice(c, user, first.value.0, first.value.1, second.value.0, second.value.1);
      }
    }
  }

  /** A move of positions as its loops, wherever the two users' positions are kept. */
  lemma MoveIsLoops(c: Batch, b: Batch, user: Address, to: Address, lot: map<Address, int>, bid: map<Address, int>)
    requires SameLoads(b, c) && user != to
    ensures RmFrom(b, PositionsOf(c.pool, user), lot, bid).Abort? ==> MoveBetween(c, user, to, lot, bid).Abort?
    ensures RmFrom(b, PositionsOf(c.pool, user), lot, bid).Ok? ==>
      var rm := RmFrom(b, PositionsOf(c.pool, user), lot, bid).value;
      var add := AddTo(b.(cache := rm.1), PositionsOf(c.pool, to), lot, bid);
      if add.Abort? then MoveBetween(c, user, to, lot, bid).Abort?
      else MoveBetween(c, user, to, lot, bid) == Ok(SetPositions(SetPositions(c, user, rm.0), to, add.value.0).(cache := add.value.1))
  {
    hide RmFrom;
    hide AddTo;
    hide RmPositions;
    hide AddPositions;
    RmIsLoops(c, b, user, lot, bid);
    var rm := RmFrom(b, PositionsOf(c.pool, user), lot, bid);
    if rm.Ok? {
      AddIsLoops(RmPositions(c, user, lot, bid).value, b.(cache := rm.value.1), to, lot, bid);
    }
  }

  /** Both users' positions and the reserves after a move. */
  function MoveFrom(b: Batch, u: Positions, f: Positions, lot: map<Address, int>, bid: map<Address, int>)
    : Outcome<(Positions, Positions, map<Address, ReserveData>)>
  {
    var (u1, taken) :- RmFrom(b, u, lot, bid);
    var (f1, given) :- AddTo(b.(cache := taken), f, lot, bid);
    Ok((u1, f1, given))
  }

  lemma FillUserIs(c: Batch, b: Batch, from: Address, user: Address, fill: AuctionData)
    requires SameLoads(b, c) && from != user
    ensures var spec := MoveFrom(b, PositionsOf(c.pool, user), PositionsOf(c.pool, from), fill.lot, fill.bid);
      if spec.Abort? then FillUserLiquidation(c, from, user, fill).Abort?
      else FillUserLiquidation(c, from, user, fill) == Ok(AfterMove(c, from, user, spec.value))
  {
    MoveIsLoops(c, b, user, from, fill.lot, fill.bid);
    hide RmFrom;
    hide AddTo;
    hide MoveBetween;
    hide PositionsOf;
  }

  function AfterMove(c: Batch, from: Address, user: Address, moved: (Positions, Positions, map<Address, ReserveData>)): Batch
  {
    c.(pool := c.pool.(accounts := c.pool.accounts[user := moved.0][from := moved.1]), cache := moved.2)
  }

  /** A write-off from the backstop's positions: these, the reserves and the worth counted afterwards. */
  function WriteOffFrom(b: Batch, u: Positions, burned: map<Address, int>, reply: Reply)
    : Outcome<(Positions, map<Address, ReserveData>, map<Address, int>)>
  {
    if u.liabilities == map[] || BackstopThreshold(reply.blnd, reply.usdc) >= 3 then Ok((u, b.cache, burned))
    else if exists i :: i in u.liabilities && i >= |b.pool.resList| then Abort(ArithmeticError)
    else
      var amounts := ByAsset(b.pool.configs, u.liabilities);
      var loaded :- LoadAll(b, amounts.Keys);
      var (v, cache) :- RmFrom(b, u, map[], amounts);
      Ok((v, cache, WrittenOff(burned, loaded, amounts)))
  }

  lemma WriteOffIs(c: Batch, b: Batch, reply: Reply)
    requires SameLoads(b, c) && c.pool.backstop in c.pool.accounts
    ensures var spec := WriteOffFrom(b, PositionsOf(c.pool, c.pool.backstop), c.flows.burned, reply);
      if spec.Abort? then WriteOff(c, reply).Abort?
      else
        var (u, cache, burned) := spec.value;
        WriteOff(c, reply) == Ok(SetPositions(c, c.pool.backstop, u).(cache := cache, flows := c.flows.(burned := burned)))
  {
    hide BackstopThreshold;
    hide ByAsset;
    hide WrittenOff;
    hide RmFrom;
    hide LoadAll;
    hide RmPositions;
    hide PositionsOf;
    var user := c.pool.backstop;
    var amounts := ByAsset(b.pool.configs, PositionsOf(c.pool, user).liabilities);
    SameLoadAll(b, c, amounts.Keys);
    RmIsLoops(c, b, user, map[], amounts);
    SetSame(c, user);
  }

  /** The fill of a bad debt auction from the positions of backstop and filler, up to what is stored. */
  function BadDebtFrom(b: Batch, u: Positions, f: Positions, burned: map<Address, int>, fill: AuctionData, reply: Reply)
    : Outcome<(Positions, Positions, map<Address, ReserveData>, map<Address, int>)>
  {
    var (u1, taken) :- RmFrom(b, u, map[], fill.bid);
    var (f1, given) :- AddTo(b.(cache := taken), f, map[], fill.bid);
    if b.pool.backstopToken !in fill.lot then Abort(ArithmeticError)
    else if !reply.drawn then Abort(TransferFailed)
    else
      var (u2, cache, more) :- WriteOffFrom(b.(cache := given), u1, burned, reply);
      Ok((u2, f1, cache, more))
  }

  lemma BadDebtIs(c: Batch, b: Batch, from: Address, percent: int, reply: Reply)
    requires SameLoads(b, c) && from != c.pool.backstop && c.pool.badDebt.Some?
    requires Scale(c.pool.badDebt.value, percent, c.pool.block).Ok?
    ensures var (fill, rest) := Scale(c.pool.badDebt.value, percent, c.pool.block).value;
      var spec := BadDebtFrom(b, PositionsOf(c.pool, c.pool.backstop), PositionsOf(c.pool, from), c.flows.burned, fill, reply);
      if spec.Abort? then FillBadDebt(c, from, c.pool.backstop, percent, reply).Abort?
      else FillBadDebt(c, from, c.pool.backstop, percent, reply) == Ok(AfterBadDebt(c, from, spec.value, rest))
  {
    hide Scale;
    hide RmFrom;
    hide AddTo;
    hide WriteOff;
    hide WriteOffFrom;
    hide MoveBetween;
    hide PositionsOf;
    hide SetPositions;
    var fill := Scale(c.pool.badDebt.value, percent, c.pool.block).value.0;
    var user := c.pool.backstop;
    MoveIsLoops(c, b, user, from, map[], fill.bid);
    var rm := RmFrom(b, PositionsOf(c.pool, user), map[], fill.bid);
    if rm.Ok? {
      var add := AddTo(b.(cache := rm.value.1), PositionsOf(c.pool, from), map[], fill.bid);
      if add.Ok? {
        SetBoth(c, b, user, rm.value.0, from, add.value.0, add.value.1);
        WriteOffIs(MoveBetween(c, user, from, map[], fill.bid).value, b.(cache := add.value.1), reply);
        var w := WriteOffFrom(b.(cache := add.value.1), rm.value.0, c.flows.burned, reply);
        if w.Ok? {
          SetThrice(c, user, rm.value.0, from, add.value.0, add.value.1, w.value.0);
        }
      }
    }
  }

  /** What no fill of a bad debt auction gets past. */
  lemma BadDebtRefused(c: Batch, from: Address, user: Address, percent: int, reply: Reply)
    requires user == from || user != c.pool.backstop || c.pool.badDebt.None?
      || Scale(c.pool.badDebt.value, percent, c.pool.block).Abort?
    ensures FillBadDebt(c, from, user, percent, reply).Abort?
  {
    hide Scale;
    hide MoveBetween;
    hide WriteOff;
  }

  function AfterBadDebt(c: Batch, from: Address, filled: (Positions, Positions, map<Address, ReserveData>, map<Address, int>),
                        rest: Option<AuctionData>): Batch
  {
    Batch(c.pool.(accounts := c.pool.accounts[c.pool.backstop := filled.0][from := filled.1], badDebt := rest), filled.2,
          c.flows.(burned := filled.3), true)
  }

  lemma SetSame(b: Batch, user: Address)
    requires user in b.pool.accounts
    ensures SetPositions(b, user, PositionsOf(b.pool, user)) == b
  {
    assert b.pool.accounts[user := b.pool.accounts[user]] == b.pool.accounts;
  }

  /** Of two users whose positions have been set, the first still has them; nothing else has moved. */
  lemma SetBoth(c: Batch, b: Batch, user: Address, u: Positions, other: Address, f: Positions, cache: map<Address, ReserveData>)
    requires user != other && SameLoads(b, c)
    ensures var n := SetPositions(SetPositions(c, user, u), other, f).(cache := cache);
      && user in n.pool.accounts && PositionsOf(n.pool, user) == u && SameLoads(b.(cache := cache), n)
      && n.pool == c.pool.(accounts := n.pool.accounts) && n.flows == c.flows
  {}

  lemma SetThrice(c: Batch, user: Address, u: Positions, other: Address, f: Positions, cache: map<Address, ReserveData>, v: Positions)
    requires user != other
    ensures SetPositions(SetPositions(SetPositions(c, user, u), other, f).(cache := cache), user, v)
      == c.(pool := c.pool.(accounts := c.pool.accounts[user := v][other := f]), cache := cache)
  {
    assert c.pool.accounts[user := u][other := f][user := v] == c.pool.accounts[user := v][other := f];
  }

  /** Which error an amount of zero is refused with does not matter to what is taken or given. */
  lemma AnyError(m: map<Address, int>, index: nat, amount: int, e: Error, f: Error)
    ensures Taken(m, index, amount, e).Ok? <==> Taken(m, index, amount, f).Ok?
    ensures Taken(m, index, amount, e).Ok? ==> Taken(m, index, amount, e) == Taken(m, index, amount, f)
    ensures Added(m, index, amount, e).Ok? <==> Added(m, index, amount, f).Ok?
    ensures Added(m, index, amount, e).Ok? ==> Added(m, index, amount, e) == Added(m, index, amount, f)
  {}

  // ----- bad debt -----

  lemma MergedTurn(m: map<Address, int>, done: map<Address, int>, i: Address, amount: int)
    requires i !in done
    ensures Merged(m, done[i := amount]) == Merged(m, done)[i := Amount(Merged(m, done), i) + amount]
  {}

  lemma PartLoads(b: Batch, resList: seq<Address>, m: map<Address, int>, i: nat)
    requires i in m && i < |resList|
    ensures LoadAll(b, AssetsOf(resList, m)).Ok? ==> LoadReserve(b, resList[i]).Ok?
  {
    hide LoadReserve;
    assert resList[i] in AssetsOf(resList, m);
  }

  lemma NothingMerged(m: map<Address, int>, resList: seq<Address>)
    ensures Merged(m, map[]) == m && AssetsOf(resList, map[]) == {}
  {}

  lemma AssetsTurn(resList: seq<Address>, done: map<Address, int>, i: nat, amount: int)
    requires i < |resList|
    ensures AssetsOf(resList, done[i := amount]) == AssetsOf(resList, done) + {resList[i]}
  {
    assert done[i := amount].Keys == done.Keys + {i};
  }

  /** A reserve already loaded loads as it did. */
  lemma LoadTwice(b: Batch, assets: set<Address>, a: Address)
    requires LoadAll(b, assets).Ok?
    ensures LoadReserve(b.(cache := LoadAll(b, assets).value), a) == LoadReserve(b, a)
  {
    hide Load;
  }
}
