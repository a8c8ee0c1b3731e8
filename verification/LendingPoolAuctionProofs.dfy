/** Filling auctions inside a submission keeps the lending pool's invariant: liquidations and bad debt move
    balances between two users, written-off debt is accounted for, an interest auction moves credit and cash
    out together. */
module LendingPoolAuctionProofs {
  import opened Outcomes
  import opened FixedPoint
  import opened Totals
  import opened Interest
  import opened Reserves
  import opened Auctions
  import opened PoolUsers
  import opened PoolStates
  import opened LendingPools
  import opened LendingPoolProofs

  // ----- amounts by asset -----

  ghost predicate AllPositive(amounts: map<Address, int>)
  {
    forall a :: a in amounts ==> amounts[a] > 0
  }

  lemma FillPositive(auction: AuctionData, percent: int, block: nat)
    requires Scale(auction, percent, block).Ok?
    ensures AllPositive(Scale(auction, percent, block).value.0.lot) && AllPositive(Scale(auction, percent, block).value.0.bid)
  {
    hide BidBase;
    hide LotBase;
    hide BidPaid;
    hide LotReceived;
    hide BidModifier;
    hide LotModifier;
  }

  lemma TakeAllTakes(resList: seq<Address>, m: map<Address, int>, amounts: map<Address, int>, i: nat)
    requires (forall j :: j in m ==> m[j] >= 0) && AllPositive(amounts) && TakeAll(resList, m, amounts).Ok?
    ensures Amount(TakeAll(resList, m, amounts).value, i) == Amount(m, i) - AtIndex(resList, amounts, i)
    ensures i in TakeAll(resList, m, amounts).value ==> TakeAll(resList, m, amounts).value[i] >= 0
  {
    if i >= |resList| {
      assert AtIndex(resList, amounts, i) == 0;
    }
  }

  lemma GiveAllGives(resList: seq<Address>, m: map<Address, int>, amounts: map<Address, int>, i: nat)
    requires (forall j :: j in m ==> m[j] >= 0) && AllPositive(amounts)
    ensures Amount(GiveAll(resList, m, amounts), i) == Amount(m, i) + AtIndex(resList, amounts, i)
    ensures i in GiveAll(resList, m, amounts) ==> GiveAll(resList, m, amounts)[i] >= 0
  {}

  /** Two users whose balances change by opposite amounts leave every total as it was. */
  lemma TransferKeepsTotals(p: Pool, u: Address, f: Address, pu: Positions, pf: Positions, i: nat)
    requires u != f
    requires BTokens(pu, i) + BTokens(pf, i) == BTokens(PositionsOf(p, u), i) + BTokens(PositionsOf(p, f), i)
    requires DTokens(pu, i) + DTokens(pf, i) == DTokens(PositionsOf(p, u), i) + DTokens(PositionsOf(p, f), i)
    ensures TotalB(p.accounts[u := pu][f := pf], i) == TotalB(p.accounts, i)
    ensures TotalD(p.accounts[u := pu][f := pf], i) == TotalD(p.accounts, i)
  {
    hide TotalB;
    hide TotalD;
    hide BTokens;
    hide DTokens;
    var q := p.(accounts := p.accounts[u := pu]);
    TotalsMove(p, u, pu, i);
    TotalsMove(q, f, pf, i);
    assert PositionsOf(q, f) == PositionsOf(p, f);
  }

  /** A transfer of balances between two users keeps everything. */
  lemma TransferKeeps(p: Pool, view: map<Address, ReserveData>, flows: Flows,
                      u: Address, f: Address, pu: Positions, pf: Positions)
    requires Books(p, view) && u != f && PositionsOk(pu) && PositionsOk(pf)
    requires forall i: nat :: BTokens(pu, i) + BTokens(pf, i) == BTokens(PositionsOf(p, u), i) + BTokens(PositionsOf(p, f), i)
    requires forall i: nat :: DTokens(pu, i) + DTokens(pf, i) == DTokens(PositionsOf(p, u), i) + DTokens(PositionsOf(p, f), i)
    ensures Preserves(p, view, flows, p.(accounts := p.accounts[u := pu][f := pf]), view, flows)
  {
    hide Listed;
    hide AccountsOk;
    hide Funded;
    hide CreditOk;
    hide ReserveOk;
    hide PositionsOk;
    hide BTokens;
    hide DTokens;
    hide TotalB;
    hide TotalD;
    hide PositionsOf;
    var q := p.(accounts := p.accounts[u := pu][f := pf]);
    ChangeAccount(p, u, pu);
    ChangeAccount(p.(accounts := p.accounts[u := pu]), f, pf);
    SameBooks(p, q, view, flows);
    forall i: nat
      ensures TotalB(q.accounts, i) == SupplyAt(q.resList, view, i) && TotalD(q.accounts, i) == DebtAt(q.resList, view, i)
    {
      TransferKeepsTotals(p, u, f, pu, pf, i);
      assert TotalB(p.accounts, i) == SupplyAt(p.resList, view, i);
    }
  }

  // ----- the loops that move positions -----

  /** The positions of two users once collateral and debt have moved between them. */
  function MovePositions(resList: seq<Address>, u: Positions, f: Positions, lot: map<Address, int>, bid: map<Address, int>): Outcome<(Positions, Positions)>
  {
    var collateral :- TakeAll(resList, u.collateral, lot);
    var liabilities :- TakeAll(resList, u.liabilities, bid);
    Ok((u.(collateral := collateral, liabilities := liabilities),
        f.(collateral := GiveAll(resList, f.collateral, lot), liabilities := GiveAll(resList, f.liabilities, bid))))
  }

  /** A reserve as a submission finds it. */
  ghost function Fetched(b: Batch, a: Address): ReserveData
  {
    if a in b.cache then b.cache[a] else if LoadReserve(b, a).Ok? then LoadReserve(b, a).value else NEW_RESERVE
  }

  /** One loop of taking (rise -1) or giving (rise 1): its reserves are loaded, their supplies moved by the amounts. */
  ghost predicate Moved(b: Batch, n: Batch, debt: bool, amounts: map<Address, int>, rise: int)
  {
    && n == b.(pool := b.pool.(accounts := n.pool.accounts), cache := n.cache)
    && n.cache.Keys == b.cache.Keys + amounts.Keys
    && (forall a :: Fetched(n, a) == Raise(Fetched(b, a), debt, rise * Amount(amounts, a)))
    && (forall a :: LoadReserve(n, a).Ok? <==> LoadReserve(b, a).Ok?)
  }

  ghost predicate AllLoad(b: Batch, assets: set<Address>)
  {
    forall a :: a in assets ==> LoadReserve(b, a).Ok?
  }

  lemma LoadAllFetches(b: Batch, assets: set<Address>)
    ensures LoadAll(b, assets).Ok? <==> AllLoad(b, assets)
    ensures LoadAll(b, assets).Ok? ==> LoadAll(b, assets).value.Keys == b.cache.Keys + assets
    ensures LoadAll(b, assets).Ok? ==>
      forall a :: a in LoadAll(b, assets).value ==> LoadAll(b, assets).value[a] == Fetched(b, a)
  {
    hide Load;
  }

  /** A cache that has moved, seen through loads. */
  lemma CacheMoved(b: Batch, n: Batch, cache: map<Address, ReserveData>, debt: bool, amounts: map<Address, int>, rise: int)
    requires LoadAll(b, amounts.Keys) == Ok(cache)
    requires n == b.(pool := b.pool.(accounts := n.pool.accounts), cache := n.cache)
    requires n.cache.Keys == cache.Keys
    requires forall a :: a in cache ==> n.cache[a] == Raise(cache[a], debt, rise * Amount(amounts, a))
    ensures Moved(b, n, debt, amounts, rise)
  {
    LoadAllFetches(b, amounts.Keys);
    forall a
      ensures LoadReserve(n, a).Ok? <==> LoadReserve(b, a).Ok?
      ensures Fetched(n, a) == Raise(Fetched(b, a), debt, rise * Amount(amounts, a))
    {
      LoadMoved(b, n, a);
      hide LoadReserve;
    }
    hide Fetched;
    hide Raise;
    hide LoadReserve;
  }

  lemma LoadMoved(b: Batch, n: Batch, a: Address)
    requires n == b.(pool := b.pool.(accounts := n.pool.accounts), cache := n.cache)
    ensures a !in n.cache && a !in b.cache ==> LoadReserve(n, a) == LoadReserve(b, a)
    ensures a in b.cache && a in n.cache ==> (LoadReserve(n, a).Ok? <==> LoadReserve(b, a).Ok?)
    ensures LoadReserve(b, a).Ok? && a in n.cache ==> LoadReserve(n, a).Ok?
  {
    hide Load;
  }

  lemma TakeMoves(b: Batch, user: Address, debt: bool, amounts: map<Address, int>)
    requires Take(b, user, debt, amounts).Ok?
    ensures Moved(b, Take(b, user, debt, amounts).value, debt, amounts, -1)
  {
    CacheMoved(b, Take(b, user, debt, amounts).value, LoadAll(b, amounts.Keys).value, debt, amounts, -1);
    hide LoadAll;
    hide Moved;
  }

  lemma GiveMoves(b: Batch, user: Address, debt: bool, amounts: map<Address, int>)
    requires Give(b, user, debt, amounts).Ok?
    ensures Moved(b, Give(b, user, debt, amounts).value, debt, amounts, 1)
  {
    CacheMoved(b, Give(b, user, debt, amounts).value, LoadAll(b, amounts.Keys).value, debt, amounts, 1);
    hide LoadAll;
    hide Moved;
  }

  /** What four loops take and give back of the same amounts leaves the reserves as they load. */
  lemma FetchedBack(b: Batch, n1: Batch, n2: Batch, n3: Batch, n4: Batch, lot: map<Address, int>, bid: map<Address, int>, a: Address)
    requires Moved(b, n1, false, lot, -1) && Moved(n1, n2, true, bid, -1)
    requires Moved(n2, n3, false, lot, 1) && Moved(n3, n4, true, bid, 1)
    ensures Fetched(n4, a) == Fetched(b, a)
  {
    assert Fetched(n1, a) == Raise(Fetched(b, a), false, -Amount(lot, a));
    assert Fetched(n2, a) == Raise(Fetched(n1, a), true, -Amount(bid, a));
    assert Fetched(n3, a) == Raise(Fetched(n2, a), false, Amount(lot, a));
    assert Fetched(n4, a) == Raise(Fetched(n3, a), true, Amount(bid, a));
    hide Fetched;
    hide Moved;
  }

  lemma MovesCancel(b: Batch, n1: Batch, n2: Batch, n3: Batch, n4: Batch, lot: map<Address, int>, bid: map<Address, int>)
    requires Moved(b, n1, false, lot, -1) && Moved(n1, n2, true, bid, -1)
    requires Moved(n2, n3, false, lot, 1) && Moved(n3, n4, true, bid, 1)
    ensures n4 == b.(pool := b.pool.(accounts := n4.pool.accounts), cache := n4.cache)
    ensures LoadAll(b, lot.Keys + bid.Keys).Ok? ==> LoadAll(b, lot.Keys + bid.Keys) == Ok(n4.cache)
  {
    LoadAllFetches(b, lot.Keys + bid.Keys);
    hide LoadAll;
    hide LoadReserve;
    hide Raise;
    assert n4.cache.Keys == b.cache.Keys + lot.Keys + bid.Keys;
    forall a | a in n4.cache
      ensures n4.cache[a] == Fetched(b, a)
    {
      FetchedBack(b, n1, n2, n3, n4, lot, bid, a);
      assert Fetched(n4, a) == n4.cache[a];
      hide Moved;
    }
    hide Fetched;
    assert LoadAll(b, lot.Keys + bid.Keys).Ok? ==> LoadAll(b, lot.Keys + bid.Keys).value == n4.cache;
  }

  lemma TakeSucceeds(b: Batch, user: Address, debt: bool, amounts: map<Address, int>)
    requires AllPositive(amounts)
    ensures Take(b, user, debt, amounts).Ok? <==>
      AllLoad(b, amounts.Keys) && TakeAll(b.pool.resList, Held(PositionsOf(b.pool, user), debt), amounts).Ok?
    ensures Take(b, user, debt, amounts).Ok? ==>
      Take(b, user, debt, amounts).value.pool == b.pool.(accounts := b.pool.accounts[user := SetHeld(PositionsOf(b.pool, user), debt,
        TakeAll(b.pool.resList, Held(PositionsOf(b.pool, user), debt), amounts).value)])
  {
    LoadAllFetches(b, amounts.Keys);
    hide LoadAll;
    hide TakeAll;
    hide AllLoad;
    hide Shrunk;
  }

  lemma GiveSucceeds(b: Batch, user: Address, debt: bool, amounts: map<Address, int>)
    requires AllPositive(amounts)
    ensures Give(b, user, debt, amounts).Ok? <==> AllLoad(b, amounts.Keys)
    ensures Give(b, user, debt, amounts).Ok? ==>
      Give(b, user, debt, amounts).value.pool == b.pool.(accounts := b.pool.accounts[user := SetHeld(PositionsOf(b.pool, user), debt,
        GiveAll(b.pool.resList, Held(PositionsOf(b.pool, user), debt), amounts))])
  {
    LoadAllFetches(b, amounts.Keys);
    hide LoadAll;
    hide GiveAll;
    hide AllLoad;
    hide Grown;
  }

  lemma SameAllLoad(b: Batch, n: Batch, debt: bool, amounts: map<Address, int>, rise: int, assets: set<Address>)
    requires Moved(b, n, debt, amounts, rise)
    ensures AllLoad(n, assets) <==> AllLoad(b, assets)
  {
    hide LoadReserve;
    hide Fetched;
  }

  /** One user's side: both loops of rm_positions, or of add_positions. */
  lemma RmSucceeds(b: Batch, user: Address, lot: map<Address, int>, bid: map<Address, int>)
    requires AllPositive(lot) && AllPositive(bid)
    ensures var u := PositionsOf(b.pool, user);
      && (RmPositions(b, user, lot, bid).Ok? <==>
           && AllLoad(b, lot.Keys) && AllLoad(b, bid.Keys)
           && TakeAll(b.pool.resList, u.collateral, lot).Ok? && TakeAll(b.pool.resList, u.liabilities, bid).Ok?)
      && (RmPositions(b, user, lot, bid).Ok? ==>
            RmPositions(b, user, lot, bid).value.pool == b.pool.(accounts := b.pool.accounts[user :=
              u.(collateral := TakeAll(b.pool.resList, u.collateral, lot).value,
                 liabilities := TakeAll(b.pool.resList, u.liabilities, bid).value)]))
  {
    hide Take;
    hide TakeAll;
    hide AllPositive;
    hide AllLoad;
    TakeSucceeds(b, user, false, lot);
    if Take(b, user, false, lot).Ok? {
      TakeMoves(b, user, false, lot);
      SameAllLoad(b, Take(b, user, false, lot).value, false, lot, -1, bid.Keys);
      TakeSucceeds(Take(b, user, false, lot).value, user, true, bid);
    }
    hide Moved;
  }

  lemma AddSucceeds(b: Batch, user: Address, lot: map<Address, int>, bid: map<Address, int>)
    requires AllPositive(lot) && AllPositive(bid)
    ensures var u := PositionsOf(b.pool, user);
      && (AddPositions(b, user, lot, bid).Ok? <==> AllLoad(b, lot.Keys) && AllLoad(b, bid.Keys))
      && (AddPositions(b, user, lot, bid).Ok? ==>
            AddPositions(b, user, lot, bid).value.pool == b.pool.(accounts := b.pool.accounts[user :=
              u.(collateral := GiveAll(b.pool.resList, u.collateral, lot), liabilities := GiveAll(b.pool.resList, u.liabilities, bid))]))
  {
    hide Give;
    hide GiveAll;
    hide AllPositive;
    hide AllLoad;
    GiveSucceeds(b, user, false, lot);
    if Give(b, user, false, lot).Ok? {
      GiveMoves(b, user, false, lot);
      SameAllLoad(b, Give(b, user, false, lot).value, false, lot, 1, bid.Keys);
      GiveSucceeds(Give(b, user, false, lot).value, user, true, bid);
    }
    hide Moved;
  }

  /** The reserves after taking collateral and debt. */
  lemma RmMoves(b: Batch, user: Address, lot: map<Address, int>, bid: map<Address, int>) returns (n: Batch)
    requires RmPositions(b, user, lot, bid).Ok?
    ensures Moved(b, n, false, lot, -1) && Moved(n, RmPositions(b, user, lot, bid).value, true, bid, -1)
  {
    hide Take;
    hide Moved;
    n := Take(b, user, false, lot).value;
    TakeMoves(b, user, false, lot);
    TakeMoves(n, user, true, bid);
  }

  lemma AddMoves(b: Batch, user: Address, lot: map<Address, int>, bid: map<Address, int>) returns (n: Batch)
    requires AddPositions(b, user, lot, bid).Ok?
    ensures Moved(b, n, false, lot, 1) && Moved(n, AddPositions(b, user, lot, bid).value, true, bid, 1)
  {
    hide Give;
    hide Moved;
    n := Give(b, user, false, lot).value;
    GiveMoves(b, user, false, lot);
    GiveMoves(n, user, true, bid);
  }

  lemma AllLoadMoved(b: Batch, n: Batch, m: Batch, lot: map<Address, int>, bid: map<Address, int>, rise: int, assets: set<Address>)
    requires Moved(b, n, false, lot, rise) && Moved(n, m, true, bid, rise)
    ensures AllLoad(m, assets) <==> AllLoad(b, assets)
  {
    hide Moved;
    SameAllLoad(b, n, false, lot, rise, assets);
    SameAllLoad(n, m, true, bid, rise, assets);
    hide AllLoad;
  }

  /** The two users' positions once collateral and debt have moved. */
  function Transferred(b: Batch, user: Address, to: Address, lot: map<Address, int>, bid: map<Address, int>): Outcome<(Positions, Positions)>
  {
    MovePositions(b.pool.resList, PositionsOf(b.pool, user), PositionsOf(b.pool, to), lot, bid)
  }

  function AsMoved(b: Batch, user: Address, to: Address, moved: (Positions, Positions), cache: map<Address, ReserveData>): Batch
  {
    b.(pool := b.pool.(accounts := b.pool.accounts[user := moved.0][to := moved.1]), cache := cache)
  }

  /** Moving positions from one user to another by the four loops: when it goes through, what becomes of both
      users, and that the reserves are only loaded, their supplies shrinking and growing back. */
  lemma {:induction false} MoveBetweenIs(b: Batch, user: Address, to: Address, lot: map<Address, int>, bid: map<Address, int>)
    requires user != to && AllPositive(lot) && AllPositive(bid)
    ensures MoveBetween(b, user, to, lot, bid).Ok? <==>
      Transferred(b, user, to, lot, bid).Ok? && LoadAll(b, lot.Keys + bid.Keys).Ok?
    ensures MoveBetween(b, user, to, lot, bid).Ok? ==>
      AsMoved(b, user, to, Transferred(b, user, to, lot, bid).value, LoadAll(b, lot.Keys + bid.Keys).value)
        == MoveBetween(b, user, to, lot, bid).value
  {
    hide RmPositions;
    hide AddPositions;
    hide TakeAll;
    hide GiveAll;
    hide AllPositive;
    hide Moved;
    hide PositionsOf;
    LoadAllFetches(b, lot.Keys + bid.Keys);
    hide LoadAll;
    RmSucceeds(b, user, lot, bid);
    assert AllLoad(b, lot.Keys + bid.Keys) <==> AllLoad(b, lot.Keys) && AllLoad(b, bid.Keys);
    hide AllLoad;
    if RmPositions(b, user, lot, bid).Ok? {
      var n2 := RmPositions(b, user, lot, bid).value;
      var u := PositionsOf(b.pool, user);
      OthersKeep(b.pool, user, u.(collateral := TakeAll(b.pool.resList, u.collateral, lot).value,
                                  liabilities := TakeAll(b.pool.resList, u.liabilities, bid).value), to);
      AddBack(b, n2, user, to, lot, bid);
    }
  }

  lemma OthersKeep(p: Pool, user: Address, u: Positions, other: Address)
    requires user != other
    ensures PositionsOf(p.(accounts := p.accounts[user := u]), other) == PositionsOf(p, other)
    ensures PositionsOf(p.(accounts := p.accounts[user := u]), user) == u
  {}

  /** The second half of a move: what add_positions makes of what rm_positions left. */
  lemma AddBack(b: Batch, n2: Batch, user: Address, to: Address, lot: map<Address, int>, bid: map<Address, int>)
    requires AllPositive(lot) && AllPositive(bid) && RmPositions(b, user, lot, bid) == Ok(n2)
    ensures AddPositions(n2, to, lot, bid).Ok? <==> AllLoad(b, lot.Keys) && AllLoad(b, bid.Keys)
    ensures AddPositions(n2, to, lot, bid).Ok? ==>
      var f := PositionsOf(n2.pool, to);
      AddPositions(n2, to, lot, bid).value.pool == n2.pool.(accounts := n2.pool.accounts[to :=
        f.(collateral := GiveAll(n2.pool.resList, f.collateral, lot), liabilities := GiveAll(n2.pool.resList, f.liabilities, bid))])
    ensures AddPositions(n2, to, lot, bid).Ok? ==>
      var n4 := AddPositions(n2, to, lot, bid).value;
      n4 == b.(pool := b.pool.(accounts := n4.pool.accounts), cache := n4.cache)
      && (LoadAll(b, lot.Keys + bid.Keys).Ok? ==> LoadAll(b, lot.Keys + bid.Keys) == Ok(n4.cache))
  {
    hide RmPositions;
    hide AddPositions;
    hide AllPositive;
    hide Moved;
    hide AllLoad;
    hide LoadAll;
    hide GiveAll;
    hide PositionsOf;
    var n1 := RmMoves(b, user, lot, bid);
    AllLoadMoved(b, n1, n2, lot, bid, -1, lot.Keys);
    AllLoadMoved(b, n1, n2, lot, bid, -1, bid.Keys);
    AddSucceeds(n2, to, lot, bid);
    if AddPositions(n2, to, lot, bid).Ok? {
      var n3 := AddMoves(n2, to, lot, bid);
      MovesCancel(b, n1, n2, n3, AddPositions(n2, to, lot, bid).value, lot, bid);
    }
  }

  /** Moving positions keeps everything. */
  lemma {:induction false} MoveBetweenKeeps(b: Batch, user: Address, to: Address, lot: map<Address, int>, bid: map<Address, int>)
    requires BatchOk(b) && user != to && AllPositive(lot) && AllPositive(bid)
    requires MoveBetween(b, user, to, lot, bid).Ok?
    ensures BatchKept(b, MoveBetween(b, user, to, lot, bid).value)
  {
    hide Funded;
    hide CreditOk;
    hide SharesAgree;
    hide ReservesOk;
    hide Listed;
    hide MovePositions;
    hide MoveBetween;
    hide LoadAll;
    hide AllPositive;
    MoveBetweenIs(b, user, to, lot, bid);
    LoadAllKeeps(b, lot.Keys + bid.Keys);
    var (u, f) := (PositionsOf(b.pool, user), PositionsOf(b.pool, to));
    HoldersOk(b.pool, user);
    HoldersOk(b.pool, to);
    hide AccountsOk;
    var n := MoveBetween(b, user, to, lot, bid).value;
    var (pu, pf) := MovePositions(b.pool.resList, u, f, lot, bid).value;
    LiquidationMoves(b.pool.resList, u, f, lot, bid, pu, pf);
    var c := b.(cache := n.cache);
    TransferKeeps(c.pool, View(c), c.flows, user, to, pu, pf);
    assert View(n) == View(c);
  }

  lemma LiquidationMoves(resList: seq<Address>, u: Positions, f: Positions, lot: map<Address, int>, bid: map<Address, int>, pu: Positions, pf: Positions)
    requires PositionsOk(u) && PositionsOk(f) && AllPositive(lot) && AllPositive(bid)
    requires MovePositions(resList, u, f, lot, bid) == Ok((pu, pf))
    ensures PositionsOk(pu) && PositionsOk(pf)
    ensures forall i: nat :: BTokens(pu, i) + BTokens(pf, i) == BTokens(u, i) + BTokens(f, i)
    ensures forall i: nat :: DTokens(pu, i) + DTokens(pf, i) == DTokens(u, i) + DTokens(f, i)
  {
    hide TakeAll;
    hide GiveAll;
    hide AllPositive;
    hide AtIndex;
    forall i: nat
      ensures BTokens(pu, i) + BTokens(pf, i) == BTokens(u, i) + BTokens(f, i)
      ensures DTokens(pu, i) + DTokens(pf, i) == DTokens(u, i) + DTokens(f, i)
      ensures (i in pu.collateral ==> pu.collateral[i] >= 0) && (i in pu.liabilities ==> pu.liabilities[i] >= 0)
      ensures (i in pf.collateral ==> pf.collateral[i] >= 0) && (i in pf.liabilities ==> pf.liabilities[i] >= 0)
    {
      TakeAllTakes(resList, u.collateral, lot, i);
      TakeAllTakes(resList, u.liabilities, bid, i);
      GiveAllGives(resList, f.collateral, lot, i);
      GiveAllGives(resList, f.liabilities, bid, i);
    }
  }

  /** Auctions other than the interest auction do not matter to the invariant. */
  lemma AuctionsIrrelevant(p: Pool, q: Pool, view: map<Address, ReserveData>, flows: Flows)
    requires Books(p, view) && q == p.(liquidations := q.liquidations, badDebt := q.badDebt)
    ensures Preserves(p, view, flows, q, view, flows)
  {
    hide NetOwed;
    hide ValidMetadata;
    hide ReserveOk;
    hide PositionsOk;
    hide Covered;
    hide TotalB;
    hide TotalD;
  }

  /** Nothing but users' positions and loaded reserves. */
  ghost predicate OnlyPositions(b: Batch, n: Batch)
  {
    n == b.(pool := b.pool.(accounts := n.pool.accounts), cache := n.cache)
  }

  lemma MoveBetweenAside(b: Batch, user: Address, to: Address, lot: map<Address, int>, bid: map<Address, int>)
    requires MoveBetween(b, user, to, lot, bid).Ok?
    ensures OnlyPositions(b, MoveBetween(b, user, to, lot, bid).value)
  {
    hide RmPositions;
    hide AddPositions;
    RmAside(b, user, lot, bid);
    AddAside(RmPositions(b, user, lot, bid).value, to, lot, bid);
  }

  lemma RmAside(b: Batch, user: Address, lot: map<Address, int>, bid: map<Address, int>)
    requires RmPositions(b, user, lot, bid).Ok?
    ensures OnlyPositions(b, RmPositions(b, user, lot, bid).value)
  {
    hide LoadAll;
    hide TakeAll;
    hide Shrunk;
  }

  lemma AddAside(b: Batch, user: Address, lot: map<Address, int>, bid: map<Address, int>)
    requires AddPositions(b, user, lot, bid).Ok?
    ensures OnlyPositions(b, AddPositions(b, user, lot, bid).value)
  {
    hide LoadAll;
    hide GiveAll;
    hide Grown;
  }

  lemma WriteOffAside(b: Batch, reply: Reply)
    requires WriteOff(b, reply).Ok?
    ensures OnlyPositions(b.(flows := WriteOff(b, reply).value.flows), WriteOff(b, reply).value)
  {
    hide RmPositions;
    hide BackstopThreshold;
    hide LoadAll;
    hide ByAsset;
    hide WrittenOff;
    if WriteOff(b, reply).value != b {
      RmAside(b, b.pool.backstop, map[], ByAsset(b.pool.configs, PositionsOf(b.pool, b.pool.backstop).liabilities));
    }
  }

  // ----- liquidation fills -----

  lemma {:induction false} FillLiquidationKeeps(b: Batch, from: Address, user: Address, percent: int)
    requires BatchOk(b) && FillLiquidation(b, from, user, percent).Ok?
    ensures BatchKept(b, FillLiquidation(b, from, user, percent).value)
  {
    hide Books;
    hide Funded;
    hide CreditOk;
    hide MoveBetween;
    hide Scale;
    hide AllPositive;
    var fill := Scale(b.pool.liquidations[user], percent, b.pool.block).value.0;
    FillPositive(b.pool.liquidations[user], percent, b.pool.block);
    MoveBetweenKeeps(b, user, from, fill.lot, fill.bid);
    var n := FillUserLiquidation(b, from, user, fill).value;
    var q := FillLiquidation(b, from, user, percent).value;
    AuctionsIrrelevant(n.pool, q.pool, View(n), n.flows);
    assert View(q) == View(n);
  }

  /** A covered lot entry of an up-to-date reserve is at most its credit. */
  lemma CoveredNow(c: ReserveConfig, bstopRate: nat, r: ReserveData, now: nat, lot: int)
    requires r.lastTime == now
    ensures Covered(c, bstopRate, r, now, lot) <==> lot <= r.backstopCredit
  {
    LoadedIsCurrent(c, bstopRate, r, now);
    hide Load;
  }

  // ----- written-off debt -----

  /** Debt of one user is written off: from the user's balances and the reserves' supplies alike. */
  ghost predicate Burned(p: Pool, view: map<Address, ReserveData>, user: Address, pu: Positions, amounts: map<Address, int>,
                         next: map<Address, ReserveData>)
  {
    && amounts.Keys <= view.Keys == next.Keys
    && (forall a :: a in amounts ==> view[a].lastTime == p.now)
    && (forall a :: a in view ==> next[a] == Raise(view[a], true, -Amount(amounts, a)))
    && (forall i: nat :: BTokens(pu, i) == BTokens(PositionsOf(p, user), i))
    && (forall i: nat :: DTokens(pu, i) == DTokens(PositionsOf(p, user), i) - AtIndex(p.resList, amounts, i))
  }

  lemma BurnShares(p: Pool, view: map<Address, ReserveData>, user: Address, pu: Positions, amounts: map<Address, int>,
                   next: map<Address, ReserveData>)
    requires Listed(p) && view.Keys == p.configs.Keys && SharesAgree(p, view) && Burned(p, view, user, pu, amounts, next)
    ensures SharesAgree(p.(accounts := p.accounts[user := pu]), next)
  {
    hide ValidMetadata;
    hide TotalB;
    hide TotalD;
    hide BTokens;
    hide DTokens;
    hide PositionsOf;
    forall i: nat
      ensures TotalB(p.accounts[user := pu], i) == SupplyAt(p.resList, next, i)
      ensures TotalD(p.accounts[user := pu], i) == DebtAt(p.resList, next, i)
    {
      TotalsMove(p, user, pu, i);
      assert TotalB(p.accounts, i) == SupplyAt(p.resList, view, i);
    }
  }

  lemma BurnReserves(p: Pool, q: Pool, view: map<Address, ReserveData>, amounts: map<Address, int>, next: map<Address, ReserveData>)
    requires ReservesOk(p, view) && q == p.(accounts := q.accounts) && next.Keys == view.Keys
    requires forall a :: a in view ==> next[a] == Raise(view[a], true, -Amount(amounts, a))
    requires forall a :: a in next ==> next[a].bSupply >= 0 && next[a].dSupply >= 0
    ensures ReservesOk(q, next)
  {}

  lemma BurnFunds(p: Pool, view: map<Address, ReserveData>, flows: Flows, amounts: map<Address, int>,
                  next: map<Address, ReserveData>, cache: map<Address, ReserveData>)
    requires Funded(p, view, flows) && amounts.Keys <= view.Keys == next.Keys
    requires forall a :: a in view ==> next[a] == Raise(view[a], true, -Amount(amounts, a))
    requires forall a :: a in amounts ==> a in cache && cache[a] == view[a]
    ensures Funded(p, next, flows.(burned := WrittenOff(flows.burned, cache, amounts)))
  {
    hide TotalLiabilities;
    hide TotalSupply;
    forall a: Address
      ensures Owed(next, a) <= Gathered(p, flows.(burned := WrittenOff(flows.burned, cache, amounts)), a)
    {
      assert Owed(view, a) <= Gathered(p, flows, a);
      if a in amounts {
        BurnedOwes(view[a], Amount(amounts, a));
      } else if a in view {
        assert next[a] == view[a];
      }
    }
  }

  lemma BurnedOwes(r: ReserveData, amount: int)
    ensures NetOwed(Raise(r, true, -amount)) == NetOwed(r) + TotalLiabilities(r) - TotalLiabilities(Raise(r, true, -amount))
  {
    hide Floor;
    hide Ceil;
  }

  lemma BurnCredit(p: Pool, q: Pool, view: map<Address, ReserveData>, amounts: map<Address, int>, next: map<Address, ReserveData>)
    requires CreditOk(p, view) && q == p.(accounts := q.accounts) && amounts.Keys <= view.Keys == next.Keys
    requires forall a :: a in amounts ==> view[a].lastTime == p.now
    requires forall a :: a in view ==> next[a] == Raise(view[a], true, -Amount(amounts, a))
    ensures CreditOk(q, next)
  {
    hide Load;
    if p.interest.Some? {
      forall a | a in p.interest.value.lot
        ensures Covered(q.configs[a], q.bstopRate, next[a], q.now, q.interest.value.lot[a])
      {
        if a in amounts {
          CoveredNow(p.configs[a], p.bstopRate, view[a], p.now, p.interest.value.lot[a]);
          CoveredNow(p.configs[a], p.bstopRate, next[a], p.now, p.interest.value.lot[a]);
        } else {
          assert next[a] == view[a];
        }
      }
    }
  }

  /** Writing off debt keeps everything, with what it was worth counted. */
  lemma BurnKeeps(p: Pool, view: map<Address, ReserveData>, flows: Flows, user: Address, pu: Positions,
                  amounts: map<Address, int>, next: map<Address, ReserveData>, cache: map<Address, ReserveData>)
    requires Books(p, view) && PositionsOk(pu) && Burned(p, view, user, pu, amounts, next)
    requires forall a :: a in amounts ==> a in cache && cache[a] == view[a]
    ensures Preserves(p, view, flows, p.(accounts := p.accounts[user := pu]), next,
                      flows.(burned := WrittenOff(flows.burned, cache, amounts)))
  {
    hide Listed;
    hide AccountsOk;
    hide Funded;
    hide SharesAgree;
    hide CreditOk;
    hide ReserveOk;
    hide PositionsOk;
    hide BTokens;
    hide DTokens;
    hide PositionsOf;
    hide AtIndex;
    hide Raise;
    var q := p.(accounts := p.accounts[user := pu]);
    var more := flows.(burned := WrittenOff(flows.burned, cache, amounts));
    hide WrittenOff;
    BurnShares(p, view, user, pu, amounts, next);
    ChangeAccount(p, user, pu);
    SameBooks(p, q, next, more);
    forall a | a in next
      ensures next[a].bSupply >= 0 && next[a].dSupply >= 0
    {
      SuppliesNonNeg(q, next, a);
    }
    BurnReserves(p, q, view, amounts, next);
    if Funded(p, view, flows) {
      BurnFunds(p, view, flows, amounts, next, cache);
    }
    if CreditOk(p, view) {
      BurnCredit(p, q, view, amounts, next);
    }
  }

  lemma PositiveUnlessZero(configs: map<Address, ReserveConfig>, m: map<Address, int>)
    requires forall i :: i in m ==> m[i] >= 0
    requires !exists a :: a in ByAsset(configs, m) && ByAsset(configs, m)[a] == 0
    ensures AllPositive(ByAsset(configs, m))
  {}

  /** What the loops of a write-off do to a cached reserve. */
  lemma BurnedAt(b: Batch, n1: Batch, n: Batch, amounts: map<Address, int>, a: Address)
    requires Moved(b, n1, false, map[], -1) && Moved(n1, n, true, amounts, -1)
    requires a in n.cache
    ensures n.cache[a] == Raise(Fetched(b, a), true, -Amount(amounts, a))
  {
    hide LoadReserve;
    assert Fetched(n1, a) == Raise(Fetched(b, a), false, -Amount(map[], a));
    assert Fetched(n, a) == Raise(Fetched(n1, a), true, -Amount(amounts, a));
  }

  /** And to all of them, as a change of the view. */
  lemma BurnedView(b: Batch, n1: Batch, n: Batch, amounts: map<Address, int>)
    requires BatchOk(b) && LoadAll(b, amounts.Keys).Ok?
    requires Moved(b, n1, false, map[], -1) && Moved(n1, n, true, amounts, -1)
    ensures var c := b.(cache := LoadAll(b, amounts.Keys).value);
      && View(n).Keys == View(c).Keys
      && (forall a :: a in View(c) ==> View(n)[a] == Raise(View(c)[a], true, -Amount(amounts, a)))
      && (forall a :: a in amounts ==> a in c.cache && c.cache[a] == View(c)[a])
      && n.cache.Keys == c.cache.Keys
      && (forall a :: a in n.cache ==> n.cache[a].lastTime == c.cache[a].lastTime)
  {
    hide Books;
    LoadAllFetches(b, amounts.Keys);
    hide LoadAll;
    hide LoadReserve;
    hide Fetched;
    var c := b.(cache := LoadAll(b, amounts.Keys).value);
    assert n.cache.Keys == c.cache.Keys && n.pool.data == b.pool.data;
    forall a | a in c.cache
      ensures n.cache[a] == Raise(c.cache[a], true, -Amount(amounts, a))
    {
      BurnedAt(b, n1, n, amounts, a);
    }
    hide Moved;
  }

  /** The write-off goes through both loops, of which the first has nothing to do. */
  lemma BurnedPositions(b: Batch, user: Address, amounts: map<Address, int>)
    requires AllPositive(amounts) && PositionsOk(PositionsOf(b.pool, user)) && RmPositions(b, user, map[], amounts).Ok?
    ensures var pu := PositionsOf(RmPositions(b, user, map[], amounts).value.pool, user);
      && PositionsOk(pu)
      && RmPositions(b, user, map[], amounts).value.pool == b.pool.(accounts := b.pool.accounts[user := pu])
      && (forall i: nat :: BTokens(pu, i) == BTokens(PositionsOf(b.pool, user), i))
      && (forall i: nat :: DTokens(pu, i) == DTokens(PositionsOf(b.pool, user), i) - AtIndex(b.pool.resList, amounts, i))
      && LoadAll(b, amounts.Keys).Ok?
  {
    hide TakeAll;
    hide AllPositive;
    hide RmPositions;
    LoadAllFetches(b, amounts.Keys);
    hide LoadAll;
    hide AllLoad;
    var none: map<Address, int> := map[];
    assert AllPositive(none) by { NonePositive(); }
    RmSucceeds(b, user, none, amounts);
    var u := PositionsOf(b.pool, user);
    var pu := PositionsOf(RmPositions(b, user, none, amounts).value.pool, user);
    forall i: nat
      ensures Amount(pu.collateral, i) == Amount(u.collateral, i) && Amount(pu.liabilities, i) == Amount(u.liabilities, i) - AtIndex(b.pool.resList, amounts, i)
      ensures (i in pu.collateral ==> pu.collateral[i] >= 0) && (i in pu.liabilities ==> pu.liabilities[i] >= 0)
    {
      TakeAllTakes(b.pool.resList, u.collateral, none, i);
      TakeAllTakes(b.pool.resList, u.liabilities, amounts, i);
      assert AtIndex(b.pool.resList, none, i) == 0;
    }
    hide AtIndex;
  }

  lemma NonePositive()
    ensures AllPositive(map[])
  {}

  lemma WriteOffPositive(b: Batch, user: Address)
    requires PositionsOk(PositionsOf(b.pool, user))
    requires RmPositions(b, user, map[], ByAsset(b.pool.configs, PositionsOf(b.pool, user).liabilities)).Ok?
    ensures AllPositive(ByAsset(b.pool.configs, PositionsOf(b.pool, user).liabilities))
  {
    PositiveUnlessZero(b.pool.configs, PositionsOf(b.pool, user).liabilities);
    hide ByAsset;
    hide LoadAll;
    hide TakeAll;
    hide PositionsOf;
  }

  lemma {:induction false} WriteOffKeeps(b: Batch, reply: Reply)
    requires BatchOk(b) && WriteOff(b, reply).Ok?
    ensures BatchKept(b, WriteOff(b, reply).value)
  {
    hide Books;
    hide Funded;
    hide CreditOk;
    hide BackstopThreshold;
    hide RmPositions;
    hide ByAsset;
    hide LoadAll;
    hide WrittenOff;
    hide AllPositive;
    hide Moved;
    hide PositionsOf;
    var n := WriteOff(b, reply).value;
    if n == b {
      return;
    }
    var user := b.pool.backstop;
    var amounts := ByAsset(b.pool.configs, PositionsOf(b.pool, user).liabilities);
    BooksAt(b.pool, View(b), 0, user);
    var n1 := RmMoves(b, user, map[], amounts);
    assert AllPositive(amounts) by { WriteOffPositive(b, user); }
    BurnedPositions(b, user, amounts);
    LoadAllKeeps(b, amounts.Keys);
    var c := b.(cache := LoadAll(b, amounts.Keys).value);
    var removed := RmPositions(b, user, map[], amounts).value;
    BurnedView(b, n1, removed, amounts);
    assert View(n) == View(removed);
    BurnKeeps(c.pool, View(c), c.flows, user, PositionsOf(n.pool, user), amounts, View(n), c.cache);
    assert BatchOk(n);
    KeptTwice(b, c, n);
  }

  lemma {:induction false} FillBadDebtKeeps(b: Batch, from: Address, user: Address, percent: int, reply: Reply)
    requires BatchOk(b) && FillBadDebt(b, from, user, percent, reply).Ok?
    ensures BatchKept(b, FillBadDebt(b, from, user, percent, reply).value)
  {
    hide Books;
    hide Funded;
    hide CreditOk;
    hide MoveBetween;
    hide WriteOff;
    hide Scale;
    hide AllPositive;
    var fill := Scale(b.pool.badDebt.value, percent, b.pool.block).value.0;
    FillPositive(b.pool.badDebt.value, percent, b.pool.block);
    assert AllPositive(map[]) by { NonePositive(); }
    MoveBetweenKeeps(b, user, from, map[], fill.bid);
    var moved := MoveBetween(b, user, from, map[], fill.bid).value;
    WriteOffKeeps(moved, reply);
    var n := WriteOff(moved, reply).value;
    KeptTwice(b, moved, n);
    var q := FillBadDebt(b, from, user, percent, reply).value;
    AuctionsIrrelevant(n.pool, q.pool, View(n), n.flows);
    assert View(q) == View(n);
    KeptTwice(b, n, q);
  }

  // ----- interest fills -----

  lemma CreditAndCash(r: ReserveData, x: int)
    ensures NetOwed(r.(backstopCredit := r.backstopCredit - x)) == NetOwed(r) - x
  {
    hide Floor;
    hide Ceil;
  }

  /** Amounts are handed out from the credit of up-to-date reserves and the cash alike. */
  ghost predicate Drawn(p: Pool, q: Pool, view: map<Address, ReserveData>, next: map<Address, ReserveData>, lot: map<Address, int>)
  {
    && next.Keys == view.Keys
    && q == p.(interest := q.interest, cash := HandOut(p.cash, lot))
    && (forall a :: a in lot ==> a in view && view[a].lastTime == p.now && a in p.cash)
    && (forall a :: a in view ==> next[a] == view[a].(backstopCredit := view[a].backstopCredit - Amount(lot, a)))
  }

  /** A part of the stored lot, which leaves room for what stays stored. */
  ghost predicate PartOf(p: Pool, q: Pool, lot: map<Address, int>)
  {
    && p.interest.Some?
    && (forall a :: a in lot ==> a in p.interest.value.lot && 0 < lot[a] <= p.interest.value.lot[a])
    && (q.interest.Some? ==> forall a :: a in q.interest.value.lot ==>
          a in p.interest.value.lot && 0 < q.interest.value.lot[a] <= p.interest.value.lot[a] - Amount(lot, a))
  }

  lemma DrawFunds(p: Pool, q: Pool, view: map<Address, ReserveData>, next: map<Address, ReserveData>, flows: Flows, lot: map<Address, int>)
    requires Funded(p, view, flows) && Drawn(p, q, view, next, lot)
    ensures Funded(q, next, flows)
  {
    hide NetOwed;
    forall a: Address
      ensures Owed(next, a) <= Gathered(q, flows, a)
    {
      assert Owed(view, a) <= Gathered(p, flows, a);
      if a in view {
        CreditAndCash(view[a], Amount(lot, a));
      }
    }
  }

  lemma DrawBooks(p: Pool, q: Pool, view: map<Address, ReserveData>, next: map<Address, ReserveData>, lot: map<Address, int>)
    requires Books(p, view) && Drawn(p, q, view, next, lot)
    ensures Books(q, next)
  {
    hide TotalB;
    hide TotalD;
    hide PositionsOk;
    hide ValidMetadata;
    hide HandOut;
  }

  lemma DrawCreditKeeps(p: Pool, q: Pool, view: map<Address, ReserveData>, next: map<Address, ReserveData>, lot: map<Address, int>)
    requires CreditOk(p, view) && Drawn(p, q, view, next, lot) && PartOf(p, q, lot)
    ensures CreditOk(q, next)
  {
    hide Covered;
    hide HandOut;
    forall a | a in next
      ensures next[a].backstopCredit >= 0
    {
      if a in lot {
        CoveredNow(p.configs[a], p.bstopRate, view[a], p.now, p.interest.value.lot[a]);
      }
    }
    if q.interest.Some? {
      forall a | a in q.interest.value.lot
        ensures a in next && a in q.configs && 0 <= q.interest.value.lot[a]
        ensures Covered(q.configs[a], q.bstopRate, next[a], q.now, q.interest.value.lot[a])
      {
        if a in lot {
          CoveredNow(p.configs[a], p.bstopRate, view[a], p.now, p.interest.value.lot[a]);
          CoveredNow(p.configs[a], p.bstopRate, next[a], p.now, q.interest.value.lot[a]);
        } else {
          CoveredLess(p.configs[a], p.bstopRate, view[a], p.now, p.interest.value.lot[a], q.interest.value.lot[a]);
          assert next[a] == view[a];
        }
      }
    }
  }

  lemma CoveredLess(c: ReserveConfig, bstopRate: nat, r: ReserveData, now: nat, lot: int, less: int)
    requires Covered(c, bstopRate, r, now, lot) && less <= lot
    ensures Covered(c, bstopRate, r, now, less)
  {
    hide Load;
  }

  /** Handing out takes from the credit and the cash alike, whatever the credit; a part of a covered lot is never
      more than the credit, and what is left stays covered. */
  lemma {:induction false} DrawKeeps(p: Pool, q: Pool, view: map<Address, ReserveData>, next: map<Address, ReserveData>,
                                     flows: Flows, lot: map<Address, int>)
    requires Books(p, view) && Drawn(p, q, view, next, lot)
    ensures Books(q, next)
    ensures Funded(p, view, flows) ==> Funded(q, next, flows)
    ensures CreditOk(p, view) && PartOf(p, q, lot) ==> CreditOk(q, next)
  {
    DrawBooks(p, q, view, next, lot);
    if Funded(p, view, flows) {
      DrawFunds(p, q, view, next, flows, lot);
    }
    if CreditOk(p, view) && PartOf(p, q, lot) {
      DrawCreditKeeps(p, q, view, next, lot);
    }
    hide Books;
    hide Funded;
    hide CreditOk;
    hide Drawn;
    hide PartOf;
  }

  /** A fill takes at most the stored lot and stores at most what it leaves. */
  lemma {:induction false} FillsWithinLot(auction: AuctionData, percent: int, block: nat)
    requires (forall a :: a in auction.lot ==> auction.lot[a] >= 0) && Scale(auction, percent, block).Ok?
    ensures var (fill, rest) := Scale(auction, percent, block).value;
      && (forall a :: a in fill.lot ==> a in auction.lot && 0 < fill.lot[a] <= auction.lot[a])
      && (rest.Some? ==> forall a :: a in rest.value.lot ==>
            a in auction.lot && 0 < rest.value.lot[a] <= auction.lot[a] - Amount(fill.lot, a))
  {
    hide Scale;
    var (fill, rest) := Scale(auction, percent, block).value;
    forall a
      ensures a in fill.lot ==> a in auction.lot && 0 < fill.lot[a] <= auction.lot[a]
      ensures rest.Some? && a in rest.value.lot ==>
        a in auction.lot && 0 < rest.value.lot[a] <= auction.lot[a] - Amount(fill.lot, a)
    {
      LotConserves(auction, percent, block, a);
    }
  }

  /** The fill of an interest auction, once its assets are cached, draws on them. */
  lemma FillDraws(b: Batch, cache: map<Address, ReserveData>, lot: map<Address, int>, rest: Option<AuctionData>)
    requires cache.Keys <= b.pool.data.Keys && lot.Keys <= cache.Keys && AllPositive(lot)
    requires forall a :: a in cache ==> cache[a].lastTime == b.pool.now
    requires forall a :: a in lot ==> Amount(b.pool.cash, a) >= lot[a]
    ensures Drawn(b.pool, b.pool.(interest := rest, cash := HandOut(b.pool.cash, lot)),
                  b.pool.data + cache, b.pool.data + DrawCredit(cache, lot), lot)
  {
    hide HandOut;
  }

  lemma FillIsPart(p: Pool, q: Pool, view: map<Address, ReserveData>, percent: int)
    requires CreditOk(p, view) && p.interest.Some? && Scale(p.interest.value, percent, p.block).Ok?
    requires q.interest == Scale(p.interest.value, percent, p.block).value.1
    ensures PartOf(p, q, Scale(p.interest.value, percent, p.block).value.0.lot)
  {
    hide Scale;
    hide Covered;
    FillsWithinLot(p.interest.value, percent, p.block);
  }

  lemma {:induction false} FillInterestKeeps(b: Batch, from: Address, user: Address, percent: int, reply: Reply)
    requires BatchOk(b) && FillInterest(b, from, user, percent, reply).Ok?
    ensures BatchKept(b, FillInterest(b, from, user, percent, reply).value)
  {
    hide Books;
    hide Funded;
    hide CreditOk;
    hide LoadAll;
    hide Scale;
    hide Drawn;
    hide PartOf;
    hide HandOut;
    hide AllPositive;
    var auction := b.pool.interest.value;
    var (fill, rest) := Scale(auction, percent, b.pool.block).value;
    LoadAllKeeps(b, fill.lot.Keys);
    var cache := LoadAll(b, fill.lot.Keys).value;
    var n := FillInterest(b, from, user, percent, reply).value;
    FillPositive(auction, percent, b.pool.block);
    FillDraws(b, cache, fill.lot, rest);
    DrawKeeps(b.pool, n.pool, b.pool.data + cache, View(n), b.flows, fill.lot);
    if CreditOk(b.pool, View(b)) {
      FillIsPart(b.pool, n.pool, View(b), percent);
    }
  }
}
