/** What fills of auctions leave stored and hand over, one at a time, over the requests of a submission and over
    runs of the pool (pool/src/auctions/auction.rs, pool/src/auctions/user_liquidation_auction.rs,
    pool/src/auctions/backstop_interest_auction.rs, pool/src/auctions/bad_debt_auction.rs). */
module LendingPoolFills {
  import opened Outcomes
  import opened FixedPoint
  import opened Totals
  import opened Interest
  import opened Reserves
  import opened Auctions
  import opened PoolUsers
  import opened PoolStates
  import opened Health
  import opened LendingPools
  import opened LendingPoolProofs
  import opened LendingPoolAuctionProofs
  import opened Liquidations
  import opened LendingPoolRuns
  import opened LendingPoolLimits

  // ----- what is left of an auction -----

  /** A stored auction, a missing one counting as empty. */
  function Stored(m: map<Address, AuctionData>, user: Address, block: nat): AuctionData
  {
    if user in m then m[user] else AuctionData(map[], map[], block)
  }

  function OrEmpty(o: Option<AuctionData>, block: nat): AuctionData
  {
    if o.Some? then o.value else AuctionData(map[], map[], block)
  }

  /** One asset of a fill: the percentage of what was stored is taken off what stays stored, and of that part the
      block's price changes hands. */
  ghost predicate FilledAt(before: AuctionData, after: AuctionData, fill: AuctionData, percent: int, blocks: int, a: Address)
  {
    var (bid, lot) := (Amount(before.bid, a) - Amount(after.bid, a), Amount(before.lot, a) - Amount(after.lot, a));
    && PartUp(bid, Amount(before.bid, a), percent, 100) && PartDown(lot, Amount(before.lot, a), percent, 100)
    && PartUp(Amount(fill.bid, a), bid, BidPrice(blocks), 200) && PartDown(Amount(fill.lot, a), lot, LotPrice(blocks), 200)
  }

  ghost predicate Filled(before: AuctionData, after: AuctionData, fill: AuctionData, percent: int, blocks: int)
  {
    after.block == before.block && forall a: Address :: FilledAt(before, after, fill, percent, blocks, a)
  }

  /** Some of a bid or a lot is left. */
  ghost predicate SomeLeft(auction: AuctionData)
  {
    exists a: Address :: Amount(auction.bid, a) > 0 || Amount(auction.lot, a) > 0
  }

  /** Scaling an auction splits it so; it ends exactly when nothing is left. */
  lemma {:induction false} ScaleFills(auction: AuctionData, percent: int, block: nat)
    requires AuctionOk(auction) && Scale(auction, percent, block).Ok?
    ensures var (fill, rest) := Scale(auction, percent, block).value;
      && Filled(auction, OrEmpty(rest, auction.block), fill, percent, block - auction.block)
      && OrEmpty(rest, auction.block) == Rest(auction, percent, block)
      && (rest.Some? <==> SomeLeft(OrEmpty(rest, auction.block)))
  {
    hide BidBase;
    hide LotBase;
    hide BidPaid;
    hide LotReceived;
    hide FilledAt;
    hide FilledBid;
    hide FilledLot;
    var (fill, rest) := Scale(auction, percent, block).value;
    if rest.Some? {
      RestIsSome(auction, percent, block);
    }
    FillConserves(auction, percent, block, 0);
    hide Scale;
    var (after, blocks) := (OrEmpty(rest, auction.block), block - auction.block);
    forall a: Address
      ensures FilledAt(auction, after, fill, percent, blocks, a)
    {
      FilledIs(auction, percent, block, a);
    }
  }

  lemma FilledIs(auction: AuctionData, percent: int, block: nat, a: Address)
    requires AuctionOk(auction) && Scale(auction, percent, block).Ok?
    ensures FilledAt(auction, Rest(auction, percent, block), Scale(auction, percent, block).value.0, percent, block - auction.block, a)
  {
    hide Scale;
    hide Rest;
    hide PartUp;
    hide PartDown;
    FillPaysPrice(auction, percent, block, a);
  }

  lemma RestIsSome(auction: AuctionData, percent: int, block: nat)
    requires Scale(auction, percent, block).Ok? && Scale(auction, percent, block).value.1.Some?
    ensures SomeLeft(Scale(auction, percent, block).value.1.value)
  {
    hide BidBase;
    hide LotBase;
    hide FilledBid;
    hide FilledLot;
    var rest := Scale(auction, percent, block).value.1.value;
    if rest.bid != map[] {
      var a :| a in rest.bid;
      assert Amount(rest.bid, a) > 0;
    } else {
      var a :| a in rest.lot;
      assert Amount(rest.lot, a) > 0;
    }
  }

  // ----- one fill of a liquidation -----

  /** Balances of one index move by a fill, from the user to the filler. */
  ghost predicate HandedAt(resList: seq<Address>, u: Positions, f: Positions, pu: Positions, pf: Positions, fill: AuctionData, i: nat)
  {
    var (lot, bid) := (AtIndex(resList, fill.lot, i), AtIndex(resList, fill.bid, i));
    && Amount(pu.collateral, i) == Amount(u.collateral, i) - lot && Amount(pf.collateral, i) == Amount(f.collateral, i) + lot
    && Amount(pu.liabilities, i) == Amount(u.liabilities, i) - bid && Amount(pf.liabilities, i) == Amount(f.liabilities, i) + bid
  }

  /** The user's collateral and debt move to the filler by the fill, index by index; nobody else's positions change. */
  ghost predicate Handed(p: Pool, q: Pool, user: Address, from: Address, fill: AuctionData)
  {
    && PositionsOf(q, user).supply == PositionsOf(p, user).supply && PositionsOf(q, from).supply == PositionsOf(p, from).supply
    && (forall v :: v != user && v != from ==> PositionsOf(q, v) == PositionsOf(p, v))
    && (forall i: nat :: HandedAt(p.resList, PositionsOf(p, user), PositionsOf(p, from), PositionsOf(q, user), PositionsOf(q, from), fill, i))
  }

  lemma MovedIsHanded(b: Batch, user: Address, from: Address, fill: AuctionData)
    requires user != from && AllPositive(fill.lot) && AllPositive(fill.bid)
    requires PositionsOk(PositionsOf(b.pool, user)) && PositionsOk(PositionsOf(b.pool, from))
    requires MoveBetween(b, user, from, fill.lot, fill.bid).Ok?
    ensures Handed(b.pool, MoveBetween(b, user, from, fill.lot, fill.bid).value.pool, user, from, fill)
  {
    hide MoveBetween;
    hide TakeAll;
    hide GiveAll;
    hide LoadAll;
    hide AllPositive;
    hide AtIndex;
    MoveBetweenIs(b, user, from, fill.lot, fill.bid);
    var (u, f) := (PositionsOf(b.pool, user), PositionsOf(b.pool, from));
    var q := MoveBetween(b, user, from, fill.lot, fill.bid).value.pool;
    forall i: nat
      ensures HandedAt(b.pool.resList, u, f, PositionsOf(q, user), PositionsOf(q, from), fill, i)
    {
      TakeAllTakes(b.pool.resList, u.collateral, fill.lot, i);
      TakeAllTakes(b.pool.resList, u.liabilities, fill.bid, i);
      GiveAllGives(b.pool.resList, f.collateral, fill.lot, i);
      GiveAllGives(b.pool.resList, f.liabilities, fill.bid, i);
    }
    hide HandedAt;
  }

  /** A fill of a liquidation: what stays stored, what the two users gain and lose, and that other auctions stay. */
  lemma {:induction false} FillLiquidationIs(b: Batch, from: Address, user: Address, percent: int)
    requires AccountsOk(b.pool) && FillLiquidation(b, from, user, percent).Ok? && AuctionOk(b.pool.liquidations[user])
    ensures var (before, n) := (b.pool.liquidations[user], FillLiquidation(b, from, user, percent).value);
      var fill := Scale(before, percent, b.pool.block).value.0;
      var after := Stored(n.pool.liquidations, user, before.block);
      && Filled(before, after, fill, percent, b.pool.block - before.block)
      && (user in n.pool.liquidations <==> SomeLeft(after))
      && (forall v :: v != user ==> Stored(n.pool.liquidations, v, 0) == Stored(b.pool.liquidations, v, 0))
      && Handed(b.pool, n.pool, user, from, fill)
      && n.checkHealth && n.flows == b.flows
  {
    hide Scale;
    hide MoveBetween;
    hide AllPositive;
    hide Handed;
    hide Filled;
    hide SomeLeft;
    hide PositionsOk;
    var before := b.pool.liquidations[user];
    var fill := Scale(before, percent, b.pool.block).value.0;
    FillPositive(before, percent, b.pool.block);
    HoldersOk(b.pool, user);
    HoldersOk(b.pool, from);
    hide AccountsOk;
    MovedIsHanded(b, user, from, fill);
    MoveBetweenAside(b, user, from, fill.lot, fill.bid);
    ScaleFills(before, percent, b.pool.block);
    hide AuctionOk;
    HandedAside(b.pool, MoveBetween(b, user, from, fill.lot, fill.bid).value.pool,
      FillLiquidation(b, from, user, percent).value.pool, user, from, fill);
  }

  lemma HandedAside(p: Pool, q: Pool, r: Pool, user: Address, from: Address, fill: AuctionData)
    requires Handed(p, q, user, from, fill) && r.accounts == q.accounts
    ensures Handed(p, r, user, from, fill)
  {
    hide HandedAt;
    assert forall v :: PositionsOf(r, v) == PositionsOf(q, v);
  }

  // ----- one fill of the backstop's auctions -----

  /** Credit is taken from a reserve as it loads. */
  ghost predicate DrawnAt(b: Batch, n: Batch, a: Address, amount: int)
  {
    LoadReserve(b, a).Ok? && a in n.cache
    && n.cache[a] == Fetched(b, a).(backstopCredit := Fetched(b, a).backstopCredit - amount)
  }

  /** A fill of the interest auction: what stays stored, and that cash and credit fall by the lot handed out. */
  lemma {:induction false} FillInterestIs(b: Batch, from: Address, user: Address, percent: int, reply: Reply)
    requires FillInterest(b, from, user, percent, reply).Ok? && AuctionOk(b.pool.interest.value)
    ensures var (before, n) := (b.pool.interest.value, FillInterest(b, from, user, percent, reply).value);
      var fill := Scale(before, percent, b.pool.block).value.0;
      var after := OrEmpty(n.pool.interest, before.block);
      && Filled(before, after, fill, percent, b.pool.block - before.block)
      && (n.pool.interest.Some? <==> SomeLeft(after))
      && (forall a :: Amount(n.pool.cash, a) == Amount(b.pool.cash, a) - Amount(fill.lot, a))
      && (forall a :: a in fill.lot ==> DrawnAt(b, n, a, fill.lot[a]))
      && n.pool == b.pool.(interest := n.pool.interest, cash := n.pool.cash) && n.flows == b.flows
  {
    hide Scale;
    hide Filled;
    hide SomeLeft;
    var before := b.pool.interest.value;
    var fill := Scale(before, percent, b.pool.block).value.0;
    ScaleFills(before, percent, b.pool.block);
    FillPositive(before, percent, b.pool.block);
    LoadAllFetches(b, fill.lot.Keys);
    hide LoadAll;
    hide LoadReserve;
    hide Fetched;
    hide AuctionOk;
  }

  /** A fill of the bad debt auction: what stays stored, and that the debt filled moves from the backstop to the
      filler before anything is written off. */
  lemma {:induction false} FillBadDebtIs(b: Batch, from: Address, user: Address, percent: int, reply: Reply)
    requires AccountsOk(b.pool) && FillBadDebt(b, from, user, percent, reply).Ok? && AuctionOk(b.pool.badDebt.value)
    ensures var (before, n) := (b.pool.badDebt.value, FillBadDebt(b, from, user, percent, reply).value);
      var fill := Scale(before, percent, b.pool.block).value.0;
      var after := OrEmpty(n.pool.badDebt, before.block);
      && Filled(before, after, fill, percent, b.pool.block - before.block)
      && (n.pool.badDebt.Some? <==> SomeLeft(after))
      && user == b.pool.backstop && b.pool.backstopToken in fill.lot && n.checkHealth
      && MoveBetween(b, user, from, map[], fill.bid).Ok?
      && var moved := MoveBetween(b, user, from, map[], fill.bid).value;
         Handed(b.pool, moved.pool, user, from, fill.(lot := map[]))
         && (WriteOff(moved, reply) == Ok(moved) ==> n.pool.accounts == moved.pool.accounts && n.flows == b.flows)
  {
    hide Scale;
    hide MoveBetween;
    hide AllPositive;
    hide Handed;
    hide Filled;
    hide SomeLeft;
    hide PositionsOk;
    hide WriteOff;
    var before := b.pool.badDebt.value;
    var fill := Scale(before, percent, b.pool.block).value.0;
    FillPositive(before, percent, b.pool.block);
    assert AllPositive(map[]) by { NonePositive(); }
    HoldersOk(b.pool, user);
    HoldersOk(b.pool, from);
    hide AccountsOk;
    MovedIsHanded(b, user, from, fill.(lot := map[]));
    MoveBetweenAside(b, user, from, map[], fill.bid);
    ScaleFills(before, percent, b.pool.block);
    hide AuctionOk;
  }

  // ----- fills over a submission -----

  lemma {:induction false} AfterAppended(auction: AuctionData, fills: seq<Fill>, f: Fill)
    ensures AfterFills(auction, fills + [f]) == AfterFill(AfterFills(auction, fills), f)
    decreases |fills|
  {
    hide AfterFill;
    if fills == [] {
      assert [f][1..] == [];
      assert AfterFills(AfterFill(auction, f), []) == AfterFill(auction, f);
    } else {
      assert (fills + [f])[1..] == fills[1..] + [f];
      AfterAppended(AfterFill(auction, fills[0]), fills[1..], f);
    }
  }

  /** The fills of a user's liquidation among the first k requests of a list. */
  function FillsIn(requests: seq<Request>, k: nat, user: Address, block: nat): seq<Fill>
    requires k <= |requests|
  {
    if k == 0 then []
    else
      var q := requests[k - 1];
      FillsIn(requests, k - 1, user, block)
        + (if q.kind == 6 && q.address == user then [Fill(q.amount % U64_LIMIT, block)] else [])
  }

  /** A request other than a fill of this liquidation or its owner's withdrawal of it leaves it stored. */
  lemma TurnLeavesLiquidation(b: Batch, from: Address, q: Request, reply: Reply, user: Address)
    requires Turn(b, from, q, reply).Ok? && !(q.kind == 6 && q.address == user) && !(q.kind == 9 && from == user)
    ensures Stored(Turn(b, from, q, reply).value.pool.liquidations, user, 0) == Stored(b.pool.liquidations, user, 0)
    ensures user in Turn(b, from, q, reply).value.pool.liquidations <==> user in b.pool.liquidations
  {
    hide Scale;
    hide LoadReserve;
    hide LoadAll;
    hide Perform;
    hide MoveBetween;
    hide WriteOff;
    if q.kind == 6 {
      var fill := Scale(b.pool.liquidations[q.address], q.amount % U64_LIMIT, b.pool.block).value.0;
      MoveBetweenAside(b, q.address, from, fill.lot, fill.bid);
    } else if q.kind == 7 {
      var fill := Scale(b.pool.badDebt.value, q.amount % U64_LIMIT, b.pool.block).value.0;
      MoveBetweenAside(b, q.address, from, map[], fill.bid);
      WriteOffAside(MoveBetween(b, q.address, from, map[], fill.bid).value, reply);
    }
  }

  /** A fill stores what AfterFill says. */
  lemma FillStores(b: Batch, from: Address, user: Address, percent: int)
    requires FillLiquidation(b, from, user, percent).Ok?
    ensures var before := b.pool.liquidations[user];
      Stored(FillLiquidation(b, from, user, percent).value.pool.liquidations, user, before.block)
        == AfterFill(before, Fill(percent, b.pool.block))
  {
    hide Scale;
    hide MoveBetween;
  }

  /** The requests of a submission leave a stored liquidation as its fills among them do. */
  lemma {:induction false} ProcessFills(p: Pool, from: Address, requests: seq<Request>, replies: seq<Reply>, k: nat, user: Address,
                                        start: AuctionData)
    requires k <= |requests| && Process(p, from, requests, replies, k).Ok?
    requires Stored(p.liquidations, user, start.block) == start
    requires from == user ==> forall j :: 0 <= j < k ==> requests[j].kind != 9
    ensures Stored(Process(p, from, requests, replies, k).value.pool.liquidations, user, start.block)
      == AfterFills(start, FillsIn(requests, k, user, p.block))
    decreases k
  {
    hide Turn;
    hide AfterFill;
    if k == 0 {
      return;
    }
    ProcessFills(p, from, requests, replies, k - 1, user, start);
    ProcessAside(p, from, requests, replies, k - 1);
    hide Process;
    var b := Process(p, from, requests, replies, k - 1).value;
    NextFill(b, from, requests[k - 1], ReplyTo(replies, k - 1), user, start, FillsIn(requests, k - 1, user, p.block));
  }

  /** One more request. */
  lemma NextFill(b: Batch, from: Address, q: Request, reply: Reply, user: Address, start: AuctionData, fills: seq<Fill>)
    requires Turn(b, from, q, reply).Ok? && !(q.kind == 9 && from == user)
    requires Stored(b.pool.liquidations, user, start.block) == AfterFills(start, fills)
    ensures Stored(Turn(b, from, q, reply).value.pool.liquidations, user, start.block)
      == AfterFills(start, fills + (if q.kind == 6 && q.address == user then [Fill(q.amount % U64_LIMIT, b.pool.block)] else []))
  {
    if q.kind == 6 && q.address == user {
      var percent := q.amount % U64_LIMIT;
      assert FillLiquidation(b, from, user, percent).Ok? && Turn(b, from, q, reply) == FillLiquidation(b, from, user, percent) by {
        hide FillLiquidation;
      }
      assert user in b.pool.liquidations by { hide Scale; }
      FillStores(b, from, user, percent);
      AfterAppended(start, fills, Fill(percent, b.pool.block));
      AfterKeepsBlock(start, fills);
    } else {
      TurnLeavesLiquidation(b, from, q, reply, user);
      assert fills + [] == fills;
    }
    hide *;
  }

  lemma {:induction false} AfterKeepsBlock(auction: AuctionData, fills: seq<Fill>)
    ensures AfterFills(auction, fills).block == auction.block
    decreases |fills|
  {
    hide FilledBid;
    hide FilledLot;
    hide RemainingBid;
    hide RemainingLot;
    if fills != [] {
      AfterKeepsBlock(AfterFill(auction, fills[0]), fills[1..]);
    }
  }

  // ----- fills over runs -----

  lemma {:induction false} AfterMore(auction: AuctionData, fills: seq<Fill>, more: seq<Fill>)
    ensures AfterFills(auction, fills + more) == AfterFills(AfterFills(auction, fills), more)
    decreases |fills|
  {
    hide AfterFill;
    if fills == [] {
      assert fills + more == more;
    } else {
      assert (fills + more)[1..] == fills[1..] + more;
      AfterMore(AfterFill(auction, fills[0]), fills[1..], more);
    }
  }

  /** A call that neither starts, withdraws nor loses the user's auction. */
  ghost predicate Leaves(p: Pool, a: Action, user: Address)
  {
    Attempt(p, a).Ok? ==>
      && !(a.LiquidationLapses? && a.user == user)
      && !(a.UserLiquidated? && a.user == user)
      && !(a.UserSubmits? && a.from == user && exists k :: 0 <= k < |a.requests| && a.requests[k].kind == 9)
  }

  ghost predicate Undisturbed(p: Pool, actions: seq<Action>, user: Address)
    decreases |actions|
  {
    actions == [] || (Leaves(Run(p, Earlier(actions)), actions[|actions| - 1], user) && Undisturbed(p, Earlier(actions), user))
  }

  /** The fills a call makes of the user's auction. */
  function StepFills(p: Pool, a: Action, user: Address): seq<Fill>
  {
    if a.UserSubmits? && Attempt(p, a).Ok? then FillsIn(a.requests, |a.requests|, user, p.block) else []
  }

  function RunFills(p: Pool, actions: seq<Action>, user: Address): seq<Fill>
    decreases |actions|
  {
    if actions == [] then []
    else RunFills(p, Earlier(actions), user) + StepFills(Run(p, Earlier(actions)), actions[|actions| - 1], user)
  }

  lemma SubmitStores(p: Pool, from: Address, spender: Address, to: Address, requests: seq<Request>, answers: Answers)
    requires Submit(p, from, spender, to, requests, answers).Ok?
    ensures Process(p, from, requests, answers.replies, |requests|).Ok?
    ensures Submit(p, from, spender, to, requests, answers).value.liquidations
      == Process(p, from, requests, answers.replies, |requests|).value.pool.liquidations
  {
    hide Process;
    hide HealthAfter;
    hide CashAfter;
  }

  lemma StepStores(p: Pool, a: Action, user: Address, start: AuctionData)
    requires Leaves(p, a, user) && Stored(p.liquidations, user, start.block) == start
    ensures Stored(Step(p, a).liquidations, user, start.block) == AfterFills(start, StepFills(p, a, user))
  {
    hide Process;
    hide AfterFills;
    hide FillsIn;
    hide Tick;
    hide Receive;
    if Attempt(p, a).Ok? {
      if a.UserSubmits? {
        hide Submit;
        SubmitStores(p, a.from, a.spender, a.to, a.requests, a.answers);
        ProcessFills(p, a.from, a.requests, a.answers.replies, |a.requests|, user, start);
        return;
      }
      OthersStore(p, a, user);
    }
    hide Attempt;
    NoFills(start);
  }

  lemma NoFills(start: AuctionData)
    ensures AfterFills(start, []) == start
  {}

  /** Calls other than submissions leave the user's auction stored. */
  lemma OthersStore(p: Pool, a: Action, user: Address)
    requires !a.UserSubmits? && Attempt(p, a).Ok? && Leaves(p, a, user)
    ensures user in Step(p, a).liquidations <==> user in p.liquidations
    ensures user in p.liquidations ==> Step(p, a).liquidations[user] == p.liquidations[user]
  {
    hide InterestLot;
    hide DebtBid;
    hide LiquidationAuction;
    hide LoadAll;
    hide Load;
    hide Merged;
    hide Pow10;
    hide Floor;
    hide DivFloor;
  }

  /** Over any run that does not start, withdraw or lose it, what is stored of a user's auction at the end is what
      the fills made of it leave, in their order. */
  lemma {:induction false} StoredIsAfterFills(p: Pool, actions: seq<Action>, user: Address)
    requires user in p.liquidations && Undisturbed(p, actions, user)
    ensures var start := p.liquidations[user];
      Stored(Run(p, actions).liquidations, user, start.block) == AfterFills(start, RunFills(p, actions, user))
    decreases |actions|
  {
    hide Step;
    hide Leaves;
    hide StepFills;
    hide AfterFills;
    var start := p.liquidations[user];
    if actions == [] {
      NoFills(start);
      return;
    }
    StoredIsAfterFills(p, Earlier(actions), user);
    var (q, a) := (Run(p, Earlier(actions)), actions[|actions| - 1]);
    var now := AfterFills(start, RunFills(p, Earlier(actions), user));
    AfterKeepsBlock(start, RunFills(p, Earlier(actions), user));
    StepStores(q, a, user, now);
    AfterMore(start, RunFills(p, Earlier(actions), user), StepFills(q, a, user));
  }

  // ----- stored auctions are well formed -----

  /** No stored auction names a negative amount. */
  ghost predicate AuctionsOk(p: Pool)
  {
    && (forall u :: u in p.liquidations ==> AuctionOk(p.liquidations[u]))
    && (p.interest.Some? ==> AuctionOk(p.interest.value))
    && (p.badDebt.Some? ==> AuctionOk(p.badDebt.value))
  }

  lemma RestOk(auction: AuctionData, percent: int, block: nat)
    requires AuctionOk(auction) && Scale(auction, percent, block).Ok?
    ensures Scale(auction, percent, block).value.1.Some? ==> AuctionOk(Scale(auction, percent, block).value.1.value)
  {
    FillConserves(auction, percent, block, 0);
    hide FilledBid;
    hide FilledLot;
    hide RemainingBid;
    hide RemainingLot;
    hide AuctionOk;
  }

  lemma TurnAuctions(b: Batch, from: Address, q: Request, reply: Reply)
    requires AuctionsOk(b.pool) && Turn(b, from, q, reply).Ok?
    ensures AuctionsOk(Turn(b, from, q, reply).value.pool)
  {
    hide Scale;
    hide LoadReserve;
    hide LoadAll;
    hide Perform;
    hide MoveBetween;
    hide WriteOff;
    hide AuctionOk;
    hide HandOut;
    if q.kind == 6 {
      var auction := b.pool.liquidations[q.address];
      RestOk(auction, q.amount % U64_LIMIT, b.pool.block);
      var fill := Scale(auction, q.amount % U64_LIMIT, b.pool.block).value.0;
      MoveBetweenAside(b, q.address, from, fill.lot, fill.bid);
    } else if q.kind == 7 {
      RestOk(b.pool.badDebt.value, q.amount % U64_LIMIT, b.pool.block);
      var fill := Scale(b.pool.badDebt.value, q.amount % U64_LIMIT, b.pool.block).value.0;
      MoveBetweenAside(b, q.address, from, map[], fill.bid);
      WriteOffAside(MoveBetween(b, q.address, from, map[], fill.bid).value, reply);
    } else if q.kind == 8 {
      RestOk(b.pool.interest.value, q.amount % U64_LIMIT, b.pool.block);
    }
  }

  lemma {:induction false} ProcessAuctions(p: Pool, from: Address, requests: seq<Request>, replies: seq<Reply>, k: nat)
    requires AuctionsOk(p) && k <= |requests| && Process(p, from, requests, replies, k).Ok?
    ensures AuctionsOk(Process(p, from, requests, replies, k).value.pool)
    decreases k
  {
    hide Turn;
    hide AuctionOk;
    if k > 0 {
      ProcessAuctions(p, from, requests, replies, k - 1);
      TurnAuctions(Process(p, from, requests, replies, k - 1).value, from, requests[k - 1], ReplyTo(replies, k - 1));
      hide AuctionsOk;
    }
  }

  /** Answers about prices and the backstop that name no negative amount. */
  predicate SaneQuote(quote: Quote)
  {
    quote.usdc >= 0 && quote.tokens >= 0 && forall a :: a in quote.prices ==> quote.prices[a] >= 0
  }

  predicate SaneAction(a: Action)
  {
    (a.InterestAuctioned? ==> SaneQuote(a.quote)) && (a.BadDebtAuctioned? ==> SaneQuote(a.quote))
  }

  /** Shares in 1.4 times a value, at a price per share. */
  lemma SharesNonNegative(value: int, usdc: int, tokens: int, unit: int)
    requires value >= 0 && usdc >= 0 && tokens >= 0 && unit > 0
    requires DivFloor(Floor(usdc * unit, SCALAR_7) * 5 * SCALAR_7, tokens).Ok?
    ensures var base := DivFloor(Floor(usdc * unit, SCALAR_7) * 5 * SCALAR_7, tokens).value;
      DivFloor(Floor(value * 1_4000000, SCALAR_7) * SCALAR_7, base).Ok? ==>
        DivFloor(Floor(value * 1_4000000, SCALAR_7) * SCALAR_7, base).value >= 0
  {
    hide Floor;
    MulMono(0, usdc, unit);
    FloorNonNeg(usdc * unit, SCALAR_7);
    FloorNonNeg(Floor(usdc * unit, SCALAR_7) * 5 * SCALAR_7, tokens);
    var base := DivFloor(Floor(usdc * unit, SCALAR_7) * 5 * SCALAR_7, tokens).value;
    FloorNonNeg(value * 1_4000000, SCALAR_7);
    if base > 0 {
      FloorNonNeg(Floor(value * 1_4000000, SCALAR_7) * SCALAR_7, base);
    }
  }

  lemma InterestAuctionOk(p: Pool, assets: seq<Address>, quote: Quote)
    requires BooksOk(p) && SaneQuote(quote) && CreateInterest(p, assets, quote).Ok?
    ensures AuctionOk(CreateInterest(p, assets, quote).value.interest.value)
  {
    hide InterestLot;
    hide Floor;
    hide DivFloor;
    hide Covered;
    hide ReservesOk;
    hide AccountsOk;
    hide SharesAgree;
    var unit := Pow10(quote.decimals);
    hide Pow10;
    LotIsCovered(p, assets, quote, |assets|);
    var value := InterestLot(p, assets, quote, |assets|).value.1;
    SharesNonNegative(value, quote.usdc, quote.tokens, unit);
    hide Listed;
  }

  /** The debt an auction asks for and its value are never negative. */
  lemma {:induction false} DebtBidNonNegative(p: Pool, m: map<Address, int>, quote: Quote, k: nat)
    requires BooksOk(p) && SaneQuote(quote) && k <= |p.resList| && DebtBid(p, m, quote, k).Ok?
    ensures var (bid, value) := DebtBid(p, m, quote, k).value;
      value >= 0 && forall a :: a in bid ==> bid[a] > 0
    decreases k
  {
    hide BooksOk;
    hide LoadReserve;
    hide Floor;
    hide Ceil;
    hide Pow10;
    if k == 0 {
      return;
    }
    DebtBidNonNegative(p, m, quote, k - 1);
    var a := p.resList[k - 1];
    if Amount(m, k - 1) > 0 && LoadReserve(Idle(p), a).Ok? && a in quote.prices {
      ValueNonNegative(p, a, quote.prices[a], m[k - 1]);
    }
  }

  lemma ValueNonNegative(p: Pool, a: Address, price: int, dTokens: int)
    requires BooksOk(p) && LoadReserve(Idle(p), a).Ok? && price >= 0 && dTokens >= 0
    ensures a in p.configs && Floor(price * AssetFromD(LoadReserve(Idle(p), a).value, dTokens), Pow10(p.configs[a].decimals)) >= 0
  {
    assert View(Idle(p)) == p.data;
    LoadedOk(Idle(p), a);
    var r := LoadReserve(Idle(p), a).value;
    RatesPositive(r);
    hide BooksOk;
    hide LoadReserve;
    hide Floor;
    hide Ceil;
    var unit := Pow10(p.configs[a].decimals);
    hide Pow10;
    MulMono(0, dTokens, r.dRate);
    CeilNonNeg(dTokens * r.dRate, SCALAR_9);
    MulMono(0, price, AssetFromD(r, dTokens));
    FloorNonNeg(price * AssetFromD(r, dTokens), unit);
  }

  lemma BadDebtAuctionOk(p: Pool, quote: Quote)
    requires BooksOk(p) && SaneQuote(quote) && CreateBadDebt(p, quote).Ok?
    ensures AuctionOk(CreateBadDebt(p, quote).value.badDebt.value)
  {
    hide BooksOk;
    hide DebtBid;
    hide Floor;
    hide DivFloor;
    var unit := Pow10(quote.decimals);
    hide Pow10;
    var m := PositionsOf(p, p.backstop).liabilities;
    DebtBidNonNegative(p, m, quote, |p.resList|);
    SharesNonNegative(DebtBid(p, m, quote, |p.resList|).value.1, quote.usdc, quote.tokens, unit);
  }

  /** A created liquidation is stored for its user, beside the others, sized within the user's positions. */
  lemma CreatedIsStored(p: Pool, user: Address, percent: int, decimals: nat)
    requires BooksOk(p) && CreateLiquidation(p, user, percent, decimals).Ok?
    ensures var q := CreateLiquidation(p, user, percent, decimals).value;
      && user !in p.liquidations && user != p.self && user != p.backstop && user in q.liquidations
      && AuctionOk(q.liquidations[user]) && Within(p.resList, q.liquidations[user], PositionsOf(p, user))
      && q.liquidations[user].block == p.block + 1
      && q == p.(liquidations := q.liquidations) && q.liquidations - {user} == p.liquidations
  {
    hide Calculate;
    hide Quoted;
    hide Removed;
    hide BooksOk;
    hide Within;
    hide AuctionOk;
    LiquidationWithin(p, user, percent, decimals);
  }

  lemma {:induction false} StepAuctions(p: Pool, a: Action)
    requires BooksOk(p) && AuctionsOk(p) && SaneAction(a)
    ensures AuctionsOk(Step(p, a))
  {
    hide BooksOk;
    hide AuctionOk;
    hide SaneQuote;
    hide Process;
    hide Tick;
    hide Receive;
    if Attempt(p, a).Ok? {
      match a
      case UserSubmits(from, spender, to, requests, answers) =>
        SubmitAuctions(p, from, spender, to, requests, answers);
      case InterestAuctioned(assets, quote) =>
        InterestAuctionOk(p, assets, quote);
        hide InterestLot;
      case BadDebtAuctioned(quote) =>
        BadDebtAuctionOk(p, quote);
        hide DebtBid;
      case UserLiquidated(user, percent, decimals) =>
        CreatedIsStored(p, user, percent, decimals);
        hide CreateLiquidation;
      case _ =>
        OtherAuctions(p, a);
    }
  }

  lemma SubmitAuctions(p: Pool, from: Address, spender: Address, to: Address, requests: seq<Request>, answers: Answers)
    requires AuctionsOk(p) && Submit(p, from, spender, to, requests, answers).Ok?
    ensures AuctionsOk(Submit(p, from, spender, to, requests, answers).value)
  {
    hide Process;
    hide HealthAfter;
    hide CashAfter;
    hide AuctionOk;
    ProcessAuctions(p, from, requests, answers.replies, |requests|);
  }

  /** No other call touches a stored auction but to drop it. */
  lemma OtherAuctions(p: Pool, a: Action)
    requires !a.UserSubmits? && !a.InterestAuctioned? && !a.BadDebtAuctioned? && !a.UserLiquidated? && Attempt(p, a).Ok?
    ensures var q := Step(p, a);
      && (q.interest == p.interest || q.interest.None?) && (q.badDebt == p.badDebt || q.badDebt.None?)
      && (forall u :: u in q.liquidations ==> u in p.liquidations && q.liquidations[u] == p.liquidations[u])
  {
    hide LoadAll;
    hide Load;
    hide Merged;
    hide ValidMetadata;
  }

  /** In every state of every run no stored auction names a negative amount. */
  lemma {:induction false} AuctionsStayOk(p: Pool, actions: seq<Action>)
    requires IsGenesis(p) && forall k :: 0 <= k < |actions| ==> SaneAction(actions[k])
    ensures AuctionsOk(Run(p, actions))
    decreases |actions|
  {
    hide BooksOk;
    hide Solvent;
    hide CreditCovers;
    hide Step;
    hide SaneAction;
    hide SolventThroughout;
    hide CoveredThroughout;
    if actions == [] {
      return;
    }
    assert forall k :: 0 <= k < |actions| - 1 ==> Earlier(actions)[k] == actions[k];
    AuctionsStayOk(p, Earlier(actions));
    GenesisOk(p);
    RunKeeps(p, Earlier(actions));
    StepAuctions(Run(p, Earlier(actions)), actions[|actions| - 1]);
  }
}
