/** Dutch auction scaling: a percentage of a stored auction is filled at block-dependent prices and the
    rest is kept for later fills (pool/src/auctions/auction.rs). */
module Auctions {
  import opened Outcomes
  import opened FixedPoint
  import opened Totals

  const PER_BLOCK: int := 0_0050000
  const PERCENT: int := 1_00000

  datatype AuctionData = AuctionData(bid: map<Address, int>, lot: map<Address, int>, block: nat)

  /** The price modifiers after `blockDif` blocks: the lot rises to 100% over 200 blocks, then the bid
      falls to 0% over another 200. */
  function BidModifier(blockDif: int): int
  {
    if blockDif > 200 then
      if blockDif < 400 then SCALAR_7 - (blockDif - 200) * PER_BLOCK else 0
    else SCALAR_7
  }

  function LotModifier(blockDif: int): int
  {
    if blockDif > 200 then SCALAR_7 else blockDif * PER_BLOCK
  }

  /** The part of a stored amount a fill of `percent` takes: bids rounded up, lots down. */
  function BidBase(amount: int, percent: int): int { Ceil(amount * (percent * PERCENT), SCALAR_7) }
  function LotBase(amount: int, percent: int): int { Floor(amount * (percent * PERCENT), SCALAR_7) }

  /** What of that part is actually paid or received at a modifier. */
  function BidPaid(base: int, modifier: int): int { Ceil(base * modifier, SCALAR_7) }
  function LotReceived(base: int, modifier: int): int { Floor(base * modifier, SCALAR_7) }

  function FilledBid(bid: map<Address, int>, percent: int, modifier: int): map<Address, int>
  {
    map a | a in bid && BidPaid(BidBase(bid[a], percent), modifier) > 0 :: BidPaid(BidBase(bid[a], percent), modifier)
  }

  function FilledLot(lot: map<Address, int>, percent: int, modifier: int): map<Address, int>
  {
    map a | a in lot && LotReceived(LotBase(lot[a], percent), modifier) > 0 :: LotReceived(LotBase(lot[a], percent), modifier)
  }

  function RemainingBid(bid: map<Address, int>, percent: int): map<Address, int>
  {
    map a | a in bid && bid[a] - BidBase(bid[a], percent) > 0 :: bid[a] - BidBase(bid[a], percent)
  }

  function RemainingLot(lot: map<Address, int>, percent: int): map<Address, int>
  {
    map a | a in lot && lot[a] - LotBase(lot[a], percent) > 0 :: lot[a] - LotBase(lot[a], percent)
  }

  /** The part to fill now, and what to store, if anything. */
  function Scale(auction: AuctionData, percent: int, block: nat): Outcome<(AuctionData, Option<AuctionData>)>
  {
    if percent > 100 || percent <= 0 then Abort(BadRequest)
    else if block < auction.block then Abort(ArithmeticError)
    else
      var dif := block - auction.block;
      var toFill := AuctionData(FilledBid(auction.bid, percent, BidModifier(dif)),
                                FilledLot(auction.lot, percent, LotModifier(dif)), auction.block);
      var rest := AuctionData(RemainingBid(auction.bid, percent), RemainingLot(auction.lot, percent), auction.block);
      Ok((toFill, if rest.lot == map[] && rest.bid == map[] then None else Some(rest)))
  }

  /** The two loops of scale_auction. */
  method ScaleAuction(auction: AuctionData, percent: int, block: nat) returns (r: Outcome<(AuctionData, Option<AuctionData>)>)
    ensures r == Scale(auction, percent, block)
  {
    hide BidBase;
    hide LotBase;
    hide BidPaid;
    hide LotReceived;
    if percent > 100 || percent <= 0 {
      return Abort(BadRequest);
    }
    if block < auction.block {
      return Abort(ArithmeticError);
    }
    var blockDif := block - auction.block;
    var bidModifier, lotModifier;
    if blockDif > 200 {
      lotModifier := SCALAR_7;
      if blockDif < 400 {
        bidModifier := SCALAR_7 - (blockDif - 200) * PER_BLOCK;
      } else {
        bidModifier := 0;
      }
    } else {
      lotModifier := blockDif * PER_BLOCK;
      bidModifier := SCALAR_7;
    }
    var filledBid, restBid := ScaleBid(auction.bid, percent, bidModifier);
    var filledLot, restLot := ScaleLot(auction.lot, percent, lotModifier);
    var toFill := AuctionData(filledBid, filledLot, auction.block);
    if restLot == map[] && restBid == map[] {
      return Ok((toFill, None));
    }
    return Ok((toFill, Some(AuctionData(restBid, restLot, auction.block))));
  }

  lemma NothingYet(percent: int, modifier: int)
    ensures FilledBid(map[], percent, modifier) == map[] && RemainingBid(map[], percent) == map[]
    ensures FilledLot(map[], percent, modifier) == map[] && RemainingLot(map[], percent) == map[]
  {}

  lemma BidRemains(m: map<Address, int>, a: Address, amount: int, percent: int)
    requires a !in m
    ensures RemainingBid(m[a := amount], percent)
      == (if amount - BidBase(amount, percent) > 0 then RemainingBid(m, percent)[a := amount - BidBase(amount, percent)] else RemainingBid(m, percent))
  {
    hide BidBase;
  }

  lemma BidFills(m: map<Address, int>, a: Address, amount: int, percent: int, modifier: int)
    requires a !in m
    ensures var scaled := BidPaid(BidBase(amount, percent), modifier);
      FilledBid(m[a := amount], percent, modifier)
        == (if scaled > 0 then FilledBid(m, percent, modifier)[a := scaled] else FilledBid(m, percent, modifier))
  {
    hide BidBase;
    hide BidPaid;
  }

  /** One turn of the loop: the asset taken adds its own entries. */
  lemma BidTurn(m: map<Address, int>, a: Address, amount: int, percent: int, modifier: int)
    requires a !in m
    ensures var base := BidBase(amount, percent);
      && RemainingBid(m[a := amount], percent)
           == (if amount - base > 0 then RemainingBid(m, percent)[a := amount - base] else RemainingBid(m, percent))
      && FilledBid(m[a := amount], percent, modifier)
           == (if BidPaid(base, modifier) > 0 then FilledBid(m, percent, modifier)[a := BidPaid(base, modifier)] else FilledBid(m, percent, modifier))
  {
    hide BidBase;
    hide BidPaid;
    hide RemainingBid;
    hide FilledBid;
    BidRemains(m, a, amount, percent);
    BidFills(m, a, amount, percent, modifier);
  }

  method ScaleBid(bid: map<Address, int>, percent: int, modifier: int) returns (filled: map<Address, int>, rest: map<Address, int>)
    ensures filled == FilledBid(bid, percent, modifier) && rest == RemainingBid(bid, percent)
  {
    hide BidBase;
    hide BidPaid;
    hide FilledBid;
    hide RemainingBid;
    hide Done;
    NothingYet(percent, modifier);
    NothingDone(bid);
    filled, rest := map[], map[];
    var left := bid;
    while left != map[]
      invariant left.Keys <= bid.Keys
      invariant filled == FilledBid(Done(bid, left), percent, modifier)
      invariant rest == RemainingBid(Done(bid, left), percent)
      decreases |left|
    {
      var a :| a in left;
      TakeOne(bid, left, a);
      BidTurn(Done(bid, left), a, bid[a], percent, modifier);
      left := left - {a};
      var toFillBase := BidBase(bid[a], percent);
      if bid[a] - toFillBase > 0 {
        rest := rest[a := bid[a] - toFillBase];
      }
      var toFillScaled := BidPaid(toFillBase, modifier);
      if toFillScaled > 0 {
        filled := filled[a := toFillScaled];
      }
    }
    NothingLeft(bid, left);
  }

  lemma LotRemains(m: map<Address, int>, a: Address, amount: int, percent: int)
    requires a !in m
    ensures RemainingLot(m[a := amount], percent)
      == (if amount - LotBase(amount, percent) > 0 then RemainingLot(m, percent)[a := amount - LotBase(amount, percent)] else RemainingLot(m, percent))
  {
    hide LotBase;
  }

  lemma LotFills(m: map<Address, int>, a: Address, amount: int, percent: int, modifier: int)
    requires a !in m
    ensures var scaled := LotReceived(LotBase(amount, percent), modifier);
      FilledLot(m[a := amount], percent, modifier)
        == (if scaled > 0 then FilledLot(m, percent, modifier)[a := scaled] else FilledLot(m, percent, modifier))
  {
    hide LotBase;
    hide LotReceived;
  }

  /** One turn of the loop: the asset taken adds its own entries. */
  lemma LotTurn(m: map<Address, int>, a: Address, amount: int, percent: int, modifier: int)
    requires a !in m
    ensures var base := LotBase(amount, percent);
      && RemainingLot(m[a := amount], percent)
           == (if amount - base > 0 then RemainingLot(m, percent)[a := amount - base] else RemainingLot(m, percent))
      && FilledLot(m[a := amount], percent, modifier)
           == (if LotReceived(base, modifier) > 0 then FilledLot(m, percent, modifier)[a := LotReceived(base, modifier)] else FilledLot(m, percent, modifier))
  {
    hide LotBase;
    hide LotReceived;
    hide RemainingLot;
    hide FilledLot;
    LotRemains(m, a, amount, percent);
    LotFills(m, a, amount, percent, modifier);
  }

  method ScaleLot(lot: map<Address, int>, percent: int, modifier: int) returns (filled: map<Address, int>, rest: map<Address, int>)
    ensures filled == FilledLot(lot, percent, modifier) && rest == RemainingLot(lot, percent)
  {
    hide LotBase;
    hide LotReceived;
    hide FilledLot;
    hide RemainingLot;
    hide Done;
    NothingYet(percent, modifier);
    NothingDone(lot);
    filled, rest := map[], map[];
    var left := lot;
    while left != map[]
      invariant left.Keys <= lot.Keys
      invariant filled == FilledLot(Done(lot, left), percent, modifier)
      invariant rest == RemainingLot(Done(lot, left), percent)
      decreases |left|
    {
      var a :| a in left;
      TakeOne(lot, left, a);
      LotTurn(Done(lot, left), a, lot[a], percent, modifier);
      left := left - {a};
      var toFillBase := LotBase(lot[a], percent);
      if lot[a] - toFillBase > 0 {
        rest := rest[a := lot[a] - toFillBase];
      }
      var toFillScaled := LotReceived(toFillBase, modifier);
      if toFillScaled > 0 {
        filled := filled[a := toFillScaled];
      }
    }
    NothingLeft(lot, left);
  }

  // ----- one fill -----

  ghost predicate AuctionOk(auction: AuctionData)
  {
    && (forall a :: a in auction.bid ==> auction.bid[a] >= 0)
    && (forall a :: a in auction.lot ==> auction.lot[a] >= 0)
  }

  /** What is left after a fill, an exhausted auction counting as empty. */
  function Rest(auction: AuctionData, percent: int, block: nat): AuctionData
    requires Scale(auction, percent, block).Ok?
  {
    var rest := Scale(auction, percent, block).value.1;
    if rest.Some? then rest.value else AuctionData(map[], map[], auction.block)
  }

  lemma ModifiersInRange(blockDif: nat)
    ensures 0 <= BidModifier(blockDif) <= SCALAR_7 && 0 <= LotModifier(blockDif) <= SCALAR_7
  {}

  /** Taking `percent` of an amount leaves the rest, at most the rounded fraction of a bid and at least
      that of a lot. */
  lemma BasesBounded(amount: int, percent: int)
    requires amount >= 0 && 0 < percent <= 100
    ensures 0 <= BidBase(amount, percent) <= amount && 0 <= LotBase(amount, percent) <= amount
    ensures (amount - BidBase(amount, percent)) * SCALAR_7 <= amount * (SCALAR_7 - percent * PERCENT)
    ensures (amount - LotBase(amount, percent)) * SCALAR_7 >= amount * (SCALAR_7 - percent * PERCENT)
    ensures percent == 100 ==> BidBase(amount, percent) == amount == LotBase(amount, percent)
  {
    hide Floor;
    hide Ceil;
    var p := percent * PERCENT;
    var x := amount * p;
    MulMono(0, p, amount);
    MulMono(p, SCALAR_7, amount);
    CeilNonNeg(x, SCALAR_7);
    CeilLeast(amount, x, SCALAR_7);
    FloorNonNeg(x, SCALAR_7);
    FloorBounds(x, SCALAR_7);
    CeilBounds(x, SCALAR_7);
    MultiplesOrdered(Floor(x, SCALAR_7), amount, SCALAR_7);
    MulDistributes(SCALAR_7, amount - Ceil(x, SCALAR_7), Ceil(x, SCALAR_7));
    MulDistributes(SCALAR_7, amount - Floor(x, SCALAR_7), Floor(x, SCALAR_7));
    MulDistributes(amount, SCALAR_7 - p, p);
    FloorExact(amount, SCALAR_7);
  }

  /** Price modifiers only reduce what changes hands. */
  lemma ScaledBounded(base: int, modifier: int)
    requires base >= 0 && 0 <= modifier <= SCALAR_7
    ensures 0 <= BidPaid(base, modifier) <= base && 0 <= LotReceived(base, modifier) <= base
  {
    hide Floor;
    hide Ceil;
    MulMono(0, modifier, base);
    MulMono(modifier, SCALAR_7, base);
    CeilNonNeg(base * modifier, SCALAR_7);
    CeilLeast(base, base * modifier, SCALAR_7);
    FloorNonNeg(base * modifier, SCALAR_7);
    FloorBounds(base * modifier, SCALAR_7);
    MultiplesOrdered(LotReceived(base, modifier), base, SCALAR_7);
  }

  /** One fill of a lot: the part handed over and the part kept are non-negative and at most what was there. */
  lemma LotConserves(auction: AuctionData, percent: int, block: nat, a: Address)
    requires (forall b :: b in auction.lot ==> auction.lot[b] >= 0) && Scale(auction, percent, block).Ok?
    ensures var (filled, rest) := (Scale(auction, percent, block).value.0, Rest(auction, percent, block));
      && (a in filled.lot ==> a in auction.lot && filled.lot[a] > 0)
      && (a in rest.lot ==> a in auction.lot && rest.lot[a] > 0)
      && 0 <= Amount(filled.lot, a) <= Amount(auction.lot, a) - Amount(rest.lot, a)
  {
    hide BidBase;
    hide LotBase;
    hide BidPaid;
    hide LotReceived;
    ModifiersInRange(block - auction.block);
    BasesBounded(Amount(auction.lot, a), percent);
    ScaledBounded(LotBase(Amount(auction.lot, a), percent), LotModifier(block - auction.block));
    NothingOfNothing(percent);
    hide BidModifier;
    hide LotModifier;
  }

  /** One fill, asset by asset: what is filled at base price and what remains add up exactly, and what
      changes hands is at most the base. */
  lemma {:induction false} FillConserves(auction: AuctionData, percent: int, block: nat, a: Address)
    requires AuctionOk(auction) && Scale(auction, percent, block).Ok?
    ensures AuctionOk(Rest(auction, percent, block)) && Rest(auction, percent, block).block == auction.block
    ensures var (filled, rest) := (Scale(auction, percent, block).value.0, Rest(auction, percent, block));
      && Amount(rest.bid, a) == Amount(auction.bid, a) - BidBase(Amount(auction.bid, a), percent) >= 0
      && Amount(rest.lot, a) == Amount(auction.lot, a) - LotBase(Amount(auction.lot, a), percent) >= 0
      && 0 <= Amount(filled.bid, a) <= Amount(auction.bid, a) - Amount(rest.bid, a)
      && 0 <= Amount(filled.lot, a) <= Amount(auction.lot, a) - Amount(rest.lot, a)
  {
    hide BidBase;
    hide LotBase;
    hide BidPaid;
    hide LotReceived;
    var dif := block - auction.block;
    ModifiersInRange(dif);
    BasesBounded(Amount(auction.bid, a), percent);
    BasesBounded(Amount(auction.lot, a), percent);
    ScaledBounded(BidBase(Amount(auction.bid, a), percent), BidModifier(dif));
    ScaledBounded(LotBase(Amount(auction.lot, a), percent), LotModifier(dif));
    NothingOfNothing(percent);
    hide BidModifier;
    hide LotModifier;
  }

  lemma NothingOfNothing(percent: int)
    ensures BidBase(0, percent) == 0 && LotBase(0, percent) == 0
  {}

  // ----- the Dutch price -----

  /** The price of the bid and of the lot after some blocks, in two-hundredths: all of the bid for 200 blocks, then
      one less a block down to nothing; none of the lot at first, then one more a block up to all of it. */
  function BidPrice(blocks: int): int { Max(0, Min(200, 400 - blocks)) }
  function LotPrice(blocks: int): int { Min(200, blocks) }

  /** The modifiers are those prices. */
  lemma PricePath(blocks: nat)
    ensures 200 * BidModifier(blocks) == SCALAR_7 * BidPrice(blocks)
    ensures 200 * LotModifier(blocks) == SCALAR_7 * LotPrice(blocks)
    ensures 0 <= BidPrice(blocks) <= 200 && 0 <= LotPrice(blocks) <= 200
  {}

  /** A percentage of an amount, rounded up for a bid and down for a lot. */
  lemma PercentTaken(amount: int, percent: int)
    ensures PartUp(BidBase(amount, percent), amount, percent, 100) && PartDown(LotBase(amount, percent), amount, percent, 100)
  {
    hide Floor;
    hide Ceil;
    assert amount * (percent * PERCENT) == amount * percent * PERCENT;
    CeilBounds(amount * percent * PERCENT, SCALAR_7);
    FloorBounds(amount * percent * PERCENT, SCALAR_7);
  }

  /** A price of a base, rounded up for a bid and down for a lot. */
  lemma PricePaid(base: int, modifier: int, price: int)
    requires 200 * modifier == SCALAR_7 * price
    ensures PartUp(BidPaid(base, modifier), base, price, 200) && PartDown(LotReceived(base, modifier), base, price, 200)
  {
    hide Floor;
    hide Ceil;
    CeilBounds(base * modifier, SCALAR_7);
    FloorBounds(base * modifier, SCALAR_7);
    assert 200 * (base * modifier) == base * (200 * modifier);
    assert base * (SCALAR_7 * price) == SCALAR_7 * (base * price);
  }

  /** What a fill hands over, asset by asset: of what it takes off the auction, which is its percentage of what
      was there, the bid's price is paid and the lot's received, each to less than one unit. */
  lemma {:induction false} FillPaysPrice(auction: AuctionData, percent: int, block: nat, a: Address)
    requires AuctionOk(auction) && Scale(auction, percent, block).Ok?
    ensures var (filled, rest) := (Scale(auction, percent, block).value.0, Rest(auction, percent, block));
      var (bid, lot) := (Amount(auction.bid, a) - Amount(rest.bid, a), Amount(auction.lot, a) - Amount(rest.lot, a));
      var blocks := block - auction.block;
      && PartUp(bid, Amount(auction.bid, a), percent, 100) && PartDown(lot, Amount(auction.lot, a), percent, 100)
      && PartUp(Amount(filled.bid, a), bid, BidPrice(blocks), 200) && PartDown(Amount(filled.lot, a), lot, LotPrice(blocks), 200)
  {
    hide PartUp;
    hide PartDown;
    hide FilledBid;
    hide FilledLot;
    hide RemainingBid;
    hide RemainingLot;
    assert block >= auction.block;
    hide Scale;
    hide Rest;
    hide AuctionOk;
    hide BidModifier;
    hide LotModifier;
    hide BidPaid;
    hide LotReceived;
    hide BidBase;
    hide LotBase;
    hide BidPrice;
    hide LotPrice;
    var (bid, lot, blocks) := (Amount(auction.bid, a), Amount(auction.lot, a), block - auction.block);
    FillConserves(auction, percent, block, a);
    PercentTaken(bid, percent);
    PercentTaken(lot, percent);
    PricePath(blocks);
    PricePaid(BidBase(bid, percent), BidModifier(blocks), BidPrice(blocks));
    PricePaid(LotBase(lot, percent), LotModifier(blocks), LotPrice(blocks));
    FilledAmounts(auction, percent, block, a);
  }

  /** The entries of a fill. */
  lemma FilledAmounts(auction: AuctionData, percent: int, block: nat, a: Address)
    requires AuctionOk(auction) && Scale(auction, percent, block).Ok?
    ensures var (filled, blocks) := (Scale(auction, percent, block).value.0, block - auction.block);
      && Amount(filled.bid, a) == BidPaid(BidBase(Amount(auction.bid, a), percent), BidModifier(blocks))
      && Amount(filled.lot, a) == LotReceived(LotBase(Amount(auction.lot, a), percent), LotModifier(blocks))
  {
    hide BidBase;
    hide LotBase;
    hide BidPaid;
    hide LotReceived;
    hide RemainingBid;
    hide RemainingLot;
    var blocks := block - auction.block;
    var (bid, lot) := (BidBase(Amount(auction.bid, a), percent), LotBase(Amount(auction.lot, a), percent));
    ModifiersInRange(blocks);
    hide BidModifier;
    hide LotModifier;
    AmountsNonNegative(auction, a);
    BasesBounded(Amount(auction.bid, a), percent);
    BasesBounded(Amount(auction.lot, a), percent);
    NothingOfNothing(percent);
    ScaledBounded(bid, BidModifier(blocks));
    ScaledBounded(lot, LotModifier(blocks));
    hide AuctionOk;
  }

  lemma AmountsNonNegative(auction: AuctionData, a: Address)
    requires AuctionOk(auction)
    ensures Amount(auction.bid, a) >= 0 && Amount(auction.lot, a) >= 0
  {}

  lemma PaidMonotone(base: int, modifier: int, larger: int)
    requires base >= 0 && modifier <= larger
    ensures BidPaid(base, modifier) <= BidPaid(base, larger) && LotReceived(base, modifier) <= LotReceived(base, larger)
  {
    hide Floor;
    hide Ceil;
    MulMono(modifier, larger, base);
    CeilMono(base * modifier, base * larger, SCALAR_7);
    FloorMono(base * modifier, base * larger, SCALAR_7);
  }

  lemma ModifiersMonotone(blocks: nat, more: nat)
    requires blocks <= more
    ensures BidModifier(more) <= BidModifier(blocks) && LotModifier(blocks) <= LotModifier(more)
  {}

  /** A fill can be scaled from the auction's start block on, for one to a hundred percent. */
  lemma ScaleSucceeds(auction: AuctionData, percent: int, block: nat)
    ensures Scale(auction, percent, block).Ok? <==> 1 <= percent <= 100 && auction.block <= block
  {
    hide FilledBid;
    hide FilledLot;
    hide RemainingBid;
    hide RemainingLot;
  }

  /** The longer a fill waits, the less it pays of every bid and the more it receives of every lot. */
  lemma {:induction false} WaitingPays(auction: AuctionData, percent: int, block: nat, later: nat, a: Address)
    requires AuctionOk(auction) && Scale(auction, percent, block).Ok? && block <= later
    ensures Scale(auction, percent, later).Ok?
    ensures Amount(Scale(auction, percent, later).value.0.bid, a) <= Amount(Scale(auction, percent, block).value.0.bid, a)
    ensures Amount(Scale(auction, percent, block).value.0.lot, a) <= Amount(Scale(auction, percent, later).value.0.lot, a)
  {
    hide BidBase;
    hide LotBase;
    hide FilledBid;
    hide FilledLot;
    hide RemainingBid;
    hide RemainingLot;
    assert Scale(auction, percent, later).Ok?;
    hide Scale;
    hide AuctionOk;
    hide BidModifier;
    hide LotModifier;
    hide BidPaid;
    hide LotReceived;
    FilledAmounts(auction, percent, block, a);
    FilledAmounts(auction, percent, later, a);
    var (s, t) := (block - auction.block, later - auction.block);
    ModifiersMonotone(s, t);
    AmountsNonNegative(auction, a);
    BasesBounded(Amount(auction.bid, a), percent);
    BasesBounded(Amount(auction.lot, a), percent);
    PaidMonotone(BidBase(Amount(auction.bid, a), percent), BidModifier(t), BidModifier(s));
    PaidMonotone(LotBase(Amount(auction.lot, a), percent), LotModifier(s), LotModifier(t));
  }

  // ----- any sequence of fills -----

  datatype Fill = Fill(percent: int, block: nat)

  /** The auction left after a sequence of fills; an aborted fill changes nothing. */
  function AfterFill(auction: AuctionData, f: Fill): AuctionData
  {
    if Scale(auction, f.percent, f.block).Ok? then Rest(auction, f.percent, f.block) else auction
  }

  function AfterFills(auction: AuctionData, fills: seq<Fill>): AuctionData
    decreases |fills|
  {
    if fills == [] then auction else AfterFills(AfterFill(auction, fills[0]), fills[1..])
  }

  /** What a fill hands over of asset a. */
  function LotTaken(auction: AuctionData, f: Fill, a: Address): int
  {
    if Scale(auction, f.percent, f.block).Ok? then Amount(Scale(auction, f.percent, f.block).value.0.lot, a) else 0
  }

  function TotalLotTaken(auction: AuctionData, fills: seq<Fill>, a: Address): int
    decreases |fills|
  {
    if fills == [] then 0
    else LotTaken(auction, fills[0], a) + TotalLotTaken(AfterFill(auction, fills[0]), fills[1..], a)
  }

  /** At least as large a part of lot b is left as of bid a, measured against the auction `start`. */
  ghost predicate Fair(start: AuctionData, left: AuctionData, a: Address, b: Address)
  {
    Amount(left.bid, a) * Amount(start.lot, b) <= Amount(left.lot, b) * Amount(start.bid, a)
  }

  lemma FairArithmetic(rb: int, rl: int, rb': int, rl': int, bid: int, lot: int, p: int)
    requires rb * lot <= rl * bid && bid >= 0 && lot >= 0 && 0 <= p <= SCALAR_7
    requires rb' * SCALAR_7 <= rb * (SCALAR_7 - p) && rl' * SCALAR_7 >= rl * (SCALAR_7 - p)
    ensures rb' * lot <= rl' * bid
  {
    var q := SCALAR_7 - p;
    MulMono(rb' * SCALAR_7, rb * q, lot);
    MulMono(rl * q, rl' * SCALAR_7, bid);
    MulMono(rb * lot, rl * bid, q);
    assert (rb' * lot) * SCALAR_7 == (rb' * SCALAR_7) * lot;
    assert (rl' * bid) * SCALAR_7 == (rl' * SCALAR_7) * bid;
    assert (rb * q) * lot == (rb * lot) * q;
    assert (rl * q) * bid == (rl * bid) * q;
    MultiplesOrdered(rb' * lot, rl' * bid, SCALAR_7);
  }

  lemma FillIsFair(start: AuctionData, left: AuctionData, f: Fill, a: Address, b: Address)
    requires AuctionOk(start) && AuctionOk(left) && Fair(start, left, a, b)
    ensures AuctionOk(AfterFill(left, f)) && Fair(start, AfterFill(left, f), a, b)
    ensures 0 <= LotTaken(left, f, b) <= Amount(left.lot, b) - Amount(AfterFill(left, f).lot, b)
  {
    hide BidBase;
    hide LotBase;
    hide Rest;
    if Scale(left, f.percent, f.block).Ok? {
      FillConserves(left, f.percent, f.block, a);
      FillConserves(left, f.percent, f.block, b);
      BasesBounded(Amount(left.bid, a), f.percent);
      BasesBounded(Amount(left.lot, b), f.percent);
      var rest := Rest(left, f.percent, f.block);
      FairArithmetic(Amount(left.bid, a), Amount(left.lot, b), Amount(rest.bid, a), Amount(rest.lot, b),
        Amount(start.bid, a), Amount(start.lot, b), f.percent * PERCENT);
    }
  }

  lemma {:induction false} FillsKeepFair(start: AuctionData, left: AuctionData, fills: seq<Fill>, a: Address, b: Address)
    requires AuctionOk(start) && AuctionOk(left) && Fair(start, left, a, b)
    ensures AuctionOk(AfterFills(left, fills)) && Fair(start, AfterFills(left, fills), a, b)
    ensures 0 <= TotalLotTaken(left, fills, b) <= Amount(left.lot, b) - Amount(AfterFills(left, fills).lot, b)
    decreases |fills|
  {
    hide AfterFill;
    hide LotTaken;
    hide Fair;
    if fills != [] {
      FillIsFair(start, left, fills[0], a, b);
      FillsKeepFair(start, AfterFill(left, fills[0]), fills[1..], a, b);
    }
  }

  /** No sequence of fills, of any percentages at any blocks, takes a larger fraction of any lot than it
      uses up of any bid, nor more of a lot than was put up. */
  lemma {:induction false} FillsAreFair(start: AuctionData, fills: seq<Fill>, a: Address, b: Address)
    requires AuctionOk(start)
    ensures var left := AfterFills(start, fills);
      && Fair(start, left, a, b)
      && TotalLotTaken(start, fills, b) <= Amount(start.lot, b) - Amount(left.lot, b)
      && TotalLotTaken(start, fills, b) * Amount(start.bid, a)
           <= (Amount(start.bid, a) - Amount(left.bid, a)) * Amount(start.lot, b)
  {
    hide AfterFills;
    hide TotalLotTaken;
    FillsKeepFair(start, start, fills, a, b);
    var left := AfterFills(start, fills);
    var bid, lot := Amount(start.bid, a), Amount(start.lot, b);
    var rb, rl := Amount(left.bid, a), Amount(left.lot, b);
    MulMono(TotalLotTaken(start, fills, b), lot - rl, bid);
    MulDistributes(bid, lot - rl, rl);
    MulDistributes(lot, bid - rb, rb);
  }

  /** Filling everything that is left ends the auction. */
  lemma FullFillEnds(auction: AuctionData, block: nat)
    requires AuctionOk(auction) && block >= auction.block
    ensures Scale(auction, 100, block).Ok? && Scale(auction, 100, block).value.1 == None
  {
    hide BidBase;
    hide LotBase;
    forall a | a in auction.bid
      ensures auction.bid[a] - BidBase(auction.bid[a], 100) == 0
    {
      BasesBounded(auction.bid[a], 100);
    }
    forall a | a in auction.lot
      ensures auction.lot[a] - LotBase(auction.lot[a], 100) == 0
    {
      BasesBounded(auction.lot[a], 100);
    }
    assert RemainingBid(auction.bid, 100) == map[];
    assert RemainingLot(auction.lot, 100) == map[];
  }

  /** A fill names an asset of the bid exactly while there is some of it left and its price has not fallen
      to nothing, 400 blocks in. */
  lemma BidIsNamed(auction: AuctionData, percent: int, block: nat, a: Address)
    requires Scale(auction, percent, block).Ok?
    ensures a in Scale(auction, percent, block).value.0.bid
      <==> Amount(auction.bid, a) > 0 && block - auction.block < 400
  {
    hide Floor;
    hide Ceil;
    var x, p := Amount(auction.bid, a), percent * PERCENT;
    var base, m := BidBase(x, percent), BidModifier(block - auction.block);
    CeilBounds(x * p, SCALAR_7);
    CeilBounds(base * m, SCALAR_7);
    if x > 0 {
      MulMono(1, x, p);
      MultiplesOrdered(1, base, SCALAR_7);
      MulMono(1, base, m);
      if m > 0 {
        MultiplesOrdered(1, BidPaid(base, m), SCALAR_7);
      } else {
        CeilLeast(0, base * m, SCALAR_7);
      }
    } else {
      MulMono(x, 0, p);
      CeilLeast(0, x * p, SCALAR_7);
      MulMono(base, 0, m);
      CeilLeast(0, base * m, SCALAR_7);
    }
  }

  /** A fill names an asset of the lot exactly when its part at the block's price comes to a whole unit. */
  lemma LotIsNamed(auction: AuctionData, percent: int, block: nat, a: Address)
    requires Scale(auction, percent, block).Ok?
    ensures a in Scale(auction, percent, block).value.0.lot
      <==> LotBase(Amount(auction.lot, a), percent) * LotModifier(block - auction.block) >= SCALAR_7
  {
    hide Floor;
    var base, m := LotBase(Amount(auction.lot, a), percent), LotModifier(block - auction.block);
    FloorExact(0, SCALAR_7);
    FloorBounds(base * m, SCALAR_7);
    if base * m >= SCALAR_7 {
      FloorGreatest(1, base * m, SCALAR_7);
    }
    hide LotBase;
    hide LotModifier;
  }

  /** So never when nothing is put up or at the start block, and a whole fill 200 blocks later names all there is. */
  lemma {:induction false} LotIsMissing(auction: AuctionData, percent: int, block: nat, a: Address)
    requires Scale(auction, percent, block).Ok?
    ensures Amount(auction.lot, a) <= 0 || block == auction.block ==> a !in Scale(auction, percent, block).value.0.lot
    ensures percent == 100 && block >= auction.block + 200 ==>
      (a in Scale(auction, percent, block).value.0.lot <==> Amount(auction.lot, a) > 0)
  {
    LotIsNamed(auction, percent, block, a);
    hide Scale;
    var x, m := Amount(auction.lot, a), LotModifier(block - auction.block);
    var base := LotBase(x, percent);
    if x <= 0 {
      MulMono(x, 0, percent * PERCENT);
      FloorMono(x * (percent * PERCENT), 0, SCALAR_7);
      FloorExact(0, SCALAR_7);
      hide Floor;
      MulMono(base, 0, m);
    }
    if percent == 100 {
      FloorExact(x, SCALAR_7);
      hide Floor;
      assert block >= auction.block + 200 ==> m == SCALAR_7;
    }
  }
}
