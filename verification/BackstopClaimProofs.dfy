/** A claim settles the caller in every listed pool, pays all of it into the LP pool and re-deposits
    the LP tokens pro rata: never more than were bought, and less than one unit short per pool. */
module BackstopClaimProofs {
  import opened Outcomes
  import opened FixedPoint
  import opened Totals
  import opened UserBalances
  import opened PoolBalances
  import opened BackstopLedger
  import opened BackstopLedgerProofs
  import opened BackstopWorld
  import opened BackstopWorldProofs
  import opened ZoneSplit

  /** Claiming again at this time would change and pay nothing. */
  ghost predicate Done(l: PoolLedger, now: nat, user: Address)
  {
    UpdateEmissions(l, now, user, true) == Ok((l, 0)) && Settled(l, user)
  }

  ghost predicate AllDone(pools: map<Address, PoolLedger>, ids: seq<Address>, k: nat, now: nat, user: Address)
    requires k <= |ids|
  {
    forall i :: 0 <= i < k ==> Done(PoolIn(pools, ids[i]), now, user)
  }

  ghost predicate HasClaims(claims: map<Address, int>, ids: seq<Address>, k: nat)
    requires k <= |ids|
  {
    && (forall i :: 0 <= i < k ==> ids[i] in claims)
    && (forall p :: p in claims ==> claims[p] >= 0 && p in ids[..k])
  }

  /** The recorded claims of the first k listed pools, one entry per listing. */
  ghost function Listed(claims: map<Address, int>, ids: seq<Address>, k: nat): (ts: seq<int>)
    requires k <= |ids|
    ensures |ts| == k
  {
    seq(k, i requires 0 <= i < k => if ids[i] in claims then claims[ids[i]] else 0)
  }

  /** What the first k listings pay out of pool p. */
  ghost function PaidFrom(pools: map<Address, PoolLedger>, ids: seq<Address>, k: nat, now: nat, from: Address, p: Address): int
    requires k <= |ids| && SettleAll(pools, ids, k, now, from).Ok?
    decreases k
  {
    if k == 0 then 0
    else
      var s := SettleAll(pools, ids, k - 1, now, from).value;
      var amount := UpdateEmissions(PoolIn(s.pools, ids[k - 1]), now, from, true).value.1;
      PaidFrom(pools, ids, k - 1, now, from, p) + if ids[k - 1] == p then amount else 0
  }

  /** One turn of the settlement loop. */
  lemma SettleTurn(pools: map<Address, PoolLedger>, ids: seq<Address>, k: nat, now: nat, from: Address)
    requires 0 < k <= |ids| && LedgersOk(pools, now) && SettleAll(pools, ids, k, now, from).Ok?
    ensures SettleAll(pools, ids, k - 1, now, from).Ok?
    ensures var s := SettleAll(pools, ids, k - 1, now, from).value;
      var pool := ids[k - 1];
      var turn := UpdateEmissions(PoolIn(s.pools, pool), now, from, true);
      && turn.Ok?
      && SettleAll(pools, ids, k, now, from).value
           == Settlement(Store(s.pools, pool, turn.value.0), s.claimed + turn.value.1, s.claims[pool := turn.value.1])
  {
    hide UpdateEmissions;
  }

  /** What a user is due of a pool at an index, nothing before its first emissions. */
  function Due(l: PoolLedger, user: Address, index: int): int
  {
    if l.config.Some? then DueAt(l, user, index) else 0
  }

  /** What settling one more pool does to sums, settlements and the recorded claims. */
  lemma SettleOne(pools: map<Address, PoolLedger>, now: nat, from: Address, pool: Address)
    requires LedgersOk(pools, now) && UpdateEmissions(PoolIn(pools, pool), now, from, true).Ok?
    ensures var (l, amount) := UpdateEmissions(PoolIn(pools, pool), now, from, true).value;
      var q := Store(pools, pool, l);
      && LedgersOk(q, now) && amount >= 0
      && TokenTotal(q) == TokenTotal(pools)
      && LiabilityTotal(q) + Scaled(amount) <= LiabilityTotal(pools)
      && l.balance == PoolIn(pools, pool).balance
      && Obligation(l) + Scaled(amount) <= Obligation(PoolIn(pools, pool))
                                        <= Obligation(l) + Scaled(amount) + Rounding(PoolIn(pools, pool))
      && amount == Due(PoolIn(pools, pool), from, Index(l))
      && (forall u :: AccountOf(l, u).holding == AccountOf(PoolIn(pools, pool), u).holding)
      && Done(l, now, from)
  {
    hide LedgerOk;
    hide LedgersOk;
    hide Obligation;
    hide UpdateEmissions;
    hide Settled;
    PoolIsOk(pools, now, pool);
    UpdateEmissionsKeeps(PoolIn(pools, pool), now, from, true);
    SecondClaimPaysNothing(PoolIn(pools, pool), now, from);
    var (l, amount) := UpdateEmissions(PoolIn(pools, pool), now, from, true).value;
    PoolKeepsEmissions(pools, now, pool, l, 0, -Scaled(amount));
  }

  /** Replacing a pool's ledger without touching the emissions set aside for the pool itself. */
  lemma PoolKeepsEmissions(pools: map<Address, PoolLedger>, now: nat, pool: Address, l: PoolLedger, gain: int, owed: int)
    requires LedgersOk(pools, now) && LedgerOk(l, now)
    requires l.balance.tokens == PoolIn(pools, pool).balance.tokens + gain
    requires l.poolEmissions == PoolIn(pools, pool).poolEmissions
    requires Obligation(l) <= Obligation(PoolIn(pools, pool)) + owed
    ensures var q := pools[pool := l];
      && LedgersOk(q, now)
      && TokenTotal(q) == TokenTotal(pools) + gain
      && LiabilityTotal(q) <= LiabilityTotal(pools) + owed
  {
    hide Obligation;
    hide LedgerOk;
    hide LedgersOk;
    PoolReplaced(pools, now, pool, l, gain, owed);
  }

  lemma {:induction false} SettleAllKeeps(pools: map<Address, PoolLedger>, ids: seq<Address>, k: nat, now: nat, from: Address)
    requires LedgersOk(pools, now) && k <= |ids| && SettleAll(pools, ids, k, now, from).Ok?
    ensures var s := SettleAll(pools, ids, k, now, from).value;
      && LedgersOk(s.pools, now) && s.claimed >= 0
      && TokenTotal(s.pools) == TokenTotal(pools)
      && LiabilityTotal(s.pools) + Scaled(s.claimed) <= LiabilityTotal(pools)
    decreases k
  {
    hide UpdateEmissions;
    hide LedgersOk;
    hide TokenTotal;
    hide LiabilityTotal;
    if k == 0 { return; }
    SettleTurn(pools, ids, k, now, from);
    SettleAllKeeps(pools, ids, k - 1, now, from);
    SettleOne(SettleAll(pools, ids, k - 1, now, from).value.pools, now, from, ids[k - 1]);
  }

  /** After the loop every listed pool is done, and the recorded claims add up to at most what was
      claimed; to exactly that when no pool is listed twice. */
  lemma {:induction false} SettleAllRecords(pools: map<Address, PoolLedger>, ids: seq<Address>, k: nat, now: nat, from: Address)
    requires LedgersOk(pools, now) && k <= |ids| && SettleAll(pools, ids, k, now, from).Ok?
    ensures var s := SettleAll(pools, ids, k, now, from).value;
      && AllDone(s.pools, ids, k, now, from)
      && HasClaims(s.claims, ids, k)
      && ZoneSplit.NonNegative(Listed(s.claims, ids, k))
      && Sum(Listed(s.claims, ids, k), k) <= s.claimed
      && ((forall i, j :: 0 <= i < j < k ==> ids[i] != ids[j]) ==> Sum(Listed(s.claims, ids, k), k) == s.claimed)
    decreases k
  {
    hide UpdateEmissions;
    hide LedgersOk;
    hide AllDone;
    hide HasClaims;
    hide Listed;
    hide Obligation;
    if k == 0 {
      NothingRecorded(pools, ids, now, from);
      return;
    }
    SettleTurn(pools, ids, k, now, from);
    SettleAllRecords(pools, ids, k - 1, now, from);
    SettleAllKeeps(pools, ids, k - 1, now, from);
    var s := SettleAll(pools, ids, k - 1, now, from).value;
    SettleOne(s.pools, now, from, ids[k - 1]);
    var (l, amount) := UpdateEmissions(PoolIn(s.pools, ids[k - 1]), now, from, true).value;
    AllDoneAfter(s.pools, ids, k, now, from, l);
    ListedTwice(s.pools, ids, k, now, from);
    RecordOne(s.claims, ids, k, amount);
  }

  lemma NothingRecorded(pools: map<Address, PoolLedger>, ids: seq<Address>, now: nat, from: Address)
    ensures AllDone(pools, ids, 0, now, from) && HasClaims(map[], ids, 0)
    ensures Listed(map[], ids, 0) == []
  {}

  /** A pool settled before has nothing more to pay. */
  lemma ListedTwice(pools: map<Address, PoolLedger>, ids: seq<Address>, k: nat, now: nat, user: Address)
    requires 0 < k <= |ids| && AllDone(pools, ids, k - 1, now, user)
    ensures ids[k - 1] in ids[..k - 1] ==> UpdateEmissions(PoolIn(pools, ids[k - 1]), now, user, true) == Ok((PoolIn(pools, ids[k - 1]), 0))
  {
    hide UpdateEmissions;
    if ids[k - 1] in ids[..k - 1] {
      var i :| 0 <= i < k - 1 && ids[i] == ids[k - 1];
      assert Done(PoolIn(pools, ids[i]), now, user);
    }
  }

  lemma AllDoneAfter(pools: map<Address, PoolLedger>, ids: seq<Address>, k: nat, now: nat, user: Address, l: PoolLedger)
    requires 0 < k <= |ids| && AllDone(pools, ids, k - 1, now, user) && Done(l, now, user)
    ensures AllDone(Store(pools, ids[k - 1], l), ids, k, now, user)
  {
    hide Done;
  }

  /** Recording a claim for the k-th listing; a pool listed before is recorded again with 0. */
  lemma RecordOne(claims: map<Address, int>, ids: seq<Address>, k: nat, amount: int)
    requires 0 < k <= |ids| && amount >= 0 && HasClaims(claims, ids, k - 1)
    requires ids[k - 1] in ids[..k - 1] ==> amount == 0
    ensures var c := claims[ids[k - 1] := amount];
      && HasClaims(c, ids, k)
      && ZoneSplit.NonNegative(Listed(c, ids, k))
      && Sum(Listed(c, ids, k), k) <= Sum(Listed(claims, ids, k - 1), k - 1) + amount
      && (ids[k - 1] !in ids[..k - 1] ==> Sum(Listed(c, ids, k), k) == Sum(Listed(claims, ids, k - 1), k - 1) + amount)
  {
    var c := claims[ids[k - 1] := amount];
    var now, was := Listed(c, ids, k), Listed(claims, ids, k - 1);
    SumBelow(was, now, k - 1);
    if ids[k - 1] !in ids[..k - 1] {
      forall i | 0 <= i < k - 1
        ensures was[i] == now[i]
      {
        assert ids[i] in ids[..k - 1];
      }
      SumBelow(now, was, k - 1);
    }
  }

  lemma {:induction false} SumBelow(a: seq<int>, b: seq<int>, k: nat)
    requires k <= |a| && k <= |b| && forall i :: 0 <= i < k ==> b[i] <= a[i]
    ensures Sum(b, k) <= Sum(a, k)
    decreases k
  {
    if k > 0 { SumBelow(a, b, k - 1); }
  }

  /** A listed pool pays what the caller is due at its new index, once however often it is listed, and owes
      that much less, up to the rounding of one update; a pool not listed pays and loses nothing. */
  lemma {:induction false} SettleAllPerPool(pools: map<Address, PoolLedger>, ids: seq<Address>, k: nat, now: nat, from: Address, p: Address)
    requires LedgersOk(pools, now) && k <= |ids| && SettleAll(pools, ids, k, now, from).Ok?
    ensures var s := SettleAll(pools, ids, k, now, from).value;
      && PoolIn(s.pools, p).balance == PoolIn(pools, p).balance
      && (forall u :: AccountOf(PoolIn(s.pools, p), u).holding == AccountOf(PoolIn(pools, p), u).holding)
      && PaidFrom(pools, ids, k, now, from, p) >= 0
      && PaysOut(PoolIn(pools, p), PoolIn(s.pools, p), PaidFrom(pools, ids, k, now, from, p), from, p in ids[..k])
    decreases k
  {
    hide UpdateEmissions;
    hide LedgersOk;
    hide Obligation;
    hide Done;
    hide Due;
    hide Rounding;
    if k == 0 { return; }
    SettleTurn(pools, ids, k, now, from);
    SettleAllPerPool(pools, ids, k - 1, now, from, p);
    SettleAllKeeps(pools, ids, k - 1, now, from);
    SettleAllRecords(pools, ids, k - 1, now, from);
    var s := SettleAll(pools, ids, k - 1, now, from).value;
    SettleOne(s.pools, now, from, ids[k - 1]);
    ListedTwice(s.pools, ids, k, now, from);
    var (l, amount) := UpdateEmissions(PoolIn(s.pools, ids[k - 1]), now, from, true).value;
    hide PaysOut;
    if p != ids[k - 1] {
      assert p in ids[..k] <==> p in ids[..k - 1];
    } else if p !in ids[..k - 1] {
      NotYetListed(PoolIn(pools, p), PoolIn(s.pools, p), PaidFrom(pools, ids, k - 1, now, from, p), from);
      PaysOnce(PoolIn(pools, p), l, amount, from);
    }
  }

  /** What settling does to one pool: if it is listed, it pays what the user is due and owes so much less. */
  ghost predicate PaysOut(was: PoolLedger, l: PoolLedger, paid: int, user: Address, listed: bool)
  {
    if listed then
      && paid == Due(was, user, Index(l))
      && Obligation(l) + Scaled(paid) <= Obligation(was) <= Obligation(l) + Scaled(paid) + Rounding(was)
    else l == was && paid == 0
  }

  lemma NotYetListed(was: PoolLedger, l: PoolLedger, paid: int, user: Address)
    requires PaysOut(was, l, paid, user, false)
    ensures l == was && paid == 0
  {}

  lemma PaysOnce(was: PoolLedger, l: PoolLedger, paid: int, user: Address)
    requires paid == Due(was, user, Index(l))
    requires Obligation(l) + Scaled(paid) <= Obligation(was) <= Obligation(l) + Scaled(paid) + Rounding(was)
    ensures PaysOut(was, l, paid, user, true)
  {}

  // ----- the re-deposit loop -----

  /** The LP tokens re-deposited for the first k listings. */
  ghost function Redeposited(s: Settlement, ids: seq<Address>, k: nat, lpOut: int): int
    requires k <= |ids| && s.claimed > 0
  {
    Parts(Listed(s.claims, ids, |ids|), k, s.claimed, lpOut)
  }

  ghost predicate AllSettled(pools: map<Address, PoolLedger>, ids: seq<Address>, user: Address)
  {
    forall i :: 0 <= i < |ids| ==> Settled(PoolIn(pools, ids[i]), user)
  }

  /** One turn of the re-deposit loop. */
  lemma RedepositTurn(s: Settlement, ids: seq<Address>, k: nat, lpOut: nat, to: Address)
    requires 0 < k <= |ids| && s.claimed > 0 && HasClaims(s.claims, ids, |ids|)
    requires RedepositAll(s, ids, k, lpOut, to).Ok?
    ensures RedepositAll(s, ids, k - 1, lpOut, to).Ok?
    ensures var pools := RedepositAll(s, ids, k - 1, lpOut, to).value;
      var amount := Floor(Listed(s.claims, ids, |ids|)[k - 1] * lpOut, s.claimed);
      var turn := Redeposit(PoolIn(pools, ids[k - 1]), to, amount);
      && amount >= 0 && turn.Ok?
      && RedepositAll(s, ids, k, lpOut, to).value == pools[ids[k - 1] := turn.value]
  {
    var c := Listed(s.claims, ids, |ids|)[k - 1];
    assert c == s.claims[ids[k - 1]] && c * lpOut == lpOut * c;
    MulMono(0, c, lpOut);
    FloorNonNeg(c * lpOut, s.claimed);
    hide Floor;
    hide Redeposit;
  }

  lemma AllSettledAfter(pools: map<Address, PoolLedger>, ids: seq<Address>, user: Address, pool: Address, l: PoolLedger)
    requires AllSettled(pools, ids, user) && Settled(l, user)
    ensures AllSettled(pools[pool := l], ids, user)
  {
    hide Settled;
  }

  /** For any recipient the ledger stays well formed. */
  lemma RedepositIsSound(p: PoolLedger, now: nat, to: Address, amount: int)
    requires LedgerOk(p, now) && amount >= 0 && Redeposit(p, to, amount).Ok?
    ensures var q := Redeposit(p, to, amount).value;
      && LedgerOk(q, now)
      && q.balance.tokens == p.balance.tokens + amount
      && q == p.(balance := q.balance, accounts := q.accounts)
      && AccountOf(q, to).emission == AccountOf(p, to).emission
      && (forall u :: AccountOf(q, u).holding.q4w == AccountOf(p, u).holding.q4w)
  {
    hide Obligation;
    hide ConvertToShares;
    hide Index;
    LedgerSums(p, now);
    MintedNonNegative(p.balance, amount);
    var minted := ConvertToShares(p.balance, amount).value;
    assert AccountOk(AccountOf(p, to), Index(p), now);
    HoldingChangeKeeps(p, now, to, AddShares(AccountOf(p, to).holding, minted), AddDeposit(p.balance, amount, minted));
  }

  /** The whole loop, for any recipient: the ledgers stay well formed and hold the re-deposited tokens;
      withdrawal queues are untouched. */
  lemma {:induction false} RedepositAllKeeps(s: Settlement, ids: seq<Address>, k: nat, lpOut: nat, to: Address, now: nat, p: Address)
    requires k <= |ids| && s.claimed > 0 && HasClaims(s.claims, ids, |ids|) && LedgersOk(s.pools, now)
    requires RedepositAll(s, ids, k, lpOut, to).Ok?
    ensures var pools := RedepositAll(s, ids, k, lpOut, to).value;
      && LedgersOk(pools, now)
      && TokenTotal(pools) == TokenTotal(s.pools) + Redeposited(s, ids, k, lpOut)
      && (forall u :: AccountOf(PoolIn(pools, p), u).holding.q4w == AccountOf(PoolIn(s.pools, p), u).holding.q4w)
    decreases k
  {
    hide Floor;
    hide Listed;
    hide TokenTotal;
    hide Redeposit;
    hide LedgersOk;
    if k == 0 { return; }
    RedepositTurn(s, ids, k, lpOut, to);
    RedepositAllKeeps(s, ids, k - 1, lpOut, to, now, p);
    var pools := RedepositAll(s, ids, k - 1, lpOut, to).value;
    var pool, amount := ids[k - 1], Floor(Listed(s.claims, ids, |ids|)[k - 1] * lpOut, s.claimed);
    RedepositAnyone(pools, now, to, pool, amount);
    QueuesAfter(s.pools, pools, pool, Redeposit(PoolIn(pools, pool), to, amount).value, p);
  }

  lemma RedepositAnyone(pools: map<Address, PoolLedger>, now: nat, to: Address, pool: Address, amount: int)
    requires LedgersOk(pools, now) && amount >= 0 && Redeposit(PoolIn(pools, pool), to, amount).Ok?
    ensures var l := Redeposit(PoolIn(pools, pool), to, amount).value;
      var q := pools[pool := l];
      && LedgersOk(q, now)
      && TokenTotal(q) == TokenTotal(pools) + amount
      && (forall u :: AccountOf(l, u).holding.q4w == AccountOf(PoolIn(pools, pool), u).holding.q4w)
  {
    hide LedgerOk;
    hide LedgersOk;
    hide Obligation;
    hide Redeposit;
    PoolIsOk(pools, now, pool);
    RedepositIsSound(PoolIn(pools, pool), now, to, amount);
    var l := Redeposit(PoolIn(pools, pool), to, amount).value;
    PoolKeepsEmissions(pools, now, pool, l, amount, Obligation(l) - Obligation(PoolIn(pools, pool)));
  }

  lemma QueuesAfter(was: map<Address, PoolLedger>, before: map<Address, PoolLedger>, pool: Address, l: PoolLedger, p: Address)
    requires forall u :: AccountOf(PoolIn(before, p), u).holding.q4w == AccountOf(PoolIn(was, p), u).holding.q4w
    requires forall u :: AccountOf(l, u).holding.q4w == AccountOf(PoolIn(before, pool), u).holding.q4w
    ensures forall u :: AccountOf(PoolIn(before[pool := l], p), u).holding.q4w == AccountOf(PoolIn(was, p), u).holding.q4w
  {}

  // ----- what re-deposits promise -----

  /** SCALAR_7 times what a re-deposit newly owes its recipient: the new shares' index gain since the
      recipient's record. */
  ghost function Promise(l: PoolLedger, to: Address, amount: int): int
  {
    var minted := ConvertToShares(l.balance, amount);
    if minted.Ok? then minted.value * (Index(l) - UserIndex(AccountOf(l, to))) else 0
  }

  /** The promise of the k-th re-deposit. */
  ghost function TurnPromise(s: Settlement, ids: seq<Address>, k: nat, lpOut: nat, to: Address): int
    requires k < |ids|
  {
    var pools := RedepositAll(s, ids, k, lpOut, to);
    var amount := RedepositAmount(s.claims, s.claimed, lpOut, ids[k]);
    if pools.Ok? && amount.Ok? then Promise(PoolIn(pools.value, ids[k]), to, amount.value) else 0
  }

  /** What the first k re-deposits newly owe, in all pools and in pool p. */
  ghost function Promised(s: Settlement, ids: seq<Address>, k: nat, lpOut: nat, to: Address): int
    requires k <= |ids|
    decreases k
  {
    if k == 0 then 0 else Promised(s, ids, k - 1, lpOut, to) + TurnPromise(s, ids, k - 1, lpOut, to)
  }

  ghost function PromisedIn(s: Settlement, ids: seq<Address>, k: nat, lpOut: nat, to: Address, p: Address): int
    requires k <= |ids|
    decreases k
  {
    if k == 0 then 0
    else
      PromisedIn(s, ids, k - 1, lpOut, to, p) + if ids[k - 1] == p then TurnPromise(s, ids, k - 1, lpOut, to) else 0
  }

  /** One re-deposit moves the debt by exactly its promise, which is never negative. */
  lemma PromiseIsExact(l: PoolLedger, now: nat, to: Address, amount: int)
    requires LedgerOk(l, now) && amount >= 0 && Redeposit(l, to, amount).Ok?
    ensures var q := Redeposit(l, to, amount).value;
      && Obligation(q) == Obligation(l) + Promise(l, to, amount) && Promise(l, to, amount) >= 0
      && LedgerOk(q, now) && q.poolEmissions == l.poolEmissions
      && UserIndex(AccountOf(q, to)) == UserIndex(AccountOf(l, to)) && Index(q) == Index(l)
    ensures Settled(l, to) ==> Promise(l, to, amount) == 0
  {
    hide Obligation;
    hide ConvertToShares;
    hide LedgerOk;
    RedepositToOther(l, to, amount);
    RedepositIsSound(l, now, to, amount);
    PromiseNonNeg(l, now, to, amount);
  }

  lemma PromiseNonNeg(l: PoolLedger, now: nat, to: Address, amount: int)
    requires LedgerOk(l, now) && amount >= 0
    ensures Promise(l, to, amount) >= 0
  {
    LedgerSums(l, now);
    assert AccountOk(AccountOf(l, to), Index(l), now);
    hide LedgerOk;
    hide Obligation;
    if ConvertToShares(l.balance, amount).Ok? {
      MintedNonNegative(l.balance, amount);
      MulMono(0, ConvertToShares(l.balance, amount).value, Index(l) - UserIndex(AccountOf(l, to)));
    }
    hide ConvertToShares;
  }

  /** Replacing one pool's ledger moves what all pools owe by the difference. */
  lemma LiabilityMoves(pools: map<Address, PoolLedger>, now: nat, pool: Address, l: PoolLedger)
    requires LedgersOk(pools, now) && LedgerOk(l, now) && l.poolEmissions == PoolIn(pools, pool).poolEmissions
    ensures LiabilityTotal(pools[pool := l]) == LiabilityTotal(pools) + Obligation(l) - Obligation(PoolIn(pools, pool))
  {
    hide Obligation;
    hide LedgerOk;
    hide LedgersOk;
    hide LiabilityTotal;
    hide TokenTotal;
    SumsAfterPool(pools, now, pool, l);
  }

  /** The k-th turn moves the debts by its promise. */
  lemma RedepositPromises(s: Settlement, ids: seq<Address>, k: nat, lpOut: nat, to: Address, now: nat, p: Address)
    requires 0 < k <= |ids| && s.claimed > 0 && HasClaims(s.claims, ids, |ids|) && LedgersOk(s.pools, now)
    requires RedepositAll(s, ids, k, lpOut, to).Ok?
    ensures RedepositAll(s, ids, k - 1, lpOut, to).Ok?
    ensures var (before, after) := (RedepositAll(s, ids, k - 1, lpOut, to).value, RedepositAll(s, ids, k, lpOut, to).value);
      var promise := TurnPromise(s, ids, k - 1, lpOut, to);
      && promise >= 0
      && LiabilityTotal(after) == LiabilityTotal(before) + promise
      && Obligation(PoolIn(after, p)) == Obligation(PoolIn(before, p)) + (if ids[k - 1] == p then promise else 0)
      && (AllSettled(before, ids, to) ==> promise == 0 && AllSettled(after, ids, to))
  {
    hide Floor;
    hide Redeposit;
    hide Listed;
    hide LedgersOk;
    hide LedgerOk;
    hide Obligation;
    hide Promise;
    hide LiabilityTotal;
    hide TokenTotal;
    RedepositTurn(s, ids, k, lpOut, to);
    RedepositAllKeeps(s, ids, k - 1, lpOut, to, now, p);
    var before := RedepositAll(s, ids, k - 1, lpOut, to).value;
    var amount := RedepositAmount(s.claims, s.claimed, lpOut, ids[k - 1]).value;
    TurnAmount(s, ids, k, lpOut);
    hide RedepositAmount;
    hide HasClaims;
    var l := PoolIn(before, ids[k - 1]);
    PoolIsOk(before, now, ids[k - 1]);
    PromiseIsExact(l, now, to, amount);
    LiabilityMoves(before, now, ids[k - 1], Redeposit(l, to, amount).value);
    if AllSettled(before, ids, to) {
      assert Settled(l, to);
      AllSettledAfter(before, ids, to, ids[k - 1], Redeposit(l, to, amount).value);
    }
  }

  lemma TurnAmount(s: Settlement, ids: seq<Address>, k: nat, lpOut: nat)
    requires 0 < k <= |ids| && s.claimed > 0 && HasClaims(s.claims, ids, |ids|)
    ensures RedepositAmount(s.claims, s.claimed, lpOut, ids[k - 1])
      == Ok(Floor(Listed(s.claims, ids, |ids|)[k - 1] * lpOut, s.claimed))
    ensures RedepositAmount(s.claims, s.claimed, lpOut, ids[k - 1]).value >= 0
  {
    var c := Listed(s.claims, ids, |ids|)[k - 1];
    assert c * lpOut == lpOut * c;
    MulMono(0, c, lpOut);
    FloorNonNeg(c * lpOut, s.claimed);
    hide Floor;
  }

  /** The whole loop owes exactly its promises more, to any recipient, in all pools and in each; to a
      recipient settled in every listed pool it promises nothing. */
  lemma {:induction false} RedepositAllPromises(s: Settlement, ids: seq<Address>, k: nat, lpOut: nat, to: Address, now: nat, p: Address)
    requires k <= |ids| && s.claimed > 0 && HasClaims(s.claims, ids, |ids|) && LedgersOk(s.pools, now)
    requires RedepositAll(s, ids, k, lpOut, to).Ok?
    ensures var pools := RedepositAll(s, ids, k, lpOut, to).value;
      && LiabilityTotal(pools) == LiabilityTotal(s.pools) + Promised(s, ids, k, lpOut, to)
      && Obligation(PoolIn(pools, p)) == Obligation(PoolIn(s.pools, p)) + PromisedIn(s, ids, k, lpOut, to, p)
      && Promised(s, ids, k, lpOut, to) >= 0 && PromisedIn(s, ids, k, lpOut, to, p) >= 0
      && (AllSettled(s.pools, ids, to) ==>
            Promised(s, ids, k, lpOut, to) == 0 && PromisedIn(s, ids, k, lpOut, to, p) == 0 && AllSettled(pools, ids, to))
    decreases k
  {
    hide RedepositAmount;
    hide Redeposit;
    hide HasClaims;
    hide LedgersOk;
    hide Obligation;
    hide TurnPromise;
    hide LiabilityTotal;
    hide AllSettled;
    if k == 0 { return; }
    RedepositPromises(s, ids, k, lpOut, to, now, p);
    RedepositAllPromises(s, ids, k - 1, lpOut, to, now, p);
  }

  /** The whole loop for a settled recipient: nobody is owed anything new. */
  lemma {:induction false} RedepositAllOwesNothing(s: Settlement, ids: seq<Address>, k: nat, lpOut: nat, to: Address, now: nat, p: Address)
    requires k <= |ids| && s.claimed > 0 && HasClaims(s.claims, ids, |ids|) && LedgersOk(s.pools, now)
    requires RedepositAll(s, ids, k, lpOut, to).Ok? && AllSettled(s.pools, ids, to)
    ensures var pools := RedepositAll(s, ids, k, lpOut, to).value;
      && AllSettled(pools, ids, to)
      && LiabilityTotal(pools) == LiabilityTotal(s.pools)
      && Obligation(PoolIn(pools, p)) == Obligation(PoolIn(s.pools, p))
  {
    hide RedepositAll;
    hide HasClaims;
    hide LedgersOk;
    hide Obligation;
    hide Promised;
    hide PromisedIn;
    hide LiabilityTotal;
    hide AllSettled;
    RedepositAllPromises(s, ids, k, lpOut, to, now, p);
  }

  /** All re-deposits together take at most the LP tokens bought; with distinct pools they leave less
      than one unit of dust per listed pool. */
  lemma RedepositDust(pools: map<Address, PoolLedger>, ids: seq<Address>, now: nat, from: Address, lpOut: nat)
    requires LedgersOk(pools, now) && SettleAll(pools, ids, |ids|, now, from).Ok?
    requires SettleAll(pools, ids, |ids|, now, from).value.claimed > 0
    ensures var s := SettleAll(pools, ids, |ids|, now, from).value;
      && 0 <= Redeposited(s, ids, |ids|, lpOut) <= lpOut
      && ((forall i, j :: 0 <= i < j < |ids| ==> ids[i] != ids[j]) ==> lpOut - |ids| < Redeposited(s, ids, |ids|, lpOut))
  {
    SettleAllRecords(pools, ids, |ids|, now, from);
    var s := SettleAll(pools, ids, |ids|, now, from).value;
    hide SettleAll;
    hide LedgersOk;
    hide AllDone;
    SplitOfWhole(Listed(s.claims, ids, |ids|), s.claimed, lpOut);
  }
}
