/** A lending pool's emissions over whole runs: shares set by the admin, gulps split by them, balance changes
    and claims, with a running count of what came in and what was paid out. */
module PoolEmissionRuns {
  import opened Outcomes
  import opened FixedPoint
  import opened Totals
  import opened PoolEmissions

  datatype Metadata = Metadata(resIndex: nat, resType: nat, share: nat)

  datatype EmissionPool = EmissionPool(
    now: nat,
    reserves: nat,                   // listed reserves
    tokens: map<nat, ReserveToken>,  // by reserve token id: 2 * index + (0 for d tokens, 1 for b tokens)
    shares: map<nat, int>,           // each token's share of a gulp, in SCALAR_7
    // counted, not stored
    gulped: int,                     // emissions taken from the backstop
    given: map<nat, int>,            // allotted to each token
    claimed: map<nat, int>)          // paid out by each token

  // ----- shares -----

  /** The shares and their sum over the first k entries; a later entry for a token replaces an earlier one. */
  function SharesOf(metadata: seq<Metadata>, reserves: nat, k: nat): Outcome<(map<nat, int>, int)>
    requires k <= |metadata|
    decreases k
  {
    if k == 0 then Ok((map[], 0))
    else
      var (shares, total) :- SharesOf(metadata, reserves, k - 1);
      var m := metadata[k - 1];
      if m.resType > 1 || m.resIndex >= reserves then Abort(BadRequest)
      else Ok((shares[m.resIndex * 2 + m.resType := m.share], total + m.share))
  }

  /** set_pool_emissions */
  function SetPoolEmissions(p: EmissionPool, metadata: seq<Metadata>): Outcome<EmissionPool>
  {
    var (shares, total) :- SharesOf(metadata, p.reserves, |metadata|);
    if total > SCALAR_7 then Abort(BadRequest) else Ok(p.(shares := shares))
  }

  // ----- gulps -----

  function Allotment(share: int, newEmissions: int): int { Floor(share * newEmissions, SCALAR_7) }

  function Allotted(p: EmissionPool, newEmissions: int, id: nat): int
  {
    if id in p.shares then Allotment(p.shares[id], newEmissions) else 0
  }

  /** do_gulp_emissions: every token with a share gets its stream restarted. */
  function Gulp(p: EmissionPool, newEmissions: int): Outcome<EmissionPool>
  {
    if newEmissions < SCALAR_7 then Abort(BadRequest)
    else if exists id :: id in p.shares && id !in p.tokens then Abort(ArithmeticError)
    else if exists id :: id in p.shares && Restream(p.tokens[id], p.now, Allotment(p.shares[id], newEmissions)).Abort? then
      Abort(ArithmeticError)
    else
      Ok(p.(tokens := map id | id in p.tokens ::
              if id in p.shares then Restream(p.tokens[id], p.now, Allotment(p.shares[id], newEmissions)).value else p.tokens[id],
            gulped := p.gulped + newEmissions,
            given := map id | id in p.given :: p.given[id] + Allotted(p, newEmissions, id)))
  }

  // ----- claims and balance changes -----

  /** A user's claim on one token id. */
  function ClaimToken(p: EmissionPool, user: Address, id: nat): Outcome<(EmissionPool, int)>
  {
    if id / 2 >= p.reserves || id !in p.tokens then Abort(BadRequest)
    else
      var (t, paid) :- Update(p.tokens[id], p.now, user, true);
      Ok((p.(tokens := p.tokens[id := t], claimed := p.claimed[id := Amount(p.claimed, id) + paid]), paid))
  }

  /** A user's claim on the first k token ids, with the sum paid (the loop of execute_claim). */
  function ClaimAll(p: EmissionPool, user: Address, ids: seq<nat>, k: nat): Outcome<(EmissionPool, int)>
    requires k <= |ids|
    decreases k
  {
    if k == 0 then Ok((p, 0))
    else
      var (q, total) :- ClaimAll(p, user, ids, k - 1);
      var (next, paid) :- ClaimToken(q, user, ids[k - 1]);
      Ok((next, total + paid))
  }

  function Move(p: EmissionPool, id: nat, user: Address, delta: int): Outcome<EmissionPool>
  {
    if id !in p.tokens then Abort(ArithmeticError)
    else
      var t :- ChangeBalance(p.tokens[id], p.now, user, delta);
      Ok(p.(tokens := p.tokens[id := t]))
  }

  /** A new reserve brings two tokens nobody holds. */
  function List(p: EmissionPool, decimals: nat): EmissionPool
  {
    var (d, b) := (p.reserves * 2, p.reserves * 2 + 1);
    var unheld := ReserveToken(Pow10(decimals), 0, map[], None, None);
    p.(reserves := p.reserves + 1, tokens := p.tokens[d := unheld][b := unheld],
       given := p.given[d := 0][b := 0], claimed := p.claimed[d := 0][b := 0])
  }

  // ----- the invariant -----

  /** What a token may still pay out plus what it paid is covered by what it was given. */
  ghost predicate TokenFunded(t: ReserveToken, now: nat, given: int, claimed: int)
  {
    TokenOk(t, now) && claimed >= 0 && Obligation(t) + t.scalar * claimed <= t.scalar * given
  }

  ghost predicate Keyed(p: EmissionPool)
  {
    p.given.Keys == p.tokens.Keys == p.claimed.Keys && forall id: nat :: id in p.tokens <==> id < 2 * p.reserves
  }

  ghost predicate AllFunded(p: EmissionPool)
    requires Keyed(p)
  {
    forall id :: id in p.tokens ==> TokenFunded(p.tokens[id], p.now, p.given[id], p.claimed[id])
  }

  ghost predicate SharesOk(p: EmissionPool)
  {
    Total(p.shares) <= SCALAR_7 && forall id :: id in p.shares ==> p.shares[id] >= 0 && id < 2 * p.reserves
  }

  ghost predicate EmissionsOk(p: EmissionPool)
  {
    Keyed(p) && AllFunded(p) && SharesOk(p) && Total(p.given) <= p.gulped
  }

  // ----- sums -----

  lemma TotalMono(a: map<Address, int>, b: map<Address, int>)
    requires a.Keys == b.Keys && forall k :: k in a ==> a[k] <= b[k]
    ensures Total(a) <= Total(b)
  {
    hide Total;
    var d := map k | k in a :: b[k] - a[k];
    TotalLinear(a, b, d, 1);
    TotalNonNeg(d);
  }

  /** Keys that count 0 add nothing. */
  lemma {:induction false} TotalPad(m: map<Address, int>, full: map<Address, int>)
    requires m.Keys <= full.Keys && forall k :: k in full ==> full[k] == Amount(m, k)
    ensures Total(full) == Total(m)
    decreases |full|
  {
    if full == map[] {
      assert m == map[];
      return;
    }
    var k :| k in full;
    RemoveShrinks(full, k);
    TotalSplit(full, k);
    if k in m {
      TotalSplit(m, k);
      TotalPad(m - {k}, full - {k});
    } else {
      TotalPad(m, full - {k});
    }
  }

  /** Shares of at most one allot at most what there is. */
  lemma {:induction false} AllotmentsBounded(shares: map<nat, int>, newEmissions: int)
    requires newEmissions >= 0
    ensures Total(map id | id in shares :: Allotment(shares[id], newEmissions)) * SCALAR_7 <= Total(shares) * newEmissions
    decreases |shares|
  {
    hide Allotment;
    var allotted := map id | id in shares :: Allotment(shares[id], newEmissions);
    if shares == map[] {
      TotalOfNothing(shares);
      TotalOfNothing(allotted);
      return;
    }
    var id :| id in shares;
    RemoveShrinks(shares, id);
    AllotmentsBounded(shares - {id}, newEmissions);
    hide Total;
    TotalSplit(shares, id);
    TotalSplit(allotted, id);
    assert allotted - {id} == map i | i in shares - {id} :: Allotment((shares - {id})[i], newEmissions);
    AllotmentIsPart(shares[id], newEmissions);
    MulDistributes(newEmissions, shares[id], Total(shares - {id}));
    MulDistributes(SCALAR_7, allotted[id], Total(allotted - {id}));
  }

  lemma AllotmentIsPart(share: int, newEmissions: int)
    ensures Allotment(share, newEmissions) * SCALAR_7 <= share * newEmissions
  {
    FloorBounds(share * newEmissions, SCALAR_7);
    hide Floor;
  }

  /** The shares the admin sets, whatever tokens the list repeats, add up to at most the sum that is checked. */
  lemma {:induction false} SharesBounded(metadata: seq<Metadata>, reserves: nat, k: nat)
    requires k <= |metadata| && SharesOf(metadata, reserves, k).Ok?
    ensures var (shares, total) := SharesOf(metadata, reserves, k).value;
      && Total(shares) <= total
      && forall id :: id in shares ==> shares[id] >= 0 && id < 2 * reserves
    decreases k
  {
    if k == 0 {
      TotalOfNothing(map[]);
      return;
    }
    SharesBounded(metadata, reserves, k - 1);
    hide Total;
    var (shares, total) := SharesOf(metadata, reserves, k - 1).value;
    var m := metadata[k - 1];
    TotalUpdate(shares, m.resIndex * 2 + m.resType, m.share);
  }

  // ----- steps -----

  lemma TokenLater(t: ReserveToken, now: nat, later: nat, given: int, claimed: int)
    requires TokenFunded(t, now, given, claimed) && now <= later
    ensures TokenFunded(t, later, given, claimed)
  {
    hide Obligation;
    hide BalanceTotal;
    hide HolderOk;
  }

  lemma SetSharesKeeps(p: EmissionPool, metadata: seq<Metadata>)
    requires EmissionsOk(p) && SetPoolEmissions(p, metadata).Ok?
    ensures EmissionsOk(SetPoolEmissions(p, metadata).value)
  {
    hide TokenFunded;
    hide Total;
    SharesBounded(metadata, p.reserves, |metadata|);
    assert AllFunded(SetPoolEmissions(p, metadata).value);
    hide SharesOf;
  }

  /** What one gulp allots adds up to at most what was gulped. */
  lemma {:induction false} GulpIsCovered(p: EmissionPool, newEmissions: int)
    requires EmissionsOk(p) && newEmissions >= 0
    ensures var allotted := map id | id in p.given :: Allotted(p, newEmissions, id);
      Total(allotted) <= newEmissions && forall id :: id in allotted ==> allotted[id] >= 0
  {
    hide TokenFunded;
    hide Allotment;
    hide Total;
    var allotted := map id | id in p.given :: Allotted(p, newEmissions, id);
    var listed := map id | id in p.shares :: Allotment(p.shares[id], newEmissions);
    AllotmentsBounded(p.shares, newEmissions);
    TotalPad(listed, allotted);
    MulMono(Total(p.shares), SCALAR_7, newEmissions);
    MultiplesOrdered(Total(listed), newEmissions, SCALAR_7);
    forall id | id in p.shares
      ensures Allotment(p.shares[id], newEmissions) >= 0
    {
      AllotmentNonNeg(p.shares[id], newEmissions);
    }
  }

  lemma AllotmentNonNeg(share: int, newEmissions: int)
    requires share >= 0 && newEmissions >= 0
    ensures Allotment(share, newEmissions) >= 0
  {
    MulMono(0, share, newEmissions);
    FloorNonNeg(share * newEmissions, SCALAR_7);
    hide Floor;
  }

  /** A gulp gives each token its share of the new emissions, rounded down, and no other token anything. */
  lemma GulpGives(p: EmissionPool, newEmissions: int, id: nat)
    requires EmissionsOk(p) && Gulp(p, newEmissions).Ok?
    ensures var q := Gulp(p, newEmissions).value;
      && q.gulped == p.gulped + newEmissions && newEmissions >= SCALAR_7 && q.tokens.Keys == p.tokens.Keys
      && PartDown(Amount(q.given, id) - Amount(p.given, id), Amount(p.shares, id), newEmissions, SCALAR_7)
      && (id in p.tokens && id !in p.shares ==> q.tokens[id] == p.tokens[id])
  {
    hide Restream;
    hide TokenFunded;
    hide Total;
    FloorBounds(Amount(p.shares, id) * newEmissions, SCALAR_7);
    hide Floor;
  }

  /** A gulp goes through exactly with at least one whole token of new emissions. */
  lemma GulpSucceeds(p: EmissionPool, newEmissions: int)
    requires EmissionsOk(p)
    ensures Gulp(p, newEmissions).Ok? <==> newEmissions >= 1_0000000
  {
    hide Restream;
    hide Total;
    hide Obligation;
    hide TokenOk;
    hide Allotment;
    if newEmissions >= SCALAR_7 {
      forall id | id in p.shares
        ensures id in p.tokens && Restream(p.tokens[id], p.now, Allotment(p.shares[id], newEmissions)).Ok?
      {
        assert TokenFunded(p.tokens[id], p.now, p.given[id], p.claimed[id]);
        AllotmentNonNeg(p.shares[id], newEmissions);
        RestreamKeeps(p.tokens[id], p.now, Allotment(p.shares[id], newEmissions));
      }
    }
  }

  /** A claim goes through exactly for tokens of listed reserves, whether or not anything is due. */
  lemma {:induction false} ClaimSucceeds(p: EmissionPool, user: Address, ids: seq<nat>, k: nat)
    requires EmissionsOk(p) && k <= |ids|
    ensures ClaimAll(p, user, ids, k).Ok? <==> forall i :: 0 <= i < k ==> ids[i] < 2 * p.reserves
    decreases k
  {
    hide TokenFunded;
    hide Total;
    hide Update;
    if k > 0 {
      ClaimSucceeds(p, user, ids, k - 1);
      if ClaimAll(p, user, ids, k - 1).Ok? {
        ClaimAllKeeps(p, user, ids, k - 1);
        var q := ClaimAll(p, user, ids, k - 1).value.0;
        ClaimTokenSucceeds(q, user, ids[k - 1]);
      }
    }
  }

  lemma ClaimTokenSucceeds(p: EmissionPool, user: Address, id: nat)
    requires EmissionsOk(p)
    ensures ClaimToken(p, user, id).Ok? <==> id < 2 * p.reserves
  {
    hide Update;
    hide Total;
    hide Obligation;
    hide TokenOk;
    if id in p.tokens {
      assert TokenFunded(p.tokens[id], p.now, p.given[id], p.claimed[id]);
      UpdateKeeps(p.tokens[id], p.now, user, true);
    }
  }

  function TokenId(m: Metadata): nat { m.resIndex * 2 + m.resType }

  ghost function ShareSum(metadata: seq<Metadata>, k: nat): int
    requires k <= |metadata|
  {
    if k == 0 then 0 else ShareSum(metadata, k - 1) + metadata[k - 1].share
  }

  /** The first k entries name tokens of listed reserves. */
  predicate AllListed(metadata: seq<Metadata>, reserves: nat, k: nat)
    requires k <= |metadata|
  {
    forall j :: 0 <= j < k ==> metadata[j].resType <= 1 && metadata[j].resIndex < reserves
  }

  /** No later entry among the first k is for the token of entry j. */
  predicate IsLast(metadata: seq<Metadata>, k: nat, j: nat)
    requires k <= |metadata|
  {
    j < k && forall l :: j < l < k ==> TokenId(metadata[l]) != TokenId(metadata[j])
  }

  lemma {:induction false} SharesSucceed(metadata: seq<Metadata>, reserves: nat, k: nat)
    requires k <= |metadata|
    ensures SharesOf(metadata, reserves, k).Ok? <==> AllListed(metadata, reserves, k)
    ensures SharesOf(metadata, reserves, k).Ok? ==> SharesOf(metadata, reserves, k).value.1 == ShareSum(metadata, k)
    decreases k
  {
    if k > 0 {
      SharesSucceed(metadata, reserves, k - 1);
    }
  }

  lemma {:induction false} ShareIsLast(metadata: seq<Metadata>, reserves: nat, k: nat, j: nat)
    requires k <= |metadata| && SharesOf(metadata, reserves, k).Ok? && IsLast(metadata, k, j)
    ensures Amount(SharesOf(metadata, reserves, k).value.0, TokenId(metadata[j])) == metadata[j].share
    decreases k
  {
    if j < k - 1 {
      ShareIsLast(metadata, reserves, k - 1, j);
    }
  }

  lemma {:induction false} ShareIsNamed(metadata: seq<Metadata>, reserves: nat, k: nat, id: nat)
    requires k <= |metadata| && SharesOf(metadata, reserves, k).Ok?
    requires forall j :: 0 <= j < k ==> TokenId(metadata[j]) != id
    ensures id !in SharesOf(metadata, reserves, k).value.0
    decreases k
  {
    if k > 0 {
      ShareIsNamed(metadata, reserves, k - 1, id);
    }
  }

  /** Shares can be set exactly if every entry names a token of a listed reserve and they add up to at most one; a token
      then has the share of its last entry, and one without an entry none. */
  lemma SetPoolEmissionsIs(p: EmissionPool, metadata: seq<Metadata>, id: nat)
    ensures SetPoolEmissions(p, metadata).Ok? <==>
      AllListed(metadata, p.reserves, |metadata|) && ShareSum(metadata, |metadata|) <= SCALAR_7
    ensures SetPoolEmissions(p, metadata).Ok? ==>
      var q := SetPoolEmissions(p, metadata).value;
      && q == p.(shares := q.shares)
      && (forall j: nat :: IsLast(metadata, |metadata|, j) && TokenId(metadata[j]) == id ==> Amount(q.shares, id) == metadata[j].share)
      && ((forall j :: 0 <= j < |metadata| ==> TokenId(metadata[j]) != id) ==> id !in q.shares)
  {
    SharesSucceed(metadata, p.reserves, |metadata|);
    if SetPoolEmissions(p, metadata).Ok? {
      forall j: nat | IsLast(metadata, |metadata|, j) && TokenId(metadata[j]) == id
        ensures Amount(SharesOf(metadata, p.reserves, |metadata|).value.0, id) == metadata[j].share
      {
        ShareIsLast(metadata, p.reserves, |metadata|, j);
      }
      if forall j :: 0 <= j < |metadata| ==> TokenId(metadata[j]) != id {
        ShareIsNamed(metadata, p.reserves, |metadata|, id);
      }
    }
    hide SharesOf;
  }

  lemma GulpOne(t: ReserveToken, now: nat, given: int, claimed: int, more: int)
    requires TokenFunded(t, now, given, claimed) && more >= 0
    ensures Restream(t, now, more).Ok? && TokenFunded(Restream(t, now, more).value, now, given + more, claimed)
  {
    hide Restream;
    hide TokenOk;
    hide Obligation;
    RestreamKeeps(t, now, more);
    MulDistributes(t.scalar, given, more);
  }

  lemma {:induction false} GulpKeeps(p: EmissionPool, newEmissions: int)
    requires EmissionsOk(p) && Gulp(p, newEmissions).Ok?
    ensures EmissionsOk(Gulp(p, newEmissions).value)
  {
    hide Total;
    hide Allotment;
    hide Restream;
    hide TokenFunded;
    var q := Gulp(p, newEmissions).value;
    GulpIsCovered(p, newEmissions);
    var allotted := map id | id in p.given :: Allotted(p, newEmissions, id);
    TotalLinear(p.given, q.given, allotted, 1);
    forall id | id in p.tokens
      ensures TokenFunded(q.tokens[id], q.now, q.given[id], q.claimed[id])
    {
      if id in p.shares {
        AllotmentNonNeg(p.shares[id], newEmissions);
        GulpOne(p.tokens[id], p.now, p.given[id], p.claimed[id], Allotment(p.shares[id], newEmissions));
      }
    }
  }

  /** One token of a claim. */
  lemma ClaimOne(t: ReserveToken, now: nat, user: Address, given: int, claimed: int)
    requires TokenFunded(t, now, given, claimed)
    ensures Update(t, now, user, true).Ok?
    ensures var (q, paid) := Update(t, now, user, true).value;
      q.scalar == t.scalar && paid >= 0 && TokenFunded(q, now, given, claimed + paid)
  {
    hide TokenOk;
    hide Update;
    hide Obligation;
    UpdateKeeps(t, now, user, true);
    MulDistributes(t.scalar, claimed, Update(t, now, user, true).value.1);
  }

  lemma ClaimTokenKeeps(p: EmissionPool, user: Address, id: nat)
    requires EmissionsOk(p) && ClaimToken(p, user, id).Ok?
    ensures var (q, paid) := ClaimToken(p, user, id).value;
      EmissionsOk(q) && q == p.(tokens := q.tokens, claimed := q.claimed)
      && paid >= 0 && Total(q.claimed) == Total(p.claimed) + paid
  {
    hide Total;
    hide TokenFunded;
    hide Update;
    var t := p.tokens[id];
    assert TokenFunded(t, p.now, p.given[id], p.claimed[id]);
    ClaimOne(t, p.now, user, p.given[id], p.claimed[id]);
    TotalUpdate(p.claimed, id, p.claimed[id] + Update(t, p.now, user, true).value.1);
  }

  lemma {:induction false} ClaimAllKeeps(p: EmissionPool, user: Address, ids: seq<nat>, k: nat)
    requires EmissionsOk(p) && k <= |ids| && ClaimAll(p, user, ids, k).Ok?
    ensures var (q, total) := ClaimAll(p, user, ids, k).value;
      && EmissionsOk(q) && q == p.(tokens := q.tokens, claimed := q.claimed)
      && total >= 0 && Total(q.claimed) == Total(p.claimed) + total
    decreases k
  {
    hide Total;
    hide EmissionsOk;
    hide ClaimToken;
    if k == 0 {
      return;
    }
    ClaimAllKeeps(p, user, ids, k - 1);
    ClaimTokenKeeps(ClaimAll(p, user, ids, k - 1).value.0, user, ids[k - 1]);
  }

  lemma MoveOne(t: ReserveToken, now: nat, user: Address, delta: int, given: int, claimed: int)
    requires TokenFunded(t, now, given, claimed) && ChangeBalance(t, now, user, delta).Ok?
    ensures TokenFunded(ChangeBalance(t, now, user, delta).value, now, given, claimed)
  {
    hide ChangeBalance;
    hide TokenOk;
    hide Obligation;
    ChangeBalanceKeeps(t, now, user, delta);
  }

  lemma MoveKeeps(p: EmissionPool, id: nat, user: Address, delta: int)
    requires EmissionsOk(p) && Move(p, id, user, delta).Ok?
    ensures EmissionsOk(Move(p, id, user, delta).value)
  {
    hide Total;
    hide ChangeBalance;
    hide TokenFunded;
    assert TokenFunded(p.tokens[id], p.now, p.given[id], p.claimed[id]);
    MoveOne(p.tokens[id], p.now, user, delta, p.given[id], p.claimed[id]);
  }

  lemma UnheldOk(t: ReserveToken, now: nat)
    requires t.supply == 0 && t.holders == map[] && t.config == None && t.data == None
    ensures TokenFunded(t, now, 0, 0)
  {
    TotalOfNothing(BalancesBy(t.holders));
    TotalOfNothing(OwedBy(t.holders, t.scalar, 0));
    hide Total;
  }

  lemma ListKeeps(p: EmissionPool, decimals: nat)
    requires EmissionsOk(p)
    ensures EmissionsOk(List(p, decimals))
  {
    hide Total;
    hide TokenFunded;
    hide Pow10;
    var (d, b) := (p.reserves * 2, p.reserves * 2 + 1);
    var q := List(p, decimals);
    UnheldOk(q.tokens[d], p.now);
    UnheldOk(q.tokens[b], p.now);
    TotalUpdate(p.given, d, 0);
    TotalUpdate(p.given[d := 0], b, 0);
  }

  // ----- runs -----

  datatype Action =
    | Wait(seconds: nat)
    | SharesSet(metadata: seq<Metadata>)
    | Gulped(newEmissions: int)
    | BalanceMoved(id: nat, user: Address, delta: int)
    | Claimed(user: Address, ids: seq<nat>)
    | ReserveListed(decimals: nat)

  function Attempt(p: EmissionPool, a: Action): Outcome<EmissionPool>
  {
    match a
    case Wait(seconds) => Ok(p.(now := p.now + seconds))
    case SharesSet(metadata) => SetPoolEmissions(p, metadata)
    case Gulped(newEmissions) => Gulp(p, newEmissions)
    case BalanceMoved(id, user, delta) => Move(p, id, user, delta)
    case Claimed(user, ids) => (var (q, _) :- ClaimAll(p, user, ids, |ids|); Ok(q))
    case ReserveListed(decimals) => Ok(List(p, decimals))
  }

  lemma AttemptKeeps(p: EmissionPool, a: Action)
    requires EmissionsOk(p)
    ensures Attempt(p, a).Ok? ==> EmissionsOk(Attempt(p, a).value)
  {
    hide EmissionsOk;
    hide SetPoolEmissions;
    hide Gulp;
    hide Move;
    hide ClaimAll;
    hide List;
    if Attempt(p, a).Ok? {
      match a
      case Wait(seconds) => WaitKeeps(p, seconds);
      case SharesSet(metadata) => SetSharesKeeps(p, metadata);
      case Gulped(newEmissions) => GulpKeeps(p, newEmissions);
      case BalanceMoved(id, user, delta) => MoveKeeps(p, id, user, delta);
      case Claimed(user, ids) => ClaimAllKeeps(p, user, ids, |ids|);
      case ReserveListed(decimals) => ListKeeps(p, decimals);
    }
  }

  lemma WaitKeeps(p: EmissionPool, seconds: nat)
    requires EmissionsOk(p)
    ensures EmissionsOk(p.(now := p.now + seconds))
  {
    hide Total;
    hide TokenFunded;
    forall id | id in p.tokens
      ensures TokenFunded(p.tokens[id], p.now + seconds, p.given[id], p.claimed[id])
    {
      TokenLater(p.tokens[id], p.now, p.now + seconds, p.given[id], p.claimed[id]);
    }
  }

  /** An aborted call leaves everything as it was. */
  function Step(p: EmissionPool, a: Action): EmissionPool
  {
    if Attempt(p, a).Ok? then Attempt(p, a).value else p
  }

  function Run(p: EmissionPool, actions: seq<Action>): EmissionPool
    decreases |actions|
  {
    if actions == [] then p else Step(Run(p, actions[..|actions| - 1]), actions[|actions| - 1])
  }

  lemma {:induction false} RunKeeps(p: EmissionPool, actions: seq<Action>)
    requires EmissionsOk(p)
    ensures EmissionsOk(Run(p, actions))
    decreases |actions|
  {
    hide EmissionsOk;
    hide Attempt;
    if actions == [] {
      return;
    }
    RunKeeps(p, actions[..|actions| - 1]);
    AttemptKeeps(Run(p, actions[..|actions| - 1]), actions[|actions| - 1]);
  }

  /** A pool that lists nothing and was given nothing. */
  predicate IsGenesis(p: EmissionPool)
  {
    p.reserves == 0 && p.tokens == map[] && p.shares == map[] && p.gulped == 0 && p.given == map[] && p.claimed == map[]
  }

  lemma GenesisOk(p: EmissionPool)
    requires IsGenesis(p)
    ensures EmissionsOk(p)
  {
    TotalOfNothing(p.shares);
    TotalOfNothing(p.given);
    hide Total;
  }

  // ----- nothing is lost but rounding -----

  /** How often a token is listed among the first k ids. */
  function Listings(ids: seq<nat>, k: nat, id: nat): nat
    requires k <= |ids|
  {
    if k == 0 then 0 else Listings(ids, k - 1, id) + (if ids[k - 1] == id then 1 else 0)
  }

  /** The token's scalar times the most a call may lose of its emissions: the rounding of each emission update it makes
      of the token, and what restarting its stream loses. */
  function MayLose(p: EmissionPool, a: Action, id: nat): int
  {
    if Attempt(p, a).Abort? || id !in p.tokens then 0
    else
      match a
      case BalanceMoved(i, _, _) => if i == id then Rounding(p.tokens[id]) else 0
      case Claimed(_, ids) => Listings(ids, |ids|, id) * Rounding(p.tokens[id])
      case Gulped(_) => if id in p.shares then RestartLoss(p.tokens[id], p.now) else 0
      case _ => 0
  }

  function MayLoseDuring(p: EmissionPool, actions: seq<Action>, id: nat): int
    decreases |actions|
  {
    if actions == [] then 0
    else
      var earlier := actions[..|actions| - 1];
      MayLoseDuring(p, earlier, id) + MayLose(Run(p, earlier), actions[|actions| - 1], id)
  }

  /** What a token was given is what it paid and may still pay out, short by at most `lost`; nothing for a token that
      does not exist. */
  ghost predicate Accounted(p: EmissionPool, id: nat, lost: int)
  {
    id in p.tokens && id in p.given && id in p.claimed ==>
      p.tokens[id].scalar * p.given[id] <= Obligation(p.tokens[id]) + p.tokens[id].scalar * p.claimed[id] + lost
  }

  /** One token of a claim loses at most one rounding, and other tokens nothing. */
  lemma ClaimTokenAccounts(p: EmissionPool, user: Address, id: nat, x: nat, lost: int)
    requires EmissionsOk(p) && ClaimToken(p, user, id).Ok? && Accounted(p, x, lost)
    ensures var q := ClaimToken(p, user, id).value.0;
      && Accounted(q, x, lost + if x == id then Rounding(p.tokens[id]) else 0)
      && (x in p.tokens ==> x in q.tokens && Rounding(q.tokens[x]) == Rounding(p.tokens[x]))
  {
    hide Total;
    hide TokenOk;
    hide Update;
    hide Obligation;
    hide Due;
    var t := p.tokens[id];
    assert TokenFunded(t, p.now, p.given[id], p.claimed[id]);
    UpdateKeeps(t, p.now, user, true);
    MulDistributes(t.scalar, p.claimed[id], Update(t, p.now, user, true).value.1);
  }

  lemma {:induction false} ClaimAllAccounts(p: EmissionPool, user: Address, ids: seq<nat>, k: nat, x: nat, lost: int)
    requires EmissionsOk(p) && k <= |ids| && ClaimAll(p, user, ids, k).Ok? && Accounted(p, x, lost)
    ensures var q := ClaimAll(p, user, ids, k).value.0;
      && (x in p.tokens ==> x in q.tokens && Rounding(q.tokens[x]) == Rounding(p.tokens[x]))
      && Accounted(q, x, lost + (if x in p.tokens then Listings(ids, k, x) * Rounding(p.tokens[x]) else 0))
    decreases k
  {
    hide EmissionsOk;
    hide ClaimToken;
    hide Accounted;
    hide Rounding;
    if k == 0 {
      return;
    }
    ClaimAllAccounts(p, user, ids, k - 1, x, lost);
    ClaimAllKeeps(p, user, ids, k - 1);
    var q := ClaimAll(p, user, ids, k - 1).value.0;
    var more := if x in p.tokens then Listings(ids, k - 1, x) * Rounding(p.tokens[x]) else 0;
    ClaimTokenAccounts(q, user, ids[k - 1], x, lost + more);
    if x in p.tokens {
      MulDistributes(Rounding(p.tokens[x]), Listings(ids, k - 1, x), 1);
    } else {
      ClaimsNewNothing(p, user, ids, k, x);
    }
  }

  lemma {:induction false} ClaimsNewNothing(p: EmissionPool, user: Address, ids: seq<nat>, k: nat, x: nat)
    requires k <= |ids| && ClaimAll(p, user, ids, k).Ok? && x !in p.tokens
    ensures x !in ClaimAll(p, user, ids, k).value.0.tokens
    ensures 0 < k ==> ids[k - 1] != x
    decreases k
  {
    hide Update;
    if k > 0 {
      ClaimsNewNothing(p, user, ids, k - 1, x);
    }
  }

  lemma MoveAccounts(p: EmissionPool, id: nat, user: Address, delta: int, x: nat, lost: int)
    requires EmissionsOk(p) && Move(p, id, user, delta).Ok? && Accounted(p, x, lost)
    ensures Accounted(Move(p, id, user, delta).value, x, lost + if x == id then Rounding(p.tokens[id]) else 0)
  {
    hide Total;
    hide TokenOk;
    hide ChangeBalance;
    hide Obligation;
    assert TokenFunded(p.tokens[id], p.now, p.given[id], p.claimed[id]);
    ChangeBalanceKeeps(p.tokens[id], p.now, user, delta);
  }

  lemma GulpAccounts(p: EmissionPool, newEmissions: int, x: nat, lost: int)
    requires EmissionsOk(p) && Gulp(p, newEmissions).Ok? && Accounted(p, x, lost)
    ensures Accounted(Gulp(p, newEmissions).value, x, lost + if x in p.tokens && x in p.shares then RestartLoss(p.tokens[x], p.now) else 0)
  {
    hide Total;
    hide TokenOk;
    hide Restream;
    hide Obligation;
    hide Allotment;
    hide RestartLoss;
    if x in p.tokens && x in p.shares {
      assert TokenFunded(p.tokens[x], p.now, p.given[x], p.claimed[x]);
      AllotmentNonNeg(p.shares[x], newEmissions);
      RestreamKeeps(p.tokens[x], p.now, Allotment(p.shares[x], newEmissions));
      MulDistributes(p.tokens[x].scalar, p.given[x], Allotment(p.shares[x], newEmissions));
    }
  }

  lemma ListAccounts(p: EmissionPool, decimals: nat, x: nat, lost: int)
    requires EmissionsOk(p) && Accounted(p, x, lost) && lost >= 0
    ensures Accounted(List(p, decimals), x, lost)
  {
    hide Total;
    hide TokenFunded;
    hide Pow10;
    var q := List(p, decimals);
    if x == p.reserves * 2 || x == p.reserves * 2 + 1 {
      UnheldOwes(q.tokens[x]);
    }
    hide Obligation;
  }

  lemma UnheldOwes(t: ReserveToken)
    requires t.holders == map[] && t.config == None && t.data == None
    ensures Obligation(t) == 0
  {
    TotalOfNothing(OwedBy(t.holders, t.scalar, 0));
    hide Total;
  }

  lemma MayLoseNonNeg(p: EmissionPool, a: Action, id: nat)
    requires EmissionsOk(p)
    ensures MayLose(p, a, id) >= 0
  {
    hide Attempt;
    hide Total;
    if id in p.tokens {
      assert TokenFunded(p.tokens[id], p.now, p.given[id], p.claimed[id]);
      TokenSums(p.tokens[id], p.now);
      IdleNonNeg(p.tokens[id], p.now);
      hide Obligation;
      hide TokenOk;
      hide RestartLoss;
      MulMono(0, B.EMISSION_WINDOW, p.tokens[id].scalar);
      if a.Claimed? {
        MulMono(0, Listings(a.ids, |a.ids|, id), Rounding(p.tokens[id]));
      }
    }
  }

  lemma StepAccounts(p: EmissionPool, a: Action, id: nat, lost: int)
    requires EmissionsOk(p) && Accounted(p, id, lost) && lost >= 0
    ensures Accounted(Step(p, a), id, lost + MayLose(p, a, id))
  {
    hide EmissionsOk;
    hide Gulp;
    hide Move;
    hide ClaimAll;
    hide List;
    hide Obligation;
    hide Rounding;
    hide RestartLoss;
    if Attempt(p, a).Ok? {
      match a
      case Wait(_) => {}
      case SharesSet(metadata) => {}
      case Gulped(newEmissions) => GulpAccounts(p, newEmissions, id, lost);
      case BalanceMoved(i, user, delta) =>
        MoveAccounts(p, i, user, delta, id, lost);
        MovedExists(p, i, user, delta);
      case Claimed(user, ids) => ClaimAllAccounts(p, user, ids, |ids|, id, lost);
      case ReserveListed(decimals) => ListAccounts(p, decimals, id, lost);
    }
  }

  lemma MovedExists(p: EmissionPool, id: nat, user: Address, delta: int)
    requires Move(p, id, user, delta).Ok?
    ensures id in p.tokens
  {
    hide ChangeBalance;
  }

  /** In every run, what gulps gave a token it has paid, still owes or still streams, short by no more than the rounding
      of the calls made. */
  lemma {:induction false} GivenIsAccounted(start: EmissionPool, actions: seq<Action>, id: nat)
    requires IsGenesis(start)
    ensures Accounted(Run(start, actions), id, MayLoseDuring(start, actions, id)) && MayLoseDuring(start, actions, id) >= 0
    decreases |actions|
  {
    hide Step;
    hide EmissionsOk;
    hide MayLose;
    if actions == [] {
      return;
    }
    hide Accounted;
    var earlier := actions[..|actions| - 1];
    GivenIsAccounted(start, earlier, id);
    GenesisOk(start);
    RunKeeps(start, earlier);
    MayLoseNonNeg(Run(start, earlier), actions[|actions| - 1], id);
    StepAccounts(Run(start, earlier), actions[|actions| - 1], id, MayLoseDuring(start, earlier, id));
  }

  /** In every run, each token's payouts and what it still owes and streams stay within what gulps gave it,
      and all payouts stay within all that was gulped. */
  lemma ClaimsAreFunded(start: EmissionPool, actions: seq<Action>)
    requires IsGenesis(start)
    ensures var p := Run(start, actions);
      && p.given.Keys == p.tokens.Keys == p.claimed.Keys
      && (forall id :: id in p.tokens ==>
            && Obligation(p.tokens[id]) + p.tokens[id].scalar * p.claimed[id] <= p.tokens[id].scalar * p.given[id]
            && 0 <= p.claimed[id] <= p.given[id])
      && Total(p.claimed) <= Total(p.given) <= p.gulped
  {
    hide Total;
    hide Run;
    hide TokenOk;
    hide Obligation;
    GenesisOk(start);
    RunKeeps(start, actions);
    var p := Run(start, actions);
    forall id | id in p.tokens
      ensures 0 <= p.claimed[id] <= p.given[id]
    {
      assert TokenFunded(p.tokens[id], p.now, p.given[id], p.claimed[id]);
      TokenSums(p.tokens[id], p.now);
      MultiplesOrdered(p.claimed[id], p.given[id], p.tokens[id].scalar);
    }
    TotalMono(p.claimed, p.given);
  }
}
