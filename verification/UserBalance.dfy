/** A user's backstop position for one pool: free shares and a first-in first-out queue of
    shares waiting out the withdrawal lock (backstop/src/backstop/user.rs). */
module UserBalances {
  import opened Outcomes
  import opened FixedPoint

  const MAX_Q4W_SIZE: nat := 21
  const Q4W_LOCK_TIME: nat := 21 * 24 * 60 * 60

  datatype Q4W = Q4W(amount: int, exp: nat)

  /** The stored balance. */
  datatype Holding = Holding(shares: int, q4w: seq<Q4W>)

  const EMPTY_HOLDING := Holding(0, [])

  // ----- meaning of a queue -----

  /** All shares in a queue. */
  function Queued(q: seq<Q4W>): int
  {
    if q == [] then 0 else q[0].amount + Queued(q[1..])
  }

  /** The shares of a queue whose lock has ended at time t. */
  function Matured(q: seq<Q4W>, t: int): int
  {
    if q == [] then 0
    else (if q[0].exp <= t then q[0].amount else 0) + Matured(q[1..], t)
  }

  ghost predicate Sorted(q: seq<Q4W>)
  {
    forall i, j :: 0 <= i < j < |q| ==> q[i].exp <= q[j].exp
  }

  ghost predicate NonNegative(q: seq<Q4W>)
  {
    forall i :: 0 <= i < |q| ==> q[i].amount >= 0
  }

  /** What every stored balance satisfies at time `now`. */
  ghost predicate HoldingOk(h: Holding, now: nat)
  {
    && h.shares >= 0
    && |h.q4w| <= MAX_Q4W_SIZE
    && Sorted(h.q4w)
    && NonNegative(h.q4w)
    && forall i :: 0 <= i < |h.q4w| ==> h.q4w[i].exp <= now + Q4W_LOCK_TIME
  }

  // ----- transitions -----

  function AddShares(h: Holding, toAdd: int): Holding
  {
    h.(shares := h.shares + toAdd)
  }

  function QueueShares(h: Holding, now: nat, toQ: int): Outcome<Holding>
  {
    if h.shares < toQ then Abort(BalanceError)
    else if |h.q4w| >= MAX_Q4W_SIZE then Abort(TooManyQ4WEntries)
    else Ok(Holding(h.shares - toQ, h.q4w + [Q4W(toQ, now + Q4W_LOCK_TIME)]))
  }

  /** Take `left` shares off the front of a queue; with `requireExpired`, touching an entry
      that is still locked aborts. */
  function TakeFront(q: seq<Q4W>, left: int, now: nat, requireExpired: bool): Outcome<seq<Q4W>>
  {
    if q == [] then
      if left > 0 then Abort(BalanceError) else Ok([])
    else if requireExpired && q[0].exp > now then Abort(NotExpired)
    else if q[0].amount > left then Ok([q[0].(amount := q[0].amount - left)] + q[1..])
    else if q[0].amount == left then Ok(q[1..])
    else TakeFront(q[1..], left - q[0].amount, now, requireExpired)
  }

  function DequeueShares(h: Holding, now: nat, toDequeue: int, requireExpired: bool): Outcome<Holding>
  {
    var q :- TakeFront(h.q4w, toDequeue, now, requireExpired);
    Ok(h.(q4w := q))
  }

  // ----- the loaded balance, updated in place -----

  class UserBalance {
    var shares: int
    var q4w: seq<Q4W>

    function Value(): Holding
      reads this
    {
      Holding(shares, q4w)
    }

    constructor (h: Holding)
      ensures Value() == h
    {
      shares := h.shares;
      q4w := h.q4w;
    }

    method AddSharesTo(toAdd: int)
      modifies this
      ensures Value() == AddShares(old(Value()), toAdd)
    {
      shares := shares + toAdd;
    }

    method QueueSharesForWithdrawal(now: nat, toQ: int) returns (r: Outcome<()>)
      modifies this
      ensures var spec := QueueShares(old(Value()), now, toQ);
        if spec.Ok? then r.Ok? && Value() == spec.value else r == Abort(spec.error) && Value() == old(Value())
    {
      if shares < toQ {
        return Abort(BalanceError);
      }
      if |q4w| >= MAX_Q4W_SIZE {
        return Abort(TooManyQ4WEntries);
      }
      shares := shares - toQ;
      q4w := q4w + [Q4W(toQ, now + Q4W_LOCK_TIME)];
      return Ok(());
    }

    /** An abort, which discards the record, comes after the entries before some k have been taken off. */
    method DequeueSharesForWithdrawal(now: nat, toDequeue: int, requireExpired: bool) returns (r: Outcome<()>)
      modifies this
      ensures var spec := DequeueShares(old(Value()), now, toDequeue, requireExpired);
        if spec.Ok? then r.Ok? && Value() == spec.value
        else r == Abort(spec.error) && shares == old(shares) && exists k :: 0 <= k <= |old(q4w)| && q4w == old(q4w)[k..]
    {
      var leftToDequeue := toDequeue;
      var index, entries := 0, |q4w|;
      ghost var spec := TakeFront(q4w, toDequeue, now, requireExpired);
      ghost var done := false;
      while index < entries
        invariant 0 <= index <= entries && |q4w| == entries - index
        invariant shares == old(shares) && q4w == old(q4w)[index..]
        invariant TakeFront(q4w, leftToDequeue, now, requireExpired) == spec
      {
        var cur := q4w[0];
        q4w := q4w[1..];
        if !requireExpired || cur.exp <= now {
          if cur.amount > leftToDequeue {
            q4w := [cur.(amount := cur.amount - leftToDequeue)] + q4w;
            leftToDequeue := 0;
            done := true;
            break;
          } else if cur.amount == leftToDequeue {
            leftToDequeue := 0;
            done := true;
            break;
          } else {
            leftToDequeue := leftToDequeue - cur.amount;
          }
        } else {
          return Abort(NotExpired);
        }
        index := index + 1;
      }
      assert done ==> spec == Ok(q4w);
      assert !done ==> q4w == [];
      if leftToDequeue > 0 {
        return Abort(BalanceError);
      }
      return Ok(());
    }
  }

  // ----- facts about queues -----

  lemma {:induction false} QueuedAppend(q: seq<Q4W>, e: Q4W)
    ensures Queued(q + [e]) == Queued(q) + e.amount
  {
    if q == [] {
      assert [e][1..] == [];
    } else {
      assert (q + [e])[1..] == q[1..] + [e];
      QueuedAppend(q[1..], e);
    }
  }

  lemma {:induction false} MaturedAppend(q: seq<Q4W>, e: Q4W, t: int)
    ensures Matured(q + [e], t) == Matured(q, t) + if e.exp <= t then e.amount else 0
  {
    if q == [] {
      assert [e][1..] == [];
    } else {
      assert (q + [e])[1..] == q[1..] + [e];
      MaturedAppend(q[1..], e, t);
    }
  }

  lemma {:induction false} MaturedBounds(q: seq<Q4W>, t: int)
    requires NonNegative(q)
    ensures 0 <= Matured(q, t) <= Queued(q)
  {
    if q != [] {
      MaturedBounds(q[1..], t);
    }
  }

  lemma {:induction false} NothingMatured(q: seq<Q4W>, t: int)
    requires forall i :: 0 <= i < |q| ==> q[i].exp > t
    ensures Matured(q, t) == 0
  {
    if q != [] {
      NothingMatured(q[1..], t);
    }
  }

  /** Dequeuing succeeds exactly when enough (matured, if required) shares are queued; asking for
      nothing fails only when matured shares are required and the oldest entry is still locked. */
  lemma {:induction false} TakeFrontSucceeds(q: seq<Q4W>, n: int, now: nat, requireExpired: bool)
    requires Sorted(q) && NonNegative(q) && n >= 0
    ensures TakeFront(q, n, now, requireExpired).Ok?
       <==> && n <= (if requireExpired then Matured(q, now) else Queued(q))
            && (n > 0 || !requireExpired || q == [] || q[0].exp <= now)
  {
    if q != [] {
      MaturedBounds(q[1..], now);
      if requireExpired && q[0].exp > now {
        NothingMatured(q, now);
      } else if q[0].amount < n {
        TakeFrontSucceeds(q[1..], n - q[0].amount, now, requireExpired);
      }
    }
  }

  /** A successful dequeue drops k entries from the front and keeps the other lock ends. */
  lemma {:induction false} TakeFrontKeepsOrder(q: seq<Q4W>, n: int, now: nat, requireExpired: bool) returns (k: nat)
    requires NonNegative(q) && n >= 0
    requires TakeFront(q, n, now, requireExpired).Ok?
    ensures var r := TakeFront(q, n, now, requireExpired).value;
      && k + |r| == |q|
      && (forall i :: 0 <= i < |r| ==> r[i].exp == q[k + i].exp)
      && NonNegative(r)
  {
    k := 0;
    if q != [] && q[0].amount <= n {
      k := 1;
      if q[0].amount < n {
        var rest := TakeFrontKeepsOrder(q[1..], n - q[0].amount, now, requireExpired);
        k := 1 + rest;
      }
    }
  }

  lemma {:induction false} TakeFrontConserves(q: seq<Q4W>, n: int, now: nat, requireExpired: bool)
    requires n >= 0 && TakeFront(q, n, now, requireExpired).Ok?
    ensures Queued(TakeFront(q, n, now, requireExpired).value) == Queued(q) - n
  {
    if q != [] {
      if q[0].amount > n {
        assert ([q[0].(amount := q[0].amount - n)] + q[1..])[1..] == q[1..];
      } else if q[0].amount < n {
        TakeFrontConserves(q[1..], n - q[0].amount, now, requireExpired);
      }
    }
  }

  /** A successful dequeue of n removes exactly the n oldest shares: at every time t the matured
      part shrinks by n, down to nothing. */
  lemma {:induction false} TakeFrontRemovesOldest(q: seq<Q4W>, n: int, now: nat, requireExpired: bool, t: int)
    requires Sorted(q) && NonNegative(q) && n >= 0
    requires TakeFront(q, n, now, requireExpired).Ok?
    ensures Matured(TakeFront(q, n, now, requireExpired).value, t) == Max(0, Matured(q, t) - n)
  {
    if q != [] {
      LateEntriesOnly(q, t);
      MaturedBounds(q[1..], t);
      if q[0].amount > n {
        assert ([q[0].(amount := q[0].amount - n)] + q[1..])[1..] == q[1..];
      } else if q[0].amount < n {
        TakeFrontRemovesOldest(q[1..], n - q[0].amount, now, requireExpired, t);
      }
    }
  }

  /** In a sorted queue whose first entry is still locked, nothing has matured. */
  lemma LateEntriesOnly(q: seq<Q4W>, t: int)
    requires Sorted(q) && q != []
    ensures q[0].exp > t ==> Matured(q, t) == 0 && Matured(q[1..], t) == 0
  {
    if q[0].exp > t {
      NothingMatured(q, t);
      NothingMatured(q[1..], t);
    }
  }

  // ----- every transition keeps a stored balance well formed -----

  lemma QueueKeepsHolding(h: Holding, now: nat, toQ: int)
    requires HoldingOk(h, now) && toQ >= 0 && QueueShares(h, now, toQ).Ok?
    ensures var h' := QueueShares(h, now, toQ).value;
      && HoldingOk(h', now)
      && h'.shares == h.shares - toQ
      && Queued(h'.q4w) == Queued(h.q4w) + toQ
      && forall t :: Matured(h'.q4w, t) == Matured(h.q4w, t) + if now + Q4W_LOCK_TIME <= t then toQ else 0
  {
    var e := Q4W(toQ, now + Q4W_LOCK_TIME);
    QueuedAppend(h.q4w, e);
    forall t
      ensures Matured(h.q4w + [e], t) == Matured(h.q4w, t) + if now + Q4W_LOCK_TIME <= t then toQ else 0
    {
      MaturedAppend(h.q4w, e, t);
    }
  }

  lemma DequeueKeepsHolding(h: Holding, now: nat, n: int, requireExpired: bool)
    requires HoldingOk(h, now) && n >= 0 && DequeueShares(h, now, n, requireExpired).Ok?
    ensures var h' := DequeueShares(h, now, n, requireExpired).value;
      && HoldingOk(h', now)
      && h'.shares == h.shares
      && Queued(h'.q4w) == Queued(h.q4w) - n
      && forall t :: Matured(h'.q4w, t) == Max(0, Matured(h.q4w, t) - n)
  {
    var k := TakeFrontKeepsOrder(h.q4w, n, now, requireExpired);
    TakeFrontConserves(h.q4w, n, now, requireExpired);
    forall t
      ensures Matured(TakeFront(h.q4w, n, now, requireExpired).value, t) == Max(0, Matured(h.q4w, t) - n)
    {
      TakeFrontRemovesOldest(h.q4w, n, now, requireExpired, t);
    }
  }
}
