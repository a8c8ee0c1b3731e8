/** The BLND emitter: one token a second to the current backstop, a delayed swap of the backstop, and one
    bounded drop for each (emitter/src/emitter.rs, emitter/src/backstop_manager.rs, emitter/src/contract.rs). */
module Emitters {
  import opened Outcomes
  import opened FixedPoint
  import opened Totals

  const SWAP_DELAY: nat := 31 * 24 * 60 * 60
  const DROP_LIMIT: int := 50_000_000 * SCALAR_7

  datatype Swap = Swap(newBackstop: Address, newBackstopToken: Address, unlockTime: nat)

  datatype State = State(
    now: nat,
    backstop: Address,
    backstopToken: Address,
    lastDistro: map<Address, nat>,
    queued: Option<Swap>,
    dropped: set<Address>,
    // counted, not stored
    distributed: int,                // BLND minted by distributions
    drops: map<Address, int>)        // BLND minted by the drop of each backstop

  // ----- transitions -----

  /** Mint one token for every second since the last distribution to a backstop (execute_distribute). */
  function Distribute(s: State, backstop: Address): Outcome<State>
  {
    if backstop !in s.lastDistro || s.lastDistro[backstop] > s.now then Abort(ArithmeticError)
    else Ok(s.(lastDistro := s.lastDistro[backstop := s.now],
               distributed := s.distributed + (s.now - s.lastDistro[backstop]) * SCALAR_7))
  }

  /** What token contracts answer: by token and holder, a missing entry counting 0. */
  type Balances = map<Address, map<Address, int>>

  function Held(balances: Balances, token: Address, holder: Address): int
  {
    if token in balances then Amount(balances[token], holder) else 0
  }

  /** Whether a new backstop holds more of the current backstop token than the current one. */
  predicate IsLarger(s: State, newBackstop: Address, balances: Balances)
  {
    Held(balances, s.backstopToken, newBackstop) > Held(balances, s.backstopToken, s.backstop)
  }

  function QueueSwap(s: State, newBackstop: Address, newToken: Address, balances: Balances): Outcome<State>
  {
    if s.queued.Some? then Abort(SwapAlreadyExists)
    else if !IsLarger(s, newBackstop, balances) then Abort(InsufficientBackstopSize)
    else Ok(s.(queued := Some(Swap(newBackstop, newToken, s.now + SWAP_DELAY))))
  }

  function CancelSwap(s: State, balances: Balances): Outcome<State>
  {
    if s.queued.None? then Abort(SwapNotQueued)
    else if IsLarger(s, s.queued.value.newBackstop, balances) then Abort(SwapCannotBeCanceled)
    else Ok(s.(queued := None))
  }

  function ExecuteSwap(s: State, balances: Balances): Outcome<State>
  {
    if s.queued.None? then Abort(SwapNotQueued)
    else if s.queued.value.unlockTime > s.now then Abort(SwapNotUnlocked)
    else if !IsLarger(s, s.queued.value.newBackstop, balances) then Abort(InsufficientBackstopSize)
    else
      var swap := s.queued.value;
      var d :- Distribute(s, s.backstop);
      Ok(d.(queued := None, backstop := swap.newBackstop, backstopToken := swap.newBackstopToken,
            lastDistro := d.lastDistro[swap.newBackstop := s.now]))
  }

  /** The sum of the first k entries of a drop list. */
  function DropSum(list: seq<(Address, int)>, k: nat): int
    requires k <= |list|
    decreases k
  {
    if k == 0 then 0 else DropSum(list, k - 1) + list[k - 1].1
  }

  /** Called by the backstop itself; a negative entry cannot be minted. */
  function Drop(s: State, caller: Address, list: seq<(Address, int)>): Outcome<State>
  {
    if caller != s.backstop then Abort(BadRequest)
    else if s.backstop in s.dropped || DropSum(list, |list|) > DROP_LIMIT then Abort(BadDrop)
    else if exists i :: 0 <= i < |list| && list[i].1 < 0 then Abort(NegativeAmount)
    else Ok(s.(dropped := s.dropped + {s.backstop}, drops := s.drops[s.backstop := Amount(s.drops, s.backstop) + DropSum(list, |list|)]))
  }

  // ----- the contract's storage, updated in place -----

  class Emitter {
    var now: nat
    var backstop: Address
    var backstopToken: Address
    var lastDistro: map<Address, nat>
    var queued: Option<Swap>
    var dropped: set<Address>
    // BLND minted, by distributions and by drops
    var distributed: int
    var drops: map<Address, int>

    function Value(): State
      reads this
    {
      State(now, backstop, backstopToken, lastDistro, queued, dropped, distributed, drops)
    }

    constructor (now: nat, backstop: Address, backstopToken: Address)
      ensures IsGenesis(Value()) && this.now == now && this.backstop == backstop && this.backstopToken == backstopToken
    {
      this.now, this.backstop, this.backstopToken := now, backstop, backstopToken;
      lastDistro, queued, dropped, distributed, drops := map[backstop := now], None, {}, 0, map[];
    }

    method ExecuteDistribute(to: Address) returns (r: Outcome<int>)
      modifies this
      ensures var spec := Distribute(old(Value()), to);
        match r
        case Ok(amount) => spec == Ok(Value()) && amount == distributed - old(distributed)
        case Abort(e) => spec == Abort(e) && Value() == old(Value())
    {
      if to !in lastDistro || lastDistro[to] > now {
        return Abort(ArithmeticError);
      }
      var secondsSinceLastDistro := now - lastDistro[to];
      var distributionAmount := secondsSinceLastDistro * SCALAR_7;
      lastDistro := lastDistro[to := now];
      distributed := distributed + distributionAmount;
      return Ok(distributionAmount);
    }

    predicate IsNewBackstopLarger(newBackstop: Address, balances: Balances)
      reads this
      ensures IsNewBackstopLarger(newBackstop, balances) <==> IsLarger(Value(), newBackstop, balances)
    {
      var backstopBalance := Held(balances, backstopToken, backstop);
      var newBackstopBalance := Held(balances, backstopToken, newBackstop);
      newBackstopBalance > backstopBalance
    }

    method ExecuteQueueSwapBackstop(newBackstop: Address, newToken: Address, balances: Balances) returns (r: Outcome<Swap>)
      modifies this`queued
      ensures var spec := QueueSwap(old(Value()), newBackstop, newToken, balances);
        match r
        case Ok(swap) => spec == Ok(Value()) && queued == Some(swap)
        case Abort(e) => spec == Abort(e) && Value() == old(Value())
    {
      if queued.Some? {
        return Abort(SwapAlreadyExists);
      }
      if !IsNewBackstopLarger(newBackstop, balances) {
        return Abort(InsufficientBackstopSize);
      }
      var swap := Swap(newBackstop, newToken, now + SWAP_DELAY);
      queued := Some(swap);
      return Ok(swap);
    }

    method ExecuteCancelSwapBackstop(balances: Balances) returns (r: Outcome<Swap>)
      modifies this`queued
      ensures var spec := CancelSwap(old(Value()), balances);
        match r
        case Ok(swap) => spec == Ok(Value()) && old(queued) == Some(swap)
        case Abort(e) => spec == Abort(e) && Value() == old(Value())
    {
      if queued.None? {
        return Abort(SwapNotQueued);
      }
      var swap := queued.value;
      if IsNewBackstopLarger(swap.newBackstop, balances) {
        return Abort(SwapCannotBeCanceled);
      }
      queued := None;
      return Ok(swap);
    }

    method ExecuteSwapBackstop(balances: Balances) returns (r: Outcome<Swap>)
      modifies this
      ensures var spec := ExecuteSwap(old(Value()), balances);
        match r
        case Ok(swap) => spec == Ok(Value()) && old(queued) == Some(swap)
        case Abort(e) => spec == Abort(e) && Value() == old(Value())
    {
      if queued.None? {
        return Abort(SwapNotQueued);
      }
      var swap := queued.value;
      if swap.unlockTime > now {
        return Abort(SwapNotUnlocked);
      }
      if !IsNewBackstopLarger(swap.newBackstop, balances) {
        return Abort(InsufficientBackstopSize);
      }
      var distribution := ExecuteDistribute(backstop);
      if distribution.Abort? {
        return Abort(distribution.error);
      }
      queued := None;
      backstop := swap.newBackstop;
      backstopToken := swap.newBackstopToken;
      lastDistro := lastDistro[swap.newBackstop := now];
      return Ok(swap);
    }

    method ExecuteDrop(caller: Address, list: seq<(Address, int)>) returns (r: Outcome<()>)
      modifies this
      ensures var spec := Drop(old(Value()), caller, list);
        match r
        case Ok(_) => spec == Ok(Value())
        case Abort(e) => spec == Abort(e) && Value() == old(Value())
    {
      if caller != backstop {
        return Abort(BadRequest);
      }
      if backstop in dropped {
        return Abort(BadDrop);
      }
      var dropAmount := 0;
      for k := 0 to |list|
        invariant dropAmount == DropSum(list, k)
      {
        dropAmount := dropAmount + list[k].1;
      }
      if dropAmount > DROP_LIMIT {
        return Abort(BadDrop);
      }
      var before := drops;
      for k := 0 to |list|
        invariant forall i :: 0 <= i < k ==> list[i].1 >= 0
        invariant drops == if k == 0 then before else before[backstop := Amount(before, backstop) + DropSum(list, k)]
        invariant Value() == old(Value()).(drops := drops)
      {
        if list[k].1 < 0 {
          drops := before;
          return Abort(NegativeAmount);
        }
        drops := drops[backstop := Amount(drops, backstop) + list[k].1];
      }
      if |list| == 0 {
        drops := drops[backstop := Amount(drops, backstop)];
      }
      dropped := dropped + {backstop};
      return Ok(());
    }
  }

  // ----- runs -----

  datatype Action =
    | Wait(seconds: nat)
    | Distributed
    | SwapQueued(newBackstop: Address, newToken: Address, balances: Balances)
    | SwapCancelled(balances: Balances)
    | SwapExecuted(balances: Balances)
    | Dropped(caller: Address, list: seq<(Address, int)>)

  function Attempt(s: State, a: Action): Outcome<State>
  {
    match a
    case Wait(seconds) => Ok(s.(now := s.now + seconds))
    case Distributed => Distribute(s, s.backstop)
    case SwapQueued(newBackstop, newToken, balances) => QueueSwap(s, newBackstop, newToken, balances)
    case SwapCancelled(balances) => CancelSwap(s, balances)
    case SwapExecuted(balances) => ExecuteSwap(s, balances)
    case Dropped(caller, list) => Drop(s, caller, list)
  }

  function Step(s: State, a: Action): State
  {
    if Attempt(s, a).Ok? then Attempt(s, a).value else s
  }

  function Run(s: State, actions: seq<Action>): State
    decreases |actions|
  {
    if actions == [] then s else Step(Run(s, actions[..|actions| - 1]), actions[|actions| - 1])
  }

  /** Just initialised. */
  predicate IsGenesis(s: State)
  {
    s.lastDistro == map[s.backstop := s.now] && s.queued == None && s.dropped == {} && s.distributed == 0 && s.drops == map[]
  }

  /** Between any two states every second since the start has been paid out up to the current backstop's
      last distribution; each backstop has dropped at most the limit, and nothing unless marked. */
  ghost predicate EmitterOk(s: State, start: nat)
  {
    && s.backstop in s.lastDistro && start <= s.lastDistro[s.backstop] <= s.now
    && s.distributed == (s.lastDistro[s.backstop] - start) * SCALAR_7
    && (s.queued.Some? ==> s.queued.value.unlockTime <= s.now + SWAP_DELAY)
    && (forall b :: b in s.drops ==> b in s.dropped && 0 <= s.drops[b] <= DROP_LIMIT)
  }

  lemma {:induction false} DropSumNonNeg(list: seq<(Address, int)>, k: nat)
    requires k <= |list| && forall i :: 0 <= i < |list| ==> list[i].1 >= 0
    ensures DropSum(list, k) >= 0
    decreases k
  {
    if k > 0 { DropSumNonNeg(list, k - 1); }
  }

  lemma StepKeeps(s: State, a: Action, start: nat)
    requires EmitterOk(s, start)
    ensures EmitterOk(Step(s, a), start)
  {
    if a.Dropped? && Attempt(s, a).Ok? {
      DropSumNonNeg(a.list, |a.list|);
    }
  }

  lemma {:induction false} RunKeeps(s: State, actions: seq<Action>, start: nat)
    requires EmitterOk(s, start)
    ensures EmitterOk(Run(s, actions), start)
    decreases |actions|
  {
    hide Step;
    hide EmitterOk;
    if actions != [] {
      RunKeeps(s, actions[..|actions| - 1], start);
      StepKeeps(Run(s, actions[..|actions| - 1]), actions[|actions| - 1], start);
    }
  }

  /** Over any run, with any swaps, what distributions minted is exactly one token for every second from the
      start to the current backstop's last distribution, and no backstop ever dropped more than the limit. */
  lemma EmissionsAreExact(s: State, actions: seq<Action>, b: Address)
    requires IsGenesis(s)
    ensures var t := Run(s, actions);
      && t.backstop in t.lastDistro && t.lastDistro[t.backstop] <= t.now
      && t.distributed == SCALAR_7 * (t.lastDistro[t.backstop] - s.now)
      && 0 <= Amount(t.drops, b) <= DROP_LIMIT
  {
    RunKeeps(s, actions, s.now);
    hide Run;
  }

  /** A backstop that has dropped cannot drop again, whatever happens in between. */
  lemma {:induction false} DropsOnce(s: State, actions: seq<Action>, b: Address)
    requires b in s.dropped
    ensures b in Run(s, actions).dropped && Amount(Run(s, actions).drops, b) == Amount(s.drops, b)
    decreases |actions|
  {
    if actions != [] {
      DropsOnce(s, actions[..|actions| - 1], b);
    }
  }

  /** The queued swap of a run was queued by step j, a full delay before it unlocks, for a backstop larger
      than the current one; since then it has stood and the current backstop has not changed. */
  ghost predicate QueuedBy(s: State, actions: seq<Action>, j: nat)
    requires j < |actions|
  {
    && actions[j].SwapQueued?
    && Run(s, actions).queued.Some?
    && Run(s, actions[..j]).queued.None?
    && Run(s, actions).queued.value
         == Swap(actions[j].newBackstop, actions[j].newToken, Run(s, actions[..j]).now + SWAP_DELAY)
    && IsLarger(Run(s, actions[..j]), actions[j].newBackstop, actions[j].balances)
    && (forall i :: j < i <= |actions| ==> Run(s, actions[..i]).queued == Run(s, actions).queued)
    && (forall i :: j <= i <= |actions| ==> SameBackstop(Run(s, actions[..i]), Run(s, actions)))
  }

  predicate SameBackstop(s: State, t: State)
  {
    s.backstop == t.backstop && s.backstopToken == t.backstopToken
  }

  /** A swap is queued by one step only, and stands with the current backstop until it is gone. */
  lemma QueuedStep(s: State, a: Action)
    requires Step(s, a).queued.Some?
    ensures SameBackstop(s, Step(s, a))
    ensures s.queued.Some? ==> Step(s, a).queued == s.queued
    ensures s.queued.None? ==> a.SwapQueued? && IsLarger(s, a.newBackstop, a.balances)
    ensures s.queued.None? ==> Step(s, a).queued.value == Swap(a.newBackstop, a.newToken, s.now + SWAP_DELAY)
  {
    hide IsLarger;
  }

  lemma {:induction false} QueuedSwapHasOrigin(s: State, actions: seq<Action>) returns (j: nat)
    requires s.queued.None? && Run(s, actions).queued.Some?
    ensures j < |actions| && QueuedBy(s, actions, j)
    decreases |actions|
  {
    hide Step;
    hide IsLarger;
    var n := |actions| - 1;
    var before, a := actions[..n], actions[n];
    assert actions[..|actions|] == actions;
    QueuedStep(Run(s, before), a);
    if Run(s, before).queued.None? {
      j := n;
    } else {
      j := QueuedSwapHasOrigin(s, before);
      assert before[..j] == actions[..j];
      forall i | j < i <= |actions|
        ensures Run(s, actions[..i]).queued == Run(s, actions).queued
      {
        if i <= n {
          assert before[..i] == actions[..i];
        }
      }
      forall i | j <= i <= |actions|
        ensures SameBackstop(Run(s, actions[..i]), Run(s, actions))
      {
        if i <= n {
          assert before[..i] == actions[..i];
        }
      }
    }
  }

  /** A swap that goes through replaces the backstop by the one queued at least 31 days earlier. The queued
      swap and the current backstop have not changed in any state between, and the new backstop held more of
      the current backstop's token both times. */
  lemma {:induction false} SwapsWait(s: State, actions: seq<Action>, balances: Balances)
    requires s.queued.None? && ExecuteSwap(Run(s, actions), balances).Ok?
    ensures exists j: nat ::
      && j < |actions| && QueuedBy(s, actions, j)
      && Run(s, actions[..j]).now + SWAP_DELAY <= Run(s, actions).now
      && ExecuteSwap(Run(s, actions), balances).value.backstop == actions[j].newBackstop
      && ExecuteSwap(Run(s, actions), balances).value.backstopToken == actions[j].newToken
      && IsLarger(Run(s, actions), actions[j].newBackstop, balances)
  {
    var j := QueuedSwapHasOrigin(s, actions);
    assert QueuedBy(s, actions, j);
  }

  /** In every reachable state a swap can be queued when none is and the new backstop holds more; a queued one can be
      cancelled at any time once its backstop no longer holds more, and carried out after the delay while it does: then
      always exactly one of the two. */
  lemma {:induction false} SwapResolves(s: State, actions: seq<Action>, newBackstop: Address, newToken: Address, balances: Balances)
    requires IsGenesis(s)
    ensures var t := Run(s, actions);
      var (mine, theirs) := (Held(balances, t.backstopToken, t.backstop), Held(balances, t.backstopToken, newBackstop));
      && (QueueSwap(t, newBackstop, newToken, balances).Ok? <==> t.queued.None? && mine < theirs)
      && (t.queued.None? ==> CancelSwap(t, balances).Abort? && ExecuteSwap(t, balances).Abort?)
      && (t.queued.Some? && t.queued.value.newBackstop == newBackstop ==>
            && (CancelSwap(t, balances).Ok? <==> theirs <= mine)
            && (ExecuteSwap(t, balances).Ok? <==> mine < theirs && t.queued.value.unlockTime <= t.now)
            && (t.queued.value.unlockTime <= t.now ==> (CancelSwap(t, balances).Ok? <==> ExecuteSwap(t, balances).Abort?)))
  {
    RunKeeps(s, actions, s.now);
    hide Run;
  }

  /** The sum of a drop list is that of its parts, and one entry's its amount. */
  lemma {:induction false} DropSumIs(list: seq<(Address, int)>, more: seq<(Address, int)>, to: Address, amount: int)
    ensures DropSum(list + more, |list| + |more|) == DropSum(list, |list|) + DropSum(more, |more|)
    ensures DropSum([(to, amount)], 1) == amount
    decreases |more|
  {
    if more == [] {
      assert list + more == list;
    } else {
      var n := |more| - 1;
      DropSumIs(list, more[..n], to, amount);
      DropSumOfPrefix(list + more, list + more[..n], |list| + n);
      DropSumOfPrefix(more, more[..n], n);
    }
  }

  lemma {:induction false} DropSumOfPrefix(list: seq<(Address, int)>, prefix: seq<(Address, int)>, k: nat)
    requires k <= |list| && prefix == list[..k]
    ensures DropSum(list, k) == DropSum(prefix, k)
    decreases k
  {
    if k > 0 {
      DropSumOfPrefix(list, list[..k - 1], k - 1);
      DropSumOfPrefix(prefix, list[..k - 1], k - 1);
    }
  }

  /** A drop goes through exactly for the current backstop, once, within the limit and without negative entries; it mints
      the sum of its list, and every other backstop's drop stays. */
  lemma DropIs(s: State, caller: Address, list: seq<(Address, int)>, b: Address)
    ensures Drop(s, caller, list).Ok? <==>
      && caller == s.backstop && caller !in s.dropped && DropSum(list, |list|) <= DROP_LIMIT
      && forall i :: 0 <= i < |list| ==> list[i].1 >= 0
    ensures Drop(s, caller, list).Ok? ==>
      var t := Drop(s, caller, list).value;
      && Amount(t.drops, b) == Amount(s.drops, b) + (if b == caller then DropSum(list, |list|) else 0)
      && (b in t.dropped <==> b == caller || b in s.dropped) && t == s.(dropped := t.dropped, drops := t.drops)
  {}
}
