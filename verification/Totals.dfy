/** Sums of integers over finite maps. */
module Totals {
  import opened FixedPoint

  type Address = nat

  /** The entry of a key, a missing one counting 0. */
  function Amount(m: map<Address, int>, a: Address): int
  {
    if a in m then m[a] else 0
  }

  /** The sum of all values of a map. */
  ghost function Total(m: map<Address, int>): int
    decreases |m|
  {
    if m == map[] then 0
    else
      var k :| k in m;
      assert |m - {k}| < |m| by { RemoveShrinks(m, k); }
      m[k] + Total(m - {k})
  }

  lemma RemoveShrinks(m: map<Address, int>, k: Address)
    requires k in m
    ensures |m - {k}| == |m| - 1
  {
    assert (m - {k}).Keys == m.Keys - {k};
    assert |m - {k}| == |(m - {k}).Keys|;
  }

  // ----- loops over a map, one entry at a time -----

  /** What a loop has done when some entries are left. */
  function Done(m: map<Address, int>, left: map<Address, int>): map<Address, int>
  {
    m - left.Keys
  }

  /** Taking one entry off what is left adds it to what is done. */
  lemma TakeOne(m: map<Address, int>, left: map<Address, int>, k: Address)
    requires left.Keys <= m.Keys && k in left
    ensures k !in Done(m, left) && Done(m, left - {k}) == Done(m, left)[k := m[k]]
    ensures k in m && (left - {k}).Keys <= m.Keys && |left - {k}| < |left|
  {
    assert (left - {k}).Keys == left.Keys - {k};
    RemoveShrinks(left, k);
  }

  lemma NothingDone(m: map<Address, int>)
    ensures Done(m, m) == map[] && Done(m, m).Keys == {}
  {}

  lemma NothingLeft(m: map<Address, int>, left: map<Address, int>)
    requires left == map[]
    ensures Done(m, left) == m
  {}

  lemma TotalOfNothing(m: map<Address, int>)
    requires m == map[]
    ensures Total(m) == 0
  {}

  lemma TotalOfOne(k: Address, v: int)
    ensures Total(map[k := v]) == v
  {
    var none: map<Address, int> := map[];
    TotalOfNothing(none);
    TotalUpdate(none, k, v);
    hide Total;
    assert none[k := v] == map[k := v];
  }

  /** Any one key can be split off first. */
  lemma {:induction false} TotalSplit(m: map<Address, int>, k: Address)
    requires k in m
    ensures Total(m) == m[k] + Total(m - {k})
    decreases |m|
  {
    var c :| c in m && Total(m) == m[c] + Total(m - {c});
    if c != k {
      RemoveShrinks(m, c);
      RemoveShrinks(m, k);
      TotalSplit(m - {c}, k);
      TotalSplit(m - {k}, c);
      assert m - {c} - {k} == m - {k} - {c};
    }
  }

  /** Writing one entry moves the total by the difference of that entry, a missing one counting 0. */
  lemma TotalUpdate(m: map<Address, int>, k: Address, v: int)
    ensures Total(m[k := v]) == Total(m) - Amount(m, k) + v
  {
    TotalSplit(m[k := v], k);
    if k in m {
      TotalSplit(m, k);
      assert m[k := v] - {k} == m - {k};
    } else {
      assert m[k := v] - {k} == m;
    }
  }

  /** If every value of b is that of a plus d times that of w, so are the totals. */
  lemma {:induction false} TotalLinear(a: map<Address, int>, b: map<Address, int>, w: map<Address, int>, d: int)
    requires a.Keys == b.Keys == w.Keys
    requires forall k :: k in a ==> b[k] == a[k] + d * w[k]
    ensures Total(b) == Total(a) + d * Total(w)
    decreases |a|
  {
    if a == map[] {
      assert b == map[] && w == map[];
    } else {
      var k :| k in a;
      RemoveShrinks(a, k);
      TotalLinear(a - {k}, b - {k}, w - {k}, d);
      MulDistributes(d, w[k], Total(w - {k}));
      hide Total;
      TotalSplit(a, k);
      TotalSplit(b, k);
      TotalSplit(w, k);
    }
  }

  /** A total of non-negative values bounds each of them. */
  lemma {:induction false} TotalNonNeg(m: map<Address, int>)
    requires forall k :: k in m ==> m[k] >= 0
    ensures Total(m) >= 0
    ensures forall k :: k in m ==> m[k] <= Total(m)
    decreases |m|
  {
    forall k | k in m
      ensures Total(m) >= m[k]
    {
      TotalSplit(m, k);
      RemoveShrinks(m, k);
      TotalNonNeg(m - {k});
    }
    if m != map[] {
      var k :| k in m;
      assert Total(m) >= m[k];
    }
  }
}
