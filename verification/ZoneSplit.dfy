/** Pro-rata splitting with floors, as gulp_emissions and a claim's re-deposit do it: n parts never
    exceed the whole, and lose less than one unit each. */
module ZoneSplit {
  import opened FixedPoint

  ghost predicate NonNegative(ts: seq<int>)
  {
    forall i :: 0 <= i < |ts| ==> ts[i] >= 0
  }

  ghost function Sum(ts: seq<int>, k: nat): int
    requires k <= |ts|
    decreases k
  {
    if k == 0 then 0 else Sum(ts, k - 1) + ts[k - 1]
  }

  /** The sum over the first k of floor(scale * t / total). */
  ghost function Parts(ts: seq<int>, k: nat, total: int, scale: int): int
    requires k <= |ts| && total > 0
    decreases k
  {
    if k == 0 then 0 else Parts(ts, k - 1, total, scale) + Floor(ts[k - 1] * scale, total)
  }

  lemma {:induction false} PartsBounds(ts: seq<int>, k: nat, total: int, scale: int)
    requires k <= |ts| && total > 0 && scale >= 0 && NonNegative(ts)
    ensures Sum(ts, k) >= 0 && Parts(ts, k, total, scale) >= 0
    ensures Sum(ts, k) * scale - k * total <= Parts(ts, k, total, scale) * total <= Sum(ts, k) * scale
    ensures k > 0 ==> Sum(ts, k) * scale - k * total < Parts(ts, k, total, scale) * total
    decreases k
  {
    if k > 0 {
      PartsBounds(ts, k - 1, total, scale);
      var part := Floor(ts[k - 1] * scale, total);
      MulMono(0, ts[k - 1], scale);
      FloorNonNeg(ts[k - 1] * scale, total);
      FloorBounds(ts[k - 1] * scale, total);
      hide Floor;
      MulDistributes(scale, Sum(ts, k - 1), ts[k - 1]);
      MulDistributes(total, Parts(ts, k - 1, total, scale), part);
      MulDistributes(total, k - 1, 1);
    }
  }

  /** Splitting `whole` in proportion to parts that add up to at most `total`. */
  lemma SplitOfWhole(ts: seq<int>, total: int, whole: int)
    requires total > 0 && whole >= 0 && NonNegative(ts) && Sum(ts, |ts|) <= total
    ensures 0 <= Parts(ts, |ts|, total, whole) <= whole
    ensures Sum(ts, |ts|) == total && ts != [] ==> whole - |ts| < Parts(ts, |ts|, total, whole)
  {
    PartsBounds(ts, |ts|, total, whole);
    var sum, parts := Sum(ts, |ts|), Parts(ts, |ts|, total, whole);
    MulMono(sum, total, whole);
    MultiplesOrdered(parts, whole, total);
    if sum == total && ts != [] {
      MulDistributes(total, parts, |ts|);
      StrictMultiples(whole, parts + |ts|, total);
    }
  }

  lemma StrictMultiples(p: int, q: int, d: int)
    requires d > 0 && p * d < q * d
    ensures p < q
  {
    if q <= p { MulMono(q, p, d); }
  }

  /** Splitting in two steps, first into rounded shares of `one` and then each share of `whole`: never
      more than the whole, and short by at most n parts in `one` of it plus n units. */
  lemma SplitByShares(shares: seq<int>, n: nat, one: int, whole: int)
    requires one > 0 && whole >= 0 && NonNegative(shares) && n == |shares|
    requires one - n <= Sum(shares, n) <= one
    ensures var parts := Parts(shares, n, one, whole);
      && 0 <= parts <= whole
      && one * (whole - parts) <= n * whole + n * one
  {
    PartsBounds(shares, n, one, whole);
    SplitOfWhole(shares, one, whole);
    var sum, parts := Sum(shares, n), Parts(shares, n, one, whole);
    MulMono(one - n, sum, whole);
    MulDistributes(whole, one - n, n);
    MulDistributes(one, whole - parts, parts);
  }

  /** The rounded shares themselves: floor(t * one / total) for each t. */
  ghost function SharesOf(ts: seq<int>, total: int, one: int): (shares: seq<int>)
    requires total > 0
    ensures |shares| == |ts|
  {
    seq(|ts|, i requires 0 <= i < |ts| => Floor(ts[i] * one, total))
  }

  lemma {:induction false} SharesAreParts(ts: seq<int>, k: nat, total: int, one: int)
    requires k <= |ts| && total > 0 && one >= 0 && NonNegative(ts)
    ensures NonNegative(SharesOf(ts, total, one))
    ensures Sum(SharesOf(ts, total, one), k) == Parts(ts, k, total, one)
    decreases k
  {
    forall i | 0 <= i < |ts|
      ensures SharesOf(ts, total, one)[i] >= 0
    {
      MulMono(0, ts[i], one);
      FloorNonNeg(ts[i] * one, total);
    }
    if k > 0 { SharesAreParts(ts, k - 1, total, one); }
  }

  /** Shares of everything add up to one, less than a unit missing per part. */
  lemma SharesAddUp(ts: seq<int>, one: int)
    requires one >= 0 && NonNegative(ts) && Sum(ts, |ts|) > 0
    ensures var shares := SharesOf(ts, Sum(ts, |ts|), one);
      NonNegative(shares) && one - |ts| <= Sum(shares, |ts|) <= one
  {
    var total := Sum(ts, |ts|);
    SharesAreParts(ts, |ts|, total, one);
    SplitOfWhole(ts, total, one);
  }
}
