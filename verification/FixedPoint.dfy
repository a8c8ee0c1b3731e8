/** Fixed-point arithmetic as the contracts use it: products divided by a scalar with an
    explicit rounding direction. Integers are unbounded; a zero divisor aborts the call. */
module FixedPoint {
  import opened Outcomes

  const SCALAR_7: int := 1_0000000
  const SCALAR_9: int := 1_000_000_000

  /** SCALAR_7 times x. */
  function Scaled(x: int): int { 1_0000000 * x }

  /** a / d rounded towards minus infinity. */
  function Floor(a: int, d: int): int
    requires d > 0
  {
    a / d
  }

  /** a / d rounded towards plus infinity. */
  function Ceil(a: int, d: int): int
    requires d > 0
  {
    -((-a) / d)
  }

  /** The floor is the greatest integer whose multiple of d is not above a. */
  lemma FloorBounds(a: int, d: int)
    requires d > 0
    ensures Floor(a, d) * d <= a < Floor(a, d) * d + d
  {}

  /** The ceiling is the least integer whose multiple of d is not below a. */
  lemma CeilBounds(a: int, d: int)
    requires d > 0
    ensures Ceil(a, d) * d - d < a <= Ceil(a, d) * d
  {}

  /** The part that n of d make of a whole, rounded up or down by less than one unit. */
  predicate PartUp(part: int, whole: int, n: int, d: int) { d * part - d < whole * n <= d * part }
  predicate PartDown(part: int, whole: int, n: int, d: int) { d * part <= whole * n < d * part + d }

  /** a / d rounded towards minus infinity, aborting on a zero divisor. */
  function DivFloor(a: int, d: int): (r: Outcome<int>)
    ensures r.Abort? <==> d == 0
  {
    if d == 0 then Abort(ArithmeticError)
    else if d > 0 then Ok(Floor(a, d))
    else Ok(Floor(-a, -d))
  }

  /** a / d rounded towards plus infinity, aborting on a zero divisor. */
  function DivCeil(a: int, d: int): (r: Outcome<int>)
    ensures r.Abort? <==> d == 0
  {
    if d == 0 then Abort(ArithmeticError)
    else if d > 0 then Ok(Ceil(a, d))
    else Ok(Ceil(-a, -d))
  }

  /** Rounding to seven decimals loses less than one unit. */
  lemma ScaledFloor(a: int)
    ensures Scaled(Floor(a, SCALAR_7)) <= a < Scaled(Floor(a, SCALAR_7)) + SCALAR_7
  {}

  /** Ten to the n, the unit of a token with n decimals. */
  function Pow10(n: nat): (r: int)
    ensures r > 0
  {
    if n == 0 then 1 else 10 * Pow10(n - 1)
  }

  function Min(a: int, b: int): int { if a <= b then a else b }

  function Max(a: int, b: int): int { if a >= b then a else b }

  lemma MulMono(a: int, b: int, c: int)
    requires a <= b && c >= 0
    ensures a * c <= b * c && c * a <= c * b
  {}

  lemma MulDistributes(d: int, x: int, y: int)
    ensures d * (x + y) == d * x + d * y && (x + y) * d == x * d + y * d
  {}

  /** Multiples of d that differ by less than d are in order. */
  lemma MultiplesOrdered(p: int, q: int, d: int)
    requires d > 0 && p * d < q * d + d
    ensures p <= q
  {
    if p > q { MulMono(q + 1, p, d); }
  }

  /** A multiple of d below a is a multiple below the floor. */
  lemma FloorGreatest(q: int, a: int, d: int)
    requires d > 0 && q * d <= a
    ensures q <= Floor(a, d)
  {
    FloorBounds(a, d);
    MultiplesOrdered(q, Floor(a, d), d);
  }

  /** A multiple of d above a is a multiple above the ceiling. */
  lemma CeilLeast(q: int, a: int, d: int)
    requires d > 0 && a <= q * d
    ensures Ceil(a, d) <= q
  {
    CeilBounds(a, d);
    MultiplesOrdered(Ceil(a, d), q, d);
  }

  lemma FloorMono(a: int, b: int, d: int)
    requires d > 0 && a <= b
    ensures Floor(a, d) <= Floor(b, d)
  {
    FloorBounds(a, d);
    FloorGreatest(Floor(a, d), b, d);
  }

  lemma CeilMono(a: int, b: int, d: int)
    requires d > 0 && a <= b
    ensures Ceil(a, d) <= Ceil(b, d)
  {
    CeilBounds(b, d);
    CeilLeast(Ceil(b, d), a, d);
  }

  lemma FloorNonNeg(a: int, d: int)
    requires d > 0 && a >= 0
    ensures Floor(a, d) >= 0
  {
    FloorGreatest(0, a, d);
  }

  lemma CeilNonNeg(a: int, d: int)
    requires d > 0 && a >= 0
    ensures Ceil(a, d) >= 0
  {
    CeilBounds(a, d);
    MultiplesOrdered(0, Ceil(a, d), d);
  }

  /** Rounding a sum down keeps at least the rounded parts and at most one unit more. */
  lemma FloorAdd(a: int, b: int, d: int)
    requires d > 0
    ensures Floor(a, d) + Floor(b, d) <= Floor(a + b, d) <= Floor(a, d) + Ceil(b, d)
  {
    FloorBounds(a, d);
    FloorBounds(b, d);
    CeilBounds(b, d);
    FloorBounds(a + b, d);
    hide Floor;
    hide Ceil;
    MulDistributes(d, Floor(a, d), Floor(b, d));
    FloorGreatest(Floor(a, d) + Floor(b, d), a + b, d);
    MulDistributes(d, Floor(a, d), Ceil(b, d));
    MultiplesOrdered(Floor(a + b, d), Floor(a, d) + Ceil(b, d), d);
  }

  /** Rounding a sum up keeps at most the rounded parts. */
  lemma CeilAdd(a: int, b: int, d: int)
    requires d > 0
    ensures Ceil(a, d) + Floor(b, d) <= Ceil(a + b, d) <= Ceil(a, d) + Ceil(b, d)
  {
    CeilBounds(a, d);
    FloorBounds(b, d);
    CeilBounds(b, d);
    CeilBounds(a + b, d);
    hide Floor;
    hide Ceil;
    MulDistributes(d, Ceil(a, d), Ceil(b, d));
    CeilLeast(Ceil(a, d) + Ceil(b, d), a + b, d);
    MulDistributes(d, Ceil(a, d), Floor(b, d));
    MultiplesOrdered(Ceil(a, d) + Floor(b, d), Ceil(a + b, d), d);
  }

  lemma FloorExact(q: int, d: int)
    requires d > 0
    ensures Floor(q * d, d) == q && Ceil(q * d, d) == q
  {
    FloorBounds(q * d, d);
    CeilBounds(q * d, d);
    hide Floor;
    hide Ceil;
    MultiplesOrdered(q, Floor(q * d, d), d);
    MultiplesOrdered(Floor(q * d, d), q, d);
    MultiplesOrdered(q, Ceil(q * d, d), d);
    MultiplesOrdered(Ceil(q * d, d), q, d);
  }
}
