/** The three-leg interest rate curve with its adaptive modifier (pool/src/pool/interest.rs) and the
    configurations the pool accepts (pool/src/pool/config.rs). */
module Interest {
  import opened Outcomes
  import opened FixedPoint

  const SECONDS_PER_YEAR: int := 31536000
  const UTIL_KINK: int := 0_9500000
  const UTIL_TAIL: int := 0_0500000
  const U32_LIMIT: int := 0x1_0000_0000

  datatype ReserveConfig = ReserveConfig(
    index: nat, decimals: nat, cFactor: nat, lFactor: nat, util: nat, maxUtil: nat,
    rBase: nat, rOne: nat, rTwo: nat, rThree: nat, reactivity: nat)

  /** require_valid_reserve_metadata */
  predicate ValidMetadata(c: ReserveConfig)
  {
    && c.decimals <= 18
    && c.cFactor <= SCALAR_7
    && c.lFactor <= SCALAR_7
    && c.util <= UTIL_KINK
    && c.util < c.maxUtil <= SCALAR_7
    && 0_0001000 <= c.rBase < 1_0000000
    && c.rOne <= c.rTwo <= c.rThree
    && c.reactivity <= 0_0001000
  }

  /** The borrow rate at a utilisation, before time is applied. */
  function BorrowRate(c: ReserveConfig, curUtil: int, irMod: int): Outcome<int>
  {
    if curUtil <= c.util then
      var utilScalar :- DivCeil(curUtil * SCALAR_7, c.util);
      Ok(Ceil((Ceil(utilScalar * c.rOne, SCALAR_7) + c.rBase) * irMod, SCALAR_9))
    else if curUtil <= UTIL_KINK then
      var utilScalar :- DivCeil((curUtil - c.util) * SCALAR_7, UTIL_KINK - c.util);
      Ok(Ceil((Ceil(utilScalar * c.rTwo, SCALAR_7) + c.rOne + c.rBase) * irMod, SCALAR_9))
    else if c.rTwo + c.rOne + c.rBase >= U32_LIMIT then
      Abort(ArithmeticError)   // the sum is taken in 32 bits
    else
      var utilScalar := Ceil((curUtil - UTIL_KINK) * SCALAR_7, UTIL_TAIL);
      Ok(Ceil(utilScalar * c.rThree, SCALAR_7) + Ceil(irMod * (c.rTwo + c.rOne + c.rBase), SCALAR_9))
  }

  const IR_MOD_MAX: int := 10 * SCALAR_9
  const IR_MOD_MIN: int := SCALAR_9 / 10

  /** The modifier after `deltaTimeScaled` at a utilisation off the target by `utilDifScaled`. */
  function NextIrMod(c: ReserveConfig, irMod: int, deltaTimeScaled: int, utilDifScaled: int): int
  {
    if utilDifScaled >= 0 then
      var utilError := Floor(deltaTimeScaled * utilDifScaled, SCALAR_9);
      var next := irMod + Floor(utilError * c.reactivity, SCALAR_7);
      if next > IR_MOD_MAX then IR_MOD_MAX else next
    else
      var utilError := Ceil(deltaTimeScaled * utilDifScaled, SCALAR_9);
      var next := irMod + Ceil(utilError * c.reactivity, SCALAR_7);
      if next < IR_MOD_MIN then IR_MOD_MIN else next
  }

  /** The growth of a loan at a rate over a time. */
  function AccrualRatio(rate: int, deltaTimeScaled: int): int
  {
    SCALAR_9 + Ceil(Floor(deltaTimeScaled, SECONDS_PER_YEAR) * (rate * 100), SCALAR_9)
  }

  /** The accrual ratio and the new modifier (calc_accrual). A clock behind `lastTime` counts as 500 seconds. */
  function CalcAccrual(c: ReserveConfig, curUtil: int, irMod: int, lastTime: nat, now: nat): Outcome<(int, int)>
  {
    var rate :- BorrowRate(c, curUtil, irMod);
    if lastTime > now && now < 500 then Abort(ArithmeticError)
    else
      var since := if lastTime > now then now - 500 else lastTime;
      var deltaTimeScaled := (now - since) * SCALAR_9;
      Ok((AccrualRatio(rate, deltaTimeScaled),
          NextIrMod(c, irMod, deltaTimeScaled, (curUtil - c.util) * 100)))
  }

  // ----- the curve -----

  /** No accepted configuration divides by zero; only the 32-bit sum on the last leg can abort. */
  lemma AccrualSucceeds(c: ReserveConfig, curUtil: int, irMod: int, lastTime: nat, now: nat)
    requires ValidMetadata(c) && curUtil > 0 && lastTime <= now
    ensures CalcAccrual(c, curUtil, irMod, lastTime, now).Ok?
      <==> curUtil <= UTIL_KINK || c.rTwo + c.rOne + c.rBase < U32_LIMIT
  {
    hide Floor;
    hide Ceil;
    hide AccrualRatio;
    hide NextIrMod;
  }

  /** A part of a leg: 0 at its start, all of `r` at its end, and between them in order. */
  lemma LegPart(x: int, y: int, width: int, r: int)
    requires 0 <= x <= y && width > 0 && r >= 0
    ensures var px := Ceil(Ceil(x * SCALAR_7, width) * r, SCALAR_7);
      var py := Ceil(Ceil(y * SCALAR_7, width) * r, SCALAR_7);
      0 <= px <= py && (y <= width ==> py <= r)
  {
    hide Floor;
    hide Ceil;
    CeilNonNeg(x * SCALAR_7, width);
    CeilMono(x * SCALAR_7, y * SCALAR_7, width);
    var sx, sy := Ceil(x * SCALAR_7, width), Ceil(y * SCALAR_7, width);
    if y <= width {
      MulMono(y, width, SCALAR_7);
      CeilLeast(SCALAR_7, y * SCALAR_7, width);
    }
    MulMono(sx, sy, r);
    MulMono(0, sx, r);
    CeilNonNeg(sx * r, SCALAR_7);
    CeilMono(sx * r, sy * r, SCALAR_7);
    if y <= width {
      MulMono(sy, SCALAR_7, r);
      CeilLeast(r, sy * r, SCALAR_7);
    }
  }

  /** Rates on each leg lie between the rates at its ends. */
  lemma {:induction false} RateOnLeg(c: ReserveConfig, curUtil: int, irMod: int)
    requires ValidMetadata(c) && curUtil > 0 && irMod >= 0 && BorrowRate(c, curUtil, irMod).Ok?
    ensures var rate := BorrowRate(c, curUtil, irMod).value;
      var atTarget := Ceil((c.rOne + c.rBase) * irMod, SCALAR_9);
      var atKink := Ceil((c.rTwo + c.rOne + c.rBase) * irMod, SCALAR_9);
      && (curUtil <= c.util ==> 0 <= rate <= atTarget)
      && (c.util < curUtil <= UTIL_KINK ==> atTarget <= rate <= atKink)
      && (UTIL_KINK < curUtil ==> atKink <= rate)
      && 0 <= atTarget <= atKink
  {
    hide Floor;
    hide Ceil;
    MulMono(0, c.rOne + c.rBase, irMod);
    CeilNonNeg((c.rOne + c.rBase) * irMod, SCALAR_9);
    MulMono(c.rOne + c.rBase, c.rTwo + c.rOne + c.rBase, irMod);
    CeilMono((c.rOne + c.rBase) * irMod, (c.rTwo + c.rOne + c.rBase) * irMod, SCALAR_9);
    if curUtil <= c.util {
      LegPart(curUtil, curUtil, c.util, c.rOne);
      var base := Ceil(Ceil(curUtil * SCALAR_7, c.util) * c.rOne, SCALAR_7) + c.rBase;
      MulMono(0, base, irMod);
      CeilNonNeg(base * irMod, SCALAR_9);
      MulMono(base, c.rOne + c.rBase, irMod);
      CeilMono(base * irMod, (c.rOne + c.rBase) * irMod, SCALAR_9);
    } else if curUtil <= UTIL_KINK {
      LegPart(curUtil - c.util, curUtil - c.util, UTIL_KINK - c.util, c.rTwo);
      var base := Ceil(Ceil((curUtil - c.util) * SCALAR_7, UTIL_KINK - c.util) * c.rTwo, SCALAR_7) + c.rOne + c.rBase;
      MulMono(c.rOne + c.rBase, base, irMod);
      CeilMono((c.rOne + c.rBase) * irMod, base * irMod, SCALAR_9);
      MulMono(base, c.rTwo + c.rOne + c.rBase, irMod);
      CeilMono(base * irMod, (c.rTwo + c.rOne + c.rBase) * irMod, SCALAR_9);
    } else {
      LegPart(curUtil - UTIL_KINK, curUtil - UTIL_KINK, UTIL_TAIL, c.rThree);
      assert irMod * (c.rTwo + c.rOne + c.rBase) == (c.rTwo + c.rOne + c.rBase) * irMod;
    }
  }

  /** The rate never falls as utilisation rises, within a leg and across both kinks, roundings included. */
  lemma {:induction false} RateMonotone(c: ReserveConfig, u: int, v: int, irMod: int)
    requires ValidMetadata(c) && 0 < u <= v && irMod >= 0
    requires BorrowRate(c, u, irMod).Ok? && BorrowRate(c, v, irMod).Ok?
    ensures BorrowRate(c, u, irMod).value <= BorrowRate(c, v, irMod).value
  {
    hide Floor;
    hide Ceil;
    RateOnLeg(c, u, irMod);
    RateOnLeg(c, v, irMod);
    if v <= c.util {
      LegPart(u, v, c.util, c.rOne);
      var x := Ceil(Ceil(u * SCALAR_7, c.util) * c.rOne, SCALAR_7) + c.rBase;
      var y := Ceil(Ceil(v * SCALAR_7, c.util) * c.rOne, SCALAR_7) + c.rBase;
      MulMono(x, y, irMod);
      CeilMono(x * irMod, y * irMod, SCALAR_9);
    } else if c.util < u && v <= UTIL_KINK {
      LegPart(u - c.util, v - c.util, UTIL_KINK - c.util, c.rTwo);
      var x := Ceil(Ceil((u - c.util) * SCALAR_7, UTIL_KINK - c.util) * c.rTwo, SCALAR_7) + c.rOne + c.rBase;
      var y := Ceil(Ceil((v - c.util) * SCALAR_7, UTIL_KINK - c.util) * c.rTwo, SCALAR_7) + c.rOne + c.rBase;
      MulMono(x, y, irMod);
      CeilMono(x * irMod, y * irMod, SCALAR_9);
    } else if UTIL_KINK < u {
      LegPart(u - UTIL_KINK, v - UTIL_KINK, UTIL_TAIL, c.rThree);
    }
  }

  /** A loan never shrinks, and grows at least as much for a higher rate or a longer time. */
  lemma RatioMonotone(rate: int, higher: int, delta: int, longer: int)
    requires 0 <= rate <= higher && 0 <= delta <= longer
    ensures SCALAR_9 <= AccrualRatio(rate, delta) <= AccrualRatio(higher, longer)
    ensures AccrualRatio(rate, 0) == SCALAR_9
  {
    hide Floor;
    hide Ceil;
    FloorNonNeg(delta, SECONDS_PER_YEAR);
    FloorMono(delta, longer, SECONDS_PER_YEAR);
    FloorExact(0, SECONDS_PER_YEAR);
    FloorExact(0, SCALAR_9);
    var x, y := Floor(delta, SECONDS_PER_YEAR), Floor(longer, SECONDS_PER_YEAR);
    MulMono(0, x, rate * 100);
    MulMono(x, y, rate * 100);
    MulMono(rate * 100, higher * 100, y);
    CeilNonNeg(x * (rate * 100), SCALAR_9);
    CeilMono(x * (rate * 100), y * (higher * 100), SCALAR_9);
  }

  /** For every accepted configuration the accrual ratio is at least one, and rises with utilisation
      and with elapsed time. */
  lemma {:induction false} AccrualMonotone(c: ReserveConfig, u: int, v: int, irMod: int, lastTime: nat, now: nat, later: nat)
    requires ValidMetadata(c) && 0 < u <= v && irMod >= 0 && lastTime <= now <= later
    requires CalcAccrual(c, u, irMod, lastTime, now).Ok? && CalcAccrual(c, v, irMod, lastTime, later).Ok?
    ensures SCALAR_9 <= CalcAccrual(c, u, irMod, lastTime, now).value.0
                     <= CalcAccrual(c, v, irMod, lastTime, later).value.0
  {
    hide Floor;
    hide Ceil;
    RateOnLeg(c, u, irMod);
    RateMonotone(c, u, v, irMod);
    hide BorrowRate;
    hide NextIrMod;
    hide AccrualRatio;
    MulMono(now - lastTime, later - lastTime, SCALAR_9);
    MulMono(0, now - lastTime, SCALAR_9);
    RatioMonotone(BorrowRate(c, u, irMod).value, BorrowRate(c, v, irMod).value,
      (now - lastTime) * SCALAR_9, (later - lastTime) * SCALAR_9);
  }

  /** The modifier moves towards the target side and stays within its clamps. */
  lemma {:induction false} IrModBounded(c: ReserveConfig, curUtil: int, irMod: int, lastTime: nat, now: nat)
    requires IR_MOD_MIN <= irMod <= IR_MOD_MAX && lastTime <= now
    requires CalcAccrual(c, curUtil, irMod, lastTime, now).Ok?
    ensures var next := CalcAccrual(c, curUtil, irMod, lastTime, now).value.1;
      && IR_MOD_MIN <= next <= IR_MOD_MAX
      && (curUtil >= c.util ==> next >= irMod) && (curUtil <= c.util ==> next <= irMod)
  {
    hide Floor;
    hide Ceil;
    var delta, dif := (now - lastTime) * SCALAR_9, (curUtil - c.util) * 100;
    hide BorrowRate;
    hide AccrualRatio;
    MulMono(0, now - lastTime, SCALAR_9);
    if dif >= 0 {
      MulMono(0, dif, delta);
      FloorNonNeg(delta * dif, SCALAR_9);
      MulMono(0, Floor(delta * dif, SCALAR_9), c.reactivity);
      FloorNonNeg(Floor(delta * dif, SCALAR_9) * c.reactivity, SCALAR_7);
      if dif == 0 {
        FloorExact(0, SCALAR_9);
        FloorExact(0, SCALAR_7);
      }
    } else {
      MulMono(dif, 0, delta);
      CeilLeast(0, delta * dif, SCALAR_9);
      MulMono(Ceil(delta * dif, SCALAR_9), 0, c.reactivity);
      CeilLeast(0, Ceil(delta * dif, SCALAR_9) * c.reactivity, SCALAR_7);
    }
  }

  // ----- how far the modifier moves -----

  /** What utilisation off the target by `dif` for some seconds asks the modifier to move, times SCALAR_7. */
  function Push(c: ReserveConfig, seconds: int, curUtil: int): int
  {
    seconds * ((curUtil - c.util) * 100) * c.reactivity
  }

  /** A modifier that has followed a push upwards, to less than a unit of rounding, unless it stands at its maximum. */
  predicate MovedUp(irMod: int, next: int, push: int)
  {
    if next < IR_MOD_MAX then (next - irMod) * SCALAR_7 <= push < (next - irMod) * SCALAR_7 + SCALAR_7
    else next == IR_MOD_MAX && (IR_MOD_MAX - irMod) * SCALAR_7 <= push
  }

  /** And downwards, unless it stands at its minimum. */
  predicate MovedDown(irMod: int, next: int, push: int)
  {
    if next > IR_MOD_MIN then (irMod - next) * SCALAR_7 <= -push < (irMod - next) * SCALAR_7 + SCALAR_7
    else next == IR_MOD_MIN && (irMod - IR_MOD_MIN) * SCALAR_7 <= -push
  }

  /** The modifier moves by seconds times distance from the target times reactivity, or to its clamp. */
  lemma {:induction false} IrModReacts(c: ReserveConfig, curUtil: int, irMod: int, lastTime: nat, now: nat)
    requires IR_MOD_MIN <= irMod <= IR_MOD_MAX && lastTime <= now
    requires CalcAccrual(c, curUtil, irMod, lastTime, now).Ok?
    ensures var (next, push) := (CalcAccrual(c, curUtil, irMod, lastTime, now).value.1, Push(c, now - lastTime, curUtil));
      if curUtil >= c.util then MovedUp(irMod, next, push) else MovedDown(irMod, next, push)
  {
    hide Floor;
    hide Ceil;
    hide BorrowRate;
    hide AccrualRatio;
    var (seconds, dif) := (now - lastTime, (curUtil - c.util) * 100);
    assert seconds * SCALAR_9 * dif == seconds * dif * SCALAR_9;
    FloorExact(seconds * dif, SCALAR_9);
    FloorBounds(seconds * dif * c.reactivity, SCALAR_7);
    CeilBounds(seconds * dif * c.reactivity, SCALAR_7);
    if dif >= 0 {
      MulMono(0, seconds, dif);
      MulMono(0, seconds * dif, c.reactivity);
    } else {
      MulMono(dif, 0, seconds);
      MulMono(seconds * dif, 0, c.reactivity);
    }
  }

  /** More time, or more distance from the target on the same side, never moves it less. */
  lemma {:induction false} IrModMonotone(c: ReserveConfig, u: int, v: int, irMod: int, lastTime: nat, now: nat, later: nat)
    requires IR_MOD_MIN <= irMod <= IR_MOD_MAX && lastTime <= now <= later
    requires CalcAccrual(c, u, irMod, lastTime, now).Ok? && CalcAccrual(c, v, irMod, lastTime, later).Ok?
    ensures c.util <= u <= v ==> CalcAccrual(c, u, irMod, lastTime, now).value.1 <= CalcAccrual(c, v, irMod, lastTime, later).value.1
    ensures v <= u <= c.util ==> CalcAccrual(c, v, irMod, lastTime, later).value.1 <= CalcAccrual(c, u, irMod, lastTime, now).value.1
  {
    hide CalcAccrual;
    IrModReacts(c, u, irMod, lastTime, now);
    IrModReacts(c, v, irMod, lastTime, later);
    IrModBounded(c, u, irMod, lastTime, now);
    IrModBounded(c, v, irMod, lastTime, later);
    PushMonotone(c, now - lastTime, later - lastTime, u, v);
    hide Push;
  }

  lemma PushMonotone(c: ReserveConfig, seconds: int, more: int, u: int, v: int)
    requires 0 <= seconds <= more
    ensures c.util <= u <= v ==> Push(c, seconds, u) <= Push(c, more, v)
    ensures v <= u <= c.util ==> Push(c, more, v) <= Push(c, seconds, u)
  {
    var (x, y) := ((u - c.util) * 100, (v - c.util) * 100);
    if c.util <= u <= v {
      MulMono(x, y, seconds);
      MulMono(seconds, more, y);
      MulMono(seconds * x, more * y, c.reactivity);
    }
    if v <= u <= c.util {
      MulMono(y, x, seconds);
      MulMono(y, 0, more - seconds);
      MulDistributes(y, more, -seconds);
      MulMono(more * y, seconds * x, c.reactivity);
    }
  }

  /** A clock behind the last update counts as 500 seconds. */
  lemma ClockBehind(c: ReserveConfig, curUtil: int, irMod: int, lastTime: nat, now: nat)
    requires lastTime > now && BorrowRate(c, curUtil, irMod).Ok?
    ensures CalcAccrual(c, curUtil, irMod, lastTime, now)
      == if now < 500 then Abort(ArithmeticError) else CalcAccrual(c, curUtil, irMod, now - 500, now)
  {
    hide BorrowRate;
    hide AccrualRatio;
    hide NextIrMod;
  }

  // ----- how large the rate is -----

  /** A part of a leg is what its width says, rounded up by less than one unit and the leg's rate over SCALAR_7. */
  lemma LegPartExact(x: int, width: int, r: int)
    requires x >= 0 && width > 0 && r >= 0
    ensures var part := Ceil(Ceil(x * SCALAR_7, width) * r, SCALAR_7);
      && x * r <= part * width
      && (part * width - x * r) * SCALAR_7 < width * (r + SCALAR_7)
  {
    hide Floor;
    hide Ceil;
    var scalar := Ceil(x * SCALAR_7, width);
    var part := Ceil(scalar * r, SCALAR_7);
    CeilBounds(x * SCALAR_7, width);
    CeilBounds(scalar * r, SCALAR_7);
    MulMono(x * SCALAR_7, scalar * width, r);
    MulMono(scalar * r, part * SCALAR_7, width);
    assert x * SCALAR_7 * r == x * r * SCALAR_7 && scalar * width * r == scalar * r * width;
    assert part * SCALAR_7 * width == part * width * SCALAR_7;
    MultiplesOrdered(x * r, part * width, SCALAR_7);
    MulMono(scalar * width, x * SCALAR_7 + width, r);
    MulDistributes(r, x * SCALAR_7, width);
    MulMono(part * SCALAR_7 + 1, scalar * r + SCALAR_7, width);
    MulDistributes(width, part * SCALAR_7, 1);
    MulDistributes(width, scalar * r, SCALAR_7);
    MulDistributes(width, r, SCALAR_7);
  }

  /** A rate on a leg that starts at `base` and adds `r` over its width, `x` into the leg: the leg's height
      there times the modifier, rounded up by less than one unit and the rounding of the leg's part. */
  predicate OnLeg(rate: int, x: int, width: int, r: int, base: int, irMod: int)
  {
    var exact := (x * r + base * width) * irMod;
    && exact <= rate * SCALAR_9 * width
    && (rate * SCALAR_9 * width - exact) * SCALAR_7 < width * (SCALAR_9 * SCALAR_7 + (r + SCALAR_7) * irMod)
  }

  lemma LegRate(x: int, width: int, r: int, base: int, irMod: int)
    requires x >= 0 && width > 0 && r >= 0 && irMod >= 0
    ensures OnLeg(Ceil((Ceil(Ceil(x * SCALAR_7, width) * r, SCALAR_7) + base) * irMod, SCALAR_9), x, width, r, base, irMod)
  {
    hide Floor;
    hide Ceil;
    LegPartExact(x, width, r);
    var part := Ceil(Ceil(x * SCALAR_7, width) * r, SCALAR_7);
    var height := (part + base) * irMod;
    CeilBounds(height, SCALAR_9);
    var rate := Ceil(height, SCALAR_9);
    MulMono(height, rate * SCALAR_9, width);
    MulMono(rate * SCALAR_9 + 1, height + SCALAR_9, width);
    MulDistributes(width, rate * SCALAR_9, 1);
    MulDistributes(width, height, SCALAR_9);
    MulDistributes(width, part, base);
    assert height * width == (part * width + base * width) * irMod;
    MulMono(x * r + base * width, part * width + base * width, irMod);
    LegSlack(part * width, x * r, base * width, irMod, width * (r + SCALAR_7));
    assert width * (r + SCALAR_7) * irMod == width * ((r + SCALAR_7) * irMod);
    MulDistributes(width, SCALAR_9 * SCALAR_7, (r + SCALAR_7) * irMod);
  }

  lemma LegSlack(a: int, e: int, base: int, irMod: int, slack: int)
    requires (a - e) * SCALAR_7 < slack && irMod >= 0
    ensures ((a + base) * irMod - (e + base) * irMod) * SCALAR_7 <= slack * irMod
  {
    MulDistributes(irMod, a + base, -(e + base));
    MulMono((a - e) * SCALAR_7, slack, irMod);
    assert (a - e) * SCALAR_7 * irMod == (a - e) * irMod * SCALAR_7;
  }

  /** The rate on the last leg, whose own part the modifier does not scale. */
  predicate OnTail(rate: int, x: int, r: int, base: int, irMod: int)
  {
    var exact := x * r * SCALAR_9 + base * irMod * UTIL_TAIL;
    && exact <= rate * SCALAR_9 * UTIL_TAIL
    && (rate * SCALAR_9 * UTIL_TAIL - exact) * SCALAR_7 < UTIL_TAIL * SCALAR_9 * (r + 2 * SCALAR_7)
  }

  lemma TailRate(x: int, r: int, base: int, irMod: int)
    requires x >= 0 && r >= 0
    ensures OnTail(Ceil(Ceil(x * SCALAR_7, UTIL_TAIL) * r, SCALAR_7) + Ceil(irMod * base, SCALAR_9), x, r, base, irMod)
  {
    hide Floor;
    hide Ceil;
    LegPartExact(x, UTIL_TAIL, r);
    CeilBounds(irMod * base, SCALAR_9);
    assert irMod * base == base * irMod;
  }

  /** The borrow rate is the three-leg curve: from the base rate up by r_one to the target, by r_two to the
      kink, both times the modifier, and by an unscaled r_three over the last twentieth. */
  lemma {:induction false} RateFollowsCurve(c: ReserveConfig, curUtil: int, irMod: int)
    requires ValidMetadata(c) && curUtil > 0 && irMod >= 0 && BorrowRate(c, curUtil, irMod).Ok?
    ensures curUtil <= c.util ==> OnLeg(BorrowRate(c, curUtil, irMod).value, curUtil, c.util, c.rOne, c.rBase, irMod)
    ensures c.util < curUtil <= UTIL_KINK ==> OnLeg(BorrowRate(c, curUtil, irMod).value,
      curUtil - c.util, UTIL_KINK - c.util, c.rTwo, c.rBase + c.rOne, irMod)
    ensures UTIL_KINK < curUtil ==> OnTail(BorrowRate(c, curUtil, irMod).value,
      curUtil - UTIL_KINK, c.rThree, c.rBase + c.rOne + c.rTwo, irMod)
  {
    hide Floor;
    hide Ceil;
    hide OnLeg;
    hide OnTail;
    if curUtil <= c.util {
      LegRate(curUtil, c.util, c.rOne, c.rBase, irMod);
    } else if curUtil <= UTIL_KINK {
      LegRate(curUtil - c.util, UTIL_KINK - c.util, c.rTwo, c.rBase + c.rOne, irMod);
    } else {
      TailRate(curUtil - UTIL_KINK, c.rThree, c.rBase + c.rOne + c.rTwo, irMod);
    }
  }

  /** A growth, in billionths, at a yearly rate over some seconds: the rate times the elapsed part of a year,
      to less than a unit upwards and less than a billionth of the rate downwards. */
  predicate Yearly(growth: int, rate: int, seconds: int)
  {
    && growth * SECONDS_PER_YEAR < seconds * (rate * 100) + SECONDS_PER_YEAR
    && (seconds * SCALAR_9 - SECONDS_PER_YEAR) * (rate * 100) <= growth * SCALAR_9 * SECONDS_PER_YEAR
  }

  /** A loan grows by the yearly rate times the elapsed part of a year. */
  lemma {:induction false} RatioIsYearly(c: ReserveConfig, curUtil: int, irMod: int, lastTime: nat, now: nat)
    requires lastTime <= now && CalcAccrual(c, curUtil, irMod, lastTime, now).Ok?
    requires BorrowRate(c, curUtil, irMod).value >= 0
    ensures Yearly(CalcAccrual(c, curUtil, irMod, lastTime, now).value.0 - SCALAR_9,
      BorrowRate(c, curUtil, irMod).value, now - lastTime)
  {
    hide Floor;
    hide Ceil;
    hide NextIrMod;
    var (rate, seconds) := (BorrowRate(c, curUtil, irMod).value * 100, now - lastTime);
    hide BorrowRate;
    var years := Floor(seconds * SCALAR_9, SECONDS_PER_YEAR);
    FloorBounds(seconds * SCALAR_9, SECONDS_PER_YEAR);
    CeilBounds(years * rate, SCALAR_9);
    MulMono(years * SECONDS_PER_YEAR, seconds * SCALAR_9, rate);
    MulMono(seconds * SCALAR_9 - SECONDS_PER_YEAR, years * SECONDS_PER_YEAR, rate);
    assert years * SECONDS_PER_YEAR * rate == years * rate * SECONDS_PER_YEAR;
    assert seconds * SCALAR_9 * rate == seconds * rate * SCALAR_9;
  }
}
