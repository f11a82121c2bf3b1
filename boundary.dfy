/**
 * The two boundary rules of the simulation: the toroidal wrap of a position
 * (`teleport_toroidally`) and the clamp of a velocity into the speed band
 * (`limit_speed`). Both overwrite the vector they are given, so their methods
 * work on a `MutableR2`; the functions `Teleported` and `LimitedSpeed` state
 * what the vector holds afterwards.
 */
module Boundary {
  import opened Math
  import opened Parameters

  /** `std::abs` on a double. */
  function Abs(a: real): real {
    if a < 0.0 then -a else a
  }

  // ---------------------------------------------------------------------------
  // teleport_toroidally
  // ---------------------------------------------------------------------------

  /** The x-coordinate after the wrap: one world width back across the opposite edge. */
  function WrapX(x: real, p: RunningParameters): real {
    if x > p.rightBound then p.leftBound + (x - p.rightBound)
    else if x < p.leftBound then p.rightBound - (p.leftBound - x)
    else x
  }

  /**
   * The y-coordinate after the wrap. Past the upper edge the program adds
   * `|y| - upper` rather than `|y - upper|`; the two agree when the upper
   * bound is not negative (`UpperWrapAgreesWithRightWrap`).
   */
  function WrapY(y: real, p: RunningParameters): real {
    if y > p.upperBound then p.bottomBound + Abs(y) - p.upperBound
    else if y < p.bottomBound then p.upperBound - (p.bottomBound - y)
    else y
  }

  /** The position `teleport_toroidally(r, p)` leaves in `r`: a position in the world stays put. */
  function Teleported(r: R2, p: RunningParameters): (wrapped: R2)
    ensures InWorld(r, p) ==> wrapped == r
  {
    R2(WrapX(r.x, p), WrapY(r.y, p))
  }

  /** The position lies in the closed world rectangle. */
  predicate InWorld(r: R2, p: RunningParameters) {
    p.leftBound <= r.x <= p.rightBound && p.bottomBound <= r.y <= p.upperBound
  }

  /**
   * `teleport_toroidally(r, p)`: four checks in sequence, y then x, each
   * overwriting the coordinate in place; returns the new value.
   */
  method TeleportToroidally(r: MutableR2, p: RunningParameters) returns (result: R2)
    modifies r
    ensures r.Value() == Teleported(old(r.Value()), p)
    ensures result == r.Value()
  {
    if r.y > p.upperBound {
      r.y := p.bottomBound + Abs(r.y) - p.upperBound;
    }
    if r.y < p.bottomBound {
      r.y := p.upperBound - Abs(r.y - p.bottomBound);
    }
    if r.x > p.rightBound {
      r.x := p.leftBound + Abs(r.x - p.rightBound);
    }
    if r.x < p.leftBound {
      r.x := p.rightBound - Abs(r.x - p.leftBound);
    }
    result := r.Value();
  }

  /** A position inside the world is left where it is. */
  lemma InsideUnchanged(r: R2, p: RunningParameters)
    requires InWorld(r, p)
    ensures Teleported(r, p) == r
  {
  }

  /** Each coordinate moves by nothing or by exactly one world width: the wrap is toroidal. */
  lemma WrapShiftsByOnePeriod(r: R2, p: RunningParameters)
    ensures var w := p.rightBound - p.leftBound;
      WrapX(r.x, p) == r.x || WrapX(r.x, p) == r.x - w || WrapX(r.x, p) == r.x + w
    ensures var h := p.upperBound - p.bottomBound;
      p.upperBound >= 0.0 ==> WrapY(r.y, p) == r.y || WrapY(r.y, p) == r.y - h || WrapY(r.y, p) == r.y + h
  {
  }

  /** Past the upper edge, the y rule matches the x rule whenever the upper bound is not negative. */
  lemma UpperWrapAgreesWithRightWrap(y: real, p: RunningParameters)
    requires p.upperBound >= 0.0 && y > p.upperBound
    ensures WrapY(y, p) == p.bottomBound + (y - p.upperBound)
  {
  }

  /** With a negative upper bound the y rule overshoots: it can leave the point outside the world. */
  lemma UpperWrapWithNegativeBound()
    ensures var p := RunningParameters(0, 0.0, 0.0, 0.0, 0.0, 0.0, 0.0, 10.0, -5.0, -10.0, 0.0, 0.0);
      WrapY(-3.0, p) == -2.0 && WrapY(-3.0, p) > p.upperBound && p.bottomBound + (-3.0 - p.upperBound) == -8.0
  {
  }

  /** An overshoot of at most one world size on either side lands inside the world. */
  lemma OvershootLandsInside(r: R2, p: RunningParameters)
    requires WorldIsRectangle(p) && p.upperBound >= 0.0
    requires var w := p.rightBound - p.leftBound; p.leftBound - w <= r.x <= p.rightBound + w
    requires var h := p.upperBound - p.bottomBound; p.bottomBound - h <= r.y <= p.upperBound + h
    ensures InWorld(Teleported(r, p), p)
  {
  }

  /** The wrap is a single pass: an overshoot of two world widths is carried back only once. */
  lemma WrapIsSinglePass(x: real, p: RunningParameters)
    requires WorldIsRectangle(p)
    requires x == p.rightBound + 2.0 * (p.rightBound - p.leftBound)
    ensures WrapX(x, p) == p.rightBound + (p.rightBound - p.leftBound)
    ensures WrapX(x, p) > p.rightBound
  {
  }

  /** The program's four wrap examples in the world `[0, 10] x [0, 10]`. */
  lemma TeleportExamples()
    ensures var p := RunningParameters(0, 0.0, 0.0, 0.0, 0.0, 0.0, 0.0, 10.0, 10.0, 0.0, 0.0, 0.0);
      Teleported(R2(-1.0, 3.0), p) == R2(9.0, 3.0) && Teleported(R2(1.0, -3.0), p) == R2(1.0, 7.0) &&
      Teleported(R2(-3.0, -4.0), p) == R2(7.0, 6.0) && Teleported(R2(17.0, 16.0), p) == R2(7.0, 6.0)
  {
  }

  // ---------------------------------------------------------------------------
  // limit_speed
  // ---------------------------------------------------------------------------

  /** The norm lies in `[minimum_velocity, maximum_velocity]`: neither check of `limit_speed` fires. */
  predicate InSpeedBand(v: R2, p: RunningParameters) {
    !NormGreater(v, p.maximumVelocity) && !NormLess(v, p.minimumVelocity)
  }

  /**
   * Inputs on which every chain of halvings and doublings ends in the band:
   * the band holds a halved speed that was just above it and a doubled speed
   * that was just below it, and the zero vector (which no doubling moves) is
   * already in the band.
   */
  predicate WideBandFor(v: R2, p: RunningParameters) {
    p.maximumVelocity >= 2.0 * p.minimumVelocity &&
    if v == Zero then p.minimumVelocity <= 0.0 && p.maximumVelocity >= 0.0
    else p.maximumVelocity > 0.0
  }

  /**
   * Inputs on which the recursion of `limit_speed` is known to end: those
   * already in the band, which return at once, and those for which the band
   * is wide enough. The condition is sufficient, not necessary: in a narrow
   * band some inputs outside it still land inside it (`NarrowBandCanStillEnd`).
   */
  predicate CanLimit(v: R2, p: RunningParameters) {
    InSpeedBand(v, p) || WideBandFor(v, p)
  }

  /** How far the norm is outside the band, in factors of two (squared): what each step reduces. */
  function SpeedExcess(v: R2, p: RunningParameters): nat {
    if p.maximumVelocity > 0.0 && NormSq(v) > Sq(p.maximumVelocity) then
      SqPositive(p.maximumVelocity);
      FloorOfRatio(NormSq(v), Sq(p.maximumVelocity))
    else if NormLess(v, p.minimumVelocity) && NormSq(v) > 0.0 then
      FloorOfRatio(Sq(p.minimumVelocity), NormSq(v))
    else 0
  }

  /** The whole part of `n / m`, at least one when `n > m > 0`. */
  function FloorOfRatio(n: real, m: real): (k: nat)
    requires m > 0.0 && n > m
    ensures k >= 1
  {
    QuotientAboveOne(n, m);
    (n / m).Floor
  }

  /**
   * The value `limit_speed(v, p)` leaves in `v`: halve and recurse while the
   * norm is above the maximum, then double and recurse while it is below the
   * minimum. The result is in the band, and an input already in the band
   * (its norm equal to either limit included) comes back unchanged.
   */
  function LimitedSpeed(v: R2, p: RunningParameters): (w: R2)
    requires CanLimit(v, p)
    ensures InSpeedBand(w, p)
    ensures InSpeedBand(v, p) ==> w == v
    decreases SpeedExcess(v, p)
  {
    var halved :=
      if NormGreater(v, p.maximumVelocity) then
        HalvingStep(v, p);
        LimitedSpeed(Mul(v, 0.5), p)
      else v;
    if NormLess(halved, p.minimumVelocity) then
      DoublingStep(halved, p);
      LimitedSpeed(Mul(halved, 2.0), p)
    else halved
  }

  /** `limit_speed(v, p)`: the recursion run as a loop that halves or doubles `v` in place. */
  method LimitSpeed(v: MutableR2, p: RunningParameters) returns (result: R2)
    requires CanLimit(v.Value(), p)
    modifies v
    ensures v.Value() == LimitedSpeed(old(v.Value()), p)
    ensures result == v.Value()
  {
    ghost var limit := LimitedSpeed(v.Value(), p);
    while NormGreater(v.Value(), p.maximumVelocity) || NormLess(v.Value(), p.minimumVelocity)
      invariant CanLimit(v.Value(), p)
      invariant LimitedSpeed(v.Value(), p) == limit
      decreases LimitSpeedPasses(v.Value(), p)
    {
      ghost var current := v.Value();
      LimitSpeedLoopStep(current, p);
      if NormGreater(v.Value(), p.maximumVelocity) {
        var _ := v.MulAssign(0.5);
      } else {
        var _ := v.MulAssign(2.0);
      }
      assert v.Value() == SpeedLoopStep(current, p);
    }
    LimitedSpeedInBand(v.Value(), p);
    result := v.Value();
  }

  /** How many halvings and doublings `limit_speed` performs. */
  function LimitSpeedPasses(v: R2, p: RunningParameters): nat
    requires CanLimit(v, p)
    decreases SpeedExcess(v, p)
  {
    if NormGreater(v, p.maximumVelocity) || NormLess(v, p.minimumVelocity) then
      LimitSpeedLoopStep(v, p);
      1 + LimitSpeedPasses(SpeedLoopStep(v, p), p)
    else 0
  }

  /** A velocity in the band is its own limit. */
  lemma LimitedSpeedInBand(v: R2, p: RunningParameters)
    requires CanLimit(v, p) && InSpeedBand(v, p)
    ensures LimitedSpeed(v, p) == v
  {
  }

  /** The vector one pass of the loop in `LimitSpeed` leaves: halved above the band, doubled otherwise. */
  function SpeedLoopStep(v: R2, p: RunningParameters): R2 {
    if NormGreater(v, p.maximumVelocity) then Mul(v, 0.5) else Mul(v, 2.0)
  }

  /** A pass of the loop outside the band keeps the limit and reduces the excess. */
  lemma LimitSpeedLoopStep(v: R2, p: RunningParameters)
    requires CanLimit(v, p)
    requires NormGreater(v, p.maximumVelocity) || NormLess(v, p.minimumVelocity)
    ensures CanLimit(SpeedLoopStep(v, p), p)
    ensures LimitedSpeed(SpeedLoopStep(v, p), p) == LimitedSpeed(v, p)
    ensures SpeedExcess(SpeedLoopStep(v, p), p) < SpeedExcess(v, p)
  {
    LimitedSpeedStep(v, p);
    if NormGreater(v, p.maximumVelocity) {
      HalvingStep(v, p);
    } else {
      DoublingStep(v, p);
    }
  }

  /** One step of the recursion: a vector outside the band limits to what its halving or doubling limits to. */
  lemma LimitedSpeedStep(v: R2, p: RunningParameters)
    requires CanLimit(v, p)
    ensures NormGreater(v, p.maximumVelocity) ==>
      CanLimit(Mul(v, 0.5), p) && LimitedSpeed(v, p) == LimitedSpeed(Mul(v, 0.5), p)
    ensures !NormGreater(v, p.maximumVelocity) && NormLess(v, p.minimumVelocity) ==>
      CanLimit(Mul(v, 2.0), p) && LimitedSpeed(v, p) == LimitedSpeed(Mul(v, 2.0), p)
  {
    if NormGreater(v, p.maximumVelocity) {
      HalvingStep(v, p);
    } else if NormLess(v, p.minimumVelocity) {
      DoublingStep(v, p);
    }
  }

  /** `n / m > 1` when `n > m > 0`. */
  lemma QuotientAboveOne(n: real, m: real)
    requires m > 0.0 && n > m
    ensures n / m > 1.0
  {
    var q := n / m;
    assert Product(q, m) == n;
    if q <= 1.0 {
      ProductMonotone(m, q, 1.0);
    }
  }

  /** Dividing the numerator by four lowers the whole part of the ratio. */
  lemma QuarterNumerator(n: real, m: real)
    requires m > 0.0 && n / 4.0 > m
    ensures FloorOfRatio(n / 4.0, m) < FloorOfRatio(n, m)
  {
    QuotientAboveOne(n, m);
    assert n / 4.0 / m == (n / m) / 4.0;
  }

  /** Multiplying the denominator by four lowers the whole part of the ratio. */
  lemma QuadrupleDenominator(n: real, m: real)
    requires m > 0.0 && n > 4.0 * m
    ensures FloorOfRatio(n, 4.0 * m) < FloorOfRatio(n, m)
  {
    QuotientAboveOne(n, m);
    assert n / (4.0 * m) == (n / m) / 4.0;
  }

  /** The square of the maximum is at least four times the square of the minimum when the band is wide. */
  lemma WideBandSquares(p: RunningParameters)
    requires p.maximumVelocity >= 2.0 * p.minimumVelocity && p.minimumVelocity >= 0.0
    ensures Sq(p.maximumVelocity) >= 4.0 * Sq(p.minimumVelocity)
  {
    SqMonotone(2.0 * p.minimumVelocity, p.maximumVelocity);
    assert Sq(2.0 * p.minimumVelocity) == 4.0 * Sq(p.minimumVelocity);
  }

  /** Scaling by a non-zero factor keeps a vector non-zero. */
  lemma ScaledNonZero(v: R2, k: real)
    requires v != Zero && k != 0.0
    ensures Mul(v, k) != Zero
  {
    if Mul(v, k) == Zero {
      if v.x != 0.0 {
        ProductStrict(k, 0.0, 0.0);
        SqPositive(v.x);
      }
    }
  }

  /** A vector above the maximum is not zero, and the maximum is then positive. */
  lemma AboveMaximum(v: R2, p: RunningParameters)
    requires CanLimit(v, p) && NormGreater(v, p.maximumVelocity)
    ensures v != Zero && p.maximumVelocity > 0.0 && NormSq(v) > Sq(p.maximumVelocity)
  {
    if v == Zero {
      SqNonNegative(p.maximumVelocity);
    }
  }

  /** A vector below the minimum is not zero, and the minimum is then positive. */
  lemma BelowMinimum(v: R2, p: RunningParameters)
    requires CanLimit(v, p) && NormLess(v, p.minimumVelocity)
    ensures v != Zero && NormSq(v) > 0.0 && p.minimumVelocity > 0.0
  {
    NormSqNonNegative(v);
    if NormSq(v) == 0.0 {
      NormSqZero(v);
    }
  }

  /** Halving a vector above the maximum keeps the recursion possible and lowers the excess. */
  lemma HalvingStep(v: R2, p: RunningParameters)
    requires CanLimit(v, p) && NormGreater(v, p.maximumVelocity)
    ensures CanLimit(Mul(v, 0.5), p)
    ensures SpeedExcess(Mul(v, 0.5), p) < SpeedExcess(v, p)
    ensures !NormLess(Mul(v, 0.5), p.minimumVelocity)
  {
    AboveMaximum(v, p);
    SqPositive(p.maximumVelocity);
    ScaledNonZero(v, 0.5);
    NormSqScaled(v);
    HalvedStaysAboveMinimum(NormSq(v), p);
    if NormSq(v) / 4.0 > Sq(p.maximumVelocity) {
      QuarterNumerator(NormSq(v), Sq(p.maximumVelocity));
    }
  }

  /** A quarter of a squared norm above the maximum's square is not below the minimum's. */
  lemma HalvedStaysAboveMinimum(n: real, p: RunningParameters)
    requires p.maximumVelocity >= 2.0 * p.minimumVelocity && n > Sq(p.maximumVelocity)
    ensures p.minimumVelocity > 0.0 ==> n / 4.0 >= Sq(p.minimumVelocity)
  {
    if p.minimumVelocity > 0.0 {
      WideBandSquares(p);
    }
  }

  /** Doubling a vector below the minimum keeps the recursion possible and lowers the excess. */
  lemma DoublingStep(v: R2, p: RunningParameters)
    requires CanLimit(v, p) && NormLess(v, p.minimumVelocity)
    ensures CanLimit(Mul(v, 2.0), p)
    ensures SpeedExcess(Mul(v, 2.0), p) < SpeedExcess(v, p)
    ensures !NormGreater(Mul(v, 2.0), p.maximumVelocity)
  {
    BelowMinimum(v, p);
    ScaledNonZero(v, 2.0);
    NormSqScaled(v);
    WideBandSquares(p);
    if Sq(p.minimumVelocity) > 4.0 * NormSq(v) {
      QuadrupleDenominator(Sq(p.minimumVelocity), NormSq(v));
    }
  }

  // ---------------------------------------------------------------------------
  // What limit_speed preserves
  // ---------------------------------------------------------------------------

  /** `2^k` for an integer `k`. */
  function Pow2(k: int): real
    decreases if k < 0 then -k else k
  {
    if k == 0 then 1.0
    else if k > 0 then 2.0 * Pow2(k - 1)
    else Pow2(k + 1) / 2.0
  }

  lemma {:induction false} Pow2Positive(k: int)
    ensures Pow2(k) > 0.0
    decreases if k < 0 then -k else k
  {
    if k > 0 {
      Pow2Positive(k - 1);
    } else if k < 0 {
      Pow2Positive(k + 1);
    }
  }

  lemma Pow2Steps(k: int)
    ensures Pow2(k - 1) == Pow2(k) / 2.0
    ensures Pow2(k + 1) == 2.0 * Pow2(k)
  {
  }

  /** At rest with a positive minimum speed the velocity is below the band. */
  lemma RestBelowPositiveMinimum(p: RunningParameters)
    requires p.minimumVelocity > 0.0
    ensures NormLess(Zero, p.minimumVelocity)
  {
    SqPositive(p.minimumVelocity);
    assert NormSq(Zero) == 0.0;
  }

  /**
   * So a velocity at rest is outside a band with a positive minimum, doubling
   * leaves it at rest, and `limit_speed` recurses without end on it.
   */
  lemma RestCannotBeLimited(p: RunningParameters)
    requires p.minimumVelocity > 0.0
    ensures !InSpeedBand(Zero, p)
    ensures Mul(Zero, 2.0) == Zero
    ensures !CanLimit(Zero, p)
  {
    RestBelowPositiveMinimum(p);
  }

  /**
   * `CanLimit` is not necessary for the recursion to end: in the band
   * `[10, 15]`, narrower than twice its minimum, the speed 24 is outside
   * `CanLimit` yet is halved once into the band.
   */
  lemma NarrowBandCanStillEnd()
    ensures var p := RunningParameters(0, 0.0, 0.0, 0.0, 0.0, 0.0, 0.0, 0.0, 0.0, 0.0, 15.0, 10.0);
      !CanLimit(R2(24.0, 0.0), p) && SpeedLoopStep(R2(24.0, 0.0), p) == R2(12.0, 0.0) &&
      InSpeedBand(R2(12.0, 0.0), p)
  {
  }

  /** Scaling twice is scaling by the product. */
  lemma MulTwice(v: R2, a: real, b: real)
    ensures Mul(Mul(v, a), b) == Mul(v, a * b)
  {
    assert v.x * a * b == v.x * (a * b);
    assert v.y * a * b == v.y * (a * b);
  }

  /**
   * `limit_speed` only rescales by a power of two: the result is `2^k` times
   * the input for some integer `k`, so its direction is kept.
   */
  lemma {:induction false} LimitedSpeedIsPowerOfTwoMultiple(v: R2, p: RunningParameters)
    requires CanLimit(v, p)
    ensures exists k: int :: Pow2(k) > 0.0 && LimitedSpeed(v, p) == Mul(v, Pow2(k))
    decreases SpeedExcess(v, p)
  {
    LimitedSpeedStep(v, p);
    if NormGreater(v, p.maximumVelocity) {
      HalvingStep(v, p);
      LimitedSpeedIsPowerOfTwoMultiple(Mul(v, 0.5), p);
      var k: int :| Pow2(k) > 0.0 && LimitedSpeed(Mul(v, 0.5), p) == Mul(Mul(v, 0.5), Pow2(k));
      MulTwice(v, 0.5, Pow2(k));
      Pow2Steps(k);
      Pow2Positive(k - 1);
      assert LimitedSpeed(v, p) == Mul(v, Pow2(k - 1));
    } else if NormLess(v, p.minimumVelocity) {
      DoublingStep(v, p);
      LimitedSpeedIsPowerOfTwoMultiple(Mul(v, 2.0), p);
      var k: int :| Pow2(k) > 0.0 && LimitedSpeed(Mul(v, 2.0), p) == Mul(Mul(v, 2.0), Pow2(k));
      MulTwice(v, 2.0, Pow2(k));
      Pow2Steps(k);
      Pow2Positive(k + 1);
      assert LimitedSpeed(v, p) == Mul(v, Pow2(k + 1));
    } else {
      assert LimitedSpeed(v, p) == Mul(v, Pow2(0));
    }
  }

  /** A velocity in the band has each component within the maximum speed. */
  lemma BandBoundsComponents(v: R2, p: RunningParameters)
    requires InSpeedBand(v, p) && p.maximumVelocity >= 0.0
    ensures -p.maximumVelocity <= v.x <= p.maximumVelocity
    ensures -p.maximumVelocity <= v.y <= p.maximumVelocity
  {
    SqNonNegative(v.x);
    SqNonNegative(v.y);
    SqBound(v.x, p.maximumVelocity);
    SqBound(v.y, p.maximumVelocity);
  }

  /** The speed band of the program's examples, `[1, 5]`. */
  const ExampleSpeedBand: RunningParameters := RunningParameters(0, 0.0, 0.0, 0.0, 0.0, 0.0, 0.0, 0.0, 0.0, 0.0, 5.0, 1.0)

  /** Velocities already in the band, at either limit included, come back unchanged. */
  lemma LimitSpeedKeepsBandExamples()
    ensures LimitedSpeed(R2(2.0, 2.0), ExampleSpeedBand) == R2(2.0, 2.0)
    ensures LimitedSpeed(R2(5.0, 0.0), ExampleSpeedBand) == R2(5.0, 0.0)
    ensures LimitedSpeed(R2(1.0, 0.0), ExampleSpeedBand) == R2(1.0, 0.0)
  {
  }

  /** `(8, 8)` is halved twice, to `(2, 2)`. */
  lemma LimitSpeedHalvingExample()
    ensures LimitedSpeed(R2(8.0, 8.0), ExampleSpeedBand) == R2(2.0, 2.0)
  {
    LimitedSpeedStep(R2(8.0, 8.0), ExampleSpeedBand);
    assert Mul(R2(8.0, 8.0), 0.5) == R2(4.0, 4.0);
    LimitedSpeedStep(R2(4.0, 4.0), ExampleSpeedBand);
    assert Mul(R2(4.0, 4.0), 0.5) == R2(2.0, 2.0);
  }

  /** `(0.5, 0.5)` is doubled once, to `(1, 1)`. */
  lemma LimitSpeedDoublingExample()
    ensures LimitedSpeed(R2(0.5, 0.5), ExampleSpeedBand) == R2(1.0, 1.0)
  {
    LimitedSpeedStep(R2(0.5, 0.5), ExampleSpeedBand);
    assert Mul(R2(0.5, 0.5), 2.0) == R2(1.0, 1.0);
  }
}
