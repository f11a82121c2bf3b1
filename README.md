# Boids flocking engine: a Dafny model

This project models the dynamics engine of a boids flocking simulation and
proves properties of it. The engine has four layers, each built on the one
before.

1. **Vectors** (`r2.dfy`, module `Math`). The `R2` vector type with:
   - the compound operators `+= -= *= /=`, which update in place, on the
     class `MutableR2`;
   - the copying binary and unary operators, the inner product and exact
     `==`/`!=`;
   - the norm and the distance.
2. **Boids** (`boid.dfy`, module `Boids`).
   - A `Boid` is a position and a velocity. `MutableBoid` carries the getters
     and setters.
   - Queries on a flock: the distance between two boids, the centre of mass of
     the other boids (`calculate_CDM`), and the neighbourhood of a boid
     (`get_neighborhood`).
3. **Rules.** `boundary.dfy` (module `Boundary`) holds the toroidal wrap
   (`teleport_toroidally`) and the speed clamp (`limit_speed`). `steering.dfy`
   (module `Steering`) holds separation, alignment and cohesion.
4. **Update step** (`evolution.dfy`, module `Evolution`).
   - `evolve_boid` moves a boid, wraps it, and steers and clamps its velocity.
   - `evolve_flock` evolves every boid against its neighbourhood in the flock
     as it was before the step, then replaces the flock as a whole.
   - `create_flock` takes its random samples as a parameter.

`running_parameters` (`parameters.dfy`, module `Parameters`) is a datatype
whose fields are in the record's order. Its defaults are a constant.

Numbers are `real`s. The norm is a square root, so comparisons with a norm are
stated on squares:
- `NormLess(v, m)` means `m > 0 && v·v < m²`, which is exactly `sqrt(v·v) < m`.
- `NormGreater(v, m)` means `sqrt(v·v) > m`.
- `IsNorm(v, n)` says `n` is the norm of `v`.
- `Math.NormComparisons` ties these squared forms to comparisons on the norm
  itself.

Each operation that loops or updates in place is a `method` proved equal to a
specification function:
- the accumulations in `calculate_CDM`, the separation, the alignment and
  `get_neighborhood`;
- the in-place wrap and the clamp on a `MutableR2`;
- the setters in `evolve_boid`;
- `evolve_flock`, which writes an `array` of boids.

The properties are proved about those functions.

`limit_speed` is recursive in the program. `Boundary.LimitedSpeed` is its
recursion: halve and recurse while above the band, then double and recurse
while below it. `Boundary.LimitSpeed` is the same computation as a loop. The
model proves that the recursion ends under `CanLimit`, which holds in either
of two cases:
- the input is already in the band, so the program returns at once;
- `max >= 2·min` (the band's width `max - min` is at least `min`), and either
  the input is non-zero and `max > 0`, or the input is zero and the band
  contains speed 0.

`CanLimit` is sufficient for the recursion to end, not necessary. In a band
with `max < 2·min`, some inputs outside it still end in it: in `[10, 15]` the
speed 24 is halved once to 12 (`Boundary.NarrowBandCanStillEnd`). `CanLimit`
is the precondition of the clamp and of everything that evolves a boid.

Every band the program uses is wide:
- `src/render.cpp` only builds the default band `[20, 80]`;
- the tests use `[1, 5]` and `[2, 10]`.

With such a band the one input on which the program does not end is a
velocity at rest with a positive minimum. That velocity doubles to itself
forever (`Boundary.RestCannotBeLimited`).

The y-axis wrap of `teleport_toroidally` rewrites `y > upper` as
`bottom + |y| - upper`. The x-axis rule uses `|x - right|`, which would
suggest `|y - upper|` on y. The model keeps the `|y|`. The two formulas agree whenever
`upper >= 0` (`Boundary.UpperWrapAgreesWithRightWrap`), which holds for the
default world. `Boundary.UpperWrapWithNegativeBound` shows where they differ.

## Model

| member | source | states |
|---|---|---|
| Math.MutableR2.constructor | src/R2.cpp:6 | the two-argument constructor stores `x` and `y` verbatim |
| Math.MutableR2.Origin | src/R2.cpp:7 | the default constructor yields `(0, 0)` |
| Math.MutableR2.AddAssign | src/R2.cpp:10-14 | `+=` replaces the value by the componentwise sum and returns the new value |
| Math.MutableR2.SubAssign | src/R2.cpp:16-20 | `-=` replaces the value by the componentwise difference and returns the new value |
| Math.MutableR2.MulAssign | src/R2.cpp:22-26 | `*=` scales both components in place and returns the new value |
| Math.MutableR2.DivAssign | src/R2.cpp:28-32 | `/=` divides both components in place by a non-zero divisor and returns the new value |
| Math.Add | src/R2.cpp:34-37 | `lhs + rhs` is the vector from which taking `rhs` away, component by component, gives `lhs` back |
| Math.Sub | src/R2.cpp:43-46 | `lhs - rhs` is the vector that, added to `rhs`, gives `lhs` |
| Math.Neg | src/R2.cpp:39-41 | unary minus is scaling by `-1` |
| Math.Mul | src/R2.cpp:48-51 | scaling by 1 gives the vector back |
| Math.MulLeft | src/R2.cpp:53-55 | `k * v`, evaluated as `v * k`, multiplies each component by `k` |
| Math.Div | src/R2.cpp:61-64 | `v / k` for `k != 0` is the vector that, scaled by `k`, gives `v` |
| Math.Dot | src/R2.cpp:57-59 | on the x-axis, the inner product is the product of the two abscissae |
| Math.Equal | src/R2.cpp:66-68 | `==` holds exactly when the two vectors are equal |
| Math.NotEqual | src/R2.cpp:70-72 | `!=` holds exactly when the two vectors differ |
| Math.CompoundAgreesWithBinary | src/R2.cpp:34-64 | binary `+`, `-`, `* k` and `/ k` (with `k != 0`) copy the left operand and apply the compound operator, giving the same results as the binary operators |
| Math.AddThenSubRestores | src/R2.cpp:10-20 | `+= w` followed by `-= w` restores the original value |
| Math.SubAddCancel | src/R2.cpp:34-46 | `(u + v) - v == u` |
| Math.NegNegates | src/R2.cpp:39-41 | unary minus negates each component: `-(-v) == v` and `v + (-v) == 0` |
| Math.NegZero | src/R2.cpp:39-41 | `-(0, 0) == (0, 0)` |
| Math.MulCommutes | src/R2.cpp:53-55 | `k * v == v * k`, and both are `(k·v.x, k·v.y)` |
| Math.MulByZero | src/R2.cpp:48-51 | `v * 0 == (0, 0)` |
| Math.DotSymmetric | src/R2.cpp:57-59 | the inner product is symmetric |
| Math.DotExamples | src/R2.cpp:57-59 | `(1,0)·(0,1) == 0`, `(2,3)·(4,5) == 23`, `(2,-3)·(-4,5) == -23` |
| Math.EqualityIsEquivalence | src/R2.cpp:66-72 | `==` is reflexive and symmetric, and `!=` is its negation |
| Math.NormSqNonNegative | src/R2.cpp:76-78 | the radicand `v·v` of the norm is never negative |
| Math.NormSqZero | src/R2.cpp:76-78 | the norm vanishes only at the origin |
| Math.NormUnique | src/R2.cpp:76-78 | the norm has one value, the non-negative square root |
| Math.NormComparisons | src/R2.cpp:76-78 | the squared comparisons hold exactly when the norm is below or above the bound |
| Math.NormOfNegation | src/R2.cpp:76-78 | `norm(-v) == norm(v)` |
| Math.NormOfZero | src/R2.cpp:76-78 | `norm((0, 0)) == 0`, and 0 is its only norm |
| Math.NormExamples | src/R2.cpp:76-78 | `norm((3, 4)) == 5` and `norm((-3, -4)) == 5` |
| Math.NormSqScaled | src/R2.cpp:76-78 | halving a vector divides its squared norm by 4, and doubling multiplies it by 4 |
| Math.DistanceSymmetric | src/R2.cpp:80-82 | distance is symmetric |
| Math.DistanceToSelf | src/R2.cpp:80-82 | `distance(v, v) == 0` |
| Math.DistanceLessSelf | src/R2.cpp:80-82 | a vector is strictly closer to itself than `d` exactly when `d > 0` |
| Math.DistanceZero | src/R2.cpp:80-82 | distance zero means the same point |
| Math.DistanceExample | src/R2.cpp:80-82 | `distance((1,2), (4,6)) == 5` |
| Math.SumPermutation | src/boid.cpp:32-37 | the accumulated sum of vectors does not depend on their order |
| Boids.MutableBoid.constructor | src/boid.cpp:11 | the two-vector constructor stores `r` and `v` |
| Boids.MutableBoid.FromScalars | src/boid.cpp:12-13 | the four-scalar constructor builds the boid `({r_x, r_y}, {v_x, v_y})` |
| Boids.MutableBoid.Position | src/boid.cpp:15 | the getter `r()` returns the position of the boid held |
| Boids.MutableBoid.Velocity | src/boid.cpp:17 | the getter `v()` returns the velocity of the boid held |
| Boids.MutableBoid.SetPosition | src/boid.cpp:16 | the setter stores `r` and leaves `v` unchanged |
| Boids.MutableBoid.SetVelocity | src/boid.cpp:18 | the setter stores `v` and leaves `r` unchanged |
| Boids.ConstructorsAgree | src/boid.cpp:11-13 | both constructors give the same boid from the same coordinates |
| Boids.SettersThenGetters | src/boid.cpp:15-18 | the getters return what the setters stored |
| Boids.DistanceIgnoresVelocity | src/boid.cpp:20-22 | boid distance, and being closer than `d`, depend only on the positions |
| Boids.SamePositionDistanceZero | src/boid.cpp:20-22 | two boids at the same position are at distance 0 |
| Boids.SamePositionCloser | src/boid.cpp:20-22 | a boid at the same position is closer than `d` exactly when `d > 0` |
| Boids.DistanceExampleNear | src/boid.cpp:20-22 | the squared distance between `(1,3)` and `(2,4)` is 2 |
| Boids.DistanceExampleFar | src/boid.cpp:20-22 | the squared distance between `(1,3)` and `(-5,-3)` is 72 |
| Boids.CalculateCDM | src/boid.cpp:24-39 | the `+=` accumulation over the flock gives `(sum of positions - fixed.r) / (n - 1)`, for `n > 1` |
| Boids.CenterOfMassOfMember | src/boid.cpp:24-39 | when the fixed boid is the `i`-th member, the centre of mass is the mean position of the other `n - 1` members |
| Boids.CenterOfMassOfGathering | src/boid.cpp:24-39 | when all the other members sit at one point, that point is the centre of mass |
| Boids.CenterOfMassExample | src/boid.cpp:24-39 | the centre of mass of a four-boid flock, excluding the boid at `(0, 7)`, is `(3, 16/3)` |
| Boids.CenterOfMassPermutation | src/boid.cpp:24-39 | the centre of mass does not depend on the order of the flock |
| Boids.PositionsPermutation | src/boid.cpp:32-37 | reordering the flock reorders its positions |
| Boids.VelocitiesPermutation | src/flock.cpp:71-76 | reordering the flock reorders its velocities |
| Boids.GetNeighborhood | src/boid.cpp:41-50 | the `push_back` loop returns the members strictly closer than `d`, in flock order |
| Boids.Neighborhood | src/boid.cpp:41-50 | the filtered neighbourhood is never longer than the flock |
| Boids.NeighborhoodAppend | src/boid.cpp:41-50 | the neighbourhood of a concatenation is the concatenation of the neighbourhoods, so flock order is kept |
| Boids.NeighborhoodCount | src/boid.cpp:41-50 | a boid occurs in the neighbourhood as often as in the flock if it is closer than `d`, and otherwise not at all |
| Boids.NeighborhoodMembers | src/boid.cpp:41-50 | a boid is a neighbour exactly when it is a member closer than `d` |
| Boids.NeighborhoodSmaller | src/boid.cpp:41-50 | the neighbourhood is a sub-multiset of the flock, so it is never larger |
| Boids.NeighborhoodPermutation | src/boid.cpp:41-50 | reordering the flock reorders the neighbourhood |
| Boids.BoundaryExcluded | src/boid.cpp:45 | a boid at distance exactly `d` is not a neighbour |
| Boids.NeighborhoodIncludesSelf | src/boid.cpp:45 | a member is in its own neighbourhood whenever `d > 0`, so the neighbourhood is non-empty |
| Boids.CloserThanBoth | src/boid.cpp:45 | being closer than both `d1` and `d2` is being closer than `min(d1, d2)` |
| Boids.NeighborhoodCompose | src/boid.cpp:41-50 | the `d2`-neighbourhood of the `d1`-neighbourhood is the `min(d1, d2)`-neighbourhood |
| Parameters.DefaultWeights | include/flock.hpp:9-14 | the defaults are 120 boids, `s = 0.5`, `a = 0.6`, `c = 0.02`, `d_s = 1`, `d = 9`, with `d_s < d` |
| Parameters.DefaultWorld | include/flock.hpp:15-18 | the default world is `[0, 176] x [0, 99]`, a proper rectangle |
| Parameters.DefaultSpeedBand | include/flock.hpp:19-20 | the default speed band is `[20, 80]`, with `min <= max` and `max >= 2·min` |
| Parameters.PositionalOrder | include/flock.hpp:8-21 | positional initialisers fill the fields in the record's declaration order |
| Boundary.TeleportToroidally | src/flock.cpp:12-29 | the four in-place checks, y then x, leave the wrapped position in `r` and return it |
| Boundary.Teleported | src/flock.cpp:12-29 | the wrapped position leaves a position inside the world where it is |
| Boundary.InsideUnchanged | src/flock.cpp:12-29 | a position inside the world is unchanged |
| Boundary.WrapShiftsByOnePeriod | src/flock.cpp:15-27 | each coordinate moves by nothing or by exactly one world size (on y, when `upper >= 0`) |
| Boundary.UpperWrapAgreesWithRightWrap | src/flock.cpp:15-17 | with `upper >= 0`, the y rule's `|y|` gives `bottom + (y - upper)`, like the x rule |
| Boundary.UpperWrapWithNegativeBound | src/flock.cpp:15-17 | with a negative upper bound, the y rule can leave the point above the world |
| Boundary.OvershootLandsInside | src/flock.cpp:12-29 | in a proper rectangle (`left < right`, `bottom < upper`) with `upper >= 0`, an overshoot of at most one world size on either side lands inside the world |
| Boundary.WrapIsSinglePass | src/flock.cpp:22-24 | an overshoot of two world widths is wrapped once and stays outside |
| Boundary.TeleportExamples | src/flock.cpp:12-29 | in `[0,10]²`, `(-1,3)→(9,3)`, `(1,-3)→(1,7)`, `(-3,-4)→(7,6)` and `(17,16)→(7,6)` |
| Boundary.LimitedSpeed | src/flock.cpp:34-47 | under `CanLimit` the recursion ends inside the band, and returns an input already in the band unchanged |
| Boundary.LimitSpeed | src/flock.cpp:34-47 | halving or doubling in place until the norm is in the band leaves the recursion's result in `v` |
| Boundary.LimitedSpeedInBand | src/flock.cpp:37-45 | a speed in the band, either limit included, is its own limit |
| Boundary.LimitSpeedLoopStep | src/flock.cpp:37-44 | one halving or doubling outside the band keeps the limit and reduces the excess |
| Boundary.LimitedSpeedStep | src/flock.cpp:37-44 | above the band, the limit is the limit of the halved vector; below it, of the doubled vector |
| Boundary.HalvingStep | src/flock.cpp:37-39 | halving a limitable vector above the band keeps it limitable, reduces the excess, and does not bring it below the minimum |
| Boundary.DoublingStep | src/flock.cpp:42-44 | doubling a limitable vector below the band keeps it limitable, reduces the excess, and does not bring it above the maximum |
| Boundary.LimitedSpeedIsPowerOfTwoMultiple | src/flock.cpp:34-47 | the result is `2^k` times the input for some integer `k`, with `2^k > 0`, so the direction is kept |
| Boundary.NarrowBandCanStillEnd | src/flock.cpp:34-47 | in the band `[10, 15]`, `(24, 0)` is outside `CanLimit` yet is halved once to `(12, 0)`, which is in the band |
| Boundary.RestBelowPositiveMinimum | src/flock.cpp:42-44 | a velocity at rest is below a positive minimum speed |
| Boundary.RestCannotBeLimited | src/flock.cpp:42-44 | a velocity at rest, with a positive minimum, stays at rest when doubled and is never brought into the band |
| Boundary.BandBoundsComponents | src/flock.cpp:34-47 | each component of an in-band velocity is at most the maximum speed |
| Boundary.LimitSpeedKeepsBandExamples | src/flock.cpp:34-47 | in the band `[1, 5]`, `(2,2)`, `(5,0)` and `(1,0)` come back unchanged |
| Boundary.LimitSpeedHalvingExample | src/flock.cpp:37-39 | in the band `[1, 5]`, `(8,8)` is halved twice to `(2,2)` |
| Boundary.LimitSpeedDoublingExample | src/flock.cpp:42-44 | in the band `[1, 5]`, `(0.5,0.5)` is doubled to `(1,1)` |
| Steering.CalculateSeparation | src/flock.cpp:50-63 | the `+=` loop over the close members gives `-(sum of r_j - r_i) * s` |
| Steering.SeparationSumByNeighbours | src/flock.cpp:55-60 | the sum of close offsets is the sum of the close members' positions minus `r_i` once per close member |
| Steering.SeparationSumAppend | src/flock.cpp:55-60 | the separation sum over a concatenation adds the two sums |
| Steering.SeparationIgnoresSamePosition | src/flock.cpp:57-58 | a member at the boid's own position, the boid itself included, contributes nothing |
| Steering.NoCloseNeighbourNoSeparation | src/flock.cpp:50-63 | with no close member away from the boid's position, separation is the zero vector |
| Steering.SeparationOnNeighbourhood | src/flock.cpp:107-108 | separation over the `d`-neighbourhood equals separation over the flock with radius `min(d, d_s)` |
| Steering.SeparationPermutation | src/flock.cpp:50-63 | separation does not depend on the order of the flock |
| Steering.CalculateAlignment | src/flock.cpp:66-85 | the velocity accumulation gives `a * ((sum v - v_i) / (n - 1) - v_i)` for `n > 1` |
| Steering.AlignmentOfMember | src/flock.cpp:66-85 | alignment steers the `i`-th member towards the mean velocity of the others |
| Steering.AlignmentOfUnison | src/flock.cpp:66-85 | a flock moving in unison exerts no alignment |
| Steering.AlignmentPermutation | src/flock.cpp:66-85 | alignment does not depend on the order of the flock |
| Steering.CalculateCohesion | src/flock.cpp:88-92 | cohesion is `c * (CDM - r_i)`, computed through `calculate_CDM` |
| Steering.CohesionOfMember | src/flock.cpp:88-92 | cohesion steers the `i`-th member towards the mean position of the others |
| Steering.CohesionOfGathering | src/flock.cpp:88-92 | when the others sit at one point, cohesion is `c` times the offset to it |
| Evolution.EvolvedBoid | src/flock.cpp:95-125 | the evolved velocity is the clamp of the steered velocity, and it is always in the speed band |
| Evolution.EvolveBoid | src/flock.cpp:95-125 | the boid is set to `wrap(r + v·dt)` and `clamp(v + sep + align + coh)` (or `clamp(v)` when `n <= 1`) through its setters, and returned |
| Evolution.EvolveFlock | src/flock.cpp:129-147 | the array ends as the evolved snapshot: same length and order, element `i` evolved against its neighbourhood in the flock before the step |
| Evolution.EvolvedFlock | src/flock.cpp:129-147 | the flock after a step has as many boids as before |
| Evolution.EvolvedFlockElement | src/flock.cpp:137-143 | the `i`-th boid after the step is the `i`-th before it, evolved against the snapshot |
| Evolution.DisplacementBound | src/flock.cpp:99 | a velocity with components at most `m` moves a boid by at most `m·dt` along each axis |
| Evolution.MoveStaysInWorld | src/flock.cpp:99-119 | a boid in the world with an in-band speed is in the world after moving and wrapping, when `max·dt` fits the world |
| Evolution.EvolveFlockKeepsInvariant | src/flock.cpp:129-147 | when every boid can be evolved (`CanEvolveFlock`) and the step fits the world (`StepFitsWorld`: a proper rectangle with `upper >= 0`, `dt >= 0`, `max >= 0`, and `max·dt` at most the width and the height), every boid in the world with an in-band speed stays so through a step |
| Evolution.EvolvedSpeedsInBand | src/flock.cpp:129-147 | after a step every speed is in the band, whatever it was before |
| Evolution.NeighbourhoodCountsSelf | src/flock.cpp:141 | with `d > 0`, the neighbourhood a boid is evolved against holds the boid itself |
| Evolution.NoCloseMembers | src/boid.cpp:41-50 | a flock without members closer than `d` has an empty neighbourhood |
| Evolution.IsolatedNeighbourhood | src/flock.cpp:141 | without other members closer than `d`, the neighbourhood holds at most the boid itself |
| Evolution.IsolatedBoidMovesStraight | src/flock.cpp:103-122 | a boid without other neighbours is not steered: it keeps its in-band velocity, whatever the band's width, and only moves and wraps |
| Evolution.SteeredVelocityPermutation | src/flock.cpp:103-115 | the steered velocity does not depend on the order of the flock |
| Evolution.CanEvolveFlockPermutation | src/flock.cpp:129-147 | a reordered flock can be evolved whenever the original can |
| Evolution.EvolvedFlockOrderIndependent | src/flock.cpp:129-147 | reordering an evolvable flock before a step keeps it evolvable and reorders it after: each boid evolves to the same boid wherever it stands |
| Evolution.CreateFlock | src/flock.cpp:150-169 | produces `boids_number` boids in draw order, all inside the world when the samples lie in their distributions' ranges |
| Evolution.RestIsDrawnWithDefaults | src/flock.cpp:155-165 | with the defaults, a boid at rest is a possible draw |
| Evolution.RestIsOutsideDefaultBand | src/flock.cpp:155-165 | with the defaults, a spawned boid at rest is below the speed band and outside `CanLimit`, and doubling leaves it at rest, so the clamp never brings it into the band |

## Left out

- Floating point. The model computes over exact reals. IEEE rounding, NaN and
  infinity, and the tolerances of the program's tests are not modelled. The
  order-independence results (`Math.SumPermutation`,
  `Steering.SeparationPermutation`, `Steering.AlignmentPermutation`,
  `Evolution.EvolvedFlockOrderIndependent` and the lemmas they rest on) hold
  only over exact reals. In the program's doubles, rounding makes the sums
  depend on the order of the flock. They are claims about the algorithm, not
  about the compiled binary.
- Division by zero. `Math.Div` and `Math.MutableR2.DivAssign` require a
  non-zero divisor. The program would yield infinities or NaN instead.
- Square roots. They are not computed. Every norm and distance comparison is
  stated on squares, and `IsNorm` relates a value to its norm.
- `Boundary.LimitedSpeed`, `Boundary.LimitSpeed`, `Evolution.EvolvedBoid`,
  `Evolution.EvolveBoid`, `Evolution.EvolvedFlock` and `Evolution.EvolveFlock`
  require `CanLimit`, `CanEvolve` or `CanEvolveFlock`, conditions under which
  the clamp is proved to end. They are sufficient, not necessary. Inputs
  outside them whose recursion still ends are not modelled: an out-of-band
  speed in a band narrower than `max >= 2·min`, like 24 in `[10, 15]`
  (`Boundary.NarrowBandCanStillEnd`). No band the program uses is that
  narrow. With its bands the one input left out is a velocity at rest with a
  positive minimum, on which the program indeed recurses without end
  (`Boundary.RestCannotBeLimited`).
- `Steering.Alignment`, `Steering.Cohesion` and `Boids.CenterOfMass` require
  `n > 1`. The program only asserts it, and with assertions disabled it would
  divide by zero.
- `Evolution.CreateFlock` takes its samples as a parameter, in the order x, y,
  vx, vy. `std::random_device`, the generator and the distributions are not
  modelled. The order in which C++ evaluates the four arguments of
  `emplace_back` is unspecified, so which sample becomes which coordinate is
  not fixed.
- `Evolution.CreateFlock` requires `boids_number >= 0`. With a negative count
  the program's `reserve` throws.
- `n` in `evolve_boid` and `calculate_alignment` is converted from the
  vector's size to `int` or `double`. That conversion is not modelled: `n` is
  the sequence length.
- `include/R2.hpp` declares `operator/` on two vectors, while `src/R2.cpp`
  defines it on a vector and a `double`. The model follows the definition.
  `include/R2.hpp` is not part of this model.
- The `view::` statistics in `src/boid.cpp` are left out. These are means and
  standard deviations of distances and speeds, used only for display.
- Rendering, the console prompts and `main` are left out; they are input and
  output only.
- The stale root-level copies `boid.cpp`, `boid.hpp`, `flock.hpp` and
  `test.cpp` are not modelled. They duplicate the code under `src/` and
  `include/`.
- Some concrete test scenarios are not restated as lemmas: the neighbourhood
  sizes for radii 2 and 0.1, the separation, alignment and cohesion values on
  five-boid flocks, and the evolve examples. The general lemmas above cover
  the behaviour those tests check.
- Aliasing between a `MutableR2` or `MutableBoid` and other objects is not
  modelled. Each is a fresh local in the code that uses it, as in the program.
