/**
 * One step of the simulation: `evolve_boid` moves a boid by its velocity,
 * wraps the new position and steers and clamps the velocity against a flock;
 * `evolve_flock` evolves every boid of the flock against its neighbourhood in
 * the flock as it was before the step, then replaces the whole flock.
 * `create_flock` builds the initial flock from drawn samples.
 */
module Evolution {
  import opened Math
  import opened Parameters
  import opened Boids
  import opened Boundary
  import opened Steering

  // ---------------------------------------------------------------------------
  // evolve_boid
  // ---------------------------------------------------------------------------

  /** `r + v * delta_t`, the position before the wrap. */
  function MovedPosition(b: Boid, dt: real): R2 {
    Add(b.r, Mul(b.v, dt))
  }

  /**
   * The velocity handed to `limit_speed`: with more than one boid in the
   * flock, `v` plus separation, alignment and cohesion; otherwise `v`.
   */
  function SteeredVelocity(flock: seq<Boid>, b: Boid, p: RunningParameters): R2 {
    if |flock| > 1 then
      Add(b.v, Add(Add(Separation(b, flock, p.s, p.ds), Alignment(b, flock, p.a)), Cohesion(b, flock, p.c)))
    else b.v
  }

  /** `limit_speed` ends on the steered velocity. */
  predicate CanEvolve(flock: seq<Boid>, b: Boid, p: RunningParameters) {
    CanLimit(SteeredVelocity(flock, b, p), p)
  }

  /** The boid `evolve_boid(flock, b, dt, p)` produces: its velocity is always in the speed band. */
  function EvolvedBoid(flock: seq<Boid>, b: Boid, dt: real, p: RunningParameters): (e: Boid)
    requires CanEvolve(flock, b, p)
    ensures InSpeedBand(e.v, p)
    ensures e.v == LimitedSpeed(SteeredVelocity(flock, b, p), p)
  {
    Boid(Teleported(MovedPosition(b, dt), p), LimitedSpeed(SteeredVelocity(flock, b, p), p))
  }

  /**
   * `evolve_boid(flock, b, dt, p)`: computes the new position and velocity
   * from the old ones, writes them into `b` through its setters and returns
   * the updated boid.
   */
  method EvolveBoid(flock: seq<Boid>, b: MutableBoid, dt: real, p: RunningParameters) returns (result: Boid)
    requires CanEvolve(flock, b.Value(), p)
    modifies b
    ensures b.Value() == EvolvedBoid(flock, old(b.Value()), dt, p)
    ensures result == b.Value()
  {
    ghost var original := b.Value();
    var moved := Add(b.Position(), Mul(b.Velocity(), dt));
    var newR := new MutableR2(moved.x, moved.y);
    var newV := new MutableR2(b.Velocity().x, b.Velocity().y);
    var n := |flock|;
    if n > 1 {
      var separationVelocity := CalculateSeparation(b.Value(), flock, p.s, p.ds);
      var alignmentVelocity := CalculateAlignment(b.Value(), flock, p.a);
      var cohesionVelocity := CalculateCohesion(b.Value(), flock, p.c);
      var _ := newV.AddAssign(Add(Add(separationVelocity, alignmentVelocity), cohesionVelocity));
    }
    assert newV.Value() == SteeredVelocity(flock, original, p);
    var wrapped := TeleportToroidally(newR, p);
    b.SetPosition(wrapped);
    var limited := LimitSpeed(newV, p);
    b.SetVelocity(limited);
    result := b.Value();
  }

  // ---------------------------------------------------------------------------
  // evolve_flock
  // ---------------------------------------------------------------------------

  /** The neighbourhood the update step evolves the `i`-th boid against. */
  function NeighbourhoodOf(flock: seq<Boid>, i: nat, p: RunningParameters): seq<Boid>
    requires i < |flock|
  {
    Neighborhood(flock, flock[i], p.d)
  }

  /** `limit_speed` ends for every boid of the flock. */
  predicate CanEvolveFlock(flock: seq<Boid>, p: RunningParameters) {
    forall i :: 0 <= i < |flock| ==> CanEvolve(NeighbourhoodOf(flock, i, p), flock[i], p)
  }

  /**
   * The flock after `evolve_flock(flock, dt, p)`: as many boids, in the same
   * order, the `i`-th evolved against its `d`-neighbourhood in the flock
   * before the step.
   */
  function EvolvedFlock(flock: seq<Boid>, dt: real, p: RunningParameters): (next: seq<Boid>)
    requires CanEvolveFlock(flock, p)
    ensures |next| == |flock|
  {
    seq(|flock|, i requires 0 <= i < |flock| => EvolvedBoid(NeighbourhoodOf(flock, i, p), flock[i], dt, p))
  }

  /**
   * `evolve_flock(flock, dt, p)`: every boid is copied, evolved against its
   * neighbourhood in the unchanged flock and appended to a new vector, which
   * then replaces the flock as a whole.
   */
  method EvolveFlock(flock: array<Boid>, dt: real, p: RunningParameters)
    requires CanEvolveFlock(flock[..], p)
    modifies flock
    ensures flock[..] == EvolvedFlock(old(flock[..]), dt, p)
  {
    ghost var before := flock[..];
    var evolvedFlock: seq<Boid> := [];
    for i := 0 to flock.Length
      invariant flock[..] == before
      invariant |evolvedFlock| == i
      invariant forall j :: 0 <= j < i ==> evolvedFlock[j] == EvolvedFlock(before, dt, p)[j]
    {
      var boidToEvolve := new MutableBoid(flock[i].r, flock[i].v);
      var neighbourhood := GetNeighborhood(flock[..], flock[i], p.d);
      assert CanEvolve(NeighbourhoodOf(before, i, p), before[i], p);
      var evolved := EvolveBoid(neighbourhood, boidToEvolve, dt, p);
      evolvedFlock := evolvedFlock + [evolved];
    }
    forall k | 0 <= k < flock.Length {
      flock[k] := evolvedFlock[k];
    }
  }

  /** The `i`-th boid after the step is the `i`-th boid before it, evolved against the snapshot. */
  lemma EvolvedFlockElement(flock: seq<Boid>, dt: real, p: RunningParameters, i: nat)
    requires CanEvolveFlock(flock, p) && i < |flock|
    ensures EvolvedFlock(flock, dt, p)[i] == EvolvedBoid(NeighbourhoodOf(flock, i, p), flock[i], dt, p)
  {
  }

  // ---------------------------------------------------------------------------
  // What a step preserves
  // ---------------------------------------------------------------------------

  /** Every boid lies in the world and moves with a speed in the band. */
  predicate FlockInWorldAndBand(flock: seq<Boid>, p: RunningParameters) {
    forall i :: 0 <= i < |flock| ==> InWorld(flock[i].r, p) && InSpeedBand(flock[i].v, p)
  }

  /**
   * A time step short enough that a boid at the maximum speed moves by no
   * more than one world width or height, in a world whose upper bound is not
   * negative (the y wrap's use of `|y|` needs it).
   */
  predicate StepFitsWorld(dt: real, p: RunningParameters) {
    WorldIsRectangle(p) && p.upperBound >= 0.0 && dt >= 0.0 && p.maximumVelocity >= 0.0 &&
    Product(p.maximumVelocity, dt) <= p.rightBound - p.leftBound &&
    Product(p.maximumVelocity, dt) <= p.upperBound - p.bottomBound
  }

  /** A velocity with components of at most `m` moves a boid by at most `m * dt` along each axis. */
  lemma DisplacementBound(v: R2, m: real, dt: real)
    requires -m <= v.x <= m && -m <= v.y <= m && dt >= 0.0
    ensures -Product(m, dt) <= Mul(v, dt).x <= Product(m, dt)
    ensures -Product(m, dt) <= Mul(v, dt).y <= Product(m, dt)
  {
    ProductMonotone(dt, v.x, m);
    ProductMonotone(dt, -m, v.x);
    ProductMonotone(dt, v.y, m);
    ProductMonotone(dt, -m, v.y);
    assert Product(dt, -m) == -Product(m, dt);
    assert Product(dt, v.x) == Mul(v, dt).x && Product(dt, v.y) == Mul(v, dt).y;
    assert Product(dt, m) == Product(m, dt);
  }

  /** A boid inside the world with a speed in the band is inside the world after the move and wrap. */
  lemma MoveStaysInWorld(b: Boid, dt: real, p: RunningParameters)
    requires InWorld(b.r, p) && InSpeedBand(b.v, p) && StepFitsWorld(dt, p)
    ensures InWorld(Teleported(MovedPosition(b, dt), p), p)
  {
    BandBoundsComponents(b.v, p);
    DisplacementBound(b.v, p.maximumVelocity, dt);
    OvershootLandsInside(MovedPosition(b, dt), p);
  }

  /** A step keeps every boid in the world and every speed in the band. */
  lemma EvolveFlockKeepsInvariant(flock: seq<Boid>, dt: real, p: RunningParameters)
    requires FlockInWorldAndBand(flock, p) && CanEvolveFlock(flock, p) && StepFitsWorld(dt, p)
    ensures FlockInWorldAndBand(EvolvedFlock(flock, dt, p), p)
  {
    forall i | 0 <= i < |flock|
      ensures InWorld(EvolvedFlock(flock, dt, p)[i].r, p)
    {
      MoveStaysInWorld(flock[i], dt, p);
    }
  }

  /** Whatever the flock, the velocity after a step is in the band. */
  lemma EvolvedSpeedsInBand(flock: seq<Boid>, dt: real, p: RunningParameters)
    requires CanEvolveFlock(flock, p)
    ensures forall i :: 0 <= i < |flock| ==> InSpeedBand(EvolvedFlock(flock, dt, p)[i].v, p)
  {
    forall i | 0 <= i < |flock|
      ensures InSpeedBand(EvolvedFlock(flock, dt, p)[i].v, p)
    {
      EvolvedFlockElement(flock, dt, p, i);
    }
  }

  // ---------------------------------------------------------------------------
  // Neighbourhoods in a step
  // ---------------------------------------------------------------------------

  /** With a positive radius, the count `n` of `evolve_boid` includes the boid itself. */
  lemma NeighbourhoodCountsSelf(flock: seq<Boid>, i: nat, p: RunningParameters)
    requires i < |flock| && p.d > 0.0
    ensures flock[i] in NeighbourhoodOf(flock, i, p)
  {
    NeighborhoodIncludesSelf(flock, flock[i], p.d);
  }

  /** A neighbourhood without close members is empty. */
  lemma NoCloseMembers(flock: seq<Boid>, fixed: Boid, d: real)
    requires forall k :: 0 <= k < |flock| ==> !Closer(fixed, flock[k], d)
    ensures Neighborhood(flock, fixed, d) == []
  {
    if Neighborhood(flock, fixed, d) != [] {
      NeighborhoodMembers(flock, fixed, d, Neighborhood(flock, fixed, d)[0]);
    }
  }

  /**
   * A boid with no other member closer than `d` is steered by nothing: it
   * keeps an in-band velocity and only moves and wraps.
   */
  lemma IsolatedBoidMovesStraight(flock: seq<Boid>, i: nat, dt: real, p: RunningParameters)
    requires i < |flock|
    requires forall j :: 0 <= j < |flock| && j != i ==> !Closer(flock[i], flock[j], p.d)
    requires InSpeedBand(flock[i].v, p)
    ensures CanEvolve(NeighbourhoodOf(flock, i, p), flock[i], p)
    ensures EvolvedBoid(NeighbourhoodOf(flock, i, p), flock[i], dt, p) ==
      Boid(Teleported(MovedPosition(flock[i], dt), p), flock[i].v)
  {
    IsolatedNeighbourhood(flock, i, p);
    assert SteeredVelocity(NeighbourhoodOf(flock, i, p), flock[i], p) == flock[i].v;
    LimitedSpeedInBand(flock[i].v, p);
  }

  /** Without other close members, the neighbourhood holds at most the boid itself. */
  lemma IsolatedNeighbourhood(flock: seq<Boid>, i: nat, p: RunningParameters)
    requires i < |flock|
    requires forall j :: 0 <= j < |flock| && j != i ==> !Closer(flock[i], flock[j], p.d)
    ensures |NeighbourhoodOf(flock, i, p)| <= 1
  {
    var b := flock[i];
    var before, after := flock[..i], flock[i + 1..];
    assert flock == before + [b] + after;
    NeighborhoodAppend(before + [b], after, b, p.d);
    NeighborhoodAppend(before, [b], b, p.d);
    forall k | 0 <= k < |before|
      ensures !Closer(b, before[k], p.d)
    {
      assert before[k] == flock[k];
    }
    NoCloseMembers(before, b, p.d);
    forall k | 0 <= k < |after|
      ensures !Closer(b, after[k], p.d)
    {
      assert after[k] == flock[i + 1 + k];
    }
    NoCloseMembers(after, b, p.d);
    assert |Neighborhood([b], b, p.d)| <= 1;
  }

  // ---------------------------------------------------------------------------
  // The order of the flock does not matter
  // ---------------------------------------------------------------------------

  /** Steering reads the flock only through its size and its sums, so not through its order. */
  lemma SteeredVelocityPermutation(f: seq<Boid>, g: seq<Boid>, b: Boid, p: RunningParameters)
    requires multiset(f) == multiset(g)
    ensures SteeredVelocity(f, b, p) == SteeredVelocity(g, b, p)
  {
    assert |f| == |multiset(f)| == |multiset(g)| == |g|;
    if |f| > 1 {
      SeparationPermutation(b, f, g, p.ds);
      AlignmentPermutation(b, f, g, p.a);
      CenterOfMassPermutation(f, g, b);
    }
  }

  /**
   * Reordering the flock before a step reorders the flock after it: each
   * boid evolves to the same boid wherever it stands in the vector.
   */
  lemma EvolvedFlockOrderIndependent(f: seq<Boid>, g: seq<Boid>, dt: real, p: RunningParameters, i: nat, j: nat)
    requires multiset(f) == multiset(g) && CanEvolveFlock(f, p)
    requires i < |f| && j < |g| && f[i] == g[j]
    ensures CanEvolveFlock(g, p)
    ensures EvolvedFlock(f, dt, p)[i] == EvolvedFlock(g, dt, p)[j]
  {
    CanEvolveFlockPermutation(f, g, p);
    EvolvedFlockElement(f, dt, p, i);
    EvolvedFlockElement(g, dt, p, j);
    NeighborhoodPermutation(f, g, f[i], p.d);
    SteeredVelocityPermutation(NeighbourhoodOf(f, i, p), NeighbourhoodOf(g, j, p), f[i], p);
  }

  /** A reordered flock can be evolved whenever the original can. */
  lemma CanEvolveFlockPermutation(f: seq<Boid>, g: seq<Boid>, p: RunningParameters)
    requires multiset(f) == multiset(g) && CanEvolveFlock(f, p)
    ensures CanEvolveFlock(g, p)
  {
    forall j | 0 <= j < |g|
      ensures CanEvolve(NeighbourhoodOf(g, j, p), g[j], p)
    {
      assert g[j] in multiset(g);
      var i :| 0 <= i < |f| && f[i] == g[j];
      NeighborhoodPermutation(f, g, f[i], p.d);
      SteeredVelocityPermutation(NeighbourhoodOf(f, i, p), NeighbourhoodOf(g, j, p), f[i], p);
    }
  }

  // ---------------------------------------------------------------------------
  // create_flock
  // ---------------------------------------------------------------------------

  /** The four samples `create_flock` draws for one boid: x, y, then the two velocity components. */
  datatype Draw = Draw(x: real, y: real, vx: real, vy: real)

  /**
   * Each sample lies in the half-open range of its uniform distribution:
   * `[left, right)`, `[bottom, upper)` and `[-2 min, max / 2)`.
   */
  predicate DrawInRange(draw: Draw, p: RunningParameters) {
    p.leftBound <= draw.x < p.rightBound && p.bottomBound <= draw.y < p.upperBound &&
    -p.minimumVelocity * 2.0 <= draw.vx < p.maximumVelocity / 2.0 &&
    -p.minimumVelocity * 2.0 <= draw.vy < p.maximumVelocity / 2.0
  }

  /** The boid `emplace_back` builds from one draw. */
  function Spawned(draw: Draw): Boid {
    Boid(R2(draw.x, draw.y), R2(draw.vx, draw.vy))
  }

  /**
   * `create_flock(p)` with its random samples as a parameter: `boids_number`
   * boids in draw order, all inside the world when the samples are in range.
   */
  method CreateFlock(p: RunningParameters, draws: seq<Draw>) returns (flock: seq<Boid>)
    requires p.boidsNumber >= 0 && |draws| == p.boidsNumber
    ensures |flock| == p.boidsNumber
    ensures forall i :: 0 <= i < |flock| ==> flock[i] == Spawned(draws[i])
    ensures (forall i :: 0 <= i < |draws| ==> DrawInRange(draws[i], p)) ==>
      forall i :: 0 <= i < |flock| ==> InWorld(flock[i].r, p)
  {
    flock := [];
    for i := 0 to p.boidsNumber
      invariant |flock| == i
      invariant forall k :: 0 <= k < i ==> flock[k] == Spawned(draws[k])
    {
      flock := flock + [Spawned(draws[i])];
    }
  }

  /** With the default parameters a boid at rest is a possible draw. */
  lemma RestIsDrawnWithDefaults()
    ensures DrawInRange(Draw(0.0, 0.0, 0.0, 0.0), Defaults)
  {
  }

  /**
   * Spawned speeds need not be in the band: with the default parameters a
   * boid at rest is below the minimum speed, and doubling leaves it at rest,
   * so `limit_speed` never brings it into the band.
   */
  lemma RestIsOutsideDefaultBand()
    ensures !InSpeedBand(Spawned(Draw(0.0, 0.0, 0.0, 0.0)).v, Defaults)
    ensures !CanLimit(Spawned(Draw(0.0, 0.0, 0.0, 0.0)).v, Defaults)
    ensures Mul(Spawned(Draw(0.0, 0.0, 0.0, 0.0)).v, 2.0) == Spawned(Draw(0.0, 0.0, 0.0, 0.0)).v
  {
    DefaultSpeedBand();
    RestCannotBeLimited(Defaults);
  }
}
