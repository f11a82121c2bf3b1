/**
 * The boid (`dynamics::Boid`) and the queries on a flock of boids: the distance
 * between two boids, the centre of mass of the other boids and the
 * neighbourhood of a boid.
 *
 * A flock (`std::vector<Boid>`) is a sequence of `Boid` values; `MutableBoid`
 * is a boid variable whose setters overwrite its fields.
 */
module Boids {
  import opened Math

  /** A boid: position `r` and velocity `v`. */
  datatype Boid = Boid(r: R2, v: R2)

  /** A boid variable, with the getters and setters of the class. */
  class MutableBoid {
    var r: R2
    var v: R2

    /** `Boid(R2 r, R2 v)` */
    constructor (r: R2, v: R2)
      ensures this.r == r && this.v == v
    {
      this.r := r;
      this.v := v;
    }

    /** `Boid(double r_x, double r_y, double v_x, double v_y)`, delegating to the two-vector constructor. */
    constructor FromScalars(rx: real, ry: real, vx: real, vy: real)
      ensures Value() == Boid(R2(rx, ry), R2(vx, vy))
    {
      r := R2(rx, ry);
      v := R2(vx, vy);
    }

    /** The boid currently held, as a value. */
    function Value(): Boid
      reads this
    {
      Boid(r, v)
    }

    /** The getter `r()`: the position of the boid held. */
    function Position(): (position: R2)
      reads this
      ensures position == Value().r
    {
      r
    }

    /** The getter `v()`: the velocity of the boid held. */
    function Velocity(): (velocity: R2)
      reads this
      ensures velocity == Value().v
    {
      v
    }

    /** The setter `r(new_r)`: the velocity is left alone. */
    method SetPosition(newR: R2)
      modifies this
      ensures Position() == newR && Velocity() == old(Velocity())
    {
      r := newR;
    }

    /** The setter `v(new_v)`: the position is left alone. */
    method SetVelocity(newV: R2)
      modifies this
      ensures Velocity() == newV && Position() == old(Position())
    {
      v := newV;
    }
  }

  /** Both constructors build the same boid from the same coordinates. */
  method ConstructorsAgree(rx: real, ry: real, vx: real, vy: real) returns (fromVectors: Boid, fromScalars: Boid)
    ensures fromVectors == fromScalars
    ensures fromScalars.r == R2(rx, ry) && fromScalars.v == R2(vx, vy)
  {
    var b1 := new MutableBoid(R2(rx, ry), R2(vx, vy));
    var b2 := new MutableBoid.FromScalars(rx, ry, vx, vy);
    fromVectors := b1.Value();
    fromScalars := b2.Value();
  }

  /** The getters return what the setters stored, whatever was there before. */
  method SettersThenGetters(initial: Boid, newR: R2, newV: R2) returns (r: R2, v: R2)
    ensures r == newR && v == newV
  {
    var b := new MutableBoid(initial.r, initial.v);
    b.SetPosition(newR);
    b.SetVelocity(newV);
    r := b.Position();
    v := b.Velocity();
  }

  // ---------------------------------------------------------------------------
  // Distance between boids
  // ---------------------------------------------------------------------------

  /** The square of `calculate_distance(b1, b2)`. */
  function BoidDistanceSq(b1: Boid, b2: Boid): real {
    DistanceSq(b1.r, b2.r)
  }

  /** `calculate_distance(b1, b2) < d` */
  predicate Closer(b1: Boid, b2: Boid, d: real) {
    DistanceLess(b1.r, b2.r, d)
  }

  /** `d` is the value of `calculate_distance(b1, b2)`. */
  predicate IsBoidDistance(b1: Boid, b2: Boid, d: real) {
    IsDistance(b1.r, b2.r, d)
  }

  /** The distance between boids depends on their positions only. */
  lemma DistanceIgnoresVelocity(b1: Boid, b2: Boid, v1: R2, v2: R2, d: real)
    ensures BoidDistanceSq(b1, b2) == BoidDistanceSq(Boid(b1.r, v1), Boid(b2.r, v2))
    ensures IsBoidDistance(b1, b2, d) <==> IsBoidDistance(Boid(b1.r, v1), Boid(b2.r, v2), d)
    ensures Closer(b1, b2, d) <==> Closer(Boid(b1.r, v1), Boid(b2.r, v2), d)
  {
  }

  /** Two boids at the same position are at distance zero, whatever their velocities. */
  lemma SamePositionDistanceZero(b1: Boid, b2: Boid)
    requires b1.r == b2.r
    ensures IsBoidDistance(b1, b2, 0.0)
  {
    DistanceToSelf(b1.r);
  }

  /** A boid at the same position is closer than every positive radius. */
  lemma SamePositionCloser(b1: Boid, b2: Boid, d: real)
    requires b1.r == b2.r
    ensures Closer(b1, b2, d) <==> d > 0.0
  {
    DistanceLessSelf(b1.r, d);
  }

  /** The program's example at distance `sqrt 2`. */
  lemma DistanceExampleNear()
    ensures BoidDistanceSq(Boid(R2(1.0, 3.0), R2(3.0, 9.0)), Boid(R2(2.0, 4.0), R2(-2.0, 0.0))) == 2.0
  {
  }

  /** The program's example at distance `6 sqrt 2`. */
  lemma DistanceExampleFar()
    ensures BoidDistanceSq(Boid(R2(1.0, 3.0), R2(3.0, 9.0)), Boid(R2(-5.0, -3.0), R2(6.0, 2.0))) == 72.0
  {
  }

  // ---------------------------------------------------------------------------
  // Centre of mass
  // ---------------------------------------------------------------------------

  /** The positions of a flock, in order. */
  function Positions(flock: seq<Boid>): (rs: seq<R2>)
    ensures |rs| == |flock| && forall i :: 0 <= i < |flock| ==> rs[i] == flock[i].r
  {
    seq(|flock|, i requires 0 <= i < |flock| => flock[i].r)
  }

  /** The velocities of a flock, in order. */
  function Velocities(flock: seq<Boid>): (vs: seq<R2>)
    ensures |vs| == |flock| && forall i :: 0 <= i < |flock| ==> vs[i] == flock[i].v
  {
    seq(|flock|, i requires 0 <= i < |flock| => flock[i].v)
  }

  /** The flock with its `i`-th member taken out. */
  function Without(flock: seq<Boid>, i: nat): (rest: seq<Boid>)
    requires i < |flock|
    ensures |rest| == |flock| - 1
  {
    flock[..i] + flock[i + 1..]
  }

  /**
   * `calculate_CDM(flock, fixed)`: the sum of all positions minus the fixed
   * boid's, divided by `n - 1`. The program asserts `n > 1`.
   */
  function CenterOfMass(flock: seq<Boid>, fixed: Boid): R2
    requires |flock| > 1
  {
    Mul(Sub(Sum(Positions(flock)), fixed.r), 1.0 / (|flock| as real - 1.0))
  }

  /** `calculate_CDM`, accumulating the positions into an `R2` with `+=`. */
  method CalculateCDM(flock: seq<Boid>, fixed: Boid) returns (cdm: R2)
    requires |flock| > 1
    ensures cdm == CenterOfMass(flock, fixed)
  {
    var n := |flock| as real;
    var massSum := new MutableR2.Origin();
    for i := 0 to |flock|
      invariant massSum.Value() == Sum(Positions(flock[..i]))
    {
      assert Positions(flock[..i + 1]) == Positions(flock[..i]) + [flock[i].r];
      var _ := massSum.AddAssign(flock[i].r);
    }
    assert flock[..|flock|] == flock;
    cdm := Mul(Sub(massSum.Value(), fixed.r), 1.0 / (n - 1.0));
  }

  /** Positions distribute over concatenation. */
  lemma PositionsAppend(a: seq<Boid>, b: seq<Boid>)
    ensures Positions(a + b) == Positions(a) + Positions(b)
  {
  }

  /** Taking out a boid takes out its position. */
  lemma PositionsWithout(flock: seq<Boid>, i: nat)
    requires i < |flock|
    ensures Positions(Without(flock, i)) == Positions(flock)[..i] + Positions(flock)[i + 1..]
  {
    PositionsAppend(flock[..i], flock[i + 1..]);
  }

  /** Velocities distribute over concatenation. */
  lemma VelocitiesAppend(a: seq<Boid>, b: seq<Boid>)
    ensures Velocities(a + b) == Velocities(a) + Velocities(b)
  {
  }

  /** Taking out a boid takes out its velocity. */
  lemma VelocitiesWithout(flock: seq<Boid>, i: nat)
    requires i < |flock|
    ensures Velocities(Without(flock, i)) == Velocities(flock)[..i] + Velocities(flock)[i + 1..]
  {
    VelocitiesAppend(flock[..i], flock[i + 1..]);
  }

  /** Reordering the flock reorders its positions. */
  lemma {:induction false} PositionsPermutation(f: seq<Boid>, g: seq<Boid>)
    requires multiset(f) == multiset(g)
    ensures multiset(Positions(f)) == multiset(Positions(g))
    decreases |f|
  {
    if |f| == 0 {
      assert |g| == |multiset(g)| == 0;
    } else {
      var init, last := f[..|f| - 1], f[|f| - 1];
      assert last in multiset(g);
      var j :| 0 <= j < |g| && g[j] == last;
      RemoveMatching(f, g, j);
      PositionsPermutation(init, Without(g, j));
      PositionsWithout(g, j);
      SplitAt(Positions(g), j);
      assert f == init + [last];
      PositionsAppend(init, [last]);
      assert Positions([last]) == [last.r];
    }
  }

  /** Reordering the flock reorders its velocities. */
  lemma {:induction false} VelocitiesPermutation(f: seq<Boid>, g: seq<Boid>)
    requires multiset(f) == multiset(g)
    ensures multiset(Velocities(f)) == multiset(Velocities(g))
    decreases |f|
  {
    if |f| == 0 {
      assert |g| == |multiset(g)| == 0;
    } else {
      var init, last := f[..|f| - 1], f[|f| - 1];
      assert last in multiset(g);
      var j :| 0 <= j < |g| && g[j] == last;
      RemoveMatching(f, g, j);
      VelocitiesPermutation(init, Without(g, j));
      VelocitiesWithout(g, j);
      SplitAt(Velocities(g), j);
      assert f == init + [last];
      VelocitiesAppend(init, [last]);
      assert Velocities([last]) == [last.v];
    }
  }

  /** The centre of mass does not depend on the order of the flock. */
  lemma CenterOfMassPermutation(f: seq<Boid>, g: seq<Boid>, fixed: Boid)
    requires multiset(f) == multiset(g) && |f| > 1
    ensures |g| == |f| && CenterOfMass(f, fixed) == CenterOfMass(g, fixed)
  {
    assert |f| == |multiset(f)| == |multiset(g)| == |g|;
    PositionsPermutation(f, g);
    SumPermutation(Positions(f), Positions(g));
  }

  /**
   * When the fixed boid is the `i`-th member, the centre of mass is the mean
   * position of the other `n - 1` boids.
   */
  lemma CenterOfMassOfMember(flock: seq<Boid>, i: nat)
    requires |flock| > 1 && i < |flock|
    ensures CenterOfMass(flock, flock[i]) == Mean(Positions(Without(flock, i)))
  {
    SumWithout(Positions(flock), i);
    PositionsWithout(flock, i);
  }

  /** When every other boid sits at one point, the centre of mass is that point. */
  lemma CenterOfMassOfGathering(flock: seq<Boid>, i: nat, p: R2)
    requires |flock| > 1 && i < |flock|
    requires forall j :: 0 <= j < |flock| && j != i ==> flock[j].r == p
    ensures CenterOfMass(flock, flock[i]) == p
  {
    CenterOfMassOfMember(flock, i);
    var others := Positions(Without(flock, i));
    assert forall k :: 0 <= k < |others| ==> others[k] == p by {
      forall k | 0 <= k < |others|
        ensures others[k] == p
      {
        if k < i {
          assert others[k] == flock[k].r;
        } else {
          assert others[k] == flock[k + 1].r;
        }
      }
    }
    MeanOfConstant(others, p);
  }

  /** The centre of mass in the program's four-boid example, seen from the first boid. */
  lemma CenterOfMassExample()
    ensures CenterOfMass([Boid(R2(0.0, 7.0), R2(1.0, 1.0)), Boid(R2(6.0, 5.0), R2(1.0, 1.0)),
                          Boid(R2(1.0, 9.0), R2(1.0, 1.0)), Boid(R2(2.0, 2.0), R2(-1.0, -1.0))],
                         Boid(R2(0.0, 7.0), R2(1.0, 1.0))) == R2(3.0, 16.0 / 3.0)
  {
    var flock := [Boid(R2(0.0, 7.0), R2(1.0, 1.0)), Boid(R2(6.0, 5.0), R2(1.0, 1.0)),
                  Boid(R2(1.0, 9.0), R2(1.0, 1.0)), Boid(R2(2.0, 2.0), R2(-1.0, -1.0))];
    assert Positions(flock) == [R2(0.0, 7.0), R2(6.0, 5.0), R2(1.0, 9.0), R2(2.0, 2.0)];
    SumOfFour(R2(0.0, 7.0), R2(6.0, 5.0), R2(1.0, 9.0), R2(2.0, 2.0));
    assert 1.0 / (|flock| as real - 1.0) == 1.0 / 3.0;
  }

  lemma SumOfFour(a: R2, b: R2, c: R2, d: R2)
    ensures Sum([a, b, c, d]) == Add(Add(Add(a, b), c), d)
  {
    SumPush([], a);
    assert [a] == [] + [a];
    SumPush([a], b);
    assert [a, b] == [a] + [b];
    SumPush([a, b], c);
    assert [a, b, c] == [a, b] + [c];
    SumPush([a, b, c], d);
    assert [a, b, c, d] == [a, b, c] + [d];
  }

  // ---------------------------------------------------------------------------
  // Neighbourhood
  // ---------------------------------------------------------------------------

  /** `get_neighborhood(flock, fixed, d)`: the members strictly closer than `d`, in order. */
  function Neighborhood(flock: seq<Boid>, fixed: Boid, d: real): (neighbours: seq<Boid>)
    ensures |neighbours| <= |flock|
  {
    if |flock| == 0 then []
    else
      var last := flock[|flock| - 1];
      Neighborhood(flock[..|flock| - 1], fixed, d) + (if Closer(fixed, last, d) then [last] else [])
  }

  /** `get_neighborhood`, pushing each close boid onto the result. */
  method GetNeighborhood(flock: seq<Boid>, fixed: Boid, d: real) returns (neighborhood: seq<Boid>)
    ensures neighborhood == Neighborhood(flock, fixed, d)
  {
    neighborhood := [];
    for i := 0 to |flock|
      invariant neighborhood == Neighborhood(flock[..i], fixed, d)
    {
      assert flock[..i + 1][..i] == flock[..i];
      if Closer(fixed, flock[i], d) {
        neighborhood := neighborhood + [flock[i]];
      }
    }
    assert flock[..|flock|] == flock;
  }

  /** The neighbourhood of a concatenation is the concatenation of the neighbourhoods. */
  lemma {:induction false} NeighborhoodAppend(a: seq<Boid>, b: seq<Boid>, fixed: Boid, d: real)
    ensures Neighborhood(a + b, fixed, d) == Neighborhood(a, fixed, d) + Neighborhood(b, fixed, d)
    decreases |b|
  {
    if |b| == 0 {
      assert a + b == a;
    } else {
      var b' := b[..|b| - 1];
      assert (a + b)[..|a + b| - 1] == a + b';
      NeighborhoodAppend(a, b', fixed, d);
    }
  }

  /**
   * Every boid occurs in the neighbourhood as often as in the flock when it is
   * closer than `d`, and not at all otherwise.
   */
  lemma {:induction false} NeighborhoodCount(flock: seq<Boid>, fixed: Boid, d: real, x: Boid)
    ensures multiset(Neighborhood(flock, fixed, d))[x] == if Closer(fixed, x, d) then multiset(flock)[x] else 0
  {
    if |flock| > 0 {
      var init := flock[..|flock| - 1];
      assert flock == init + [flock[|flock| - 1]];
      NeighborhoodCount(init, fixed, d, x);
    }
  }

  /** A boid is a neighbour exactly when it is a member closer than `d`. */
  lemma NeighborhoodMembers(flock: seq<Boid>, fixed: Boid, d: real, x: Boid)
    ensures x in Neighborhood(flock, fixed, d) <==> x in flock && Closer(fixed, x, d)
  {
    NeighborhoodCount(flock, fixed, d, x);
    assert x in Neighborhood(flock, fixed, d) <==> multiset(Neighborhood(flock, fixed, d))[x] > 0;
    assert x in flock <==> multiset(flock)[x] > 0;
  }

  /** The neighbourhood is a sub-multiset of the flock, so never larger. */
  lemma {:induction false} NeighborhoodSmaller(flock: seq<Boid>, fixed: Boid, d: real)
    ensures multiset(Neighborhood(flock, fixed, d)) <= multiset(flock)
    ensures |Neighborhood(flock, fixed, d)| <= |flock|
  {
    if |flock| > 0 {
      var init := flock[..|flock| - 1];
      assert flock == init + [flock[|flock| - 1]];
      NeighborhoodSmaller(init, fixed, d);
    }
  }

  /** Reordering the flock reorders the neighbourhood. */
  lemma NeighborhoodPermutation(f: seq<Boid>, g: seq<Boid>, fixed: Boid, d: real)
    requires multiset(f) == multiset(g)
    ensures multiset(Neighborhood(f, fixed, d)) == multiset(Neighborhood(g, fixed, d))
  {
    forall x
      ensures multiset(Neighborhood(f, fixed, d))[x] == multiset(Neighborhood(g, fixed, d))[x]
    {
      NeighborhoodCount(f, fixed, d, x);
      NeighborhoodCount(g, fixed, d, x);
    }
  }

  /** A boid exactly at distance `d` is not a neighbour. */
  lemma BoundaryExcluded(fixed: Boid, x: Boid, d: real)
    requires IsBoidDistance(fixed, x, d)
    ensures !Closer(fixed, x, d)
  {
  }

  /** A member is its own neighbour for every positive radius. */
  lemma NeighborhoodIncludesSelf(flock: seq<Boid>, fixed: Boid, d: real)
    requires fixed in flock && d > 0.0
    ensures fixed in Neighborhood(flock, fixed, d)
    ensures |Neighborhood(flock, fixed, d)| >= 1
  {
    SamePositionCloser(fixed, fixed, d);
    NeighborhoodMembers(flock, fixed, d, fixed);
  }

  /** Being closer than both radii is being closer than the smaller one. */
  lemma CloserThanBoth(fixed: Boid, x: Boid, d1: real, d2: real)
    ensures Closer(fixed, x, d1) && Closer(fixed, x, d2) <==> Closer(fixed, x, if d1 <= d2 then d1 else d2)
  {
    if 0.0 <= d1 <= d2 {
      SqMonotone(d1, d2);
    } else if 0.0 <= d2 <= d1 {
      SqMonotone(d2, d1);
    }
  }

  /** The `d2`-neighbourhood of the `d1`-neighbourhood is the neighbourhood of the smaller radius. */
  lemma {:induction false} NeighborhoodCompose(flock: seq<Boid>, fixed: Boid, d1: real, d2: real)
    ensures Neighborhood(Neighborhood(flock, fixed, d1), fixed, d2) == Neighborhood(flock, fixed, if d1 <= d2 then d1 else d2)
  {
    if |flock| > 0 {
      var init, last := flock[..|flock| - 1], flock[|flock| - 1];
      NeighborhoodCompose(init, fixed, d1, d2);
      NeighborhoodAppend(Neighborhood(init, fixed, d1), if Closer(fixed, last, d1) then [last] else [], fixed, d2);
      CloserThanBoth(fixed, last, d1, d2);
      assert [last][..0] == [];
    }
  }
}
