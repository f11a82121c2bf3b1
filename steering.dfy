/**
 * The three steering rules of a boid against a flock: separation (away from
 * the members that are too close), alignment (towards the mean velocity of
 * the others) and cohesion (towards the centre of mass of the others).
 */
module Steering {
  import opened Math
  import opened Boids

  // ---------------------------------------------------------------------------
  // Separation
  // ---------------------------------------------------------------------------

  /** The sum of the offsets `r_j - r_i` of the members closer than `ds`, accumulated in order. */
  function SeparationSum(b: Boid, flock: seq<Boid>, ds: real): R2 {
    if |flock| == 0 then Zero
    else
      var last := flock[|flock| - 1];
      var sum := SeparationSum(b, flock[..|flock| - 1], ds);
      if Closer(b, last, ds) then Add(sum, Sub(last.r, b.r)) else sum
  }

  /** `calculate_separation(b, flock, s, ds)`: the negated sum of close offsets, times `s`. */
  function Separation(b: Boid, flock: seq<Boid>, s: real, ds: real): R2 {
    Mul(Neg(SeparationSum(b, flock, ds)), s)
  }

  /** `calculate_separation`, accumulating the close offsets with `+=`. */
  method CalculateSeparation(b: Boid, flock: seq<Boid>, s: real, ds: real) returns (separation: R2)
    ensures separation == Separation(b, flock, s, ds)
  {
    var separationSum := new MutableR2.Origin();
    for i := 0 to |flock|
      invariant separationSum.Value() == SeparationSum(b, flock[..i], ds)
    {
      assert flock[..i + 1][..i] == flock[..i];
      if Closer(b, flock[i], ds) {
        var _ := separationSum.AddAssign(Sub(flock[i].r, b.r));
      }
    }
    assert flock[..|flock|] == flock;
    separation := Mul(Neg(separationSum.Value()), s);
  }

  /**
   * The separation sum is the sum of the close members' positions minus the
   * boid's own position once per close member.
   */
  lemma {:induction false} SeparationSumByNeighbours(b: Boid, flock: seq<Boid>, ds: real)
    ensures var close := Neighborhood(flock, b, ds);
      SeparationSum(b, flock, ds) == Sub(Sum(Positions(close)), Mul(b.r, |close| as real))
  {
    if |flock| == 0 {
      MulByZero(b.r);
      assert Sub(Zero, Zero) == Zero;
    } else {
      var init, last := flock[..|flock| - 1], flock[|flock| - 1];
      SeparationSumByNeighbours(b, init, ds);
      var close := Neighborhood(init, b, ds);
      if Closer(b, last, ds) {
        assert Neighborhood(flock, b, ds) == close + [last];
        PositionsAppend(close, [last]);
        assert Positions([last]) == [last.r];
        SumPush(Positions(close), last.r);
        OffsetSumStep(Sum(Positions(close)), last.r, b.r, |close| as real);
      } else {
        assert Neighborhood(flock, b, ds) == close;
      }
    }
  }

  /** The separation sum of a concatenation adds the two sums. */
  lemma {:induction false} SeparationSumAppend(b: Boid, f: seq<Boid>, g: seq<Boid>, ds: real)
    ensures SeparationSum(b, f + g, ds) == Add(SeparationSum(b, f, ds), SeparationSum(b, g, ds))
    decreases |g|
  {
    if |g| == 0 {
      assert f + g == f;
    } else {
      var g' := g[..|g| - 1];
      assert (f + g)[..|f + g| - 1] == f + g';
      SeparationSumAppend(b, f, g', ds);
    }
  }

  /** A member at the boid's own position, the boid itself in particular, contributes nothing. */
  lemma SeparationIgnoresSamePosition(b: Boid, flock: seq<Boid>, i: nat, ds: real)
    requires i < |flock| && flock[i].r == b.r
    ensures SeparationSum(b, flock, ds) == SeparationSum(b, Without(flock, i), ds)
  {
    var before, after := flock[..i], flock[i + 1..];
    assert flock == before + [flock[i]] + after;
    SeparationSumAppend(b, before + [flock[i]], after, ds);
    SeparationSumAppend(b, before, [flock[i]], ds);
    SeparationSumAppend(b, before, after, ds);
    assert [flock[i]][..0] == [];
    assert Sub(flock[i].r, b.r) == Zero;
  }

  /** With no member closer than `ds` other than at the boid's own position, separation is zero. */
  lemma {:induction false} NoCloseNeighbourNoSeparation(b: Boid, flock: seq<Boid>, s: real, ds: real)
    requires forall j :: 0 <= j < |flock| && Closer(b, flock[j], ds) ==> flock[j].r == b.r
    ensures SeparationSum(b, flock, ds) == Zero
    ensures Separation(b, flock, s, ds) == Zero
  {
    if |flock| > 0 {
      var init, last := flock[..|flock| - 1], flock[|flock| - 1];
      NoCloseNeighbourNoSeparation(b, init, s, ds);
      if Closer(b, last, ds) {
        assert Sub(last.r, b.r) == R2(b.r.x - b.r.x, b.r.y - b.r.y) == Zero;
        assert Add(Zero, Zero) == Zero;
      }
    }
    NegZero();
    assert Mul(Zero, s) == R2(0.0 * s, 0.0 * s);
  }

  /**
   * Separation computed on the `d`-neighbourhood, as the update step does,
   * equals separation on the whole flock with radius `min(d, ds)`.
   */
  lemma SeparationOnNeighbourhood(b: Boid, flock: seq<Boid>, d: real, ds: real)
    ensures SeparationSum(b, Neighborhood(flock, b, d), ds) == SeparationSum(b, flock, if d <= ds then d else ds)
  {
    SeparationSumByNeighbours(b, Neighborhood(flock, b, d), ds);
    SeparationSumByNeighbours(b, flock, if d <= ds then d else ds);
    NeighborhoodCompose(flock, b, d, ds);
  }

  /** The separation sum does not depend on the order of the flock. */
  lemma SeparationPermutation(b: Boid, f: seq<Boid>, g: seq<Boid>, ds: real)
    requires multiset(f) == multiset(g)
    ensures SeparationSum(b, f, ds) == SeparationSum(b, g, ds)
  {
    var closeF, closeG := Neighborhood(f, b, ds), Neighborhood(g, b, ds);
    SeparationSumByNeighbours(b, f, ds);
    SeparationSumByNeighbours(b, g, ds);
    NeighborhoodPermutation(f, g, b, ds);
    assert |closeF| == |multiset(closeF)| == |multiset(closeG)| == |closeG|;
    PositionsPermutation(closeF, closeG);
    SumPermutation(Positions(closeF), Positions(closeG));
  }

  // ---------------------------------------------------------------------------
  // Alignment
  // ---------------------------------------------------------------------------

  /**
   * `calculate_alignment(b, flock, a)`: `a` times the difference between the
   * mean velocity of the others, `(sum of velocities - v_b) / (n - 1)`, and
   * `v_b`. The program asserts `n > 1`.
   */
  function Alignment(b: Boid, flock: seq<Boid>, a: real): R2
    requires |flock| > 1
  {
    MulLeft(a, Sub(Mul(Sub(Sum(Velocities(flock)), b.v), 1.0 / (|flock| as real - 1.0)), b.v))
  }

  /** `calculate_alignment`, accumulating the velocities. */
  method CalculateAlignment(b: Boid, flock: seq<Boid>, a: real) returns (alignment: R2)
    requires |flock| > 1
    ensures alignment == Alignment(b, flock, a)
  {
    var n := |flock| as real;
    var velocitySum := new MutableR2.Origin();
    for i := 0 to |flock|
      invariant velocitySum.Value() == Sum(Velocities(flock[..i]))
    {
      assert Velocities(flock[..i + 1]) == Velocities(flock[..i]) + [flock[i].v];
      var _ := velocitySum.AddAssign(flock[i].v);
    }
    assert flock[..|flock|] == flock;
    var meanVelocity := Mul(Sub(velocitySum.Value(), b.v), 1.0 / (n - 1.0));
    alignment := MulLeft(a, Sub(meanVelocity, b.v));
  }

  /** For the `i`-th member, alignment steers towards the mean velocity of the other members. */
  lemma AlignmentOfMember(flock: seq<Boid>, i: nat, a: real)
    requires |flock| > 1 && i < |flock|
    ensures Alignment(flock[i], flock, a) == MulLeft(a, Sub(Mean(Velocities(Without(flock, i))), flock[i].v))
  {
    SumWithout(Velocities(flock), i);
    VelocitiesWithout(flock, i);
  }

  /** Alignment does not depend on the order of the flock. */
  lemma AlignmentPermutation(b: Boid, f: seq<Boid>, g: seq<Boid>, a: real)
    requires multiset(f) == multiset(g) && |f| > 1
    ensures |g| == |f| && Alignment(b, f, a) == Alignment(b, g, a)
  {
    assert |f| == |multiset(f)| == |multiset(g)| == |g|;
    VelocitiesPermutation(f, g);
    SumPermutation(Velocities(f), Velocities(g));
  }

  /** A flock moving in unison exerts no alignment. */
  lemma AlignmentOfUnison(flock: seq<Boid>, i: nat, a: real, w: R2)
    requires |flock| > 1 && i < |flock|
    requires forall j :: 0 <= j < |flock| ==> flock[j].v == w
    ensures Alignment(flock[i], flock, a) == Zero
  {
    AlignmentOfMember(flock, i, a);
    var others := Velocities(Without(flock, i));
    assert forall k :: 0 <= k < |others| ==> others[k] == w by {
      forall k | 0 <= k < |others|
        ensures others[k] == w
      {
        if k < i {
          assert others[k] == flock[k].v;
        } else {
          assert others[k] == flock[k + 1].v;
        }
      }
    }
    MeanOfConstant(others, w);
    assert Sub(w, w) == Zero;
    MulByZero(Zero);
    assert Mul(Zero, a) == Zero;
  }

  // ---------------------------------------------------------------------------
  // Cohesion
  // ---------------------------------------------------------------------------

  /** `calculate_cohesion(b, flock, c)`: `c` times the offset from the boid to the centre of mass of the others. */
  function Cohesion(b: Boid, flock: seq<Boid>, c: real): R2
    requires |flock| > 1
  {
    MulLeft(c, Sub(CenterOfMass(flock, b), b.r))
  }

  /** `calculate_cohesion`, through `calculate_CDM`. */
  method CalculateCohesion(b: Boid, flock: seq<Boid>, c: real) returns (cohesion: R2)
    requires |flock| > 1
    ensures cohesion == Cohesion(b, flock, c)
  {
    var cdm := CalculateCDM(flock, b);
    cohesion := MulLeft(c, Sub(cdm, b.r));
  }

  /** For the `i`-th member, cohesion steers towards the mean position of the other members. */
  lemma CohesionOfMember(flock: seq<Boid>, i: nat, c: real)
    requires |flock| > 1 && i < |flock|
    ensures Cohesion(flock[i], flock, c) == MulLeft(c, Sub(Mean(Positions(Without(flock, i))), flock[i].r))
  {
    CenterOfMassOfMember(flock, i);
  }

  /** When all the other members sit at one point, cohesion pulls straight towards it. */
  lemma CohesionOfGathering(flock: seq<Boid>, i: nat, c: real, q: R2)
    requires |flock| > 1 && i < |flock|
    requires forall j :: 0 <= j < |flock| && j != i ==> flock[j].r == q
    ensures Cohesion(flock[i], flock, c) == Mul(Sub(q, flock[i].r), c)
  {
    CenterOfMassOfGathering(flock, i, q);
  }
}
