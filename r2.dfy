/**
 * Two-dimensional vector algebra of the simulation (the `math::R2` struct).
 *
 * Coordinates are mathematical reals rather than IEEE doubles. The norm
 * `sqrt(v * v)` is not computed: every comparison the program makes on a
 * norm or a distance is modelled by the equivalent comparison on squares
 * (`NormLess`, `NormGreater`), and `IsNorm(v, n)` characterises the value the
 * square root returns; lemma `NormComparisons` ties the two views together.
 */
module Math {

  /** A vector of the Euclidean plane, compared by value. */
  datatype R2 = R2(x: real, y: real)

  /** The default-constructed vector `R2{}`. */
  const Zero: R2 := R2(0.0, 0.0)

  // ---------------------------------------------------------------------------
  // Pure operators (each works on copies of its operands)
  // ---------------------------------------------------------------------------

  /** `lhs + rhs`: taking `rhs` away again, component by component, leaves `lhs`. */
  function Add(lhs: R2, rhs: R2): (sum: R2)
    ensures sum.x - rhs.x == lhs.x && sum.y - rhs.y == lhs.y
  {
    R2(lhs.x + rhs.x, lhs.y + rhs.y)
  }

  /** `lhs - rhs`: the vector that added to `rhs` gives `lhs`. */
  function Sub(lhs: R2, rhs: R2): (difference: R2)
    ensures Add(difference, rhs) == lhs
  {
    R2(lhs.x - rhs.x, lhs.y - rhs.y)
  }

  /** unary `-v`: the vector scaled by `-1`. */
  function Neg(v: R2): (negation: R2)
    ensures negation == Mul(v, -1.0)
  {
    R2(-v.x, -v.y)
  }

  /** `v * k`, a vector times a scalar: scaling by 1 keeps the vector. */
  function Mul(v: R2, k: real): (scaled: R2)
    ensures k == 1.0 ==> scaled == v
  {
    R2(v.x * k, v.y * k)
  }

  /** `k * v`, which the program evaluates as `v * k`: each component times `k`. */
  function MulLeft(k: real, v: R2): (scaled: R2)
    ensures scaled.x == k * v.x && scaled.y == k * v.y
  {
    Mul(v, k)
  }

  /** `v / k`; the divisor must be non-zero (the program would produce inf or NaN) */
  function Div(v: R2, k: real): (quotient: R2)
    requires k != 0.0
    ensures Mul(quotient, k) == v
  {
    R2(v.x / k, v.y / k)
  }

  /** The inner product `lhs * rhs`: on the x-axis, the product of the two abscissae. */
  function Dot(lhs: R2, rhs: R2): (product: real)
    ensures lhs.y == 0.0 && rhs.y == 0.0 ==> product == lhs.x * rhs.x
  {
    lhs.x * rhs.x + lhs.y * rhs.y
  }

  /** `lhs == rhs`: exact equality of both coordinates. */
  predicate Equal(lhs: R2, rhs: R2): (equal: bool)
    ensures equal <==> lhs == rhs
  {
    lhs.x == rhs.x && lhs.y == rhs.y
  }

  /** `lhs != rhs`, defined as the negation of `==`. */
  predicate NotEqual(lhs: R2, rhs: R2): (notEqual: bool)
    ensures notEqual <==> lhs != rhs
  {
    !Equal(lhs, rhs)
  }

  // ---------------------------------------------------------------------------
  // Norm and distance
  // ---------------------------------------------------------------------------

  /** The square `a * a` of a scalar, kept behind a name so that comparisons of squares stay linear. */
  function Sq(a: real): real {
    a * a
  }

  /** The square of `calculate_norm(v)`, that is the radicand `v * v`. */
  function NormSq(v: R2): real {
    Dot(v, v)
  }

  /** `n` is the value of `calculate_norm(v) = sqrt(v * v)`. */
  predicate IsNorm(v: R2, n: real) {
    n >= 0.0 && Sq(n) == NormSq(v)
  }

  /** `calculate_norm(v) < m`, decided on squares. */
  predicate NormLess(v: R2, m: real) {
    m > 0.0 && NormSq(v) < Sq(m)
  }

  /** `calculate_norm(v) > m`, decided on squares. */
  predicate NormGreater(v: R2, m: real) {
    m < 0.0 || NormSq(v) > Sq(m)
  }

  /** The square of `calculate_distance(v1, v2) = calculate_norm(v2 - v1)`. */
  function DistanceSq(v1: R2, v2: R2): real {
    NormSq(Sub(v2, v1))
  }

  /** `calculate_distance(v1, v2) < d`. */
  predicate DistanceLess(v1: R2, v2: R2, d: real) {
    NormLess(Sub(v2, v1), d)
  }

  /** `d` is the value of `calculate_distance(v1, v2)`. */
  predicate IsDistance(v1: R2, v2: R2, d: real) {
    IsNorm(Sub(v2, v1), d)
  }

  // ---------------------------------------------------------------------------
  // Sums (the `std::accumulate` folds of the program, starting from `R2{}`)
  // ---------------------------------------------------------------------------

  /** `vs[0] + vs[1] + ... + vs[|vs| - 1]`, accumulated from the left. */
  function Sum(vs: seq<R2>): R2 {
    if |vs| == 0 then Zero else Add(Sum(vs[..|vs| - 1]), vs[|vs| - 1])
  }

  /** The mean of a non-empty sequence of vectors (a specification helper, not an operator of the struct). */
  function Mean(vs: seq<R2>): R2
    requires |vs| > 0
  {
    Mul(Sum(vs), 1.0 / |vs| as real)
  }

  // ---------------------------------------------------------------------------
  // The struct as a mutable object: the compound assignment operators
  // ---------------------------------------------------------------------------

  /** An `R2` variable, whose compound operators overwrite `x` and `y` in place. */
  class MutableR2 {
    var x: real
    var y: real

    /** The value currently held. */
    function Value(): R2
      reads this
    {
      R2(x, y)
    }

    /** `R2(double x, double y)`: stores both coordinates verbatim. */
    constructor (x: real, y: real)
      ensures this.x == x && this.y == y
    {
      this.x := x;
      this.y := y;
    }

    /** `R2()`: delegates to `R2(0., 0.)`. */
    constructor Origin()
      ensures Value() == Zero
    {
      x := 0.0;
      y := 0.0;
    }

    /** `*this += rhs`, returning the updated value. */
    method AddAssign(rhs: R2) returns (self: R2)
      modifies this
      ensures Value() == Add(old(Value()), rhs)
      ensures self == Value()
    {
      x := x + rhs.x;
      y := y + rhs.y;
      self := Value();
    }

    /** `*this -= rhs`, returning the updated value. */
    method SubAssign(rhs: R2) returns (self: R2)
      modifies this
      ensures Value() == Sub(old(Value()), rhs)
      ensures self == Value()
    {
      x := x - rhs.x;
      y := y - rhs.y;
      self := Value();
    }

    /** `*this *= k`, returning the updated value. */
    method MulAssign(k: real) returns (self: R2)
      modifies this
      ensures Value() == Mul(old(Value()), k)
      ensures self == Value()
    {
      x := x * k;
      y := y * k;
      self := Value();
    }

    /** `*this /= k`, returning the updated value; `k` must be non-zero. */
    method DivAssign(k: real) returns (self: R2)
      requires k != 0.0
      modifies this
      ensures Value() == Div(old(Value()), k)
      ensures self == Value()
    {
      x := x / k;
      y := y / k;
      self := Value();
    }
  }

  /** The binary operators copy their left operand and apply the compound one. */
  method CompoundAgreesWithBinary(lhs: R2, rhs: R2, k: real, divisor: real) returns (sum: R2, difference: R2, scaled: R2, quotient: R2)
    requires divisor != 0.0
    ensures sum == Add(lhs, rhs) && difference == Sub(lhs, rhs) && scaled == Mul(lhs, k)
    ensures quotient == Div(lhs, divisor)
  {
    var result := new MutableR2(lhs.x, lhs.y);
    sum := result.AddAssign(rhs);
    result := new MutableR2(lhs.x, lhs.y);
    difference := result.SubAssign(rhs);
    result := new MutableR2(lhs.x, lhs.y);
    scaled := result.MulAssign(k);
    result := new MutableR2(lhs.x, lhs.y);
    quotient := result.DivAssign(divisor);
  }

  /** `v += w` followed by `v -= w` restores the original value. */
  method AddThenSubRestores(v: MutableR2, w: R2)
    modifies v
    ensures v.Value() == old(v.Value())
  {
    var _ := v.AddAssign(w);
    var _ := v.SubAssign(w);
  }

  // ---------------------------------------------------------------------------
  // Algebraic properties
  // ---------------------------------------------------------------------------

  lemma SubAddCancel(u: R2, v: R2)
    ensures Sub(Add(u, v), v) == u
  {
  }

  lemma NegNegates(v: R2)
    ensures Neg(Neg(v)) == v
    ensures Add(v, Neg(v)) == Zero
  {
    assert Add(v, Neg(v)) == R2(v.x - v.x, v.y - v.y);
  }

  lemma NegZero()
    ensures Neg(Zero) == Zero
  {
    assert Neg(Zero) == R2(-0.0, -0.0);
  }

  lemma MulCommutes(v: R2, k: real)
    ensures MulLeft(k, v) == Mul(v, k)
    ensures MulLeft(k, v) == R2(k * v.x, k * v.y)
  {
  }

  lemma MulByZero(v: R2)
    ensures Mul(v, 0.0) == Zero
  {
    assert v.x * 0.0 == 0.0 && v.y * 0.0 == 0.0;
  }

  lemma DotSymmetric(u: R2, v: R2)
    ensures Dot(u, v) == Dot(v, u)
  {
  }

  lemma DotExamples()
    ensures Dot(R2(1.0, 0.0), R2(0.0, 1.0)) == 0.0
    ensures Dot(R2(2.0, 3.0), R2(4.0, 5.0)) == 23.0
    ensures Dot(R2(2.0, -3.0), R2(-4.0, 5.0)) == -23.0
  {
    assert Dot(R2(1.0, 0.0), R2(0.0, 1.0)) == 0.0;
    assert Dot(R2(2.0, 3.0), R2(4.0, 5.0)) == 23.0;
  }

  /** `==` is reflexive and symmetric, and `!=` is its negation. */
  lemma EqualityIsEquivalence(u: R2, v: R2)
    ensures Equal(u, u)
    ensures Equal(u, v) <==> Equal(v, u)
    ensures NotEqual(u, v) <==> !Equal(u, v)
  {
  }

  // ---------------------------------------------------------------------------
  // Squares (the facts about `sqrt` the norm comparisons rely on)
  // ---------------------------------------------------------------------------

  /** `a * b`, named for the same reason as `Sq`. */
  function Product(a: real, b: real): real {
    a * b
  }

  lemma ProductMonotone(k: real, a: real, b: real)
    requires k >= 0.0 && a <= b
    ensures Product(k, a) <= Product(k, b)
  {
    assert k * b - k * a == k * (b - a);
  }

  lemma ProductStrict(k: real, a: real, b: real)
    requires k > 0.0 && a < b
    ensures Product(k, a) < Product(k, b)
  {
    assert k * b - k * a == k * (b - a);
  }

  /** The square of a non-zero real is positive. */
  lemma SqPositive(a: real)
    requires a != 0.0
    ensures Sq(a) > 0.0
  {
    if a > 0.0 {
      ProductStrict(a, 0.0, a);
    } else {
      ProductStrict(-a, 0.0, -a);
      assert Product(-a, -a) == Sq(a);
    }
  }

  /** A square is never negative. */
  lemma SqNonNegative(a: real)
    ensures Sq(a) >= 0.0
  {
    if a != 0.0 {
      SqPositive(a);
    }
  }

  /** Squaring is strictly increasing on the non-negative reals. */
  lemma SqStrict(a: real, b: real)
    requires 0.0 <= a < b
    ensures Sq(a) < Sq(b)
  {
    ProductMonotone(a, a, b);
    ProductStrict(b, a, b);
    assert Product(a, b) == Product(b, a);
  }

  lemma SqMonotone(a: real, b: real)
    requires 0.0 <= a <= b
    ensures Sq(a) <= Sq(b)
  {
    if a < b {
      SqStrict(a, b);
    }
  }

  /** A square bounded by `m * m` bounds the real itself by `m`. */
  lemma SqBound(a: real, m: real)
    requires m >= 0.0 && Sq(a) <= Sq(m)
    ensures -m <= a <= m
  {
    if a > m {
      SqStrict(m, a);
    }
    if a < -m {
      SqStrict(m, -a);
    }
  }

  // ---------------------------------------------------------------------------
  // Properties of the norm and the distance
  // ---------------------------------------------------------------------------

  /** The radicand of the norm is never negative. */
  lemma NormSqNonNegative(v: R2)
    ensures NormSq(v) >= 0.0
  {
    SqNonNegative(v.x);
    SqNonNegative(v.y);
  }

  /** The radicand of the norm vanishes only at the origin. */
  lemma NormSqZero(v: R2)
    requires NormSq(v) == 0.0
    ensures v == Zero
  {
    SqNonNegative(v.x);
    SqNonNegative(v.y);
    if v.x != 0.0 {
      SqPositive(v.x);
    }
    if v.y != 0.0 {
      SqPositive(v.y);
    }
  }

  /** `calculate_norm` has at most one value (the non-negative square root). */
  lemma NormUnique(v: R2, n: real, m: real)
    requires IsNorm(v, n) && IsNorm(v, m)
    ensures n == m
  {
    if n < m {
      SqStrict(n, m);
    } else if m < n {
      SqStrict(m, n);
    }
  }

  /** The squared comparisons are exactly the comparisons on `sqrt(v * v)`. */
  lemma NormComparisons(v: R2, n: real, m: real)
    requires IsNorm(v, n)
    ensures NormLess(v, m) <==> n < m
    ensures NormGreater(v, m) <==> n > m
  {
    if 0.0 <= m < n {
      SqStrict(m, n);
    } else if 0.0 <= n < m {
      SqStrict(n, m);
    }
  }

  /** `norm(-v) == norm(v)` */
  lemma NormOfNegation(v: R2, n: real)
    ensures IsNorm(Neg(v), n) <==> IsNorm(v, n)
  {
    assert NormSq(Neg(v)) == NormSq(v);
  }

  /** `norm(R2{}) == 0`, and zero is its only norm. */
  lemma NormOfZero(n: real)
    ensures IsNorm(Zero, 0.0)
    ensures IsNorm(Zero, n) ==> n == 0.0
  {
    if IsNorm(Zero, n) {
      NormUnique(Zero, n, 0.0);
    }
  }

  lemma NormExamples()
    ensures IsNorm(R2(3.0, 4.0), 5.0)
    ensures IsNorm(R2(-3.0, -4.0), 5.0)
  {
  }

  /** Halving a vector divides its squared norm by four, doubling multiplies it by four. */
  lemma NormSqScaled(v: R2)
    ensures NormSq(Mul(v, 0.5)) == NormSq(v) / 4.0
    ensures NormSq(Mul(v, 2.0)) == 4.0 * NormSq(v)
  {
  }

  /** Distance is symmetric. */
  lemma DistanceSymmetric(v1: R2, v2: R2, d: real)
    ensures DistanceSq(v1, v2) == DistanceSq(v2, v1)
    ensures IsDistance(v1, v2, d) <==> IsDistance(v2, v1, d)
  {
    assert Sub(v1, v2) == Neg(Sub(v2, v1));
    NormOfNegation(Sub(v2, v1), d);
  }

  /** A vector is at distance zero from itself. */
  lemma DistanceToSelf(v: R2)
    ensures DistanceSq(v, v) == 0.0
    ensures IsDistance(v, v, 0.0)
  {
    assert Sub(v, v) == Zero;
  }

  /** A vector is closer to itself than every positive radius, and not closer than any other. */
  lemma DistanceLessSelf(v: R2, d: real)
    ensures DistanceLess(v, v, d) <==> d > 0.0
  {
    assert Sub(v, v) == Zero;
    NormLessZero(d);
  }

  /** The zero vector is shorter than every positive bound. */
  lemma NormLessZero(d: real)
    ensures NormLess(Zero, d) <==> d > 0.0
  {
    if d != 0.0 {
      SqPositive(d);
    }
  }

  /** Distance zero means the same point. */
  lemma DistanceZero(v: R2, w: R2)
    requires DistanceSq(v, w) == 0.0
    ensures v == w
  {
    NormSqZero(Sub(w, v));
    SubZero(v, w);
  }

  /** A zero difference means equal vectors. */
  lemma SubZero(v: R2, w: R2)
    requires Sub(w, v) == Zero
    ensures v == w
  {
    assert w.x - v.x == 0.0;
  }

  lemma DistanceExample()
    ensures IsDistance(R2(1.0, 2.0), R2(4.0, 6.0), 5.0)
    ensures IsDistance(R2(1.0, 2.0), R2(1.0, 2.0), 0.0)
  {
  }

  // ---------------------------------------------------------------------------
  // Properties of sums
  // ---------------------------------------------------------------------------

  /** Appending a vector adds it to the sum. */
  lemma SumPush(vs: seq<R2>, v: R2)
    ensures Sum(vs + [v]) == Add(Sum(vs), v)
  {
    assert (vs + [v])[..|vs|] == vs;
  }

  /** A sum over a concatenation is the sum of the two partial sums. */
  lemma {:induction false} SumAppend(a: seq<R2>, b: seq<R2>)
    ensures Sum(a + b) == Add(Sum(a), Sum(b))
    decreases |b|
  {
    if |b| == 0 {
      assert a + b == a;
    } else {
      var b' := b[..|b| - 1];
      assert (a + b)[..|a + b| - 1] == a + b';
      SumAppend(a, b');
    }
  }

  /** Taking one entry out of a sum is subtracting it. */
  lemma SumWithout(vs: seq<R2>, i: nat)
    requires i < |vs|
    ensures Sub(Sum(vs), vs[i]) == Sum(vs[..i] + vs[i + 1..])
  {
    var before, after := vs[..i], vs[i + 1..];
    assert vs == (before + [vs[i]]) + after;
    SumAppend(before + [vs[i]], after);
    assert (before + [vs[i]])[..|before|] == before;
    SumAppend(before, after);
  }

  /** The sum does not depend on the order of the summands: `+` on vectors is commutative and associative. */
  lemma {:induction false} SumPermutation(vs: seq<R2>, ws: seq<R2>)
    requires multiset(vs) == multiset(ws)
    ensures Sum(vs) == Sum(ws)
    decreases |vs|
  {
    if |vs| == 0 {
      assert |ws| == |multiset(ws)| == 0;
    } else {
      var last := vs[|vs| - 1];
      assert last in multiset(ws);
      var j :| 0 <= j < |ws| && ws[j] == last;
      RemoveMatching(vs, ws, j);
      SumPermutation(vs[..|vs| - 1], ws[..j] + ws[j + 1..]);
      SumWithout(ws, j);
      SubAddCancel(Sum(ws), last);
    }
  }

  /** Taking the last entry of one and a matching entry of the other keeps two permutations permutations. */
  lemma RemoveMatching<T>(vs: seq<T>, ws: seq<T>, j: nat)
    requires multiset(vs) == multiset(ws) && |vs| > 0 && j < |ws| && ws[j] == vs[|vs| - 1]
    ensures multiset(vs[..|vs| - 1]) == multiset(ws[..j] + ws[j + 1..])
  {
    var last := vs[|vs| - 1];
    assert vs == vs[..|vs| - 1] + [last];
    assert ws == ws[..j] + [last] + ws[j + 1..];
    assert multiset(vs[..|vs| - 1]) == multiset(vs) - multiset{last};
    assert multiset(ws[..j] + ws[j + 1..]) == multiset(ws) - multiset{last};
  }

  /** A sequence is its `j`-th entry and the rest. */
  lemma SplitAt<T>(s: seq<T>, j: nat)
    requires j < |s|
    ensures multiset(s) == multiset(s[..j] + s[j + 1..]) + multiset{s[j]}
  {
    assert s == s[..j] + [s[j]] + s[j + 1..];
  }

  /** A sum of `k` copies of `p` is `p * k`. */
  lemma {:induction false} SumOfConstant(vs: seq<R2>, p: R2)
    requires forall i :: 0 <= i < |vs| ==> vs[i] == p
    ensures Sum(vs) == Mul(p, |vs| as real)
  {
    if |vs| == 0 {
      assert p.x * 0.0 == 0.0 && p.y * 0.0 == 0.0;
    } else {
      var k := |vs| as real;
      SumOfConstant(vs[..|vs| - 1], p);
      ScaleByOneMore(p.x, k - 1.0);
      ScaleByOneMore(p.y, k - 1.0);
    }
  }

  /** Adding one more offset `l - r` to `s - r * k` gives `(s + l) - r * (k + 1)`. */
  lemma OffsetSumStep(s: R2, l: R2, r: R2, k: real)
    ensures Add(Sub(s, Mul(r, k)), Sub(l, r)) == Sub(Add(s, l), Mul(r, k + 1.0))
  {
    ScaleByOneMore(r.x, k);
    ScaleByOneMore(r.y, k);
  }

  lemma ScaleByOneMore(a: real, k: real)
    ensures Product(a, k) + a == Product(a, k + 1.0)
  {
  }

  lemma ScaleAndUnscale(a: real, k: real)
    requires k != 0.0
    ensures Product(Product(a, k), 1.0 / k) == a
  {
    assert k * (1.0 / k) == 1.0;
    assert a * k * (1.0 / k) == a * (k * (1.0 / k));
  }

  /** The mean of copies of one vector is that vector. */
  lemma MeanOfConstant(vs: seq<R2>, p: R2)
    requires |vs| > 0
    requires forall i :: 0 <= i < |vs| ==> vs[i] == p
    ensures Mean(vs) == p
  {
    SumOfConstant(vs, p);
    ScaleAndUnscale(p.x, |vs| as real);
    ScaleAndUnscale(p.y, |vs| as real);
  }
}
