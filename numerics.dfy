/**
 * Real arithmetic standing in for the numpy calls of the source.
 *
 * `np.sin`, `np.cos`, `np.sqrt` (inside `np.linalg.norm`) and `np.pi` have no
 * definition in Dafny's reals. They are carried as a value of type `Math`,
 * and `Math.Valid()` states the only facts the proofs rely on.
 */
module Numerics {

  datatype Math = Math(sin: real -> real, cos: real -> real, sqrt: real -> real, pi: real) {
    /**
     * The axioms of the transcendental functions used by the model. They
     * are instantiated only at the points a proof names with `At`
     * (through the lemmas below), which keeps the solver's nonlinear
     * arithmetic small everywhere else.
     */
    ghost predicate Valid() {
      && pi > 0.0
      && (forall x {:trigger At(x)} :: At(x) ==> sin(x) * sin(x) + cos(x) * cos(x) == 1.0)
      && (forall x {:trigger At(x)} :: At(x) && x >= 0.0 ==> sqrt(x) >= 0.0 && sqrt(x) * sqrt(x) == x)
    }
  }

  /** Marks a point at which a proof uses the axioms of `Math`. */
  predicate At(x: real) {
    true
  }

  /** sin²(x) + cos²(x) = 1. */
  lemma Pythagoras(m: Math, x: real)
    requires m.Valid()
    ensures m.sin(x) * m.sin(x) + m.cos(x) * m.cos(x) == 1.0
  {
    assert At(x);
  }

  /** The square root of a non-negative real is non-negative and squares back to it. */
  lemma SqrtLaw(m: Math, x: real)
    requires m.Valid() && x >= 0.0
    ensures m.sqrt(x) >= 0.0 && m.sqrt(x) * m.sqrt(x) == x
  {
    assert At(x);
  }

  function Abs(x: real): (r: real)
    ensures r >= 0.0 && (r == x || r == -x)
  {
    if x < 0.0 then -x else x
  }

  /** A planar vector in metres (x east, y north) or metres per second. */
  datatype Vec2 = Vec2(x: real, y: real)

  function Add(a: Vec2, b: Vec2): Vec2 { Vec2(a.x + b.x, a.y + b.y) }

  function Sub(a: Vec2, b: Vec2): Vec2 { Vec2(a.x - b.x, a.y - b.y) }

  function Neg(a: Vec2): Vec2 { Vec2(-a.x, -a.y) }

  function Scale(a: Vec2, k: real): Vec2 { Vec2(a.x * k, a.y * k) }

  function Dot(a: Vec2, b: Vec2): real { a.x * b.x + a.y * b.y }

  /** The squared Euclidean length. */
  function NormSq(a: Vec2): (r: real)
    ensures r >= 0.0
  {
    SquareNonNegative(a.x);
    SquareNonNegative(a.y);
    a.x * a.x + a.y * a.y
  }

  /** Only the zero vector has squared length zero. */
  lemma NormSqZero(a: Vec2)
    ensures NormSq(a) == 0.0 <==> a == Vec2(0.0, 0.0)
  {
    SquareNonNegative(a.x);
    SquareNonNegative(a.y);
    if NormSq(a) == 0.0 {
      if a.x != 0.0 {
        ProductZero(a.x, a.x);
      }
      if a.y != 0.0 {
        ProductZero(a.y, a.y);
      }
    }
  }

  lemma SquareNonNegative(u: real)
    ensures u * u >= 0.0
  {
    if u < 0.0 {
      assert u * u == (-u) * (-u);
    }
  }

  lemma MulPositive(a: real, b: real)
    requires a > 0.0 && b > 0.0
    ensures a * b > 0.0
  {
  }

  /**
   * A value that exceeds a by a positive multiple of u*u is at least a,
   * and more than a unless u is zero.
   */
  lemma AddSquareMultiple(a: real, x: real, u: real, c: real)
    requires c > 0.0
    requires x == a + (u * u) * c
    ensures a <= x
    ensures u != 0.0 ==> a < x
  {
    SquareNonNegative(u);
    if u != 0.0 {
      if u * u == 0.0 {
        ProductZero(u, u);
      }
      MulPositive(u * u, c);
    } else {
      assert (u * u) * c == 0.0;
    }
  }

  /** Products of non-negative reals are monotone in both factors. */
  lemma MulMonotone(a: real, b: real, c: real, d: real)
    requires 0.0 <= a <= b && 0.0 <= c <= d
    ensures a * c <= b * d
  {
    assert (b - a) * c >= 0.0;
    assert b * (d - c) >= 0.0;
  }

  /** The square of a sum of non-negatives is at least the sum of the squares. */
  lemma SquareOfSum(h: real, k: real)
    requires h >= 0.0 && k >= 0.0
    ensures h * h + k * k <= (h + k) * (h + k)
  {
    assert (h + k) * (h + k) == h * h + 2.0 * (h * k) + k * k;
    assert h * k >= 0.0;
  }

  lemma ProductZero(a: real, b: real)
    requires a * b == 0.0 && b != 0.0
    ensures a == 0.0
  {
    assert a == (a * b) / b;
  }

  /** `np.linalg.norm` of a two-element array: the Euclidean length. */
  function Norm(m: Math, a: Vec2): real {
    m.sqrt(NormSq(a))
  }

  /** The length is the non-negative square root of the squared length. */
  lemma NormSquared(m: Math, a: Vec2)
    requires m.Valid()
    ensures Norm(m, a) >= 0.0
    ensures Norm(m, a) * Norm(m, a) == NormSq(a)
  {
    SqrtLaw(m, NormSq(a));
  }

  /** The square root is determined by its two axioms. */
  lemma SqrtUnique(m: Math, x: real, y: real)
    requires m.Valid()
    requires y >= 0.0 && y * y == x
    ensures m.sqrt(x) == y
  {
    var s := m.sqrt(x);
    SqrtLaw(m, x);
    assert (s - y) * (s + y) == s * s - y * y == 0.0;
    if s + y == 0.0 {
      assert s == 0.0 && y == 0.0;
    } else {
      ProductZero(s - y, s + y);
    }
  }

  /** For non-negative reals, comparing values and comparing squares agree. */
  lemma SquareMonotone(a: real, b: real)
    requires a >= 0.0 && b >= 0.0
    ensures a < b <==> a * a < b * b
    ensures a <= b <==> a * a <= b * b
  {
    assert b * b - a * a == (b - a) * (b + a);
    if a < b {
      MulPositive(b - a, b + a);
    } else if a > b {
      MulPositive(a - b, a + b);
    }
  }

  /** Comparing a length with a bound is comparing its square with the bound's square. */
  lemma NormBelowIff(m: Math, a: Vec2, h: real)
    requires m.Valid() && h >= 0.0
    ensures Norm(m, a) < h <==> NormSq(a) < h * h
    ensures Norm(m, a) <= h <==> NormSq(a) <= h * h
  {
    NormSquared(m, a);
    SquareMonotone(Norm(m, a), h);
  }

  /** The zero vector is perpendicular to every vector and has length zero. */
  lemma ZeroRange(m: Math, a: Vec2, b: Vec2)
    requires m.Valid()
    requires a == Vec2(0.0, 0.0)
    ensures Dot(a, b) == 0.0 && Norm(m, a) == 0.0
  {
    SqrtUnique(m, 0.0, 0.0);
  }

  /** The norm is monotone in the squared norm. */
  lemma NormMonotone(m: Math, a: Vec2, b: Vec2)
    requires m.Valid()
    requires NormSq(a) <= NormSq(b)
    ensures Norm(m, a) <= Norm(m, b)
  {
    NormSquared(m, b);
    NormBelowIff(m, a, Norm(m, b));
  }

  /** Reversing a vector keeps its length. */
  lemma NormNeg(m: Math, a: Vec2)
    ensures Norm(m, Neg(a)) == Norm(m, a)
  {
    assert NormSq(Neg(a)) == NormSq(a);
    NormOfEqualSquares(m, Neg(a), a);
  }

  /** Equal squared lengths give equal lengths. */
  lemma NormOfEqualSquares(m: Math, a: Vec2, b: Vec2)
    requires NormSq(a) == NormSq(b)
    ensures Norm(m, a) == Norm(m, b)
  {
  }
}
