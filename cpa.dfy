/**
 * `compute_cpa` of src/domain/cpa.py: time and distance of the closest point
 * of approach of two aircraft in linear relative motion in the plane.
 */
module Cpa {
  import opened Options
  import opened Numerics

  /** The time to CPA in seconds (`None` when undefined) and the distance at CPA in metres. */
  datatype CpaResult = CpaResult(tCpaS: Option<real>, dCpaM: real)

  /** The relative position after t seconds of relative motion v from p. */
  function RelativeAt(p: Vec2, v: Vec2, t: real): Vec2 {
    Add(p, Scale(v, t))
  }

  /**
   * `compute_cpa`. Without relative motion there is no CPA time and the
   * distance is the current range. Otherwise the time is the one instant
   * at which the relative position is perpendicular to the relative
   * velocity (where the squared range, a quadratic in t, is smallest), and
   * the distance is the range at that instant.
   */
  function ComputeCpa(m: Math, p: Vec2, v: Vec2): (r: CpaResult)
    ensures r.tCpaS.None? <==> v == Vec2(0.0, 0.0)
    ensures r.tCpaS.None? ==> r.dCpaM == Norm(m, p)
  {
    NormSqZero(v);
    if Dot(v, v) == 0.0 then
      CpaResult(None, Norm(m, p))
    else
      var t := CpaTime(p, v);
      CpaResult(Some(t), Norm(m, RelativeAt(p, v, t)))
  }

  /** -(p·v)/|v|²: the relative position is then perpendicular to the relative velocity. */
  function CpaTime(p: Vec2, v: Vec2): (t: real)
    requires Dot(v, v) != 0.0
    ensures Dot(RelativeAt(p, v, t), v) == 0.0
  {
    var t := -Dot(p, v) / Dot(v, v);
    assert t * Dot(v, v) == -Dot(p, v);
    DotAlongLine(p, v, t);
    t
  }

  /**
   * With relative motion, the CPA time is an instant at which relative
   * position and relative velocity are perpendicular.
   */
  lemma CpaTimeIsStationary(m: Math, p: Vec2, v: Vec2)
    requires v != Vec2(0.0, 0.0)
    ensures var r := ComputeCpa(m, p, v);
            r.tCpaS.Some? && Dot(RelativeAt(p, v, r.tCpaS.value), v) == 0.0
  {
  }

  /** With relative motion, the CPA distance is the range at the CPA time. */
  lemma CpaDistanceIsRangeAtCpa(m: Math, p: Vec2, v: Vec2)
    requires v != Vec2(0.0, 0.0)
    ensures var r := ComputeCpa(m, p, v);
            r.tCpaS.Some? && r.dCpaM == Norm(m, RelativeAt(p, v, r.tCpaS.value))
  {
  }

  /** The rate of change of the squared range is linear in the elapsed time. */
  lemma DotAlongLine(p: Vec2, v: Vec2, t: real)
    ensures Dot(RelativeAt(p, v, t), v) == Dot(p, v) + t * Dot(v, v)
  {
  }

  /** The squared range along a line: a quadratic in the elapsed time u. */
  lemma RangeAlongLine(q: Vec2, v: Vec2, u: real)
    ensures NormSq(RelativeAt(q, v, u)) == NormSq(q) + 2.0 * u * Dot(q, v) + (u * u) * NormSq(v)
  {
  }

  /**
   * The CPA time minimises the squared range over every time s, strictly
   * for every other s, so the CPA distance is the least range the pair ever
   * reaches under linear motion.
   */
  lemma {:induction false} CpaIsClosestApproach(m: Math, p: Vec2, v: Vec2, s: real)
    requires m.Valid()
    requires v != Vec2(0.0, 0.0)
    ensures var r := ComputeCpa(m, p, v);
            && NormSq(RelativeAt(p, v, r.tCpaS.value)) <= NormSq(RelativeAt(p, v, s))
            && (s != r.tCpaS.value ==> NormSq(RelativeAt(p, v, r.tCpaS.value)) < NormSq(RelativeAt(p, v, s)))
            && r.dCpaM <= Norm(m, RelativeAt(p, v, s))
  {
    var r := ComputeCpa(m, p, v);
    CpaTimeIsStationary(m, p, v);
    CpaDistanceIsRangeAtCpa(m, p, v);
    var t := r.tCpaS.value;
    var q, w := RelativeAt(p, v, t), RelativeAt(p, v, s);
    RestartAlongLine(p, v, t, s);
    PerpendicularIsNearest(q, v, s - t);
    NormMonotone(m, q, w);
  }

  /** Moving t seconds along a line and then s - t more is moving s seconds. */
  lemma RestartAlongLine(p: Vec2, v: Vec2, t: real, s: real)
    ensures RelativeAt(p, v, s) == RelativeAt(RelativeAt(p, v, t), v, s - t)
  {
  }

  /**
   * From a relative position perpendicular to the relative velocity, the
   * range only grows, in both directions of time.
   */
  lemma PerpendicularIsNearest(q: Vec2, v: Vec2, u: real)
    requires v != Vec2(0.0, 0.0)
    requires Dot(q, v) == 0.0
    ensures NormSq(q) <= NormSq(RelativeAt(q, v, u))
    ensures u != 0.0 ==> NormSq(q) < NormSq(RelativeAt(q, v, u))
  {
    RangeAlongLine(q, v, u);
    NormSqZero(v);
    AddSquareMultiple(NormSq(q), NormSq(RelativeAt(q, v, u)), u, NormSq(v));
  }

  /** The squared range from a perpendicular position is the Pythagorean sum. */
  lemma PerpendicularRange(q: Vec2, v: Vec2, u: real)
    requires Dot(q, v) == 0.0
    ensures NormSq(RelativeAt(q, v, u)) == NormSq(q) + (u * u) * NormSq(v)
  {
    RangeAlongLine(q, v, u);
  }

  /**
   * A pair whose closest approach comes within l seconds and h metres, and
   * whose relative speed is at most vmax, is now within vmax·l + h metres:
   * the current range is the Pythagorean sum of the CPA distance and the
   * distance closed until the CPA.
   */
  lemma {:induction false} CpaWithinReach(m: Math, p: Vec2, v: Vec2, h: real, l: real, vmax: real)
    requires m.Valid()
    requires Norm(m, v) <= vmax
    requires ComputeCpa(m, p, v).tCpaS.Some?
    requires 0.0 < ComputeCpa(m, p, v).tCpaS.value <= l
    requires ComputeCpa(m, p, v).dCpaM < h
    ensures Norm(m, p) < vmax * l + h
  {
    var r := ComputeCpa(m, p, v);
    var t := r.tCpaS.value;
    CpaTimeIsStationary(m, p, v);
    CpaDistanceIsRangeAtCpa(m, p, v);
    var q := RelativeAt(p, v, t);
    RestartAlongLine(p, v, t, 0.0);
    assert RelativeAt(p, v, 0.0) == p;
    PerpendicularStartWithinReach(m, q, v, t, h, l, vmax);
  }

  /** The arithmetic of `CpaWithinReach`, going back t seconds from the perpendicular position q. */
  lemma {:induction false} PerpendicularStartWithinReach(m: Math, q: Vec2, v: Vec2, t: real, h: real, l: real, vmax: real)
    requires m.Valid()
    requires Dot(q, v) == 0.0
    requires 0.0 < t <= l
    requires Norm(m, q) < h
    requires Norm(m, v) <= vmax
    ensures Norm(m, RelativeAt(q, v, 0.0 - t)) < vmax * l + h
  {
    var p := RelativeAt(q, v, 0.0 - t);
    var d, nv := Norm(m, q), Norm(m, v);
    NormSquared(m, q);
    NormSquared(m, v);
    BackwardRange(q, v, t, d, nv);
    ReachBudget(NormSq(p), d, h, t, l, nv, vmax);
    assert vmax * l >= 0.0 by {
      if vmax > 0.0 { MulPositive(vmax, l); }
    }
    NormBelowIff(m, p, vmax * l + h);
  }

  /** Going back t seconds from a perpendicular position adds t² times the squared speed. */
  lemma BackwardRange(q: Vec2, v: Vec2, t: real, d: real, nv: real)
    requires Dot(q, v) == 0.0
    requires NormSq(q) == d * d && NormSq(v) == nv * nv
    ensures NormSq(RelativeAt(q, v, 0.0 - t)) == d * d + (t * t) * (nv * nv)
  {
    PerpendicularRange(q, v, 0.0 - t);
    assert (0.0 - t) * (0.0 - t) == t * t;
  }

  /** d² + t²·nv² stays under (vmax·l + h)² when d < h, t ≤ l and nv ≤ vmax. */
  lemma ReachBudget(x: real, d: real, h: real, t: real, l: real, nv: real, vmax: real)
    requires x == d * d + (t * t) * (nv * nv)
    requires 0.0 <= d < h && 0.0 < t <= l && 0.0 <= nv <= vmax
    ensures x < (vmax * l + h) * (vmax * l + h)
  {
    SquareMonotone(d, h);
    SquareMonotone(nv, vmax);
    SquareMonotone(t, l);
    MulMonotone(t * t, l * l, nv * nv, vmax * vmax);
    var k := vmax * l;
    assert (l * l) * (vmax * vmax) == k * k;
    SquareOfSum(k, h);
  }

  /** The CPA time is the only instant at which relative position and velocity are perpendicular. */
  lemma {:induction false} CpaTimeIsUnique(m: Math, p: Vec2, v: Vec2, s: real)
    requires v != Vec2(0.0, 0.0)
    requires Dot(RelativeAt(p, v, s), v) == 0.0
    ensures ComputeCpa(m, p, v).tCpaS == Some(s)
  {
    NormSqZero(v);
    DotAlongLine(p, v, s);
    assert s * Dot(v, v) == -Dot(p, v);
    assert s == -Dot(p, v) / Dot(v, v);
  }

  /**
   * With relative motion, an instant t at which relative position and
   * velocity are perpendicular, and the range d at that instant, are the
   * CPA time and distance.
   */
  lemma CpaFromPerpendicularInstant(m: Math, p: Vec2, v: Vec2, t: real, d: real)
    requires v != Vec2(0.0, 0.0)
    requires Dot(RelativeAt(p, v, t), v) == 0.0
    requires Norm(m, RelativeAt(p, v, t)) == d
    ensures ComputeCpa(m, p, v) == CpaResult(Some(t), d)
  {
    CpaTimeIsUnique(m, p, v, t);
    CpaDistanceIsRangeAtCpa(m, p, v);
  }

  /**
   * Head-on closure: a pair d metres apart on the x axis closing at c m/s
   * meets after d / c seconds, at distance zero (10 km at 200 m/s: 50 s).
   */
  lemma HeadOnClosure(m: Math, d: real, c: real)
    requires m.Valid()
    requires c > 0.0
    ensures ComputeCpa(m, Vec2(d, 0.0), Vec2(-c, 0.0)) == CpaResult(Some(d / c), 0.0)
  {
    var p, v := Vec2(d, 0.0), Vec2(-c, 0.0);
    ClosingMeets(d, c);
    CollisionIsCpa(m, p, v, d / c);
  }

  /** Two aircraft 10 km apart closing head-on at 200 m/s meet after exactly 50 s. */
  lemma HeadOnTenKilometres(m: Math, p: Vec2, v: Vec2)
    requires m.Valid()
    requires p == Vec2(10000.0, 0.0) && v == Vec2(-200.0, 0.0)
    ensures ComputeCpa(m, p, v) == CpaResult(Some(50.0), 0.0)
  {
    assert Dot(p, v) == -2000000.0 && Dot(v, v) == 40000.0;
    assert RelativeAt(p, v, 50.0) == Vec2(0.0, 0.0);
    CollisionIsCpa(m, p, v, 50.0);
  }

  /** Closing d metres at c m/s takes d / c seconds. */
  lemma ClosingMeets(d: real, c: real)
    requires c > 0.0
    ensures RelativeAt(Vec2(d, 0.0), Vec2(-c, 0.0), d / c) == Vec2(0.0, 0.0)
  {
    assert (d / c) * c == d;
  }

  /** When the pair would be at the same point at some instant, that instant is the CPA, at distance zero. */
  lemma CollisionIsCpa(m: Math, p: Vec2, v: Vec2, t: real)
    requires m.Valid()
    requires v != Vec2(0.0, 0.0)
    requires RelativeAt(p, v, t) == Vec2(0.0, 0.0)
    ensures ComputeCpa(m, p, v) == CpaResult(Some(t), 0.0)
  {
    ZeroRange(m, RelativeAt(p, v, t), v);
    CpaFromPerpendicularInstant(m, p, v, t, 0.0);
  }

  /** Parallel motion 5 km abeam: the CPA is now, at the current 5 km. */
  lemma ParallelMotion(m: Math)
    requires m.Valid()
    ensures ComputeCpa(m, Vec2(0.0, 5000.0), Vec2(100.0, 0.0)) == CpaResult(Some(0.0), 5000.0)
  {
    FiveKilometres(m);
    AbeamIsCpa(m, Vec2(0.0, 5000.0), Vec2(100.0, 0.0));
  }

  /** A relative position 5 km due north has a range of 5 km. */
  lemma FiveKilometres(m: Math)
    requires m.Valid()
    ensures Norm(m, Vec2(0.0, 5000.0)) == 5000.0
  {
    assert NormSq(Vec2(0.0, 5000.0)) == 25000000.0;
    SqrtUnique(m, 25000000.0, 5000.0);
  }

  /** When relative position and velocity are already perpendicular, the CPA is now, at the current range. */
  lemma AbeamIsCpa(m: Math, p: Vec2, v: Vec2)
    requires v != Vec2(0.0, 0.0)
    requires Dot(p, v) == 0.0
    ensures ComputeCpa(m, p, v) == CpaResult(Some(0.0), Norm(m, p))
  {
    assert RelativeAt(p, v, 0.0) == p;
    CpaFromPerpendicularInstant(m, p, v, 0.0, Norm(m, p));
  }

  /** Without relative motion there is no CPA time and the distance is the current range. */
  lemma StillPair(m: Math)
    requires m.Valid()
    ensures ComputeCpa(m, Vec2(3000.0, 4000.0), Vec2(0.0, 0.0)) == CpaResult(None, 5000.0)
  {
    var p := Vec2(3000.0, 4000.0);
    assert NormSq(p) == 25000000.0;
    SqrtUnique(m, 25000000.0, 5000.0);
  }

  /**
   * The zero-velocity case as tested: (1000, 1000) apart with no relative
   * motion, there is no CPA time and the distance is the current range.
   */
  lemma StillPairAsTested(m: Math, p: Vec2, v: Vec2)
    requires p == Vec2(1000.0, 1000.0) && v == Vec2(0.0, 0.0)
    ensures ComputeCpa(m, p, v) == CpaResult(None, Norm(m, p))
  {
  }

  /**
   * Swapping ownship and intruder negates the relative position and the
   * relative velocity; the CPA time and distance do not change.
   */
  lemma {:induction false} CpaIgnoresRoles(m: Math, p: Vec2, v: Vec2)
    ensures ComputeCpa(m, Neg(p), Neg(v)) == ComputeCpa(m, p, v)
  {
    assert Dot(Neg(v), Neg(v)) == Dot(v, v);
    assert Dot(Neg(p), Neg(v)) == Dot(p, v);
    assert NormSq(Neg(p)) == NormSq(p);
    if Dot(v, v) != 0.0 {
      var t := -Dot(p, v) / Dot(v, v);
      var q := Add(p, Scale(v, t));
      assert Add(Neg(p), Scale(Neg(v), t)) == Neg(q);
      assert NormSq(Neg(q)) == NormSq(q);
    }
  }
}
