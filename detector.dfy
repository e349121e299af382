/**
 * `detect_conflicts` of src/domain/cpa.py: the pairwise loss-of-separation
 * screen over one ADS-B snapshot.
 *
 * The per-pair decision (pre-filter, look-ahead window, horizontal and
 * vertical tests, record construction) is the function `AssessPair`; the
 * whole pass is specified by `Detection.ReportedConflicts` and carried out,
 * loop by loop as the source does, by the method `DetectConflicts`.
 */
module Detector {
  import opened Options
  import opened Numerics
  import opened Constants
  import opened Geometry
  import opened Aircraft
  import opened Cpa

  /** One emitted conflict, in the units of the source's dictionary. */
  datatype ConflictRecord = ConflictRecord(
    a: string,          // ownship icao24
    b: string,          // intruder icao24
    tCpa: real,         // seconds
    dCpaNm: real,       // nautical miles
    vertSepFt: real,    // feet, absolute
    cpaX: real,         // ownship position at CPA, metres east
    cpaY: real)         // metres north

  /** The thresholds of one detection pass, in metres and seconds. */
  datatype Limits = Limits(
    lookaheadS: real,
    horizontalSepM: real,
    verticalSepM: real,
    maxInitialDistanceM: real)

  /**
   * The minima converted to metres, and the pre-filter radius: the distance
   * two aircraft closing at the largest relative speed could cover within
   * the look-ahead, plus the horizontal minimum.
   */
  function MakeLimits(lookaheadS: real, sepNm: real, sepFt: real, maxRelativeSpeedMps: real): (l: Limits)
    ensures l.lookaheadS == lookaheadS
    ensures l.horizontalSepM / NM_TO_M == sepNm && l.verticalSepM / FT_TO_M == sepFt
    ensures l.maxInitialDistanceM - l.horizontalSepM == maxRelativeSpeedMps * lookaheadS
  {
    var horizontalSepM := sepNm * NM_TO_M;
    Limits(lookaheadS, horizontalSepM, sepFt * FT_TO_M, maxRelativeSpeedMps * lookaheadS + horizontalSepM)
  }

  /** An aircraft of the pair loop with the position and velocity looked up for its id. */
  datatype Track = Track(state: AircraftState, pos: Vec2, vel: Vec2)

  /** Where the intruder is relative to the ownship. */
  function RelPosition(own: Track, intr: Track): Vec2 {
    Sub(intr.pos, own.pos)
  }

  /** How the intruder moves relative to the ownship. */
  function RelVelocity(own: Track, intr: Track): Vec2 {
    Sub(intr.vel, own.vel)
  }

  /** Altitude of the intruder above the ownship after t seconds of constant vertical rates. */
  function VerticalSepAt(own: Track, intr: Track, t: real): real
    requires own.state.altitudeM.Some? && intr.state.altitudeM.Some?
  {
    (intr.state.altitudeM.value - own.state.altitudeM.value)
      + (intr.state.verticalRateMps - own.state.verticalRateMps) * t
  }

  /**
   * The tests applied to a pair's CPA result: it is kept when its CPA time
   * exists and lies in (0, lookahead], the CPA distance is under the
   * horizontal minimum, both altitudes are known and the vertical separation
   * at the CPA time is under the vertical minimum.
   */
  function Screen(own: Track, intr: Track, r: CpaResult, lim: Limits): Option<ConflictRecord> {
    if r.tCpaS.None? || !(0.0 < r.tCpaS.value <= lim.lookaheadS) then None
    else if r.dCpaM >= lim.horizontalSepM then None
    else if own.state.altitudeM.None? || intr.state.altitudeM.None? then None
    else
      var t := r.tCpaS.value;
      var vsep := VerticalSepAt(own, intr, t);
      if Abs(vsep) >= lim.verticalSepM then None
      else
        var cpa := Add(own.pos, Scale(own.vel, t));
        Some(ConflictRecord(own.state.icao24, intr.state.icao24, t,
                            r.dCpaM / NM_TO_M, Abs(vsep) / FT_TO_M, cpa.x, cpa.y))
  }

  /** The loop body after the pre-filter: relative motion, CPA, then the tests. */
  function AssessAtCpa(m: Math, own: Track, intr: Track, lim: Limits): Option<ConflictRecord> {
    Screen(own, intr, ComputeCpa(m, RelPosition(own, intr), RelVelocity(own, intr)), lim)
  }

  /** One iteration of the pair loop: the distance pre-filter, then the CPA tests. */
  function AssessPair(m: Math, own: Track, intr: Track, lim: Limits): Option<ConflictRecord> {
    if Norm(m, RelPosition(own, intr)) > lim.maxInitialDistanceM then None
    else AssessAtCpa(m, own, intr, lim)
  }

  /**
   * What the CPA tests decide, stated at the instant t at which relative
   * position and relative velocity are perpendicular (the closest approach
   * of a moving pair): a record is emitted exactly when t lies in
   * (0, lookahead], the range at t is under the horizontal minimum, both
   * altitudes are known and the vertical separation at t is under the
   * vertical minimum.
   */
  lemma AssessAtCpaMeaning(m: Math, own: Track, intr: Track, lim: Limits, t: real)
    requires RelVelocity(own, intr) != Vec2(0.0, 0.0)
    requires Dot(RelativeAt(RelPosition(own, intr), RelVelocity(own, intr), t), RelVelocity(own, intr)) == 0.0
    ensures AssessAtCpa(m, own, intr, lim).Some? <==>
              && 0.0 < t <= lim.lookaheadS
              && Norm(m, RelativeAt(RelPosition(own, intr), RelVelocity(own, intr), t)) < lim.horizontalSepM
              && own.state.altitudeM.Some? && intr.state.altitudeM.Some?
              && Abs(VerticalSepAt(own, intr, t)) < lim.verticalSepM
  {
    var p, v := RelPosition(own, intr), RelVelocity(own, intr);
    CpaTimeIsUnique(m, p, v, t);
    CpaDistanceIsRangeAtCpa(m, p, v);
  }

  /** A pair without relative motion has no CPA time and is never reported. */
  lemma NoRelativeMotionNoConflict(m: Math, own: Track, intr: Track, lim: Limits)
    requires RelVelocity(own, intr) == Vec2(0.0, 0.0)
    ensures AssessPair(m, own, intr, lim) == None
  {
  }

  /**
   * Every emitted record names ownship then intruder, has its CPA time in
   * (0, lookahead], its CPA distance (in metres) under the horizontal
   * minimum, both altitudes known, its vertical separation (in metres) the
   * absolute one at the CPA time and under the vertical minimum, and its
   * point the ownship's position advanced by its own velocity for tCpa.
   */
  lemma EmittedRecord(m: Math, own: Track, intr: Track, lim: Limits, rec: ConflictRecord)
    requires AssessPair(m, own, intr, lim) == Some(rec)
    ensures rec.a == own.state.icao24 && rec.b == intr.state.icao24
    ensures Norm(m, RelPosition(own, intr)) <= lim.maxInitialDistanceM
    ensures 0.0 < rec.tCpa <= lim.lookaheadS
    ensures rec.dCpaNm * NM_TO_M < lim.horizontalSepM
    ensures own.state.altitudeM.Some? && intr.state.altitudeM.Some?
    ensures rec.vertSepFt * FT_TO_M == Abs(VerticalSepAt(own, intr, rec.tCpa)) < lim.verticalSepM
    ensures Vec2(rec.cpaX, rec.cpaY) == Add(own.pos, Scale(own.vel, rec.tCpa))
  {
  }

  /**
   * The reported distance is the least range the pair reaches at any time
   * s under linear motion, and it is reached at the reported time.
   */
  lemma EmittedDistanceIsClosest(m: Math, own: Track, intr: Track, lim: Limits, rec: ConflictRecord, s: real)
    requires m.Valid()
    requires AssessPair(m, own, intr, lim) == Some(rec)
    ensures rec.dCpaNm * NM_TO_M == Norm(m, RelativeAt(RelPosition(own, intr), RelVelocity(own, intr), rec.tCpa))
    ensures rec.dCpaNm * NM_TO_M <= Norm(m, RelativeAt(RelPosition(own, intr), RelVelocity(own, intr), s))
  {
    var p, v := RelPosition(own, intr), RelVelocity(own, intr);
    CpaDistanceIsRangeAtCpa(m, p, v);
    CpaIsClosestApproach(m, p, v, s);
  }

  /**
   * The pre-filter is sound: when the pair's relative speed is at most
   * the speed the radius was sized for, skipping pairs beyond the radius
   * never drops a pair that the CPA tests would report.
   */
  lemma {:induction false} PrefilterSound(m: Math, own: Track, intr: Track, lookaheadS: real, sepNm: real, sepFt: real, maxRelativeSpeedMps: real)
    requires m.Valid()
    requires Norm(m, RelVelocity(own, intr)) <= maxRelativeSpeedMps
    ensures var lim := MakeLimits(lookaheadS, sepNm, sepFt, maxRelativeSpeedMps);
            AssessPair(m, own, intr, lim) == AssessAtCpa(m, own, intr, lim)
  {
    var lim := MakeLimits(lookaheadS, sepNm, sepFt, maxRelativeSpeedMps);
    var p, v := RelPosition(own, intr), RelVelocity(own, intr);
    var r := ComputeCpa(m, p, v);
    if AssessAtCpa(m, own, intr, lim).Some? {
      CpaWithinReach(m, p, v, lim.horizontalSepM, lookaheadS, maxRelativeSpeedMps);
    }
  }

  /**
   * Swapping ownship and intruder reports the same pair, or neither: the
   * same CPA time, distance and vertical separation, with the names
   * exchanged.
   */
  lemma {:induction false} AssessPairSymmetric(m: Math, own: Track, intr: Track, lim: Limits)
    ensures AssessPair(m, intr, own, lim).Some? == AssessPair(m, own, intr, lim).Some?
    ensures AssessPair(m, own, intr, lim).Some? ==>
              var r, s := AssessPair(m, own, intr, lim).value, AssessPair(m, intr, own, lim).value;
              && s.a == r.b && s.b == r.a
              && s.tCpa == r.tCpa && s.dCpaNm == r.dCpaNm && s.vertSepFt == r.vertSepFt
  {
    var r := ComputeCpa(m, RelPosition(own, intr), RelVelocity(own, intr));
    var far := Norm(m, RelPosition(own, intr)) > lim.maxInitialDistanceM;
    SwappedCpa(m, own, intr);
    assert AssessPair(m, own, intr, lim) == if far then None else Screen(own, intr, r, lim);
    assert AssessPair(m, intr, own, lim) == if far then None else Screen(intr, own, r, lim);
    ScreenSymmetric(own, intr, r, lim);
  }

  /** Seen from the other aircraft, the range and the CPA result are the same. */
  lemma SwappedCpa(m: Math, own: Track, intr: Track)
    ensures Norm(m, RelPosition(intr, own)) == Norm(m, RelPosition(own, intr))
    ensures ComputeCpa(m, RelPosition(intr, own), RelVelocity(intr, own))
         == ComputeCpa(m, RelPosition(own, intr), RelVelocity(own, intr))
  {
    var p, v := RelPosition(own, intr), RelVelocity(own, intr);
    assert RelPosition(intr, own) == Neg(p);
    assert RelVelocity(intr, own) == Neg(v);
    CpaIgnoresRoles(m, p, v);
    NormNeg(m, p);
  }

  /** The tests after the CPA treat the two aircraft alike, but for which one is named first. */
  lemma ScreenSymmetric(own: Track, intr: Track, r: CpaResult, lim: Limits)
    ensures Screen(intr, own, r, lim).Some? == Screen(own, intr, r, lim).Some?
    ensures Screen(own, intr, r, lim).Some? ==>
              var x, y := Screen(own, intr, r, lim).value, Screen(intr, own, r, lim).value;
              && y.a == x.b && y.b == x.a
              && y.tCpa == x.tCpa && y.dCpaNm == x.dCpaNm && y.vertSepFt == x.vertSepFt
  {
    if r.tCpaS.Some? && own.state.altitudeM.Some? && intr.state.altitudeM.Some? {
      var t := r.tCpaS.value;
      assert VerticalSepAt(intr, own, t) == -VerticalSepAt(own, intr, t);
    }
  }
}
