/**
 * `AircraftState` of src/domain/aircraft.py: one aircraft's kinematic state in
 * a snapshot and its two derived planar queries. The record is a value; both
 * queries are functions of it, so neither can change any of its fields.
 */
module Aircraft {
  import opened Options
  import opened Numerics
  import opened Geometry

  /**
   * The altitude is optional: the detector skips a pair when either
   * altitude is `None`.
   */
  datatype AircraftState = AircraftState(
    icao24: string,
    latDeg: real,
    lonDeg: real,
    velocityMps: real,
    headingDeg: real,
    altitudeM: Option<real>,
    verticalRateMps: real)

  /** `position_xy`: the aircraft's planar position around (lat0, lon0). */
  function PositionXY(m: Math, a: AircraftState, lat0: real, lon0: real): Vec2 {
    LatLonToXY(m, a.latDeg, a.lonDeg, lat0, lon0)
  }

  /**
   * The planar position is the forward projection of the aircraft's own
   * coordinates: the inverse projection recovers them.
   */
  lemma PositionRecoversCoordinates(m: Math, a: AircraftState, lat0: real, lon0: real)
    requires ProjectableAt(m, lat0)
    ensures var p := PositionXY(m, a, lat0, lon0);
            XYToLonLat(m, p.x, p.y, lat0, lon0) == LonLat(a.lonDeg, a.latDeg)
  {
    InverseUndoesForward(m, a.latDeg, a.lonDeg, lat0, lon0);
  }

  /**
   * `velocity_vector`: ground speed split along east (sin of the heading)
   * and north (cos of the heading), heading clockwise from north.
   */
  function VelocityVector(m: Math, a: AircraftState): Vec2 {
    var h := Radians(m, a.headingDeg);
    Vec2(a.velocityMps * m.sin(h), a.velocityMps * m.cos(h))
  }

  /** An aircraft at the reference point is at the origin of the plane. */
  lemma AtReferenceIsOrigin(m: Math, a: AircraftState)
    ensures PositionXY(m, a, a.latDeg, a.lonDeg) == Vec2(0.0, 0.0)
  {
    ReferenceIsOrigin(m, a.latDeg, a.lonDeg);
  }

  /**
   * The velocity vector's length is the ground speed, whatever the heading;
   * in particular zero speed gives the zero vector.
   */
  lemma {:induction false} VelocityKeepsSpeed(m: Math, a: AircraftState)
    requires m.Valid()
    ensures NormSq(VelocityVector(m, a)) == a.velocityMps * a.velocityMps
    ensures Norm(m, VelocityVector(m, a)) == Abs(a.velocityMps)
    ensures a.velocityMps == 0.0 ==> VelocityVector(m, a) == Vec2(0.0, 0.0)
  {
    var h := Radians(m, a.headingDeg);
    var v, s, c := a.velocityMps, m.sin(h), m.cos(h);
    Pythagoras(m, h);
    calc {
      NormSq(VelocityVector(m, a));
      (v * s) * (v * s) + (v * c) * (v * c);
      (v * v) * (s * s + c * c);
      v * v;
    }
    SqrtUnique(m, v * v, Abs(v));
  }
}
