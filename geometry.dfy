/**
 * The equirectangular local-plane projection of src/domain/geometry.py:
 * geodetic degrees to metres east (x) and north (y) of a reference point,
 * and its algebraic inverse.
 */
module Geometry {
  import opened Numerics
  import opened Constants

  /** `np.radians`. */
  function Radians(m: Math, deg: real): real {
    deg * m.pi / 180.0
  }

  /** A geodetic point in the (longitude, latitude) order the inverse returns. */
  datatype LonLat = LonLat(lon: real, lat: real)

  /** Metres of northing per degree of latitude: R·pi/180. */
  function MetresPerDegree(m: Math): real {
    EARTH_RADIUS_M * m.pi / 180.0
  }

  /** The inverse transform divides by cos(lat0): it is defined where that is not zero. */
  ghost predicate ProjectableAt(m: Math, lat0: real) {
    m.Valid() && m.cos(Radians(m, lat0)) != 0.0
  }

  /** `latlon_to_xy`: the planar position [x, y] in metres of (lat, lon) around (lat0, lon0). */
  function LatLonToXY(m: Math, lat: real, lon: real, lat0: real, lon0: real): Vec2 {
    Vec2((Radians(m, lon) - Radians(m, lon0)) * m.cos(Radians(m, lat0)) * EARTH_RADIUS_M,
         (Radians(m, lat) - Radians(m, lat0)) * EARTH_RADIUS_M)
  }

  /** `xy_to_lonlat`: the geodetic point, as (lon, lat), of planar (x, y) around (lat0, lon0). */
  function XYToLonLat(m: Math, x: real, y: real, lat0: real, lon0: real): LonLat
    requires ProjectableAt(m, lat0)
  {
    LonLat(lon0 + (x / (EARTH_RADIUS_M * m.cos(Radians(m, lat0)))) * 180.0 / m.pi,
           lat0 + (y / EARTH_RADIUS_M) * 180.0 / m.pi)
  }

  /**
   * The projection is a scaled grid: northing is the latitude offset times
   * R·pi/180, easting is the longitude offset times cos(lat0)·R·pi/180.
   * So y depends on lat - lat0 only, and x is linear in lon - lon0.
   */
  lemma ProjectionIsScaledGrid(m: Math, lat: real, lon: real, lat0: real, lon0: real)
    ensures LatLonToXY(m, lat, lon, lat0, lon0)
         == Vec2((lon - lon0) * (m.cos(Radians(m, lat0)) * MetresPerDegree(m)),
                 (lat - lat0) * MetresPerDegree(m))
  {
    var c := m.cos(Radians(m, lat0));
    var k := m.pi / 180.0;
    assert Radians(m, lon) - Radians(m, lon0) == (lon - lon0) * k;
    assert Radians(m, lat) - Radians(m, lat0) == (lat - lat0) * k;
    assert MetresPerDegree(m) == EARTH_RADIUS_M * k;
  }

  /** The reference point itself projects to the origin of the plane. */
  lemma ReferenceIsOrigin(m: Math, lat0: real, lon0: real)
    ensures LatLonToXY(m, lat0, lon0, lat0, lon0) == Vec2(0.0, 0.0)
  {
  }

  lemma DivCancel(a: real, b: real)
    requires b != 0.0
    ensures (a * b) / b == a
  {
  }

  /** Undoing the forward transform gives back the point, with its components swapped to (lon, lat). */
  lemma {:induction false} InverseUndoesForward(m: Math, lat: real, lon: real, lat0: real, lon0: real)
    requires ProjectableAt(m, lat0)
    ensures var p := LatLonToXY(m, lat, lon, lat0, lon0);
            XYToLonLat(m, p.x, p.y, lat0, lon0) == LonLat(lon, lat)
  {
    var c := m.cos(Radians(m, lat0));
    UndoScale(Radians(m, lon) - Radians(m, lon0), c, EARTH_RADIUS_M);
    DivCancel(Radians(m, lat) - Radians(m, lat0), EARTH_RADIUS_M);
    RadiansBack(m, lon, lon0);
    RadiansBack(m, lat, lat0);
  }

  /** Dividing by R·c undoes multiplying by c and then by R. */
  lemma UndoScale(a: real, c: real, r: real)
    requires c != 0.0 && r != 0.0
    ensures (a * c * r) / (r * c) == a
  {
    assert a * c * r == a * (r * c);
    DivCancel(a, r * c);
  }

  /** Converting a difference of radians back to degrees recovers the degree offset. */
  lemma RadiansBack(m: Math, d: real, d0: real)
    requires m.pi > 0.0
    ensures d0 + (Radians(m, d) - Radians(m, d0)) * 180.0 / m.pi == d
  {
    assert (Radians(m, d) - Radians(m, d0)) * 180.0 == (d - d0) * m.pi;
    DivCancel(d - d0, m.pi);
  }

  /** Projecting the inverse's result gives back the planar point. */
  lemma {:induction false} ForwardUndoesInverse(m: Math, x: real, y: real, lat0: real, lon0: real)
    requires ProjectableAt(m, lat0)
    ensures var g := XYToLonLat(m, x, y, lat0, lon0);
            LatLonToXY(m, g.lat, g.lon, lat0, lon0) == Vec2(x, y)
  {
    var g := XYToLonLat(m, x, y, lat0, lon0);
    var c := m.cos(Radians(m, lat0));
    var k := m.pi / 180.0;
    var u := x / (EARTH_RADIUS_M * c);
    var w := y / EARTH_RADIUS_M;
    assert g.lon - lon0 == u * 180.0 / m.pi;
    assert g.lat - lat0 == w * 180.0 / m.pi;
    assert Radians(m, g.lon) - Radians(m, lon0) == (g.lon - lon0) * k;
    assert Radians(m, g.lat) - Radians(m, lat0) == (g.lat - lat0) * k;
    assert (u * 180.0 / m.pi) * k == u;
    assert (w * 180.0 / m.pi) * k == w;
    assert u * (EARTH_RADIUS_M * c) == x;
    assert w * EARTH_RADIUS_M == y;
  }
}
