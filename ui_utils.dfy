/**
 * The two helpers of src/ui/utils.py that carry logic of their own: the
 * display label of an aircraft, and the dead-reckoned track drawn ahead of
 * it on the map.
 */
module UiUtils {
  import opened Numerics
  import opened Constants
  import opened Geometry
  import opened Aircraft

  /** The characters Python's `str.isspace` accepts, which `str.strip()` removes. */
  predicate IsSpace(c: char) {
    || ('\U{9}' <= c <= '\U{D}') || ('\U{1C}' <= c <= '\U{20}')
    || c == '\U{85}' || c == '\U{A0}' || c == '\U{1680}'
    || ('\U{2000}' <= c <= '\U{200A}')
    || c == '\U{2028}' || c == '\U{2029}' || c == '\U{202F}' || c == '\U{205F}' || c == '\U{3000}'
  }

  /** Some character of s is not whitespace. */
  predicate HasNonSpace(s: string) {
    exists k :: 0 <= k < |s| && !IsSpace(s[k])
  }

  /** Every character of s is whitespace. */
  predicate AllSpace(s: string) {
    forall k :: 0 <= k < |s| ==> IsSpace(s[k])
  }

  lemma AllSpaceJoin(a: string, b: string)
    requires AllSpace(a) && AllSpace(b)
    ensures AllSpace(a + b)
  {
  }

  /** s without its leading whitespace: a suffix of s that does not start with whitespace. */
  function TrimStart(s: string): (r: string)
    ensures |r| <= |s| && r == s[|s| - |r|..]
    ensures AllSpace(s[..|s| - |r|])
    ensures r == [] || !IsSpace(r[0])
  {
    if s != [] && IsSpace(s[0]) then
      var t := s[1..];
      var r := TrimStart(t);
      assert s[..|s| - |r|] == [s[0]] + t[..|t| - |r|];
      AllSpaceJoin([s[0]], t[..|t| - |r|]);
      r
    else s
  }

  /** s without its trailing whitespace: a prefix of s that does not end with whitespace. */
  function TrimEnd(s: string): (r: string)
    ensures |r| <= |s| && r == s[..|r|]
    ensures AllSpace(s[|r|..])
    ensures r == [] || !IsSpace(r[|r| - 1])
  {
    if s != [] && IsSpace(s[|s| - 1]) then
      var t := s[..|s| - 1];
      var r := TrimEnd(t);
      assert s[|r|..] == t[|r|..] + [s[|s| - 1]];
      AllSpaceJoin(t[|r|..], [s[|s| - 1]]);
      r
    else s
  }

  /** `str.strip()` with no argument. */
  function Strip(s: string): string {
    TrimEnd(TrimStart(s))
  }

  /** `strip()` cuts a slice out of s, and everything before it and after it is whitespace. */
  lemma StripIsTrimmedSlice(s: string)
    ensures exists i, j :: 0 <= i <= j <= |s| && Strip(s) == s[i..j] && AllSpace(s[..i]) && AllSpace(s[j..])
  {
    var t := TrimStart(s);
    var r := TrimEnd(t);
    var i, j := |s| - |t|, |s| - |t| + |r|;
    assert s[j..] == t[|r|..];
    assert Strip(s) == s[i..j] && AllSpace(s[..i]) && AllSpace(s[j..]);
  }

  /**
   * What `strip()` leaves neither starts nor ends with whitespace, and it is
   * empty exactly when s is all whitespace.
   */
  lemma StripEmptyIffBlank(s: string)
    ensures Strip(s) == [] || (!IsSpace(Strip(s)[0]) && !IsSpace(Strip(s)[|Strip(s)| - 1]))
    ensures Strip(s) == [] <==> !HasNonSpace(s)
  {
    var t := TrimStart(s);
    if TrimEnd(t) == [] {
      assert t == [];
    } else {
      assert s[|s| - |t|] == t[0];
    }
  }

  /** Stripping twice strips nothing more. */
  lemma StripIdempotent(s: string)
    ensures Strip(Strip(s)) == Strip(s)
  {
    var r := Strip(s);
    if r != [] {
      assert TrimStart(r) == r;
      assert TrimEnd(r) == r;
    }
  }

  /**
   * `label_aircraft`: the aircraft's callsign without surrounding
   * whitespace when the map has one that is not blank, else its ICAO24 id.
   */
  function LabelAircraft(icao: string, callsigns: map<string, string>): (display: string)
    ensures icao in callsigns && HasNonSpace(callsigns[icao]) ==>
              display != [] && !IsSpace(display[0]) && !IsSpace(display[|display| - 1])
              && exists i, j :: 0 <= i <= j <= |callsigns[icao]| && display == callsigns[icao][i..j]
                                && AllSpace(callsigns[icao][..i]) && AllSpace(callsigns[icao][j..])
    ensures !(icao in callsigns && HasNonSpace(callsigns[icao])) ==> display == icao
  {
    var cs := Strip(if icao in callsigns then callsigns[icao] else "");
    StripIsTrimmedSlice(if icao in callsigns then callsigns[icao] else "");
    StripEmptyIffBlank(if icao in callsigns then callsigns[icao] else "");
    if cs != [] then cs else icao
  }

  /** A non-blank callsign is its own label once trimmed: labelling is idempotent on labels. */
  lemma LabelIsStable(icao: string, callsigns: map<string, string>)
    requires icao in callsigns && HasNonSpace(callsigns[icao])
    ensures LabelAircraft(icao, callsigns[icao := LabelAircraft(icao, callsigns)]) == LabelAircraft(icao, callsigns)
  {
    var shown := LabelAircraft(icao, callsigns);
    StripIdempotent(callsigns[icao]);
    assert !IsSpace(shown[0]);
    StripIsTrimmedSlice(shown);
  }

  /**
   * The length of `np.arange(0, stop, step)`: ceil(stop / step) samples,
   * none when that quotient is not positive.
   */
  function SampleCount(stop: real, step: real): nat
    requires step != 0.0
  {
    var q := stop / step;
    if q <= 0.0 then 0
    else if q.Floor as real == q then q.Floor
    else q.Floor + 1
  }

  /**
   * Exactly the multiples k·step short of stop are sampled: below it for a
   * positive step, above it for a negative one.
   */
  lemma {:induction false} SampleCountCounts(stop: real, step: real, k: nat)
    requires step != 0.0
    ensures k < SampleCount(stop, step) <==> (k as real) < stop / step
    ensures step > 0.0 ==> (k < SampleCount(stop, step) <==> (k as real) * step < stop)
    ensures step < 0.0 ==> (k < SampleCount(stop, step) <==> (k as real) * step > stop)
  {
    var q := stop / step;
    assert stop == q * step;
    if step > 0.0 {
      MulRightStrict(k as real, q, step);
    } else {
      MulRightStrict(k as real, q, -step);
      assert (k as real) * -step == -((k as real) * step) && q * -step == -stop;
    }
  }

  /** For c > 0, a·c < b·c exactly when a < b. */
  lemma MulRightStrict(a: real, b: real, c: real)
    requires c > 0.0
    ensures a * c < b * c <==> a < b
  {
    if a < b {
      MulPositive(b - a, c);
    } else {
      assert (a - b) * c >= 0.0 by {
        if a > b { MulPositive(a - b, c); }
      }
    }
  }

  /** `np.arange(0, stop, step)`: 0, step, 2·step, … while short of stop. */
  function Arange(stop: real, step: real): (r: seq<real>)
    requires step != 0.0
  {
    seq(SampleCount(stop, step), k requires k >= 0 => (k as real) * step)
  }

  /**
   * The samples start at 0, go up (or down) by step and stay between 0 and
   * stop, stop excluded; with `SampleCountCounts`, every multiple of step
   * short of stop is one of them.
   */
  lemma ArangeSamples(stop: real, step: real)
    requires step != 0.0
    ensures step > 0.0 ==> forall k :: 0 <= k < |Arange(stop, step)| ==> 0.0 <= Arange(stop, step)[k] < stop
    ensures step < 0.0 ==> forall k :: 0 <= k < |Arange(stop, step)| ==> stop < Arange(stop, step)[k] <= 0.0
    ensures forall k :: 0 < k < |Arange(stop, step)| ==> Arange(stop, step)[k] == Arange(stop, step)[k - 1] + step
    ensures stop / step > 0.0 ==> |Arange(stop, step)| > 0 && Arange(stop, step)[0] == 0.0
  {
    var r := Arange(stop, step);
    forall k | 0 <= k < |r|
      ensures step > 0.0 ==> 0.0 <= r[k] < stop
      ensures step < 0.0 ==> stop < r[k] <= 0.0
    {
      SampleCountCounts(stop, step, k);
      if step > 0.0 {
        MulNonNegative(k as real, step);
      } else {
        MulNonNegative(k as real, -step);
        assert (k as real) * -step == -((k as real) * step);
      }
    }
    SampleCountCounts(stop, step, 0);
  }

  lemma MulNonNegative(a: real, b: real)
    requires a >= 0.0 && b >= 0.0
    ensures a * b >= 0.0
  {
    if a > 0.0 && b > 0.0 {
      MulPositive(a, b);
    }
  }

  /** Where the aircraft is after dt seconds at its current velocity, as a geodetic point. */
  function FuturePoint(m: Math, a: AircraftState, lat0: real, lon0: real, dt: real): LonLat
    requires ProjectableAt(m, lat0)
  {
    var p := Add(PositionXY(m, a, lat0, lon0), Scale(VelocityVector(m, a), dt));
    XYToLonLat(m, p.x, p.y, lat0, lon0)
  }

  /**
   * `project_future_positions`: one (lon, lat) point per sample of
   * `np.arange(0, lookahead + 1, step)`, in sample order.
   */
  method ProjectFuturePositions(m: Math, aircraftState: AircraftState, lat0: real, lon0: real,
                                lookahead: real, step: real)
    returns (futurePoints: seq<LonLat>)
    requires ProjectableAt(m, lat0) && step != 0.0
    ensures |futurePoints| == |Arange(lookahead + 1.0, step)|
    ensures forall k :: 0 <= k < |futurePoints| ==>
              futurePoints[k] == FuturePoint(m, aircraftState, lat0, lon0, Arange(lookahead + 1.0, step)[k])
  {
    futurePoints := [];
    var timeSteps := Arange(lookahead + 1.0, step);
    for idx := 0 to |timeSteps|
      invariant |futurePoints| == idx
      invariant forall k :: 0 <= k < idx ==>
                  futurePoints[k] == FuturePoint(m, aircraftState, lat0, lon0, timeSteps[k])
    {
      var dt := timeSteps[idx];
      var futurePos := Add(PositionXY(m, aircraftState, lat0, lon0), Scale(VelocityVector(m, aircraftState), dt));
      var futureLon := lon0 + (futurePos.x / (EARTH_RADIUS_M * m.cos(Radians(m, lat0)))) * 180.0 / m.pi;
      var futureLat := lat0 + (futurePos.y / EARTH_RADIUS_M) * 180.0 / m.pi;
      futurePoints := futurePoints + [LonLat(futureLon, futureLat)];
    }
  }

  /** The first projected point, at dt = 0, is the aircraft's own position. */
  lemma ProjectionStartsAtAircraft(m: Math, a: AircraftState, lat0: real, lon0: real, lookahead: real, step: real)
    requires ProjectableAt(m, lat0) && step != 0.0 && (lookahead + 1.0) / step > 0.0
    ensures |Arange(lookahead + 1.0, step)| > 0
    ensures FuturePoint(m, a, lat0, lon0, Arange(lookahead + 1.0, step)[0]) == LonLat(a.lonDeg, a.latDeg)
  {
    ArangeSamples(lookahead + 1.0, step);
    var p := PositionXY(m, a, lat0, lon0);
    assert Add(p, Scale(VelocityVector(m, a), 0.0)) == p;
    PositionRecoversCoordinates(m, a, lat0, lon0);
  }

  /**
   * Every projected point lies on the aircraft's straight-line track in the
   * local plane: projected back, it is the current position plus dt times
   * the velocity.
   */
  lemma FuturePointOnTrack(m: Math, a: AircraftState, lat0: real, lon0: real, dt: real)
    requires ProjectableAt(m, lat0)
    ensures var g := FuturePoint(m, a, lat0, lon0, dt);
            LatLonToXY(m, g.lat, g.lon, lat0, lon0) == Add(PositionXY(m, a, lat0, lon0), Scale(VelocityVector(m, a), dt))
  {
    var p := Add(PositionXY(m, a, lat0, lon0), Scale(VelocityVector(m, a), dt));
    ForwardUndoesInverse(m, p.x, p.y, lat0, lon0);
  }
}
