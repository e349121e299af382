# AirCPA conflict detection, modelled in Dafny

AirCPA screens a single ADS-B snapshot of aircraft for predicted losses of
separation. The pieces of the pass are:

- Every aircraft is projected onto a flat local plane around the mean
  latitude and longitude of the snapshot, using an equirectangular
  projection.
- Its ground speed and heading become a planar velocity.
- Every unordered pair of aircraft is taken in `itertools.combinations`
  order.
- The closed-form closest point of approach (CPA) of the pair is computed
  under linear motion.
- A conflict record is kept when all of these hold:
  - the pair passes a distance pre-filter;
  - the CPA lies in the window (0, look-ahead];
  - the CPA distance is under the horizontal minimum;
  - both altitudes are known;
  - the vertical separation at the CPA is under the vertical minimum.
- Two UI helpers are also modelled:
  - the label of an aircraft: its trimmed callsign, or else its ICAO24 id;
  - the dead-reckoned track sampled ahead of an aircraft for the map.

The project is made of these modules:

| module | file | models |
|---|---|---|
| `Options` | `options.dfy` | `Option`, for Python's `None` |
| `Constants` | `constants.dfy` | the Earth radius, the nautical mile and the foot |
| `Numerics` | `numerics.dfy` | planar vectors; `sin`, `cos`, `sqrt` and `pi` |
| `Geometry` | `geometry.dfy` | `latlon_to_xy` and `xy_to_lonlat` |
| `Aircraft` | `aircraft.dfy` | `AircraftState`, `position_xy`, `velocity_vector` |
| `Cpa` | `cpa.dfy` | `compute_cpa` |
| `Detector` | `detector.dfy` | the body of the pair loop, as pure functions |
| `Detection` | `detection.dfy` | the whole of `detect_conflicts` |
| `UiUtils` | `ui_utils.dfy` | `label_aircraft` and `project_future_positions` |

Some notes on the modules:

- **Numerics.** `sin`, `cos`, `sqrt` and `pi` are fields of a `Math` value.
  Its `Valid()` predicate holds the only facts the proofs use:
  - pi > 0;
  - sin² + cos² = 1;
  - the square root of a non-negative number is non-negative and squares
    back to it.
- **Detector.** `AssessPair` is one iteration of the pair loop.
- **Detection.** `ReportedConflicts` specifies the returned list. `DetectConflicts`
  is the source's loop program, proved to compute that list.
  - The position and velocity dicts are built by the loop in `BuildTables`.
    As with a Python dict, a later row with the same id overwrites an
    earlier one.
  - The pair loop runs over `Combinations(n)` and appends each pair's record
    in place.
- **UiUtils.** `Strip` models `str.strip()` over Python's whitespace set.
  `ProjectFuturePositions` is the source's sampling loop.

Everything is over Dafny's unbounded `real`s.

## Model

| member | source | states |
|---|---|---|
| Geometry.LatLonToXY | src/domain/geometry.py:5-23 | The definition of `latlon_to_xy`, the equirectangular projection about (lat0, lon0). Its meaning is stated by `ProjectionIsScaledGrid`, `ReferenceIsOrigin`, `InverseUndoesForward` and `ForwardUndoesInverse`. |
| Geometry.XYToLonLat | src/domain/geometry.py:26-41 | The definition of `xy_to_lonlat`, returning (lon, lat). It requires cos(radians(lat0)) ≠ 0. Its meaning is stated by the round trips `InverseUndoesForward` and `ForwardUndoesInverse`. |
| Geometry.ProjectionIsScaledGrid | src/domain/geometry.py:16-22 | The projection is a scaled grid: y = (lat − lat0)·R·π/180 depends on the latitude offset only. x = (lon − lon0)·cos(lat0)·R·π/180 is linear in the longitude offset. |
| Geometry.ReferenceIsOrigin | src/domain/geometry.py:21-23 | The reference point projects to [0, 0]. |
| Geometry.InverseUndoesForward | src/domain/geometry.py:16-41 | Wherever cos(radians(lat0)) ≠ 0, `xy_to_lonlat` of `latlon_to_xy(lat, lon)` is (lon, lat). The components come back swapped into (lon, lat) order. |
| Geometry.ForwardUndoesInverse | src/domain/geometry.py:16-41 | Under the same condition, `latlon_to_xy` of the point `xy_to_lonlat(x, y)` returns is [x, y]. |
| Aircraft.PositionXY | src/domain/aircraft.py:23-24 | The definition of `position_xy`. Its meaning is stated by `PositionRecoversCoordinates` and `AtReferenceIsOrigin`. |
| Aircraft.VelocityVector | src/domain/aircraft.py:26-31 | The definition of `velocity_vector` from heading and speed. Its meaning is stated by `VelocityKeepsSpeed`. |
| Aircraft.PositionRecoversCoordinates | src/domain/aircraft.py:23-24 | `position_xy` is the forward projection of the aircraft's own coordinates: projecting back gives (lon_deg, lat_deg). |
| Aircraft.AtReferenceIsOrigin | src/domain/aircraft.py:23-24 | An aircraft sitting at the reference point is at (0, 0). |
| Aircraft.VelocityKeepsSpeed | src/domain/aircraft.py:26-31 | The velocity vector's squared length is velocity_mps², whatever the heading. Its length is the speed's magnitude, and zero speed gives the zero vector. |
| Cpa.ComputeCpa | src/domain/cpa.py:31-34 | There is no CPA time exactly when the relative velocity is zero. The distance is then the current range. |
| Cpa.CpaTime | src/domain/cpa.py:36 | At t = −(p·v)/(v·v) the relative position is perpendicular to the relative velocity. |
| Cpa.CpaTimeIsStationary | src/domain/cpa.py:36 | With relative motion, a CPA time exists and is an instant of perpendicularity. |
| Cpa.CpaDistanceIsRangeAtCpa | src/domain/cpa.py:37-41 | With relative motion, the CPA distance is the range, the length of p + v·t, at the CPA time. |
| Cpa.CpaIsClosestApproach | src/domain/cpa.py:36-39 | For every time s, the squared range at the CPA time is at most the squared range at s. It is strictly less for s ≠ t. The CPA distance is at most the range at s. |
| Cpa.CpaTimeIsUnique | src/domain/cpa.py:36 | The CPA time is the only instant at which relative position and velocity are perpendicular. |
| Cpa.CpaFromPerpendicularInstant | src/domain/cpa.py:36-41 | With relative motion, take an instant of perpendicularity and the range at that instant. They are exactly what `compute_cpa` returns. |
| Cpa.CpaWithinReach | src/domain/cpa.py:68-70 | Suppose a pair reaches its CPA within l seconds, under h metres, at relative speed at most vmax. Then its current range is under vmax·l + h. |
| Cpa.HeadOnClosure | src/tests/test_cpa.py:6-18 | A pair d metres apart closing head-on at c m/s has CPA time exactly d/c and distance 0. |
| Cpa.HeadOnTenKilometres | src/tests/test_cpa.py:10-18 | p = (10000, 0) and v = (−200, 0) give t = 50 exactly and d = 0. |
| Cpa.CollisionIsCpa | src/domain/cpa.py:36-41 | An instant at which the pair would coincide is the CPA, at distance zero. |
| Cpa.ParallelMotion | src/tests/test_cpa.py:21-33 | p = (0, 5000) and v = (100, 0) give t = 0 and d = 5000. |
| Cpa.AbeamIsCpa | src/domain/cpa.py:36-41 | When p is already perpendicular to v ≠ 0, the CPA is now, at the current range. |
| Cpa.StillPair | src/tests/test_cpa.py:36-48 | With zero relative velocity there is no time, and the distance is the current range: exactly 5000 for (3000, 4000). A Pythagorean triple stands in for the test's input because √2 has no exact value under the `Math` axioms. |
| Cpa.StillPairAsTested | src/tests/test_cpa.py:40-48 | The test's own input, p = (1000, 1000) with zero relative velocity, gives no time and the current range, the length of p, as the distance. |
| Cpa.CpaIgnoresRoles | src/domain/cpa.py:100-116 | Negating both p and v, as swapping ownship and intruder does, leaves the CPA time and distance unchanged. |
| Detector.MakeLimits | src/domain/cpa.py:65-70 | The minima in metres convert back to sep_nm and sep_ft. The pre-filter radius exceeds the horizontal minimum by the maximum relative speed times the look-ahead. |
| Detector.Screen | src/domain/cpa.py:118-160 | The definition of the tests after the CPA and of the record they build. Its meaning is stated by `EmittedRecord`, `ScreenSymmetric` and, through `AssessAtCpa`, `AssessAtCpaMeaning`. |
| Detector.AssessAtCpa | src/domain/cpa.py:109-160 | The definition of the loop body after the pre-filter: relative motion, `compute_cpa`, then the tests. Its meaning is stated by `AssessAtCpaMeaning` and `PrefilterSound`. |
| Detector.AssessPair | src/domain/cpa.py:100-160 | The definition of one iteration of the pair loop, pre-filter included. Its meaning is stated by `EmittedRecord`, `EmittedDistanceIsClosest`, `NoRelativeMotionNoConflict`, `PrefilterSound` and `AssessPairSymmetric`. |
| Detector.AssessAtCpaMeaning | src/domain/cpa.py:118-145 | Assume a moving pair, and t the instant of perpendicularity. A record is emitted exactly when all of these hold: 0 < t ≤ look-ahead; the range at t is under the horizontal minimum; both altitudes are known; the absolute value of Δalt + Δvrate·t is under the vertical minimum. |
| Detector.NoRelativeMotionNoConflict | src/domain/cpa.py:114-119 | A pair without relative motion has no CPA time and is never reported. |
| Detector.EmittedRecord | src/domain/cpa.py:106-160 | Every emitted record has: names ownship then intruder; range within the pre-filter radius; 0 < t_cpa ≤ look-ahead; d_cpa_nm·NM_TO_M under the horizontal minimum; both altitudes known; vert_sep_ft·FT_TO_M the absolute vertical separation at t_cpa, under the vertical minimum; (cpa_x, cpa_y) = the ownship's position plus its velocity times t_cpa. |
| Detector.EmittedDistanceIsClosest | src/domain/cpa.py:114-156 | The reported distance, back in metres, is the range at the reported time. It is the least range the pair reaches at any time. |
| Detector.PrefilterSound | src/domain/cpa.py:105-107 | When the relative speed is at most the maximum relative speed, the distance pre-filter never drops a pair that the later tests would report. |
| Detector.AssessPairSymmetric | src/domain/cpa.py:100-145 | Swapping the two aircraft reports the pair or not alike. The names are exchanged; t_cpa, d_cpa_nm and vert_sep_ft are the same. |
| Detector.SwappedCpa | src/domain/cpa.py:100-116 | Seen from the other aircraft, the current range and the CPA result are the same. |
| Detector.ScreenSymmetric | src/domain/cpa.py:118-145 | The tests after the CPA treat the two aircraft alike; the vertical separation changes sign only. |
| Detection.Combinations | src/domain/cpa.py:99 | The definition of `combinations(range(n), 2)`. Its meaning is stated by `CombinationsAreOrderedPairs` and `RowsBelowMembers`. |
| Detection.Mean | src/domain/cpa.py:72-73 | The definition of `Series.mean()` for the reference latitude and longitude. Its meaning is stated by `MeanWithinRange`. |
| Detection.Table | src/domain/cpa.py:88-95 | The definition of a dict built from (id, vector) entries in row order. Its meaning is stated by `TableKeys` and `LastRowWins`. |
| Detection.ReportedConflicts | src/domain/cpa.py:44-162 | The definition of the list `detect_conflicts` returns. Its meaning is stated by `DetectionReportsOnlyConflicts`, `DetectionReportsEveryConflict` and `DetectionSmallSnapshot`, and `DetectConflicts` is proved to compute it. |
| Detection.CombinationsAreOrderedPairs | src/domain/cpa.py:99 | The enumeration holds exactly the pairs i < j < n. They come in strictly increasing lexicographic order, so each is visited once, with the earlier aircraft as ownship. |
| Detection.RowsBelowMembers | src/domain/cpa.py:99 | The first i rows of the enumeration hold the pairs with ownship below i, in lexicographic order. |
| Detection.MeanWithinRange | src/domain/cpa.py:72-73 | The mean of a non-empty column lies between any lower and upper bound of its values. |
| Detection.TableKeys | src/domain/cpa.py:88-95 | Each table's keys are exactly the ids of the rows. |
| Detection.LastRowWins | src/domain/cpa.py:88-95 | A row whose id no later row repeats is the value the table holds for that id. |
| Detection.TablesKeyed | src/domain/cpa.py:88-95 | Every aircraft of the snapshot has a position and a velocity entry. |
| Detection.BuildTables | src/domain/cpa.py:88-95 | The loop builds the two tables from the rows in order. |
| Detection.CollectAppend | src/domain/cpa.py:152-160 | Output order follows enumeration order: the records of a + b are those of a followed by those of b. |
| Detection.CollectSound | src/domain/cpa.py:99-160 | Every output record is the verdict of one of the enumerated pairs. |
| Detection.CollectComplete | src/domain/cpa.py:99-160 | Every enumerated pair with a record has that record in the output. |
| Detection.DetectionReportsOnlyConflicts | src/domain/cpa.py:44-162 | Every reported conflict is between an earlier ownship and a later intruder of the snapshot. Its CPA lies in (0, look-ahead], d_cpa_nm < sep_nm and vert_sep_ft < sep_ft. |
| Detection.DetectionReportsEveryConflict | src/domain/cpa.py:44-162 | Every pair i < j whose per-pair decision emits a record has that record in the output. |
| Detection.DetectionSmallSnapshot | src/domain/cpa.py:97-99 | A snapshot with fewer than two aircraft yields []. |
| Detection.ScreenPair | src/domain/cpa.py:100-160 | One pass of the loop body, including its `continue`s, yields exactly the per-pair verdict. |
| Detection.ScreenAtCpa | src/domain/cpa.py:118-160 | The tests at the CPA and the record construction yield exactly the screening function's result. |
| Detection.PairsStep | src/domain/cpa.py:152-160 | Appending the record of pair k, or nothing, extends the records of the first k pairs to those of the first k + 1. |
| Detection.DetectConflicts | src/domain/cpa.py:44-162 | The loop program returns exactly the specified list. |
| UiUtils.TrimStart | src/ui/utils.py:30 | The result is a suffix of s. What was cut is all whitespace, and the result does not start with whitespace. |
| UiUtils.TrimEnd | src/ui/utils.py:30 | The result is a prefix of s. What was cut is all whitespace, and the result does not end with whitespace. |
| UiUtils.Strip | src/ui/utils.py:30 | The definition of `str.strip()`. Its meaning is stated by `StripIsTrimmedSlice`, `StripEmptyIffBlank` and `StripIdempotent`. |
| UiUtils.StripIsTrimmedSlice | src/ui/utils.py:30 | `strip()` returns a slice s[i..j] of s, with only whitespace before i and after j. |
| UiUtils.StripEmptyIffBlank | src/ui/utils.py:30-31 | The stripped string is empty exactly when s is all whitespace. Otherwise it neither starts nor ends with whitespace. |
| UiUtils.StripIdempotent | src/ui/utils.py:30 | Stripping twice strips nothing more. |
| UiUtils.LabelAircraft | src/ui/utils.py:19-31 | If the map has a callsign for the id that is not blank, the label is that callsign stripped of surrounding whitespace: non-empty, a slice of it, not starting or ending with whitespace. Otherwise the label is the ICAO24 id. |
| UiUtils.LabelIsStable | src/ui/utils.py:30-31 | Putting a label back into the map as the callsign labels the aircraft the same way. |
| UiUtils.SampleCountCounts | src/ui/utils.py:49 | `np.arange(0, stop, step)` has exactly the samples k with k < stop/step. For a positive step these are the k with k·step below stop; for a negative step, those with k·step above it. |
| UiUtils.Arange | src/ui/utils.py:49 | The definition of `np.arange(0, stop, step)`. Its meaning is stated by `ArangeSamples` and `SampleCountCounts`. |
| UiUtils.ArangeSamples | src/ui/utils.py:49 | The samples start at 0 when stop/step > 0 and go up by step. They stay between 0 and stop, stop excluded, on either side of 0. |
| UiUtils.ProjectFuturePositions | src/ui/utils.py:34-57 | One point per sample of `np.arange(0, lookahead + 1, step)`, in sample order. Each point is the inverse projection of position + velocity·dt. |
| UiUtils.ProjectionStartsAtAircraft | src/ui/utils.py:49-55 | The first point, at dt = 0, is the aircraft's own [lon_deg, lat_deg]. |
| UiUtils.FuturePoint | src/ui/utils.py:52-54 | The definition of one projected point: the inverse projection of position + velocity·dt. Its meaning is stated by `FuturePointOnTrack` and `ProjectionStartsAtAircraft`. |
| UiUtils.FuturePointOnTrack | src/ui/utils.py:52-55 | Every projected point, projected forward again, is the current planar position plus dt times the velocity. It lies on the aircraft's straight-line track. |

## Left out

- IEEE-754 floating point is replaced by reals. This means rounding, `-0.0`,
  infinities and NaN are not modelled. In particular, a NaN altitude read from
  a CSV is not `None`, so it passes the altitude check at
  src/domain/cpa.py:125-129 in the source; the model has only `None` or a
  real.
- `np.sin`, `np.cos`, `np.sqrt` and `np.pi` keep only the axioms listed
  under `Numerics`. No concrete trigonometric value is known. Therefore:
  - the end-to-end scenarios of src/tests/test_detect_conflicts.py:13-85
    are not proved numerically;
  - the assertion of their symmetry test (one conflict for that geometry
    under the default constants) is not proved either;
    `AssessPairSymmetric` proves, for every pair, the role-swap property
    that test's docstring names.
- Geometry.XYToLonLat: requires cos(radians(lat0)) ≠ 0. Over the reals
  cos(π/2) = 0 and the quotient is undefined. numpy's cos(radians(±90)) is
  about 6.1e-17, so at a pole the source (src/domain/geometry.py:39 and
  src/ui/utils.py:53) returns a huge finite longitude, which the model does
  not capture.
- src/constants.py is not part of this model:
  - the Earth radius, the nautical mile and the foot take the standard
    values;
  - `MAX_RELATIVE_SPEED_MPS` is a parameter of `DetectConflicts` and of
    `ReportedConflicts`;
  - the default look-ahead and minima are not modelled, so callers pass
    all three.
- The pandas DataFrame is a sequence of `AircraftState`. Building one
  state per row (src/domain/cpa.py:75-86) is therefore the identity.
- Detection.Mean: the mean of an empty column is 0.0 where pandas gives NaN.
  No pair ever reads it, since an empty snapshot has no pairs.
- Detection.DetectConflicts: the body of the pair loop is factored into the
  methods `ScreenPair` and `ScreenAtCpa`, and the dict comprehensions into
  `BuildTables`. Each keeps the source's steps, filters and order.
- Records are a datatype rather than a dict; the points of
  `project_future_positions` are `LonLat` values rather than two-element
  lists.
- UiUtils.ProjectFuturePositions: requires a non-zero step. numpy raises an
  error for a zero step. The default `step=10` is not modelled; callers pass
  it.
- UiUtils.IsSpace: whitespace is the set of characters Python's
  `str.isspace` accepts. Strings are sequences of characters, with no
  encoding or normalisation.
- `create_callsign_map` and `get_view_center` of src/ui/utils.py are left
  out. They are DataFrame queries with no logic beyond library calls.
- The Streamlit UI, the data scripts and the presentation-side sorting are
  left out. They cover rendering, I/O and random data generation.
