/**
 * The whole pass of `detect_conflicts` (src/domain/cpa.py): reference point,
 * per-aircraft tables, the enumeration of unordered pairs in
 * `itertools.combinations` order, and the list of records in that order.
 *
 * `ReportedConflicts` is the specification; `DetectConflicts` is the loop program
 * of the source, proved to compute it.
 */
module Detection {
  import opened Options
  import opened Numerics
  import opened Geometry
  import opened Aircraft
  import opened Constants
  import opened Cpa
  import opened Detector

  // ---------------------------------------------------------------------
  // combinations(range(n), 2)

  /** The pairs (i, j) for j = lo, ..., hi - 1, in that order. */
  function Row(i: nat, lo: nat, hi: nat): seq<(nat, nat)>
    decreases hi
  {
    if hi <= lo then [] else Row(i, lo, hi - 1) + [(i, hi - 1)]
  }

  /** The pairs of the first i rows of the enumeration: ownship below i, intruder after it. */
  function RowsBelow(i: nat, n: nat): seq<(nat, nat)> {
    if i == 0 then [] else RowsBelow(i - 1, n) + Row(i - 1, i, n)
  }

  /** `combinations(range(n), 2)`. */
  function Combinations(n: nat): seq<(nat, nat)> {
    RowsBelow(n, n)
  }

  /** Lexicographic order on index pairs: the order `combinations` produces them in. */
  predicate Before(p: (nat, nat), q: (nat, nat)) {
    p.0 < q.0 || (p.0 == q.0 && p.1 < q.1)
  }

  /** Every pair comes strictly before every later one, so no pair repeats. */
  predicate StrictlyOrdered(ps: seq<(nat, nat)>) {
    forall a, b :: 0 <= a < b < |ps| ==> Before(ps[a], ps[b])
  }

  lemma {:induction false} RowMembers(i: nat, lo: nat, hi: nat)
    ensures forall p :: p in Row(i, lo, hi) <==> p.0 == i && lo <= p.1 < hi
    ensures StrictlyOrdered(Row(i, lo, hi))
  {
    if lo < hi {
      RowMembers(i, lo, hi - 1);
    }
  }

  lemma {:induction false} RowsBelowMembers(i: nat, n: nat)
    ensures forall p :: p in RowsBelow(i, n) <==> p.0 < i && p.0 < p.1 < n
    ensures StrictlyOrdered(RowsBelow(i, n))
  {
    if i > 0 {
      RowsBelowMembers(i - 1, n);
      RowMembers(i - 1, i, n);
      var a, b := RowsBelow(i - 1, n), Row(i - 1, i, n);
      forall x, y | 0 <= x < y < |a + b|
        ensures Before((a + b)[x], (a + b)[y])
      {
        if y < |a| {
        } else if x >= |a| {
          assert (a + b)[x] == b[x - |a|] && (a + b)[y] == b[y - |a|];
        } else {
          assert (a + b)[x] == a[x] && a[x] in a;
          assert (a + b)[y] == b[y - |a|] && b[y - |a|] in b;
        }
      }
    }
  }

  /**
   * The enumeration holds exactly the pairs i < j < n, each once, in
   * increasing lexicographic order: ownship before intruder in snapshot
   * order.
   */
  lemma CombinationsAreOrderedPairs(n: nat)
    ensures forall p :: p in Combinations(n) <==> p.0 < p.1 < n
    ensures StrictlyOrdered(Combinations(n))
  {
    RowsBelowMembers(n, n);
  }

  // ---------------------------------------------------------------------
  // The reference point and the per-aircraft tables

  function Sum(xs: seq<real>): real {
    if xs == [] then 0.0 else Sum(xs[..|xs| - 1]) + xs[|xs| - 1]
  }

  /**
   * `Series.mean()`. The mean of an empty column is NaN in pandas; here it is
   * 0.0, which no pair ever reads, since an empty snapshot has no pairs.
   */
  function Mean(xs: seq<real>): real {
    if xs == [] then 0.0 else Sum(xs) / (|xs| as real)
  }

  lemma {:induction false} SumBounds(xs: seq<real>, lo: real, hi: real)
    requires forall k :: 0 <= k < |xs| ==> lo <= xs[k] <= hi
    ensures (|xs| as real) * lo <= Sum(xs) <= (|xs| as real) * hi
  {
    if xs != [] {
      SumBounds(xs[..|xs| - 1], lo, hi);
      assert (|xs| as real) * lo == ((|xs| - 1) as real) * lo + lo;
      assert (|xs| as real) * hi == ((|xs| - 1) as real) * hi + hi;
    }
  }

  /** The reference point lies within the range of the coordinates averaged. */
  lemma MeanWithinRange(xs: seq<real>, lo: real, hi: real)
    requires xs != []
    requires forall k :: 0 <= k < |xs| ==> lo <= xs[k] <= hi
    ensures lo <= Mean(xs) <= hi
  {
    SumBounds(xs, lo, hi);
    var n := |xs| as real;
    DivMonotone(n * lo, Sum(xs), n);
    DivMonotone(Sum(xs), n * hi, n);
    assert (n * lo) / n == lo && (n * hi) / n == hi;
  }

  /** Dividing by a positive number keeps the order. */
  lemma DivMonotone(a: real, b: real, n: real)
    requires n > 0.0 && a <= b
    ensures a / n <= b / n
  {
    assert b / n - a / n == (b - a) / n;
  }

  function Lats(s: seq<AircraftState>): seq<real> {
    seq(|s|, k requires 0 <= k < |s| => s[k].latDeg)
  }

  function Lons(s: seq<AircraftState>): seq<real> {
    seq(|s|, k requires 0 <= k < |s| => s[k].lonDeg)
  }

  /** A dict built from (key, value) entries in order: a later entry with the same key overwrites. */
  function Table(e: seq<(string, Vec2)>): map<string, Vec2> {
    if e == [] then map[] else Table(e[..|e| - 1])[e[|e| - 1].0 := e[|e| - 1].1]
  }

  /** The table's keys are exactly the keys of the entries. */
  lemma {:induction false} TableKeys(e: seq<(string, Vec2)>)
    ensures Table(e).Keys == set k | 0 <= k < |e| :: e[k].0
  {
    if e != [] {
      var f := e[..|e| - 1];
      TableKeys(f);
      assert forall k :: 0 <= k < |f| ==> f[k] == e[k];
    }
  }

  /** An entry whose key no later entry repeats is the value the table holds: the last row wins. */
  lemma {:induction false} LastRowWins(e: seq<(string, Vec2)>, i: nat)
    requires i < |e|
    requires forall j :: i < j < |e| ==> e[j].0 != e[i].0
    ensures e[i].0 in Table(e) && Table(e)[e[i].0] == e[i].1
  {
    if i < |e| - 1 {
      var f := e[..|e| - 1];
      assert forall j :: i < j < |f| ==> f[j] == e[j];
      LastRowWins(f, i);
    }
  }

  function PositionEntries(m: Math, s: seq<AircraftState>, lat0: real, lon0: real): seq<(string, Vec2)> {
    seq(|s|, k requires 0 <= k < |s| => (s[k].icao24, PositionXY(m, s[k], lat0, lon0)))
  }

  function VelocityEntries(m: Math, s: seq<AircraftState>): seq<(string, Vec2)> {
    seq(|s|, k requires 0 <= k < |s| => (s[k].icao24, VelocityVector(m, s[k])))
  }

  // ---------------------------------------------------------------------
  // The pair loop

  /** Every aircraft's id has a position and a velocity. */
  predicate Keyed(s: seq<AircraftState>, pos: map<string, Vec2>, vel: map<string, Vec2>) {
    forall k :: 0 <= k < |s| ==> s[k].icao24 in pos && s[k].icao24 in vel
  }

  predicate PairsWithin(ps: seq<(nat, nat)>, n: nat) {
    forall k :: 0 <= k < |ps| ==> ps[k].0 < n && ps[k].1 < n
  }

  /** Aircraft i with the position and velocity the tables hold for its id. */
  function TrackAt(s: seq<AircraftState>, pos: map<string, Vec2>, vel: map<string, Vec2>, i: nat): Track
    requires i < |s| && Keyed(s, pos, vel)
  {
    Track(s[i], pos[s[i].icao24], vel[s[i].icao24])
  }

  function Verdict(m: Math, s: seq<AircraftState>, pos: map<string, Vec2>, vel: map<string, Vec2>,
                   lim: Limits, p: (nat, nat)): Option<ConflictRecord>
    requires p.0 < |s| && p.1 < |s| && Keyed(s, pos, vel)
  {
    AssessPair(m, TrackAt(s, pos, vel, p.0), TrackAt(s, pos, vel, p.1), lim)
  }

  function Emitted(o: Option<ConflictRecord>): seq<ConflictRecord> {
    match o
    case None => []
    case Some(r) => [r]
  }

  /** The records of the given pairs, in the order of the pairs. */
  function Collect(m: Math, s: seq<AircraftState>, pos: map<string, Vec2>, vel: map<string, Vec2>,
                   lim: Limits, ps: seq<(nat, nat)>): seq<ConflictRecord>
    requires Keyed(s, pos, vel) && PairsWithin(ps, |s|)
  {
    if ps == [] then []
    else Collect(m, s, pos, vel, lim, ps[..|ps| - 1]) + Emitted(Verdict(m, s, pos, vel, lim, ps[|ps| - 1]))
  }

  /** Output order follows enumeration order: the records of a + b are those of a, then those of b. */
  lemma {:induction false} CollectAppend(m: Math, s: seq<AircraftState>, pos: map<string, Vec2>, vel: map<string, Vec2>,
                                         lim: Limits, a: seq<(nat, nat)>, b: seq<(nat, nat)>)
    requires Keyed(s, pos, vel) && PairsWithin(a, |s|) && PairsWithin(b, |s|)
    ensures PairsWithin(a + b, |s|)
    ensures Collect(m, s, pos, vel, lim, a + b) == Collect(m, s, pos, vel, lim, a) + Collect(m, s, pos, vel, lim, b)
    decreases |b|
  {
    if b != [] {
      var b' := b[..|b| - 1];
      assert (a + b)[..|a + b| - 1] == a + b';
      assert (a + b)[|a + b| - 1] == b[|b| - 1];
      CollectAppend(m, s, pos, vel, lim, a, b');
      var e := Emitted(Verdict(m, s, pos, vel, lim, b[|b| - 1]));
      assert Collect(m, s, pos, vel, lim, a + b) == Collect(m, s, pos, vel, lim, a + b') + e;
      assert Collect(m, s, pos, vel, lim, b) == Collect(m, s, pos, vel, lim, b') + e;
    } else {
      assert a + b == a;
    }
  }

  /** Every record comes from one of the pairs. */
  lemma {:induction false} CollectSound(m: Math, s: seq<AircraftState>, pos: map<string, Vec2>, vel: map<string, Vec2>,
                                        lim: Limits, ps: seq<(nat, nat)>, rec: ConflictRecord)
    requires Keyed(s, pos, vel) && PairsWithin(ps, |s|)
    requires rec in Collect(m, s, pos, vel, lim, ps)
    ensures exists k :: 0 <= k < |ps| && Verdict(m, s, pos, vel, lim, ps[k]) == Some(rec)
  {
    var init := ps[..|ps| - 1];
    if rec in Collect(m, s, pos, vel, lim, init) {
      CollectSound(m, s, pos, vel, lim, init, rec);
      var k :| 0 <= k < |init| && Verdict(m, s, pos, vel, lim, init[k]) == Some(rec);
      assert init[k] == ps[k];
    } else {
      assert Verdict(m, s, pos, vel, lim, ps[|ps| - 1]) == Some(rec);
    }
  }

  /** Every pair that the per-pair decision reports is in the output. */
  lemma {:induction false} CollectComplete(m: Math, s: seq<AircraftState>, pos: map<string, Vec2>, vel: map<string, Vec2>,
                                           lim: Limits, ps: seq<(nat, nat)>, k: nat, rec: ConflictRecord)
    requires Keyed(s, pos, vel) && PairsWithin(ps, |s|)
    requires k < |ps| && Verdict(m, s, pos, vel, lim, ps[k]) == Some(rec)
    ensures rec in Collect(m, s, pos, vel, lim, ps)
  {
    if k < |ps| - 1 {
      var init := ps[..|ps| - 1];
      assert init[k] == ps[k];
      CollectComplete(m, s, pos, vel, lim, init, k, rec);
    }
  }

  // ---------------------------------------------------------------------
  // The specification of the pass

  /** The reference latitude and longitude: the snapshot's means. */
  function Reference(s: seq<AircraftState>): (real, real) {
    (Mean(Lats(s)), Mean(Lons(s)))
  }

  function Positions(m: Math, s: seq<AircraftState>): map<string, Vec2> {
    Table(PositionEntries(m, s, Reference(s).0, Reference(s).1))
  }

  function Velocities(m: Math, s: seq<AircraftState>): map<string, Vec2> {
    Table(VelocityEntries(m, s))
  }

  lemma TablesKeyed(m: Math, s: seq<AircraftState>)
    ensures Keyed(s, Positions(m, s), Velocities(m, s))
  {
    var e, f := PositionEntries(m, s, Reference(s).0, Reference(s).1), VelocityEntries(m, s);
    TableKeys(e);
    TableKeys(f);
    forall k | 0 <= k < |s|
      ensures s[k].icao24 in Positions(m, s) && s[k].icao24 in Velocities(m, s)
    {
      assert e[k].0 == s[k].icao24 && f[k].0 == s[k].icao24;
    }
  }

  lemma CombinationsWithin(n: nat)
    ensures PairsWithin(Combinations(n), n)
  {
    CombinationsAreOrderedPairs(n);
    forall k | 0 <= k < |Combinations(n)|
      ensures Combinations(n)[k].0 < n && Combinations(n)[k].1 < n
    {
      assert Combinations(n)[k] in Combinations(n);
    }
  }

  /** Both tables have an entry for every aircraft of the snapshot. */
  predicate TablesKeyedFact(m: Math, s: seq<AircraftState>) {
    Keyed(s, Positions(m, s), Velocities(m, s))
  }

  /** The list `detect_conflicts` returns. */
  function ReportedConflicts(m: Math, s: seq<AircraftState>, lookaheadS: real, sepNm: real, sepFt: real,
                     maxRelativeSpeedMps: real): seq<ConflictRecord>
  {
    TablesKeyed(m, s);
    CombinationsWithin(|s|);
    Collect(m, s, Positions(m, s), Velocities(m, s),
            MakeLimits(lookaheadS, sepNm, sepFt, maxRelativeSpeedMps), Combinations(|s|))
  }

  /**
   * Every reported conflict is between an earlier ownship and a later
   * intruder of the snapshot, predicts its CPA within (0, lookahead], and
   * is under both minima in the caller's units.
   */
  lemma {:induction false} DetectionReportsOnlyConflicts(m: Math, s: seq<AircraftState>, lookaheadS: real, sepNm: real,
                                                         sepFt: real, maxRelativeSpeedMps: real, rec: ConflictRecord)
    requires rec in ReportedConflicts(m, s, lookaheadS, sepNm, sepFt, maxRelativeSpeedMps)
    ensures exists i, j :: 0 <= i < j < |s| && rec.a == s[i].icao24 && rec.b == s[j].icao24
    ensures 0.0 < rec.tCpa <= lookaheadS
    ensures rec.dCpaNm < sepNm && rec.vertSepFt < sepFt
  {
    var lim := MakeLimits(lookaheadS, sepNm, sepFt, maxRelativeSpeedMps);
    var pos, vel, ps := Positions(m, s), Velocities(m, s), Combinations(|s|);
    TablesKeyed(m, s);
    CombinationsWithin(|s|);
    CollectSound(m, s, pos, vel, lim, ps, rec);
    var k :| 0 <= k < |ps| && Verdict(m, s, pos, vel, lim, ps[k]) == Some(rec);
    CombinationsAreOrderedPairs(|s|);
    assert ps[k] in ps;
    var i, j := ps[k].0, ps[k].1;
    EmittedRecord(m, TrackAt(s, pos, vel, i), TrackAt(s, pos, vel, j), lim, rec);
  }

  /** Every pair i < j that the per-pair decision reports is in the output. */
  lemma {:induction false} DetectionReportsEveryConflict(m: Math, s: seq<AircraftState>, lookaheadS: real, sepNm: real,
                                                         sepFt: real, maxRelativeSpeedMps: real, i: nat, j: nat)
    requires i < j < |s|
    ensures TablesKeyedFact(m, s)
    ensures Verdict(m, s, Positions(m, s), Velocities(m, s),
                    MakeLimits(lookaheadS, sepNm, sepFt, maxRelativeSpeedMps), (i, j)).Some? ==>
              Verdict(m, s, Positions(m, s), Velocities(m, s),
                      MakeLimits(lookaheadS, sepNm, sepFt, maxRelativeSpeedMps), (i, j)).value
                in ReportedConflicts(m, s, lookaheadS, sepNm, sepFt, maxRelativeSpeedMps)
  {
    TablesKeyed(m, s);
    var lim := MakeLimits(lookaheadS, sepNm, sepFt, maxRelativeSpeedMps);
    var pos, vel, ps := Positions(m, s), Velocities(m, s), Combinations(|s|);
    CombinationsWithin(|s|);
    CombinationsAreOrderedPairs(|s|);
    assert (i, j) in ps;
    var k :| 0 <= k < |ps| && ps[k] == (i, j);
    var o := Verdict(m, s, pos, vel, lim, (i, j));
    if o.Some? {
      CollectComplete(m, s, pos, vel, lim, ps, k, o.value);
    }
  }

  /** A snapshot with fewer than two aircraft has no pair and no conflict. */
  lemma DetectionSmallSnapshot(m: Math, s: seq<AircraftState>, lookaheadS: real, sepNm: real, sepFt: real,
                               maxRelativeSpeedMps: real)
    requires |s| <= 1
    ensures ReportedConflicts(m, s, lookaheadS, sepNm, sepFt, maxRelativeSpeedMps) == []
  {
    assert Combinations(|s|) == [];
  }

  /**
   * One pass of the pair loop's body (src/domain/cpa.py:100-160), each
   * `continue` of the source a return without a record: the distance
   * pre-filter and the CPA here, the tests at the CPA in `ScreenAtCpa`.
   */
  method ScreenPair(m: Math, states: seq<AircraftState>, i: nat, j: nat,
                    positionXY: map<string, Vec2>, velocityXY: map<string, Vec2>,
                    lookaheadS: real, horizontalSepM: real, verticalSepM: real, maxInitialDistanceM: real)
    returns (found: Option<ConflictRecord>)
    requires Keyed(states, positionXY, velocityXY) && i < |states| && j < |states|
    ensures found == Verdict(m, states, positionXY, velocityXY,
                             Limits(lookaheadS, horizontalSepM, verticalSepM, maxInitialDistanceM), (i, j))
  {
    var ownship, intruder := states[i], states[j];
    ghost var own := Track(ownship, positionXY[ownship.icao24], velocityXY[ownship.icao24]);
    ghost var intr := Track(intruder, positionXY[intruder.icao24], velocityXY[intruder.icao24]);
    var lim := Limits(lookaheadS, horizontalSepM, verticalSepM, maxInitialDistanceM);
    assert Verdict(m, states, positionXY, velocityXY, lim, (i, j)) == AssessPair(m, own, intr, lim);

    var relPositionM := Sub(positionXY[intruder.icao24], positionXY[ownship.icao24]);
    if Norm(m, relPositionM) > maxInitialDistanceM {
      return None;
    }

    var relVelocityMps := Sub(velocityXY[intruder.icao24], velocityXY[ownship.icao24]);
    var cpa := ComputeCpa(m, relPositionM, relVelocityMps);
    found := ScreenAtCpa(ownship, intruder, positionXY[ownship.icao24], velocityXY[ownship.icao24],
                         positionXY[intruder.icao24], velocityXY[intruder.icao24], cpa, lim);
  }

  /**
   * The tests at the closest approach (src/domain/cpa.py:118-160): the
   * look-ahead window, the horizontal minimum, known altitudes and the
   * vertical minimum, and the record built when all pass.
   */
  method ScreenAtCpa(ownship: AircraftState, intruder: AircraftState,
                     ownPos: Vec2, ownVel: Vec2, intrPos: Vec2, intrVel: Vec2, cpa: CpaResult, lim: Limits)
    returns (found: Option<ConflictRecord>)
    ensures found == Screen(Track(ownship, ownPos, ownVel), Track(intruder, intrPos, intrVel), cpa, lim)
  {
    var tCpaS, dCpaM := cpa.tCpaS, cpa.dCpaM;
    if tCpaS.None? || !(0.0 < tCpaS.value <= lim.lookaheadS) {
      return None;
    }

    if dCpaM >= lim.horizontalSepM {
      return None;
    }

    if ownship.altitudeM.None? || intruder.altitudeM.None? {
      return None;
    }

    var initialVerticalSepM := intruder.altitudeM.value - ownship.altitudeM.value;
    var relativeVerticalRateMps := intruder.verticalRateMps - ownship.verticalRateMps;
    var verticalSepAtCpaM := initialVerticalSepM + relativeVerticalRateMps * tCpaS.value;
    ghost var own, intr := Track(ownship, ownPos, ownVel), Track(intruder, intrPos, intrVel);
    assert VerticalSepAt(own, intr, tCpaS.value) == verticalSepAtCpaM;

    if Abs(verticalSepAtCpaM) >= lim.verticalSepM {
      return None;
    }

    var ownshipCpaXY := Add(ownPos, Scale(ownVel, tCpaS.value));

    found := Some(ConflictRecord(
      ownship.icao24,
      intruder.icao24,
      tCpaS.value,
      dCpaM / NM_TO_M,
      Abs(verticalSepAtCpaM) / FT_TO_M,
      ownshipCpaXY.x,
      ownshipCpaXY.y));
  }

  /**
   * The two dict comprehensions (src/domain/cpa.py:88-95): each aircraft's
   * id mapped to its projected position and to its velocity vector, row by
   * row, a later row overwriting an earlier one with the same id.
   */
  method BuildTables(m: Math, states: seq<AircraftState>, latRef: real, lonRef: real)
    returns (positionXY: map<string, Vec2>, velocityXY: map<string, Vec2>)
    ensures positionXY == Table(PositionEntries(m, states, latRef, lonRef))
    ensures velocityXY == Table(VelocityEntries(m, states))
  {
    positionXY, velocityXY := map[], map[];
    ghost var pe, ve := PositionEntries(m, states, latRef, lonRef), VelocityEntries(m, states);
    for k := 0 to |states|
      invariant positionXY == Table(pe[..k])
      invariant velocityXY == Table(ve[..k])
    {
      assert pe[..k + 1][..k] == pe[..k] && ve[..k + 1][..k] == ve[..k];
      positionXY := positionXY[states[k].icao24 := PositionXY(m, states[k], latRef, lonRef)];
      velocityXY := velocityXY[states[k].icao24 := VelocityVector(m, states[k])];
    }
    assert pe[..|states|] == pe && ve[..|states|] == ve;
  }

  /** Screening pair k extends the records of the pairs before it by that pair's record. */
  lemma PairsStep(m: Math, s: seq<AircraftState>, pos: map<string, Vec2>, vel: map<string, Vec2>,
                  lim: Limits, pairs: seq<(nat, nat)>, k: nat,
                  prior: seq<ConflictRecord>, found: Option<ConflictRecord>, after: seq<ConflictRecord>)
    requires Keyed(s, pos, vel) && PairsWithin(pairs, |s|) && k < |pairs|
    requires prior == Collect(m, s, pos, vel, lim, pairs[..k])
    requires found == Verdict(m, s, pos, vel, lim, pairs[k])
    requires found.Some? ==> after == prior + [found.value]
    requires found.None? ==> after == prior
    ensures after == Collect(m, s, pos, vel, lim, pairs[..k + 1])
  {
    assert pairs[..k + 1][..k] == pairs[..k];
  }

  /**
   * `detect_conflicts`: builds the reference point and the two tables, then
   * visits the pairs in `combinations` order and appends the record of
   * each pair that passes every test.
   */
  method DetectConflicts(m: Math, snapshot: seq<AircraftState>, lookaheadS: real, sepNm: real, sepFt: real,
                         maxRelativeSpeedMps: real) returns (conflicts: seq<ConflictRecord>)
    ensures conflicts == ReportedConflicts(m, snapshot, lookaheadS, sepNm, sepFt, maxRelativeSpeedMps)
  {
    var horizontalSepM := sepNm * NM_TO_M;
    var verticalSepM := sepFt * FT_TO_M;
    var maxInitialDistanceM := maxRelativeSpeedMps * lookaheadS + horizontalSepM;
    ghost var lim := Limits(lookaheadS, horizontalSepM, verticalSepM, maxInitialDistanceM);
    assert lim == MakeLimits(lookaheadS, sepNm, sepFt, maxRelativeSpeedMps);

    var latRef := Mean(Lats(snapshot));
    var lonRef := Mean(Lons(snapshot));
    var states := snapshot;

    var positionXY, velocityXY := BuildTables(m, states, latRef, lonRef);
    TablesKeyed(m, states);

    conflicts := [];
    var pairs := Combinations(|states|);
    CombinationsWithin(|states|);
    for k := 0 to |pairs|
      invariant conflicts == Collect(m, states, positionXY, velocityXY, lim, pairs[..k])
    {
      var (i, j) := pairs[k];
      var found := ScreenPair(m, states, i, j, positionXY, velocityXY,
                              lookaheadS, horizontalSepM, verticalSepM, maxInitialDistanceM);
      ghost var prior := conflicts;
      if found.Some? {
        conflicts := conflicts + [found.value];
      }
      PairsStep(m, states, positionXY, velocityXY, lim, pairs, k, prior, found, conflicts);
    }
    assert pairs[..|pairs|] == pairs;
  }
}
