/** Tightly coupled GNSS: one scalar Joseph update per pseudorange and per Doppler reading. */
module GnssTightlyCoupled {
  import opened Matrices
  import opened EkfUpdates
  import opened Options

  /** One scalar observation: the row of H as a column vector, its innovation and its sigma. */
  datatype Scalar = Scalar(h: Matrix, innovation: real, sigma: real)

  /** A row of an epoch; only accepted pseudoranges count towards min_satellites. */
  datatype Row = Row(observation: Scalar, counts: bool)

  /** usable: raw data valid, satellite healthy and range not below one millimetre. */
  datatype Satellite = Satellite(usable: bool, pseudorange: Scalar, doppler: Option<Scalar>)

  predicate Fits(o: Scalar, n: nat) { o.h.rows == n && o.h.cols == 1 }

  predicate AllFit(rows: seq<Row>, n: nat) { forall i | 0 <= i < |rows| :: Fits(rows[i].observation, n) }

  function Times(a: real, b: real): real { a * b }

  function Sq(x: real): real { Times(x, x) }

  lemma TimesPositive(a: real, b: real)
    requires (a > 0.0 && b > 0.0) || (a < 0.0 && b < 0.0)
    ensures Times(a, b) > 0.0
  {
    if a < 0.0 {
      var c, d := -a, -b;
      assert c * d > 0.0;
      assert c * d == a * b;
    }
  }

  lemma SquarePositive(x: real)
    requires x != 0.0
    ensures Sq(x) > 0.0
  {
    TimesPositive(x, x);
  }

  /** The innovation variance h^T P h + sigma^2. */
  function Variance(p: Matrix, o: Scalar): real
    requires p.rows == p.cols && Fits(o, p.rows)
  {
    At(Mul(Transpose(o.h), Mul(p, o.h)), 0, 0) + Sq(o.sigma)
  }

  /** |innovation| <= gate * sqrt(S), with both sides squared; a gate of zero or less is off. */
  predicate Passes(p: Matrix, o: Scalar, gate: real)
    requires p.rows == p.cols && Fits(o, p.rows)
  {
    Variance(p, o) > 0.0
    && !(gate > 0.0 && Sq(o.innovation) > Sq(gate) * Variance(p, o))
  }

  function ScalarGain(p: Matrix, o: Scalar): (k: Matrix)
    requires p.rows == p.cols && Fits(o, p.rows) && Variance(p, o) > 0.0
    ensures k.rows == p.rows && k.cols == 1
  {
    Scale(1.0 / Variance(p, o), Mul(p, o.h))
  }

  /** (I - K h^T) P (I - K h^T)^T + K K^T sigma^2, symmetrised. */
  function ScalarJoseph(p: Matrix, o: Scalar): (after: Matrix)
    requires p.rows == p.cols && Fits(o, p.rows) && Variance(p, o) > 0.0
    ensures Square(after, p.rows)
  {
    var k := ScalarGain(p, o);
    var ikh := Sub(Identity(p.rows), Mul(k, Transpose(o.h)));
    Symmetrize(Add(Mul(Mul(ikh, p), Transpose(ikh)), Scale(Sq(o.sigma), Mul(k, Transpose(k)))))
  }

  predicate Proper(e: Estimate) {
    e.covariance.rows == e.covariance.cols == e.error.rows && e.error.cols == 1
  }

  function Step(e: Estimate, o: Scalar, gate: real): (after: Estimate)
    requires Proper(e) && Fits(o, e.error.rows)
    ensures Proper(after) && after.error.rows == e.error.rows
  {
    if Passes(e.covariance, o, gate)
    then Estimate(Add(e.error, Scale(o.innovation, ScalarGain(e.covariance, o))), ScalarJoseph(e.covariance, o))
    else e
  }

  function Final(e: Estimate, rows: seq<Row>, gate: real): (after: Estimate)
    requires Proper(e) && AllFit(rows, e.error.rows)
    ensures Proper(after) && after.error.rows == e.error.rows
    decreases rows
  {
    if rows == [] then e else Final(Step(e, rows[0].observation, gate), rows[1..], gate)
  }

  /** The rows that pass their gate, in order. */
  function AcceptedRows(e: Estimate, rows: seq<Row>, gate: real): (accepted: seq<Row>)
    requires Proper(e) && AllFit(rows, e.error.rows)
    ensures AllFit(accepted, e.error.rows)
    ensures forall i | 0 <= i < |accepted| :: accepted[i] in rows
    decreases rows
  {
    if rows == [] then
      []
    else
      (if Passes(e.covariance, rows[0].observation, gate) then [rows[0]] else [])
      + AcceptedRows(Step(e, rows[0].observation, gate), rows[1..], gate)
  }

  function Counted(rows: seq<Row>): nat {
    if rows == [] then 0 else (if rows[0].counts then 1 else 0) + Counted(rows[1..])
  }

  function SatelliteRows(s: Satellite): seq<Row> {
    if !s.usable then []
    else [Row(s.pseudorange, true)] + match s.doppler case None => [] case Some(d) => [Row(d, false)]
  }

  function EpochRows(satellites: seq<Satellite>): seq<Row> {
    if satellites == [] then [] else SatelliteRows(satellites[0]) + EpochRows(satellites[1..])
  }

  // ---- ScalarUpdate and Apply --------------------------------------------------------------

  method ScalarUpdate(filter: FilterState, o: Scalar, gate: real) returns (ok: bool)
    requires Proper(filter.Current()) && Fits(o, filter.errorState.rows)
    modifies filter
    ensures ok == Passes(old(filter.covariance), o, gate)
    ensures filter.Current() == Step(old(filter.Current()), o, gate)
  {
    hide Variance;
    var p := filter.covariance;
    var s := Variance(p, o);
    if s <= 0.0 { return false; }
    if gate > 0.0 && Sq(o.innovation) > Sq(gate) * s { return false; }
    var k := Scale(1.0 / s, Mul(p, o.h));
    filter.errorState := Add(filter.errorState, Scale(o.innovation, k));
    var n := filter.errorState.rows;
    var ikh := Sub(Identity(n), Mul(k, Transpose(o.h)));
    var joseph := Add(Mul(Mul(ikh, p), Transpose(ikh)), Scale(Sq(o.sigma), Mul(k, Transpose(k))));
    filter.covariance := Symmetrize(joseph);
    assert k == ScalarGain(p, o);
    assert filter.covariance == ScalarJoseph(p, o);
    return true;
  }

  /** What Apply checks before it touches the filter. */
  datatype Context = Context(hasClockSegment: bool, hasTangentPlane: bool, hasNominalClock: bool, epochValid: bool)

  function Precheck(context: Context, satellites: seq<Satellite>): Outcome {
    if !context.hasClockSegment then Outcome.Rejected
    else if !context.hasTangentPlane || !context.hasNominalClock then Outcome.NotInitialized
    else if !context.epochValid || satellites == [] then Outcome.Rejected
    else Outcome.Accepted
  }

  lemma RunConcat(e: Estimate, a: seq<Row>, b: seq<Row>, gate: real)
    requires Proper(e) && AllFit(a, e.error.rows) && AllFit(b, e.error.rows)
    ensures AllFit(a + b, e.error.rows)
    ensures Final(e, a + b, gate) == Final(Final(e, a, gate), b, gate)
    ensures AcceptedRows(e, a + b, gate) == AcceptedRows(e, a, gate) + AcceptedRows(Final(e, a, gate), b, gate)
    decreases a
  {
    hide Step, Passes;
    assert forall i | 0 <= i < |a + b| :: (a + b)[i] == if i < |a| then a[i] else b[i - |a|];
    if a == [] {
      assert a + b == b;
    } else {
      assert (a + b)[1..] == a[1..] + b;
      RunConcat(Step(e, a[0].observation, gate), a[1..], b, gate);
    }
  }

  lemma {:induction false} CountedConcat(a: seq<Row>, b: seq<Row>)
    ensures Counted(a + b) == Counted(a) + Counted(b)
  {
    if a == [] {
      assert a + b == b;
    } else {
      assert (a + b)[1..] == a[1..] + b;
      CountedConcat(a[1..], b);
    }
  }

  predicate SatelliteFits(s: Satellite, n: nat) {
    Fits(s.pseudorange, n) && (s.doppler.Some? ==> Fits(s.doppler.value, n))
  }

  lemma {:induction false} EpochRowsFit(satellites: seq<Satellite>, n: nat)
    requires forall i | 0 <= i < |satellites| :: SatelliteFits(satellites[i], n)
    ensures AllFit(EpochRows(satellites), n)
  {
    if satellites != [] {
      assert SatelliteFits(satellites[0], n);
      assert forall i | 0 <= i < |satellites[1..]| :: satellites[1..][i] == satellites[i + 1];
      EpochRowsFit(satellites[1..], n);
    }
  }

  /** The body of the satellite loop; the result says how much the accepted counter grows. */
  method ApplySatellite(filter: FilterState, s: Satellite, gate: real) returns (counted: nat)
    requires Proper(filter.Current()) && SatelliteFits(s, filter.errorState.rows)
    modifies filter
    ensures AllFit(SatelliteRows(s), old(filter.errorState.rows))
    ensures filter.Current() == Final(old(filter.Current()), SatelliteRows(s), gate)
    ensures counted == Counted(AcceptedRows(old(filter.Current()), SatelliteRows(s), gate))
  {
    hide Step, Passes;
    ghost var start := filter.Current();
    counted := 0;
    if !s.usable { return; }
    ghost var row := Row(s.pseudorange, true);
    SingleRow(start, row, gate);
    var ok := ScalarUpdate(filter, s.pseudorange, gate);
    if ok { counted := counted + 1; }
    if s.doppler.Some? {
      ghost var second := Row(s.doppler.value, false);
      SingleRow(filter.Current(), second, gate);
      RunConcat(start, [row], [second], gate);
      CountedConcat(AcceptedRows(start, [row], gate), AcceptedRows(filter.Current(), [second], gate));
      var _ := ScalarUpdate(filter, s.doppler.value, gate);
      assert SatelliteRows(s) == [row] + [second];
    } else {
      assert SatelliteRows(s) == [row];
    }
  }

  lemma SingleRow(e: Estimate, row: Row, gate: real)
    requires Proper(e) && Fits(row.observation, e.error.rows)
    ensures Final(e, [row], gate) == Step(e, row.observation, gate)
    ensures AcceptedRows(e, [row], gate) == if Passes(e.covariance, row.observation, gate) then [row] else []
    ensures Counted(AcceptedRows(e, [row], gate))
         == if row.counts && Passes(e.covariance, row.observation, gate) then 1 else 0
  {
    assert [row][1..] == [];
  }

  /** The satellite loop of Apply; the result is its accepted counter. */
  method ApplyAll(filter: FilterState, satellites: seq<Satellite>, gate: real) returns (accepted: nat)
    requires Proper(filter.Current())
    requires forall i | 0 <= i < |satellites| :: SatelliteFits(satellites[i], filter.errorState.rows)
    modifies filter
    ensures AllFit(EpochRows(satellites), old(filter.errorState.rows))
    ensures filter.Current() == Final(old(filter.Current()), EpochRows(satellites), gate)
    ensures accepted == Counted(AcceptedRows(old(filter.Current()), EpochRows(satellites), gate))
  {
    hide Step, Passes, Final, AcceptedRows, Counted, EpochRows, SatelliteRows;
    EpochRowsFit(satellites, filter.errorState.rows);
    NoRows(filter.Current(), gate);
    assert satellites[0..] == satellites;
    accepted := 0;
    ghost var start, n := filter.Current(), filter.errorState.rows;
    ghost var done: seq<Row> := [];
    for i := 0 to |satellites|
      invariant Proper(filter.Current()) && filter.errorState.rows == n
      invariant AllFit(done, n) && done + EpochRows(satellites[i..]) == EpochRows(satellites)
      invariant filter.Current() == Final(start, done, gate)
      invariant accepted == Counted(AcceptedRows(start, done, gate))
    {
      var s := satellites[i];
      ghost var rows, rest := SatelliteRows(s), EpochRows(satellites[i + 1..]);
      NextSatellite(satellites, i);
      assert done + (rows + rest) == (done + rows) + rest;
      ghost var before := filter.Current();
      var counted := ApplySatellite(filter, s, gate);
      accepted := accepted + counted;
      RunConcat(start, done, rows, gate);
      CountedConcat(AcceptedRows(start, done, gate), AcceptedRows(before, rows, gate));
      done := done + rows;
    }
    assert satellites[|satellites|..] == [];
    assert done == EpochRows(satellites);
  }

  lemma NoRows(e: Estimate, gate: real)
    requires Proper(e)
    ensures EpochRows([]) == [] && Final(e, [], gate) == e && AcceptedRows(e, [], gate) == [] && Counted([]) == 0
  {
  }

  lemma NextSatellite(satellites: seq<Satellite>, i: nat)
    requires i < |satellites|
    ensures EpochRows(satellites[i..]) == SatelliteRows(satellites[i]) + EpochRows(satellites[i + 1..])
  {
    assert satellites[i..][0] == satellites[i] && satellites[i..][1..] == satellites[i + 1..];
  }

  /** Apply: the checks, then pseudorange and Doppler of every usable satellite in turn. All
      innovations belong to the epoch: the loop never moves the nominal state. */
  method Apply(filter: FilterState, context: Context, satellites: seq<Satellite>, gate: real, minSatellites: nat)
    returns (outcome: Outcome)
    requires Proper(filter.Current())
    requires forall i | 0 <= i < |satellites| :: SatelliteFits(satellites[i], filter.errorState.rows)
    modifies filter
    ensures AllFit(EpochRows(satellites), old(filter.errorState.rows))
    ensures Precheck(context, satellites).Accepted? ==>
              filter.Current() == Final(old(filter.Current()), EpochRows(satellites), gate)
    ensures Precheck(context, satellites).Accepted? ==>
              (outcome == if Counted(AcceptedRows(old(filter.Current()), EpochRows(satellites), gate)) < minSatellites
                          then Outcome.Rejected else Outcome.Accepted)
    ensures !Precheck(context, satellites).Accepted? ==>
              filter.Current() == old(filter.Current()) && outcome == Precheck(context, satellites)
  {
    hide Step, Passes;
    EpochRowsFit(satellites, filter.errorState.rows);
    if !context.hasClockSegment { return Outcome.Rejected; }
    if !context.hasTangentPlane { return Outcome.NotInitialized; }
    if !context.hasNominalClock { return Outcome.NotInitialized; }
    if !context.epochValid { return Outcome.Rejected; }
    if satellites == [] { return Outcome.Rejected; }
    var accepted := ApplyAll(filter, satellites, gate);
    if accepted < minSatellites { return Outcome.Rejected; }
    return Outcome.Accepted;
  }

  // ---- What gate, checks and flags mean ----------------------------------------------------

  lemma SquaresCompare(x: real, b: real)
    requires b > 0.0
    ensures Sq(x) <= Sq(b) <==> -b <= x <= b
  {
    assert Sq(b) - Sq(x) == Times(b - x, b + x);
    if -b < x < b {
      TimesPositive(b - x, b + x);
    } else if x < -b {
      TimesPositive(x - b, b + x);
      assert Times(x - b, b + x) == -Times(b - x, b + x);
    } else if b < x {
      TimesPositive(x - b, b + x);
      assert Times(x - b, b + x) == -Times(b - x, b + x);
    }
  }

  /**
   * With s the standard deviation of the innovation: a positive gate lets exactly the innovations from -gate s to
   * gate s pass, a gate of zero or less lets all pass, and without innovation variance none passes.
   */
  lemma PassesWithinGate(p: Matrix, o: Scalar, gate: real, s: real)
    requires p.rows == p.cols && Fits(o, p.rows)
    ensures Variance(p, o) <= 0.0 ==> !Passes(p, o, gate)
    ensures gate <= 0.0 && Variance(p, o) > 0.0 ==> Passes(p, o, gate)
    ensures gate > 0.0 && s > 0.0 && Times(s, s) == Variance(p, o) ==>
              (Passes(p, o, gate) <==> -Times(gate, s) <= o.innovation <= Times(gate, s))
  {
    hide Variance;
    if gate > 0.0 && s > 0.0 && Times(s, s) == Variance(p, o) {
      TimesPositive(gate, s);
      SquareOfProduct(gate, s);
      SquaresCompare(o.innovation, Times(gate, s));
      SquarePositive(s);
    }
  }

  lemma SquareOfProduct(a: real, b: real)
    ensures Sq(Times(a, b)) == Sq(a) * Times(b, b)
  {
    assert (a * b) * (a * b) == (a * a) * (b * b);
  }

  /** Missing clock states refuse first; then what was never set up; then an invalid or empty epoch. */
  lemma PrecheckOutcomes(context: Context, satellites: seq<Satellite>)
    ensures Precheck(context, satellites).NotInitialized?
            <==> context.hasClockSegment && !(context.hasTangentPlane && context.hasNominalClock)
    ensures Precheck(context, satellites).Accepted?
            <==> context.hasClockSegment && context.hasTangentPlane && context.hasNominalClock && context.epochValid
                 && satellites != []
  {
  }

  lemma {:induction false} EpochRowsConcat(a: seq<Satellite>, b: seq<Satellite>)
    ensures EpochRows(a + b) == EpochRows(a) + EpochRows(b)
  {
    if a == [] {
      assert a + b == b;
    } else {
      assert (a + b)[1..] == a[1..] + b;
      EpochRowsConcat(a[1..], b);
    }
  }

  function UsableCount(satellites: seq<Satellite>): nat {
    if satellites == [] then 0 else (if satellites[0].usable then 1 else 0) + UsableCount(satellites[1..])
  }

  /** Every usable satellite, and no other, has one row that counts. */
  lemma {:induction false} UsableSatellitesCount(satellites: seq<Satellite>)
    ensures Counted(EpochRows(satellites)) == UsableCount(satellites)
  {
    if satellites != [] {
      UsableSatellitesCount(satellites[1..]);
      CountedConcat(SatelliteRows(satellites[0]), EpochRows(satellites[1..]));
    }
  }

  /** A satellite that is not usable may as well be missing, wherever it stands. */
  lemma UnusableSatelliteIsMissing(a: seq<Satellite>, s: Satellite, b: seq<Satellite>)
    requires !s.usable
    ensures EpochRows(a + [s] + b) == EpochRows(a + b)
  {
    NothingUnusable(s);
    hide EpochRows;
    EpochRowsConcat(a, [s]);
    EpochRowsConcat(a + [s], b);
    EpochRowsConcat(a, b);
  }

  lemma NothingUnusable(s: Satellite)
    requires !s.usable
    ensures EpochRows([s]) == []
  {
    assert [s][1..] == [];
  }

  /** A usable satellite's pseudorange comes first, then its Doppler reading if it has one, then the others. */
  lemma UsableSatelliteRows(s: Satellite, rest: seq<Satellite>)
    requires s.usable
    ensures var rows := EpochRows([s] + rest);
            var own := if s.doppler.Some? then 2 else 1;
            && |rows| == own + |EpochRows(rest)| && rows[own..] == EpochRows(rest)
            && rows[0].observation == s.pseudorange && rows[0].counts
            && (s.doppler.Some? ==> rows[1].observation == s.doppler.value && !rows[1].counts)
  {
    assert ([s] + rest)[1..] == rest;
  }
}
