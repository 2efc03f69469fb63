/** The error-state protocol: an accepted measurement is injected and its error state cleared. */
module EkfProtocol {
  import opened EkfUpdates
  import opened GnssMean
  import opened GnssTightlyCoupled
  import opened Matrices
  import opened Options

  /**
   * What the first matching measurement model makes of a measurement: a refusal before it touches the filter, one or
   * more gated vector updates (accepted if any block is), or a tightly coupled epoch.
   */
  datatype Observation =
    | Refused(outcome: Outcome)
    | Blocks(blocks: seq<Measurement>, gate: real)
    | Epoch(context: Context, satellites: seq<Satellite>, gate: real, minSatellites: nat)

  predicate UsableBlocks(e: Estimate, blocks: seq<Measurement>, gate: real)
    decreases blocks
  {
    Proper(e) &&
    (blocks == [] || (Usable(blocks[0], e.covariance) && UsableBlocks(Updated(e, blocks[0], gate), blocks[1..], gate)))
  }

  function BlocksApplied(e: Estimate, blocks: seq<Measurement>, gate: real): (Estimate, Outcome)
    requires UsableBlocks(e, blocks, gate)
    decreases blocks
  {
    if blocks == [] then (e, Outcome.Rejected)
    else
      var (after, outcome) := BlocksApplied(Updated(e, blocks[0], gate), blocks[1..], gate);
      (after, if Gated(blocks[0], gate) then outcome else Outcome.Accepted)
  }

  predicate Possible(e: Estimate, o: Observation) {
    Proper(e) &&
    match o
    case Refused(outcome) => !outcome.Accepted?
    case Blocks(blocks, gate) => UsableBlocks(e, blocks, gate)
    case Epoch(_, satellites, _, _) => forall i | 0 <= i < |satellites| :: SatelliteFits(satellites[i], e.error.rows)
  }

  function Applied(e: Estimate, o: Observation): (Estimate, Outcome)
    requires Possible(e, o)
  {
    match o
    case Refused(outcome) => (e, outcome)
    case Blocks(blocks, gate) => BlocksApplied(e, blocks, gate)
    case Epoch(context, satellites, gate, minSatellites) =>
      EpochRowsFit(satellites, e.error.rows);
      if !Precheck(context, satellites).Accepted? then (e, Precheck(context, satellites))
      else
        (Final(e, EpochRows(satellites), gate),
         if Counted(AcceptedRows(e, EpochRows(satellites), gate)) < minSatellites
         then Outcome.Rejected else Outcome.Accepted)
  }

  /** One call: the model is applied, and after acceptance the error state is cleared. */
  function Called(e: Estimate, o: Observation): Estimate
    requires Possible(e, o)
  {
    var applied := Applied(e, o);
    if applied.1.Accepted? then Estimate(Zero(e.error.rows, 1), applied.0.covariance) else applied.0
  }

  method ApplyBlocks(filter: FilterState, blocks: seq<Measurement>, gate: real) returns (outcome: Outcome)
    requires UsableBlocks(filter.Current(), blocks, gate)
    modifies filter
    ensures (filter.Current(), outcome) == BlocksApplied(old(filter.Current()), blocks, gate)
  {
    hide Updated, Gated, Usable;
    outcome := Outcome.Rejected;
    ghost var whole := BlocksApplied(filter.Current(), blocks, gate);
    for i := 0 to |blocks|
      invariant UsableBlocks(filter.Current(), blocks[i..], gate)
      invariant whole.0 == BlocksApplied(filter.Current(), blocks[i..], gate).0
      invariant whole.1 == if outcome.Accepted? then Outcome.Accepted
                           else BlocksApplied(filter.Current(), blocks[i..], gate).1
      invariant outcome.Accepted? || outcome.Rejected?
    {
      assert blocks[i..][0] == blocks[i] && blocks[i..][1..] == blocks[i + 1..];
      var one := EkfUpdate(filter, blocks[i], gate);
      if one.Accepted? {
        outcome := Outcome.Accepted;
      }
    }
  }

  method AddMeasurement(filter: FilterState, o: Observation) returns (outcome: Outcome)
    requires Possible(filter.Current(), o)
    modifies filter
    ensures filter.Current() == Called(old(filter.Current()), o) && outcome == Applied(old(filter.Current()), o).1
  {
    hide Final, UsableBlocks, BlocksApplied, AcceptedRows;
    match o {
      case Refused(why) =>
        outcome := why;
      case Blocks(blocks, gate) =>
        BlocksKeepShape(filter.Current(), blocks, gate);
        outcome := ApplyBlocks(filter, blocks, gate);
      case Epoch(context, satellites, gate, minSatellites) =>
        outcome := Apply(filter, context, satellites, gate, minSatellites);
    }
    if outcome.Accepted? {
      filter.errorState := Zero(filter.errorState.rows, 1);
    }
  }

  lemma {:induction false} BlocksKeepShape(e: Estimate, blocks: seq<Measurement>, gate: real)
    requires UsableBlocks(e, blocks, gate)
    ensures Proper(BlocksApplied(e, blocks, gate).0) && BlocksApplied(e, blocks, gate).0.error.rows == e.error.rows
    ensures !BlocksApplied(e, blocks, gate).1.Accepted? ==> BlocksApplied(e, blocks, gate).0 == e
    decreases blocks
  {
    hide Usable, Gain;
    if blocks != [] {
      BlocksKeepShape(Updated(e, blocks[0], gate), blocks[1..], gate);
    }
  }

  // Which tightly coupled epochs can leave an error behind.

  lemma {:induction false} NothingAcceptedNothingChanged(e: Estimate, rows: seq<Row>, gate: real)
    requires Proper(e) && AllFit(rows, e.error.rows) && AcceptedRows(e, rows, gate) == []
    ensures Final(e, rows, gate) == e
    decreases rows
  {
    hide Passes;
    if rows != [] {
      NothingAcceptedNothingChanged(Step(e, rows[0].observation, gate), rows[1..], gate);
    }
  }

  lemma {:induction false} FirstRowIsPseudorange(satellites: seq<Satellite>)
    requires EpochRows(satellites) != []
    ensures EpochRows(satellites)[0].counts
    ensures exists i :: 0 <= i < |satellites| && EpochRows(satellites)[0].observation == satellites[i].pseudorange
  {
    if SatelliteRows(satellites[0]) == [] {
      FirstRowIsPseudorange(satellites[1..]);
      var i :| 0 <= i < |satellites| - 1 && EpochRows(satellites[1..])[0].observation == satellites[1..][i].pseudorange;
      assert satellites[i + 1] == satellites[1..][i];
    } else {
      assert EpochRows(satellites)[0].observation == satellites[0].pseudorange;
    }
  }

  predicate Noisy(satellites: seq<Satellite>, n: nat) {
    forall i | 0 <= i < |satellites| ::
      && SatelliteFits(satellites[i], n) && satellites[i].pseudorange.sigma != 0.0
      && (satellites[i].doppler.Some? ==> satellites[i].doppler.value.sigma != 0.0)
  }

  /** With no minimum, or a minimum of one and no gate, a rejected epoch has changed nothing. */
  predicate SafeOptions(minSatellites: nat, gate: real) { minSatellites == 0 || (minSatellites == 1 && gate <= 0.0) }

  lemma SafeEpoch(e: Estimate, satellites: seq<Satellite>, gate: real, minSatellites: nat)
    requires Proper(e) && Covariance(e.covariance, e.error.rows) && Noisy(satellites, e.error.rows)
    requires SafeOptions(minSatellites, gate) && AllFit(EpochRows(satellites), e.error.rows)
    ensures EpochRows(satellites) == [] || Counted(AcceptedRows(e, EpochRows(satellites), gate)) >= minSatellites
  {
    var rows := EpochRows(satellites);
    if rows != [] && minSatellites == 1 {
      FirstRowIsPseudorange(satellites);
      SquarePositive(rows[0].observation.sigma);
      VariancePositive(e.covariance, rows[0].observation);
      hide Variance, Step;
      assert Passes(e.covariance, rows[0].observation, gate);
      var rest := AcceptedRows(Step(e, rows[0].observation, gate), rows[1..], gate);
      assert AcceptedRows(e, rows, gate) == [rows[0]] + rest;
      CountedConcat([rows[0]], rest);
      assert Counted([rows[0]]) == 1;
    }
  }

  // Whole runs.

  ghost predicate Sensible(e: Estimate, o: Observation) {
    && Possible(e, o)
    && (o.Epoch? ==> Noisy(o.satellites, e.error.rows))
    && (o.Blocks? ==> CovariantBlocks(o.blocks))
  }

  ghost predicate CovariantBlocks(blocks: seq<Measurement>) {
    forall i | 0 <= i < |blocks| :: Symmetric(blocks[i].r) && PositiveSemidefinite(blocks[i].r)
  }

  /** An epoch that ends below its minimum after some of its rows were already applied. */
  predicate EndsBelowMinimum(e: Estimate, o: Observation)
    requires Possible(e, o)
  {
    o.Epoch? && Precheck(o.context, o.satellites).Accepted? &&
    (EpochRowsFit(o.satellites, e.error.rows);
     var accepted := AcceptedRows(e, EpochRows(o.satellites), o.gate);
     accepted != [] && Counted(accepted) < o.minSatellites)
  }

  lemma CallClearsError(e: Estimate, o: Observation)
    requires Possible(e, o) && e.error == Zero(e.error.rows, 1) && !EndsBelowMinimum(e, o)
    ensures Called(e, o).error == e.error
  {
    hide Final, AcceptedRows, UsableBlocks, BlocksApplied;
    match o
    case Refused(_) =>
    case Blocks(blocks, gate) => BlocksKeepShape(e, blocks, gate);
    case Epoch(context, satellites, gate, minSatellites) =>
      if Precheck(context, satellites).Accepted? {
        EpochRowsFit(satellites, e.error.rows);
        if AcceptedRows(e, EpochRows(satellites), gate) == [] {
          NothingAcceptedNothingChanged(e, EpochRows(satellites), gate);
        }
      }
  }

  lemma {:induction false} BlocksKeepCovariance(e: Estimate, blocks: seq<Measurement>, gate: real)
    requires UsableBlocks(e, blocks, gate) && CovariantBlocks(blocks) && Covariance(e.covariance, e.error.rows)
    ensures Covariance(BlocksApplied(e, blocks, gate).0.covariance, e.error.rows)
    decreases blocks
  {
    hide Gain, Joseph, Symmetric, PositiveSemidefinite, Usable, Gated;
    if blocks != [] {
      var m, p := blocks[0], e.covariance;
      KeepsCovariance(p, m, gate);
      BlocksKeepCovariance(Updated(e, m, gate), blocks[1..], gate);
    }
  }

  lemma KeepsCovariance(p: Matrix, m: Measurement, gate: real)
    requires Usable(m, p) && Covariance(p, p.rows) && Symmetric(m.r) && PositiveSemidefinite(m.r)
    ensures Covariance(UpdatedCovariance(p, m, gate), p.rows)
  {
    JosephIsCovariance(p, Gain(p, m.h, m.sInverse), m.h, m.r);
  }

  lemma {:induction false} RowsKeepCovariance(e: Estimate, rows: seq<Row>, gate: real)
    requires Proper(e) && AllFit(rows, e.error.rows) && Covariance(e.covariance, e.error.rows)
    requires forall i | 0 <= i < |rows| :: rows[i].observation.sigma != 0.0
    ensures Covariance(Final(e, rows, gate).covariance, e.error.rows)
    decreases rows
  {
    hide Variance, Covariance, ScalarJoseph;
    if rows != [] {
      var o := rows[0].observation;
      if Passes(e.covariance, o, gate) {
        SquarePositive(o.sigma);
        ScalarJosephCovariance(e.covariance, o);
      }
      RowsKeepCovariance(Step(e, o, gate), rows[1..], gate);
    }
  }

  lemma {:induction false} EpochRowsNoisy(satellites: seq<Satellite>, n: nat)
    requires Noisy(satellites, n)
    ensures forall i | 0 <= i < |EpochRows(satellites)| :: EpochRows(satellites)[i].observation.sigma != 0.0
  {
    if satellites != [] {
      assert forall i | 0 <= i < |satellites[1..]| :: satellites[1..][i] == satellites[i + 1];
      EpochRowsNoisy(satellites[1..], n);
      assert EpochRows(satellites) == SatelliteRows(satellites[0]) + EpochRows(satellites[1..]);
    }
  }

  lemma CallKeepsCovariance(e: Estimate, o: Observation)
    requires Sensible(e, o) && Covariance(e.covariance, e.error.rows)
    ensures Proper(Called(e, o)) && Covariance(Called(e, o).covariance, e.error.rows)
    ensures Called(e, o).error.rows == e.error.rows
  {
    hide Final, AcceptedRows, UsableBlocks, BlocksApplied, Covariance;
    match o
    case Refused(_) =>
    case Blocks(blocks, gate) =>
      BlocksKeepShape(e, blocks, gate);
      BlocksKeepCovariance(e, blocks, gate);
    case Epoch(context, satellites, gate, minSatellites) =>
      if Precheck(context, satellites).Accepted? {
        EpochRowsFit(satellites, e.error.rows);
        EpochRowsNoisy(satellites, e.error.rows);
        RowsKeepCovariance(e, EpochRows(satellites), gate);
      }
  }

  ghost predicate SensibleRun(e: Estimate, os: seq<Observation>)
    decreases os
  {
    os == [] || (Sensible(e, os[0]) && SensibleRun(Called(e, os[0]), os[1..]))
  }

  ghost function RunOf(e: Estimate, os: seq<Observation>): Estimate
    requires SensibleRun(e, os)
    decreases os
  {
    if os == [] then e else RunOf(Called(e, os[0]), os[1..])
  }

  /** Either the options exclude it, or this epoch does not end below its minimum after partial updates. */
  ghost predicate LeavesNoError(e: Estimate, os: seq<Observation>)
    requires SensibleRun(e, os)
    decreases os
  {
    os == [] ||
    (((os[0].Epoch? && SafeOptions(os[0].minSatellites, os[0].gate)) || !EndsBelowMinimum(e, os[0]))
     && LeavesNoError(Called(e, os[0]), os[1..]))
  }

  lemma SafeOptionsSuffice(e: Estimate, o: Observation)
    requires Sensible(e, o) && Covariance(e.covariance, e.error.rows)
    requires o.Epoch? && SafeOptions(o.minSatellites, o.gate)
    ensures !EndsBelowMinimum(e, o)
  {
    EpochRowsFit(o.satellites, e.error.rows);
    SafeEpoch(e, o.satellites, o.gate, o.minSatellites);
    hide Covariance, Noisy, Passes, Step;
  }

  /** On every run of calls the error state is zero between calls. */
  lemma {:induction false} ErrorIsZeroBetweenCalls(e: Estimate, os: seq<Observation>)
    requires SensibleRun(e, os) && Proper(e) && Covariance(e.covariance, e.error.rows) && LeavesNoError(e, os)
    requires e.error == Zero(e.error.rows, 1)
    ensures RunOf(e, os).error == Zero(e.error.rows, 1)
    decreases os
  {
    hide Sensible, Called, Covariance, EndsBelowMinimum;
    if os != [] {
      var o := os[0];
      if o.Epoch? && SafeOptions(o.minSatellites, o.gate) {
        SafeOptionsSuffice(e, o);
      }
      SensibleIsPossible(e, o);
      CallClearsError(e, o);
      CallKeepsCovariance(e, o);
      ErrorIsZeroBetweenCalls(Called(e, o), os[1..]);
    }
  }

  lemma SensibleIsPossible(e: Estimate, o: Observation)
    requires Sensible(e, o)
    ensures Possible(e, o)
  {
  }

  // The options that always leave the error state clear.

  lemma {:induction false} DotZeroRight(a: Matrix, b: Matrix, n: nat)
    requires forall i :: At(b, i, 0) == 0.0
    ensures Dot(a, b, 0, 0, n) == 0.0
  {
    if n > 0 {
      DotZeroRight(a, b, n - 1);
    }
  }

  /** A row h of nonzero prior variance h^T P h moves the state. */
  lemma PriorMovesState(p: Matrix, h: Matrix)
    requires p.rows == p.cols == h.rows && h.cols == 1 && Cross(p, h, h) != 0.0
    ensures exists i :: At(Mul(p, h), i, 0) != 0.0
  {
    var v := Mul(p, h);
    if forall i :: At(v, i, 0) == 0.0 {
      DotZeroRight(Transpose(h), v, p.rows);
    }
  }

  lemma ScaledNonzero(c: real, v: Matrix, i: int)
    requires c != 0.0 && At(v, i, 0) != 0.0
    ensures At(Scale(c, v), i, 0) != 0.0
  {
    ScaleAt(c, v, i, 0);
    var x := At(v, i, 0);
    assert c * x != 0.0;
  }

  lemma InverseNonzero(s: real)
    requires s > 0.0
    ensures 1.0 / s != 0.0
  {
  }

  lemma GainMoves(p: Matrix, o: Scalar)
    requires p.rows == p.cols && Fits(o, p.rows) && Variance(p, o) > 0.0 && Cross(p, o.h, o.h) != 0.0
    ensures exists i :: At(ScalarGain(p, o), i, 0) != 0.0
  {
    PriorMovesState(p, o.h);
    InverseNonzero(Variance(p, o));
    hide Variance, Scale, Mul, Cross;
    var i :| At(Mul(p, o.h), i, 0) != 0.0;
    ScaledNonzero(1.0 / Variance(p, o), Mul(p, o.h), i);
    assert At(ScalarGain(p, o), i, 0) != 0.0;
  }

  lemma NonzeroMatrix(k: Matrix, n: nat, i: int)
    requires k.rows == n && k.cols == 1 && At(k, i, 0) != 0.0
    ensures Add(Zero(n, 1), k) == k != Zero(n, 1)
  {
    AddZero(k);
  }

  lemma StepMoves(p: Matrix, o: Scalar, gate: real)
    requires p.rows == p.cols && Fits(o, p.rows) && Passes(p, o, gate)
    requires o.innovation != 0.0 && Cross(p, o.h, o.h) != 0.0
    ensures Step(Estimate(Zero(p.rows, 1), p), o, gate).error != Zero(p.rows, 1)
  {
    GainMoves(p, o);
    var k := ScalarGain(p, o);
    hide Variance, ScalarGain, ScalarJoseph, Cross, Add, Zero, Scale;
    var i :| At(k, i, 0) != 0.0;
    ScaledNonzero(o.innovation, k, i);
    NonzeroMatrix(Scale(o.innovation, k), p.rows, i);
  }

  lemma StepStill(e: Estimate, o: Scalar, gate: real)
    requires Proper(e) && Fits(o, e.error.rows) && o.innovation == 0.0
    ensures Step(e, o, gate).error == e.error
  {
    hide Variance, ScalarJoseph, Add, Zero, Scale;
    if Passes(e.covariance, o, gate) {
      ScaleZero(ScalarGain(e.covariance, o));
      AddZero(e.error);
    }
  }

  /** An innovation the gate lets pass under an innovation variance s. */
  function SmallInnovation(gate: real, s: real): real {
    if gate <= 0.0 then 1.0 else if s >= 1.0 then gate else gate * s
  }

  /** One that it does not. */
  function LargeInnovation(gate: real, s: real): real { gate * (s + 1.0) }

  lemma SquareOfProduct(a: real, b: real)
    ensures Sq(a * b) == Sq(a) * Sq(b)
  {
    assert (a * b) * (a * b) == (a * a) * (b * b);
  }

  lemma TimesMonotone(g: real, x: real, y: real)
    requires g > 0.0
    ensures x <= y ==> g * x <= g * y
    ensures x < y ==> g * x < g * y
  {
  }

  lemma SquareAgainst(s: real)
    requires s > 0.0
    ensures s < 1.0 ==> Sq(s) <= s
    ensures Sq(s + 1.0) > s
  {
    assert (s + 1.0) * (s + 1.0) == s * s + 2.0 * s + 1.0;
    TimesMonotone(s, s, 1.0);
  }

  lemma SmallAndLarge(gate: real, s: real)
    requires s > 0.0
    ensures SmallInnovation(gate, s) != 0.0
    ensures gate > 0.0 ==> Sq(SmallInnovation(gate, s)) <= Sq(gate) * s < Sq(LargeInnovation(gate, s))
  {
    if gate > 0.0 {
      var g := Sq(gate);
      SquarePositive(gate);
      SquareAgainst(s);
      SquareOfProduct(gate, s);
      SquareOfProduct(gate, s + 1.0);
      TimesMonotone(gate, 0.0, s);
      TimesMonotone(g, 1.0, s);
      TimesMonotone(g, Sq(s), s);
      TimesMonotone(g, s, Sq(s + 1.0));
      hide Sq, Times;
    }
  }

  /** An epoch of one usable satellite, whose rows are given but for their innovations x and y. */
  function OneSatellite(pseudorange: Scalar, doppler: Scalar, x: real, y: real, gate: real, minSatellites: nat)
    : Observation
  {
    Epoch(Context(true, true, true, true),
          [Satellite(true, pseudorange.(innovation := x), Some(doppler.(innovation := y)))], gate, minSatellites)
  }

  lemma OneSatelliteRows(s: Satellite)
    requires s.usable && s.doppler.Some?
    ensures EpochRows([s]) == [Row(s.pseudorange, true), Row(s.doppler.value, false)]
  {
    assert [s][1..] == [] && EpochRows([]) == [];
  }

  /** A pseudorange row and a Doppler row; only the first counts. */
  function Pair(n: nat, first: Scalar, second: Scalar): (rows: seq<Row>)
    requires Fits(first, n) && Fits(second, n)
    ensures AllFit(rows, n)
  {
    [Row(first, true), Row(second, false)]
  }

  lemma TwoRows(e: Estimate, first: Scalar, second: Scalar, gate: real)
    requires Proper(e) && Fits(first, e.error.rows) && Fits(second, e.error.rows)
    ensures var rows := Pair(e.error.rows, first, second);
            && Final(e, rows, gate) == Step(Step(e, first, gate), second, gate)
            && Counted(AcceptedRows(e, rows, gate)) == if Passes(e.covariance, first, gate) then 1 else 0
  {
    var rows := Pair(e.error.rows, first, second);
    var after := Step(e, first, gate);
    SingleRow(after, Row(second, false), gate);
    assert rows[1..] == [Row(second, false)];
    hide Passes, Step;
    if Passes(e.covariance, first, gate) {
      CountedConcat([rows[0]], AcceptedRows(after, rows[1..], gate));
      assert Counted([rows[0]]) == 1;
    }
  }

  /** Nonzero sigmas and prior variances, under a covariance. */
  ghost predicate Moving(p: Matrix, n: nat, o: Scalar) {
    && Covariance(p, n) && Fits(o, n) && o.sigma != 0.0 && Cross(p, o.h, o.h) != 0.0
  }

  lemma MovingVariance(p: Matrix, n: nat, o: Scalar)
    requires Moving(p, n, o)
    ensures Variance(p, o) > 0.0
  {
    SquarePositive(o.sigma);
    VariancePositive(p, o);
  }

  lemma SmallPasses(p: Matrix, n: nat, o: Scalar, gate: real)
    requires Moving(p, n, o) && o.innovation == SmallInnovation(gate, Variance(p, o))
    ensures Passes(p, o, gate) && Step(Estimate(Zero(n, 1), p), o, gate).error != Zero(n, 1)
  {
    MovingVariance(p, n, o);
    SmallAndLarge(gate, Variance(p, o));
    hide Variance, Covariance, Step, Cross, SmallInnovation, LargeInnovation, Zero, Sq;
    assert Passes(p, o, gate);
    hide Passes;
    StepMoves(p, o, gate);
  }

  lemma LargeFails(p: Matrix, n: nat, o: Scalar, gate: real)
    requires Moving(p, n, o) && gate > 0.0 && o.innovation == LargeInnovation(gate, Variance(p, o))
    ensures !Passes(p, o, gate)
  {
    MovingVariance(p, n, o);
    SmallAndLarge(gate, Variance(p, o));
    hide Variance, Covariance, Cross, SmallInnovation, LargeInnovation, Sq;
  }

  /** A minimum above one: the pseudorange moves the error, the Doppler row leaves it there. */
  lemma LeakBelowMinimum(p: Matrix, n: nat, first: Scalar, second: Scalar, gate: real)
    requires Moving(p, n, first) && Fits(second, n)
    requires first.innovation == SmallInnovation(gate, Variance(p, first)) && second.innovation == 0.0
    ensures var e, rows := Estimate(Zero(n, 1), p), Pair(n, first, second);
            Counted(AcceptedRows(e, rows, gate)) == 1 && Final(e, rows, gate).error != Zero(n, 1)
  {
    var e := Estimate(Zero(n, 1), p);
    SmallPasses(p, n, first, gate);
    TwoRows(e, first, second, gate);
    StepStill(Step(e, first, gate), second, gate);
    hide Variance, Passes, Step, Final, AcceptedRows, Counted, Pair, Zero, SmallInnovation, Moving;
  }

  /** A minimum of one with a gate: the pseudorange fails it and the Doppler row moves the error. */
  lemma LeakThroughDoppler(p: Matrix, n: nat, first: Scalar, second: Scalar, gate: real)
    requires Moving(p, n, first) && Moving(p, n, second) && gate > 0.0
    requires first.innovation == LargeInnovation(gate, Variance(p, first))
    requires second.innovation == SmallInnovation(gate, Variance(p, second))
    ensures var e, rows := Estimate(Zero(n, 1), p), Pair(n, first, second);
            Counted(AcceptedRows(e, rows, gate)) == 0 && Final(e, rows, gate).error != Zero(n, 1)
  {
    var e := Estimate(Zero(n, 1), p);
    LargeFails(p, n, first, gate);
    SmallPasses(p, n, second, gate);
    TwoRows(e, first, second, gate);
    assert Step(e, first, gate) == e;
    hide Variance, Passes, Step, Final, AcceptedRows, Counted, Pair, Zero, SmallInnovation, LargeInnovation, Moving;
  }

  /** Neither the innovation variance nor the prior one depends on the innovation. */
  lemma AnyInnovation(p: Matrix, n: nat, o: Scalar, x: real)
    requires Moving(p, n, o)
    ensures Moving(p, n, o.(innovation := x)) && Variance(p, o.(innovation := x)) == Variance(p, o)
  {
  }

  /** Whatever the two innovations are, the epoch leaves a zero error state. */
  ghost predicate ClearsAt(p: Matrix, n: nat, pseudorange: Scalar, doppler: Scalar, gate: real, minSatellites: nat)
    requires Square(p, n) && Fits(pseudorange, n) && Fits(doppler, n)
  {
    forall x, y ::
      Called(Estimate(Zero(n, 1), p), OneSatellite(pseudorange, doppler, x, y, gate, minSatellites)).error == Zero(n, 1)
  }

  lemma OneSatelliteCalled(p: Matrix, n: nat, pseudorange: Scalar, doppler: Scalar, x: real, y: real, gate: real,
                           minSatellites: nat)
    requires Moving(p, n, pseudorange) && Moving(p, n, doppler)
    ensures var e, o := Estimate(Zero(n, 1), p), OneSatellite(pseudorange, doppler, x, y, gate, minSatellites);
            var rows := Pair(n, pseudorange.(innovation := x), doppler.(innovation := y));
            && Sensible(e, o)
            && (Counted(AcceptedRows(e, rows, gate)) < minSatellites ==> Called(e, o) == Final(e, rows, gate))
  {
    var e, o := Estimate(Zero(n, 1), p), OneSatellite(pseudorange, doppler, x, y, gate, minSatellites);
    OneSatelliteRows(o.satellites[0]);
    assert EpochRows(o.satellites) == Pair(n, pseudorange.(innovation := x), doppler.(innovation := y));
    hide Covariance, Final, AcceptedRows, Counted, Cross, EpochRows, Zero, Pair;
  }

  /**
   * At every covariance and for every two rows of nonzero sigma and prior variance, an epoch of the one satellite
   * leaves a zero error state for all innovations exactly under these options.
   */
  lemma GeometryClearsExactlyUnderSafeOptions(p: Matrix, n: nat, pseudorange: Scalar, doppler: Scalar, gate: real,
                                              minSatellites: nat)
    requires Moving(p, n, pseudorange) && Moving(p, n, doppler)
    ensures ClearsAt(p, n, pseudorange, doppler, gate, minSatellites) <==> SafeOptions(minSatellites, gate)
  {
    var e := Estimate(Zero(n, 1), p);
    if SafeOptions(minSatellites, gate) {
      forall x, y
        ensures Called(e, OneSatellite(pseudorange, doppler, x, y, gate, minSatellites)).error == Zero(n, 1)
      {
        var o := OneSatellite(pseudorange, doppler, x, y, gate, minSatellites);
        OneSatelliteCalled(p, n, pseudorange, doppler, x, y, gate, minSatellites);
        SafeOptionsSuffice(e, o);
        CallClearsError(e, o);
      }
    } else {
      var x, y := LeakInnovations(p, n, pseudorange, doppler, gate, minSatellites);
      assert Called(e, OneSatellite(pseudorange, doppler, x, y, gate, minSatellites)).error != Zero(n, 1);
    }
  }

  lemma LeakInnovations(p: Matrix, n: nat, pseudorange: Scalar, doppler: Scalar, gate: real, minSatellites: nat)
    returns (x: real, y: real)
    requires Moving(p, n, pseudorange) && Moving(p, n, doppler) && !SafeOptions(minSatellites, gate)
    ensures var e, o := Estimate(Zero(n, 1), p), OneSatellite(pseudorange, doppler, x, y, gate, minSatellites);
            Sensible(e, o) && Called(e, o).error != Zero(n, 1)
  {
    if minSatellites > 1 {
      x, y := SmallInnovation(gate, Variance(p, pseudorange)), 0.0;
    } else {
      x, y := LargeInnovation(gate, Variance(p, pseudorange)), SmallInnovation(gate, Variance(p, doppler));
    }
    AnyInnovation(p, n, pseudorange, x);
    AnyInnovation(p, n, doppler, y);
    if minSatellites > 1 {
      LeakBelowMinimum(p, n, pseudorange.(innovation := x), doppler.(innovation := y), gate);
    } else {
      LeakThroughDoppler(p, n, pseudorange.(innovation := x), doppler.(innovation := y), gate);
    }
    OneSatelliteCalled(p, n, pseudorange, doppler, x, y, gate, minSatellites);
    hide Variance, Covariance, Final, AcceptedRows, Counted, Cross, Called, Sensible, Pair;
    hide SmallInnovation, LargeInnovation;
  }

  function Axis(n: nat): (h: Matrix)
    requires n > 0
    ensures h.rows == n && h.cols == 1 && forall i | 0 <= i < n :: At(h, i, 0) == if i == 0 then 1.0 else 0.0
  {
    Build(n, 1, (i, j) => if i == 0 then 1.0 else 0.0)
  }

  lemma {:induction false} AxisLength(n: nat, m: nat)
    requires 0 < m <= n
    ensures Dot(Transpose(Axis(n)), Axis(n), 0, 0, m) == 1.0
  {
    var h := Axis(n);
    if m == 1 {
      assert Dot(Transpose(h), h, 0, 0, 0) == 0.0;
    } else {
      AxisLength(n, m - 1);
    }
  }

  lemma {:induction false} SquaresAdd(x: Matrix, m: nat)
    requires x.cols == 1 && m <= x.rows
    ensures Dot(Transpose(x), x, 0, 0, m) >= 0.0
  {
    if m > 0 {
      SquaresAdd(x, m - 1);
      SquareNotNegative(At(x, m - 1, 0));
    }
  }

  lemma SquareNotNegative(x: real)
    ensures x * x >= 0.0
  {
  }

  lemma IdentityIsCovariance(n: nat)
    ensures Covariance(Identity(n), n)
  {
    TransposeIdentity(n);
    forall x: Matrix | x.rows == n && x.cols == 1 ensures Quadratic(Identity(n), x) >= 0.0 {
      MulIdentity(Transpose(x));
      SquaresAdd(x, n);
    }
  }

  lemma AxisMoves(n: nat)
    requires n > 0
    ensures Moving(Identity(n), n, Scalar(Axis(n), 0.0, 1.0))
  {
    IdentityIsCovariance(n);
    MulIdentity(Axis(n));
    AxisLength(n, n);
  }

  ghost predicate AlwaysClears(n: nat, minSatellites: nat, gate: real) {
    forall e: Estimate, o: Observation |
      && o.Epoch? && o.minSatellites == minSatellites && o.gate == gate
      && Sensible(e, o) && e.error == Zero(n, 1) && Covariance(e.covariance, n)
      :: Called(e, o).error == Zero(n, 1)
  }

  /** A tightly coupled epoch always leaves a zero error state exactly under these options. */
  lemma ClearsExactlyUnderSafeOptions(n: nat, minSatellites: nat, gate: real)
    requires n > 0
    ensures AlwaysClears(n, minSatellites, gate) <==> SafeOptions(minSatellites, gate)
  {
    if SafeOptions(minSatellites, gate) {
      forall e: Estimate, o: Observation |
        && o.Epoch? && o.minSatellites == minSatellites && o.gate == gate
        && Sensible(e, o) && e.error == Zero(n, 1) && Covariance(e.covariance, n)
        ensures Called(e, o).error == Zero(n, 1)
      {
        SafeOptionsSuffice(e, o);
        CallClearsError(e, o);
      }
    } else {
      var row := Scalar(Axis(n), 0.0, 1.0);
      AxisMoves(n);
      var x, y := LeakInnovations(Identity(n), n, row, row, gate, minSatellites);
      hide Sensible, Called;
      var e, o := Estimate(Zero(n, 1), Identity(n)), OneSatellite(row, row, x, y, gate, minSatellites);
      assert o.minSatellites == minSatellites && o.gate == gate && Sensible(e, o);
      assert !AlwaysClears(n, minSatellites, gate);
    }
  }
}
