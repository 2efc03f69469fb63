/**
 * The claim of the tightly coupled header under an innovation gate: the scalar updates of an epoch against one batch
 * update over the rows that passed.
 */
module GnssGated {
  import opened EkfUpdates
  import opened GnssClaim
  import opened GnssInformation
  import opened GnssMean
  import opened GnssTightlyCoupled
  import opened Matrices

  // ---- The rows that pass, applied without a gate ------------------------------------------

  lemma {:induction false} FinalOfAccepted(e: Estimate, rows: seq<Row>, gate: real)
    requires Proper(e) && Informative(rows, e.error.rows)
    ensures Informative(AcceptedRows(e, rows, gate), e.error.rows)
    ensures Final(e, rows, gate) == Final(e, AcceptedRows(e, rows, gate), 0.0)
    decreases rows
  {
    hide Variance, ScalarGain, ScalarJoseph, Sq;
    if rows != [] {
      var o, next := rows[0].observation, Step(e, rows[0].observation, gate);
      var tail := AcceptedRows(next, rows[1..], gate);
      FinalOfAccepted(next, rows[1..], gate);
      if Passes(e.covariance, o, gate) {
        assert ([rows[0]] + tail)[1..] == tail;
        assert Step(e, o, 0.0) == next;
      } else {
        assert [] + tail == tail;
      }
    }
  }

  lemma {:induction false} AcceptedOrthogonal(p: Matrix, e: Estimate, rows: seq<Row>, gate: real)
    requires Proper(e) && AllFit(rows, e.error.rows) && Square(p, e.error.rows) && Orthogonal(p, rows)
    ensures Orthogonal(p, AcceptedRows(e, rows, gate))
    decreases rows
  {
    hide Passes, Cross, Step;
    if rows != [] {
      OrthogonalSplit(p, rows);
      var next := Step(e, rows[0].observation, gate);
      var tail := AcceptedRows(next, rows[1..], gate);
      AcceptedOrthogonal(p, next, rows[1..], gate);
      var accepted := AcceptedRows(e, rows, gate);
      if Passes(e.covariance, rows[0].observation, gate) {
        assert accepted[0] == rows[0] && accepted[1..] == tail;
        OrthogonalSplit(p, accepted);
      } else {
        assert accepted == tail;
      }
    }
  }

  // ---- Small innovations pass every gate ---------------------------------------------------

  function Scaled(c: real, nu: seq<real>): (r: seq<real>)
    ensures |r| == |nu| && forall i | 0 <= i < |nu| :: r[i] == Times(c, nu[i])
  {
    seq(|nu|, i requires 0 <= i < |nu| => Times(c, nu[i]))
  }

  /** d times the innovations pass the gate at every row in turn. */
  ghost predicate AllPass(p: Matrix, rows: seq<Row>, nu: seq<real>, d: real, gate: real)
    requires Covariance(p, p.rows) && Informative(rows, p.rows) && |nu| == |rows|
    decreases rows
  {
    rows == [] ||
    (FirstRow(p, rows);
     var o := rows[0].observation;
     (gate <= 0.0 || Sq(Times(d, nu[0])) <= Times(Sq(gate), Variance(p, o)))
     && AllPass(ScalarJoseph(p, o), rows[1..], nu[1..], d, gate))
  }

  /** Every factor of at most c keeps the square of x times it within the bound. */
  lemma SmallSquare(x: real, bound: real) returns (c: real)
    requires bound > 0.0
    ensures c > 0.0 && forall d | 0.0 < d <= c :: Sq(Times(d, x)) <= bound
  {
    var b := 1.0 + Sq(x);
    SquareNotNegative(x);
    c := if bound < b then bound / b else 1.0;
    assert c <= 1.0 && Times(c, b) <= bound;
    forall d | 0.0 < d <= c ensures Sq(Times(d, x)) <= bound {
      SmallerSquare(d, c, x, b, bound);
    }
  }

  lemma SquareNotNegative(x: real)
    ensures Sq(x) >= 0.0
  {
  }

  lemma SmallerSquare(d: real, c: real, x: real, b: real, bound: real)
    requires 0.0 < d <= c <= 1.0 && 0.0 <= Sq(x) <= b && Times(c, b) <= bound
    ensures Sq(Times(d, x)) <= bound
  {
    hide Sq;
    SquareOfTimes(d, x);
    TimesGrows(d, 1.0, d);
    TimesGrows(Times(d, d), c, Sq(x));
    TimesGrows(Sq(x), b, c);
  }

  lemma TimesGrows(a: real, b: real, c: real)
    requires a <= b && c >= 0.0
    ensures Times(a, c) <= Times(b, c) && Times(c, a) <= Times(c, b) && Times(1.0, c) == c
  {
    var d := b - a;
    assert d * c >= 0.0;
    assert b * c == a * c + d * c;
  }

  lemma SquareOfTimes(d: real, x: real)
    ensures Sq(Times(d, x)) == Times(Times(d, d), Sq(x))
  {
    assert (d * x) * (d * x) == (d * d) * (x * x);
  }

  lemma {:induction false} SmallPass(p: Matrix, rows: seq<Row>, nu: seq<real>, gate: real) returns (c: real)
    requires Covariance(p, p.rows) && Informative(rows, p.rows) && |nu| == |rows|
    ensures c > 0.0 && forall d | 0.0 < d <= c :: AllPass(p, rows, nu, d, gate)
    decreases rows
  {
    hide Variance, ScalarJoseph, Covariance;
    c := 1.0;
    if rows != [] {
      FirstRow(p, rows);
      var o := rows[0].observation;
      c := SmallPass(ScalarJoseph(p, o), rows[1..], nu[1..], gate);
      if gate > 0.0 {
        SquarePositive(gate);
        TimesPositive(Sq(gate), Variance(p, o));
        hide Sq;
        var head := SmallSquare(nu[0], Times(Sq(gate), Variance(p, o)));
        c := if head < c then head else c;
      }
    }
  }

  lemma {:induction false} PassingRowsAccepted(e: Estimate, rows: seq<Row>, nu: seq<real>, d: real, gate: real)
    requires Proper(e) && Covariance(e.covariance, e.error.rows) && Informative(rows, e.error.rows) && |nu| == |rows|
    requires AllPass(e.covariance, rows, nu, d, gate)
    ensures Informative(WithInnovations(rows, Scaled(d, nu)), e.error.rows)
    ensures AcceptedRows(e, WithInnovations(rows, Scaled(d, nu)), gate) == WithInnovations(rows, Scaled(d, nu))
    decreases rows
  {
    hide Variance, ScalarJoseph, ScalarGain, Covariance;
    if rows != [] {
      var p, o, scaled := e.covariance, rows[0].observation, Scaled(d, nu);
      FirstRow(p, rows);
      assert scaled[1..] == Scaled(d, nu[1..]);
      WithInnovationsSplit(rows, scaled, e.error.rows);
      var all, first := WithInnovations(rows, scaled), o.(innovation := scaled[0]);
      SameVariance(p, o, scaled[0]);
      assert Passes(p, first, gate);
      PassingRowsAccepted(Step(e, first, gate), rows[1..], nu[1..], d, gate);
      assert all == [all[0]] + all[1..];
    }
  }

  lemma SameVariance(p: Matrix, o: Scalar, innovation: real)
    requires p.rows == p.cols && Fits(o, p.rows) && Variance(p, o) > 0.0
    ensures var o' := o.(innovation := innovation);
            Variance(p, o') == Variance(p, o) && ScalarJoseph(p, o') == ScalarJoseph(p, o)
  {
    hide Mul, Scale;
    assert ScalarGain(p, o.(innovation := innovation)) == ScalarGain(p, o);
  }

  // ---- Both means are linear in the innovations --------------------------------------------

  lemma ScaleSum(c: real, x: real, k: Matrix, m: Matrix)
    requires k.rows == m.rows && k.cols == m.cols
    ensures Add(Scale(Times(c, x), k), Scale(c, m)) == Scale(c, Add(Scale(x, k), m))
  {
    var left, right := Add(Scale(Times(c, x), k), Scale(c, m)), Scale(c, Add(Scale(x, k), m));
    forall i, j | 0 <= i < k.rows && 0 <= j < k.cols ensures At(left, i, j) == At(right, i, j) {
      var u, v := At(k, i, j), At(m, i, j);
      ScaleTerm(c, v, x, u);
      assert At(left, i, j) == Times(c, x) * u + c * v;
      assert At(right, i, j) == c * (v + x * u);
    }
    SameEntries(left, right);
  }

  lemma {:induction false} SequentialMeanScales(p: Matrix, rows: seq<Row>, nu: seq<real>, c: real)
    requires Covariance(p, p.rows) && Informative(rows, p.rows) && |nu| == |rows|
    ensures SequentialMean(p, rows, Scaled(c, nu)) == Scale(c, SequentialMean(p, rows, nu))
    decreases rows
  {
    hide Variance, ScalarJoseph, ScalarGain, Covariance, Add, Scale, Zero;
    if rows == [] {
      ScaleOfZero(c, p.rows, 1);
    } else {
      FirstRow(p, rows);
      var o := rows[0].observation;
      SequentialMeanScales(ScalarJoseph(p, o), rows[1..], nu[1..], c);
      assert Scaled(c, nu)[1..] == Scaled(c, nu[1..]);
      ScaleSum(c, nu[0], ScalarGain(p, o), SequentialMean(ScalarJoseph(p, o), rows[1..], nu[1..]));
    }
  }

  lemma {:induction false} InformationVectorScales(rows: seq<Row>, nu: seq<real>, n: nat, c: real)
    requires Informative(rows, n) && |nu| == |rows|
    ensures InformationVector(rows, Scaled(c, nu), n) == Scale(c, InformationVector(rows, nu, n))
  {
    hide Add, Scale, Zero, Sq;
    if rows == [] {
      ScaleOfZero(c, n, 1);
    } else {
      var o := rows[0].observation;
      InformationVectorScales(rows[1..], nu[1..], n, c);
      assert Scaled(c, nu)[1..] == Scaled(c, nu[1..]);
      ScaleSum(c, nu[0], Scale(1.0 / Sq(o.sigma), o.h), InformationVector(rows[1..], nu[1..], n));
    }
  }

  lemma BatchMeanScales(p: Matrix, rows: seq<Row>, nu: seq<real>, c: real)
    requires Covariance(p, p.rows) && Informative(rows, p.rows) && |nu| == |rows|
    ensures BatchMean(p, rows, Scaled(c, nu)) == Scale(c, BatchMean(p, rows, nu))
  {
    hide InformationVector, CovarianceAfter, Covariance, Mul, Scale;
    InformationVectorScales(rows, nu, p.rows, c);
    MulScale(c, CovarianceAfter(p, rows), InformationVector(rows, nu, p.rows));
  }

  lemma AgreementScales(p: Matrix, rows: seq<Row>, nu: seq<real>, c: real)
    requires Covariance(p, p.rows) && Informative(rows, p.rows) && |nu| == |rows| && c > 0.0
    requires SequentialMean(p, rows, Scaled(c, nu)) == BatchMean(p, rows, Scaled(c, nu))
    ensures SequentialMean(p, rows, nu) == BatchMean(p, rows, nu)
  {
    hide SequentialMean, BatchMean, Covariance, Scale, Scaled;
    SequentialMeanScales(p, rows, nu, c);
    BatchMeanScales(p, rows, nu, c);
    ScaledSame(c, SequentialMean(p, rows, nu), BatchMean(p, rows, nu));
  }

  // ---- The claim ---------------------------------------------------------------------------

  /** sInverse inverts the innovation covariance of all rows at once. */
  predicate Inverts(p: Matrix, rows: seq<Row>, sInverse: Matrix)
    requires p.rows == p.cols && AllFit(rows, p.rows)
  {
    Inverse(InnovationCovariance(p, Stacked(rows, p.rows), Diagonal(Noises(rows))), sInverse)
  }

  lemma InnovationsDoNotCount(p: Matrix, rows: seq<Row>, nu: seq<real>)
    requires Informative(rows, p.rows) && |nu| == |rows|
    ensures var all := WithInnovations(rows, nu);
            && Informative(all, p.rows) && Noises(all) == Noises(rows) && Innovations(all) == nu
            && Stacked(all, p.rows) == Stacked(rows, p.rows)
  {
    var all := WithInnovations(rows, nu);
    SameEntries(Stacked(all, p.rows), Stacked(rows, p.rows));
  }

  lemma {:induction false} OrthogonalAnyInnovations(p: Matrix, rows: seq<Row>, nu: seq<real>)
    requires p.rows == p.cols && Informative(rows, p.rows) && |nu| == |rows|
    ensures Informative(WithInnovations(rows, nu), p.rows)
    ensures Orthogonal(p, rows) ==> Orthogonal(p, WithInnovations(rows, nu))
  {
    hide Cross;
  }

  /** The scalar updates of an epoch with these innovations, from a zero error state. */
  ghost function Gated(p: Matrix, rows: seq<Row>, nu: seq<real>, gate: real): Estimate
    requires p.rows == p.cols && Informative(rows, p.rows) && |nu| == |rows|
  {
    OrthogonalAnyInnovations(p, rows, nu);
    Final(Estimate(Zero(p.rows, 1), p), WithInnovations(rows, nu), gate)
  }

  /** The rows that pass. */
  ghost function Passed(p: Matrix, rows: seq<Row>, nu: seq<real>, gate: real): (accepted: seq<Row>)
    requires p.rows == p.cols && Informative(rows, p.rows) && |nu| == |rows|
    ensures Informative(accepted, p.rows)
  {
    OrthogonalAnyInnovations(p, rows, nu);
    FinalOfAccepted(Estimate(Zero(p.rows, 1), p), WithInnovations(rows, nu), gate);
    AcceptedRows(Estimate(Zero(p.rows, 1), p), WithInnovations(rows, nu), gate)
  }

  /** Both updates over the rows that pass. */
  lemma BothUpdates(p: Matrix, rows: seq<Row>, nu: seq<real>, gate: real, information: Matrix, sInverse: Matrix)
    requires Covariance(p, p.rows) && Informative(rows, p.rows) && |nu| == |rows|
    requires Square(information, p.rows) && Mul(p, information) == Identity(p.rows)
    requires Inverts(p, Passed(p, rows, nu, gate), sInverse)
    ensures var accepted := Passed(p, rows, nu, gate);
            var mu := Innovations(accepted);
            && Gated(p, rows, nu, gate) == Estimate(SequentialMean(p, accepted, mu), CovarianceAfter(p, accepted))
            && Batched(p, accepted, mu, sInverse) == Estimate(BatchMean(p, accepted, mu), CovarianceAfter(p, accepted))
  {
    hide Final, AcceptedRows, SequentialMean, BatchMean, CovarianceAfter, Mul, Identity, Updated;
    var e, accepted := Estimate(Zero(p.rows, 1), p), Passed(p, rows, nu, gate);
    var mu := Innovations(accepted);
    OrthogonalAnyInnovations(p, rows, nu);
    FinalOfAccepted(e, WithInnovations(rows, nu), gate);
    assert WithInnovations(accepted, mu) == accepted;
    FinalIsSequentialMean(e, accepted, mu);
    AddZero(SequentialMean(p, accepted, mu));
    BatchUpdate(p, accepted, mu, information, sInverse);
  }

  /** Whatever the innovations, the error state is the one of a batch update over the rows that pass. */
  ghost predicate GatedMeansAgree(p: Matrix, rows: seq<Row>, gate: real)
    requires p.rows == p.cols && Informative(rows, p.rows)
  {
    forall nu: seq<real>, sInverse: Matrix | |nu| == |rows| && Inverts(p, Passed(p, rows, nu, gate), sInverse) ::
      var accepted := Passed(p, rows, nu, gate);
      Gated(p, rows, nu, gate).error == Batched(p, accepted, Innovations(accepted), sInverse).error
  }

  lemma OrthogonalRowsAgreeGated(p: Matrix, rows: seq<Row>, gate: real, information: Matrix)
    requires Covariance(p, p.rows) && Informative(rows, p.rows) && Orthogonal(p, rows)
    requires Square(information, p.rows) && Mul(p, information) == Identity(p.rows)
    ensures GatedMeansAgree(p, rows, gate)
  {
    hide Orthogonal, SequentialMean, BatchMean, CovarianceAfter, Mul, Identity, Batched, Gated;
    forall nu: seq<real>, sInverse: Matrix | |nu| == |rows| && Inverts(p, Passed(p, rows, nu, gate), sInverse)
      ensures var accepted := Passed(p, rows, nu, gate);
              Gated(p, rows, nu, gate).error == Batched(p, accepted, Innovations(accepted), sInverse).error
    {
      var accepted := Passed(p, rows, nu, gate);
      OrthogonalAnyInnovations(p, rows, nu);
      AcceptedOrthogonal(p, Estimate(Zero(p.rows, 1), p), WithInnovations(rows, nu), gate);
      OrthogonalRowsAgree(p, accepted, Innovations(accepted));
      BothUpdates(p, rows, nu, gate, information, sInverse);
    }
  }

  /** Innovations small enough to pass the gate everywhere tell the two means apart as well as any. */
  lemma SmallInnovationsDecide(p: Matrix, rows: seq<Row>, nu: seq<real>, gate: real, information: Matrix,
                               sInverse: Matrix)
    requires Covariance(p, p.rows) && Informative(rows, p.rows) && |nu| == |rows|
    requires Square(information, p.rows) && Mul(p, information) == Identity(p.rows)
    requires Inverts(p, rows, sInverse) && GatedMeansAgree(p, rows, gate)
    ensures SequentialMean(p, rows, nu) == BatchMean(p, rows, nu)
  {
    var e := Estimate(Zero(p.rows, 1), p);
    var c := SmallPass(p, rows, nu, gate);
    var small := Scaled(c, nu);
    var all := WithInnovations(rows, small);
    PassingRowsAccepted(e, rows, nu, c, gate);
    InnovationsDoNotCount(p, rows, small);
    hide AllPass, Orthogonal, SequentialMean, BatchMean, CovarianceAfter, Mul, Identity, Final, Updated;
    assert Passed(p, rows, small, gate) == all && Inverts(p, all, sInverse);
    FinalOfAccepted(e, all, gate);
    FinalIsSequentialMean(e, rows, small);
    AddZero(SequentialMean(p, rows, small));
    BatchUpdate(p, rows, small, information, sInverse);
    assert Batch(all, small, p.rows, sInverse) == Batch(rows, small, p.rows, sInverse);
    AgreementScales(p, rows, nu, c);
  }

  /**
   * Under any gate: the scalar updates give the covariance of one batch update over the rows that pass, for all
   * innovations, and its error state for all innovations exactly when each row is P-orthogonal to every earlier row.
   */
  lemma GatedMeanIsBatchMeanIff(p: Matrix, rows: seq<Row>, gate: real, information: Matrix, sInverse: Matrix)
    requires Covariance(p, p.rows) && Informative(rows, p.rows)
    requires Square(information, p.rows) && Mul(p, information) == Identity(p.rows)
    requires Inverts(p, rows, sInverse)
    ensures forall nu: seq<real>, s: Matrix | |nu| == |rows| && Inverts(p, Passed(p, rows, nu, gate), s) ::
              var accepted := Passed(p, rows, nu, gate);
              Gated(p, rows, nu, gate).covariance == Batched(p, accepted, Innovations(accepted), s).covariance
    ensures GatedMeansAgree(p, rows, gate) <==> Orthogonal(p, rows)
  {
    hide Gated, Passed, Batched, Orthogonal, SequentialMean, BatchMean, GatedMeansAgree, Mul, Identity;
    forall nu: seq<real>, s: Matrix | |nu| == |rows| && Inverts(p, Passed(p, rows, nu, gate), s)
      ensures var accepted := Passed(p, rows, nu, gate);
              Gated(p, rows, nu, gate).covariance == Batched(p, accepted, Innovations(accepted), s).covariance
    {
      BothUpdates(p, rows, nu, gate, information, s);
    }
    if GatedMeansAgree(p, rows, gate) {
      forall nu: seq<real> | |nu| == |rows| ensures SequentialMean(p, rows, nu) == BatchMean(p, rows, nu) {
        SmallInnovationsDecide(p, rows, nu, gate, information, sInverse);
      }
      MeansAgreeIffOrthogonal(p, rows);
    } else if Orthogonal(p, rows) {
      OrthogonalRowsAgreeGated(p, rows, gate, information);
    }
  }
}
