/** The claim of the tightly coupled header: sequential scalar updates against one batch update. */
module GnssClaim {
  import opened Matrices
  import opened EkfUpdates
  import opened GnssTightlyCoupled
  import opened GnssInformation
  import opened GnssMean

  function Column(values: seq<real>): (m: Matrix)
    ensures m.rows == |values| && m.cols == 1
  {
    Build(|values|, 1, (i, j) => if 0 <= i < |values| then values[i] else 0.0)
  }

  /** Term k of entry i of H^T R^-1 innovation. */
  function Term(rows: seq<Row>, nu: seq<real>, i: int, k: nat): real
    requires k < |rows| == |nu|
  {
    var o := rows[k].observation;
    if Sq(o.sigma) > 0.0 then nu[k] * (1.0 / Sq(o.sigma) * At(o.h, i, 0)) else 0.0
  }

  function Terms(rows: seq<Row>, nu: seq<real>, i: int, lo: nat, hi: nat): real
    requires lo <= hi <= |rows| == |nu|
  {
    if lo == hi then 0.0 else Terms(rows, nu, i, lo, hi - 1) + Term(rows, nu, i, hi - 1)
  }

  lemma {:induction false} TermsFromFront(rows: seq<Row>, nu: seq<real>, i: int, lo: nat, hi: nat)
    requires lo < hi <= |rows| == |nu|
    ensures Terms(rows, nu, i, lo, hi) == Term(rows, nu, i, lo) + Terms(rows, nu, i, lo + 1, hi)
    decreases hi
  {
    if lo + 1 < hi {
      TermsFromFront(rows, nu, i, lo, hi - 1);
    } else {
      assert Terms(rows, nu, i, lo, lo) == 0.0;
    }
  }

  /** The terms of all rows but the first. */
  lemma {:induction false} TermsShift(rows: seq<Row>, nu: seq<real>, i: int, hi: nat)
    requires 0 < hi <= |rows| == |nu|
    ensures Terms(rows, nu, i, 1, hi) == Terms(rows[1..], nu[1..], i, 0, hi - 1)
  {
    if hi > 1 {
      TermsShift(rows, nu, i, hi - 1);
    }
  }

  lemma VectorStart(rows: seq<Row>, nu: seq<real>, n: nat, i: int)
    requires Informative(rows, n) && |nu| == |rows| && rows != [] && 0 <= i < n
    ensures At(InformationVector(rows, nu, n), i, 0)
         == nu[0] * (1.0 / Sq(rows[0].observation.sigma) * At(rows[0].observation.h, i, 0))
            + At(InformationVector(rows[1..], nu[1..], n), i, 0)
  {
    var w, h := 1.0 / Sq(rows[0].observation.sigma), rows[0].observation.h;
    ScaleAt(nu[0], Scale(w, h), i, 0);
    ScaleAt(w, h, i, 0);
    hide Sq, Scale;
  }

  lemma {:induction false} VectorEntries(rows: seq<Row>, nu: seq<real>, n: nat, i: int)
    requires Informative(rows, n) && |nu| == |rows| && 0 <= i < n
    ensures At(InformationVector(rows, nu, n), i, 0) == Terms(rows, nu, i, 0, |rows|)
  {
    if rows != [] {
      VectorStart(rows, nu, n, i);
      VectorEntries(rows[1..], nu[1..], n, i);
      TermsFromFront(rows, nu, i, 0, |rows|);
      TermsShift(rows, nu, i, |rows|);
      hide InformationVector, At, Sq;
    }
  }

  lemma StackedColumnTerm(rows: seq<Row>, nu: seq<real>, n: nat, i: int, k: nat)
    requires Informative(rows, n) && k < |rows| == |nu| && 0 <= i < n
    ensures At(Mul(Transpose(Stacked(rows, n)), Diagonal(Weights(rows))), i, k) * At(Column(nu), k, 0)
         == Term(rows, nu, i, k)
  {
    var o := rows[k].observation;
    var x, w := At(o.h, i, 0), 1.0 / Sq(o.sigma);
    WeightedColumn(rows, n, i, k);
    assert At(Column(nu), k, 0) == nu[k];
    assert (x * w) * nu[k] == nu[k] * (w * x);
  }

  lemma {:induction false} StackedColumnEntries(rows: seq<Row>, nu: seq<real>, n: nat, i: int, m: nat)
    requires Informative(rows, n) && m <= |rows| == |nu| && 0 <= i < n
    ensures Dot(Mul(Transpose(Stacked(rows, n)), Diagonal(Weights(rows))), Column(nu), i, 0, m)
         == Terms(rows, nu, i, 0, m)
  {
    hide Stacked, Diagonal, Column, Mul, Transpose, At, Term;
    if m > 0 {
      StackedColumnEntries(rows, nu, n, i, m - 1);
      StackedColumnTerm(rows, nu, n, i, m - 1);
    }
  }

  lemma StackedColumn(rows: seq<Row>, nu: seq<real>, n: nat)
    requires Informative(rows, n) && |rows| == |nu|
    ensures Mul(Mul(Transpose(Stacked(rows, n)), Diagonal(Weights(rows))), Column(nu))
         == InformationVector(rows, nu, n)
  {
    var left := Mul(Mul(Transpose(Stacked(rows, n)), Diagonal(Weights(rows))), Column(nu));
    forall i, j | 0 <= i < n && 0 <= j < 1 ensures At(left, i, j) == At(InformationVector(rows, nu, n), i, j) {
      StackedColumnEntries(rows, nu, n, i, |rows|);
      VectorEntries(rows, nu, n, i);
    }
    SameEntries(left, InformationVector(rows, nu, n));
  }

  /** All rows of an epoch as one vector measurement. */
  function Batch(rows: seq<Row>, nu: seq<real>, n: nat, sInverse: Matrix): Measurement
    requires AllFit(rows, n)
  {
    Measurement(Stacked(rows, n), Column(nu), Diagonal(Noises(rows)), sInverse)
  }

  /** One ungated EkfUpdate over the stacked rows has BatchMean and CovarianceAfter. */
  lemma BatchUpdate(p: Matrix, rows: seq<Row>, nu: seq<real>, information: Matrix, sInverse: Matrix)
    requires Covariance(p, p.rows) && Informative(rows, p.rows) && |nu| == |rows|
    requires Square(information, p.rows) && Mul(p, information) == Identity(p.rows)
    requires Usable(Batch(rows, nu, p.rows, sInverse), p)
    ensures Updated(Estimate(Zero(p.rows, 1), p), Batch(rows, nu, p.rows, sInverse), 0.0)
         == Estimate(BatchMean(p, rows, nu), CovarianceAfter(p, rows))
  {
    hide Mul, Covariance;
    var n := p.rows;
    var h, r, w := Stacked(rows, n), Diagonal(Noises(rows)), Diagonal(Weights(rows));
    var ht, k := Transpose(h), Gain(p, h, sInverse);
    var e, nus := Estimate(Zero(n, 1), p), WithInnovations(rows, nu);
    BatchCovariance(p, rows, information, sInverse);
    GainIsOptimal(p, h, r, sInverse);
    NoiseInverse(rows, n);
    SymmetricOf(p);
    JosephReduced(p, k, h, r);
    var after := CovarianceAfter(p, rows);
    // K = P' H^T R^-1
    MulAssoc(k, r, w);
    MulIdentity(k);
    MulAssoc(after, ht, w);
    MulAssoc(after, Mul(ht, w), Column(nu));
    StackedColumn(rows, nu, n);
    AddZero(Mul(k, Column(nu)));
  }

  lemma SymmetricOf(p: Matrix)
    requires Covariance(p, p.rows)
    ensures Symmetric(p)
  {
  }

  /** SequentialEqualsBatch for rows without a gate. */
  lemma BatchCovariance(p: Matrix, rows: seq<Row>, information: Matrix, sInverse: Matrix)
    requires Covariance(p, p.rows) && Informative(rows, p.rows)
    requires Square(information, p.rows) && Mul(p, information) == Identity(p.rows)
    requires Inverse(InnovationCovariance(p, Stacked(rows, p.rows), Diagonal(Noises(rows))), sInverse)
    ensures CovarianceAfter(p, rows)
         == Joseph(p, Gain(p, Stacked(rows, p.rows), sInverse), Stacked(rows, p.rows), Diagonal(Noises(rows)))
  {
    hide Mul, Joseph, Gain, InnovationCovariance, CovarianceAfter, Covariance, Identity;
    var e := Estimate(Zero(p.rows, 1), p);
    var nu := Innovations(rows);
    SymmetricOf(p);
    FinalIsSequentialMean(e, rows, nu);
    assert WithInnovations(rows, nu) == rows;
    AllAccepted(e, rows);
    SequentialEqualsBatch(e, rows, 0.0, information, sInverse);
  }

  function Innovations(rows: seq<Row>): (nu: seq<real>)
    ensures |nu| == |rows|
    ensures forall i | 0 <= i < |rows| :: nu[i] == rows[i].observation.innovation
  {
    seq(|rows|, i requires 0 <= i < |rows| => rows[i].observation.innovation)
  }

  lemma {:induction false} AllAccepted(e: Estimate, rows: seq<Row>)
    requires Proper(e) && Covariance(e.covariance, e.error.rows) && Informative(rows, e.error.rows)
    ensures AcceptedRows(e, rows, 0.0) == rows
    decreases rows
  {
    hide Mul, Variance, Covariance, ScalarJoseph;
    if rows != [] {
      FirstRow(e.covariance, rows);
      AllAccepted(Step(e, rows[0].observation, 0.0), rows[1..]);
      assert [rows[0]] + rows[1..] == rows;
    }
  }

  ghost function Sequential(p: Matrix, rows: seq<Row>, nu: seq<real>): Estimate
    requires p.rows == p.cols && AllFit(rows, p.rows) && |nu| == |rows|
  {
    assert AllFit(WithInnovations(rows, nu), p.rows);
    Final(Estimate(Zero(p.rows, 1), p), WithInnovations(rows, nu), 0.0)
  }

  ghost function Batched(p: Matrix, rows: seq<Row>, nu: seq<real>, sInverse: Matrix): Estimate
    requires p.rows == p.cols && AllFit(rows, p.rows) && |nu| == |rows|
    requires Inverse(InnovationCovariance(p, Stacked(rows, p.rows), Diagonal(Noises(rows))), sInverse)
  {
    Updated(Estimate(Zero(p.rows, 1), p), Batch(rows, nu, p.rows, sInverse), 0.0)
  }

  /** Sequential updates and one batch update, both from a zero error state, give the same covariance
      for all innovations, and the same error state for all innovations exactly when each row is
      P-orthogonal to every earlier row. */
  lemma SequentialMeanIsBatchMeanIff(p: Matrix, rows: seq<Row>, information: Matrix, sInverse: Matrix)
    requires Covariance(p, p.rows) && Informative(rows, p.rows)
    requires Square(information, p.rows) && Mul(p, information) == Identity(p.rows)
    requires Inverse(InnovationCovariance(p, Stacked(rows, p.rows), Diagonal(Noises(rows))), sInverse)
    ensures forall nu: seq<real> | |nu| == |rows| ::
      Sequential(p, rows, nu).covariance == Batched(p, rows, nu, sInverse).covariance
    ensures (forall nu: seq<real> | |nu| == |rows| ::
      Sequential(p, rows, nu).error == Batched(p, rows, nu, sInverse).error) <==> Orthogonal(p, rows)
  {
    hide Mul, Final, Updated, Orthogonal, Covariance, SequentialMean, BatchMean, CovarianceAfter;
    SymmetricOf(p);
    var e := Estimate(Zero(p.rows, 1), p);
    forall nu: seq<real> | |nu| == |rows|
      ensures Sequential(p, rows, nu) == Estimate(SequentialMean(p, rows, nu), CovarianceAfter(p, rows))
      ensures Batched(p, rows, nu, sInverse) == Estimate(BatchMean(p, rows, nu), CovarianceAfter(p, rows))
    {
      FinalIsSequentialMean(e, rows, nu);
      AddZero(SequentialMean(p, rows, nu));
      BatchUpdate(p, rows, nu, information, sInverse);
    }
    MeansAgreeIffOrthogonal(p, rows);
  }

  /** A row read twice, with innovation 1 first and 0 second, is enough to tell the scalar updates from
      the batch update, whatever the covariance, unless the row sees no uncertainty at all. */
  lemma RepeatedRowDiffers(p: Matrix, row: Row, information: Matrix, sInverse: Matrix)
    requires Covariance(p, p.rows) && Informative([row, row], p.rows)
    requires Fits(row.observation, p.rows) && Cross(p, row.observation.h, row.observation.h) != 0.0
    requires Square(information, p.rows) && Mul(p, information) == Identity(p.rows)
    requires Inverse(InnovationCovariance(p, Stacked([row, row], p.rows), Diagonal(Noises([row, row]))), sInverse)
    ensures Sequential(p, [row, row], FirstOnly(2)).error
         != Batched(p, [row, row], FirstOnly(2), sInverse).error
  {
    hide Mul, Final, Updated, Covariance, SequentialMean, BatchMean, CovarianceAfter, Cross, Variance, ScalarGain;
    var rows, nu := [row, row], FirstOnly(2);
    SymmetricOf(p);
    FirstRow(p, rows);
    FinalIsSequentialMean(Estimate(Zero(p.rows, 1), p), rows, nu);
    AddZero(SequentialMean(p, rows, nu));
    BatchUpdate(p, rows, nu, information, sInverse);
    assert rows[1..][0] == row;
    HeadGain(p, rows);
    if SequentialMean(p, rows, nu) == BatchMean(p, rows, nu) {
      FirstInnovationAlone(p, rows);
      assert false;
    }
  }
}
