/** The mean of the sequential update against the mean of the batch update. The satellite loop takes every
    innovation against the nominal state, so the two means differ unless the rows are orthogonal. */
module GnssMean {
  import opened Matrices
  import opened EkfUpdates
  import opened GnssTightlyCoupled
  import opened GnssInformation

  /** a^T P b, the covariance between two directions. */
  function Cross(p: Matrix, a: Matrix, b: Matrix): real
    requires p.rows == p.cols == a.rows == b.rows && a.cols == b.cols == 1
  {
    At(Mul(Transpose(a), Mul(p, b)), 0, 0)
  }

  lemma CrossSymmetric(p: Matrix, a: Matrix, b: Matrix)
    requires Symmetric(p) && p.rows == a.rows == b.rows && a.cols == b.cols == 1
    ensures Cross(p, a, b) == Cross(p, b, a)
  {
    var m := Mul(Transpose(a), Mul(p, b));
    TransposeMul(Transpose(a), Mul(p, b));
    TransposeMul(p, b);
    TransposeTwice(a);
    MulAssoc(Transpose(b), p, a);
    assert At(Transpose(m), 0, 0) == At(m, 0, 0);
  }

  lemma CrossIsQuadratic(p: Matrix, a: Matrix)
    requires p.rows == p.cols == a.rows && a.cols == 1
    ensures Cross(p, a, a) == Quadratic(p, a)
  {
    MulAssoc(Transpose(a), p, a);
  }

  /** P - K h^T P, applied to a vector. */
  lemma ScalarJosephTimes(p: Matrix, o: Scalar, x: Matrix)
    requires Symmetric(p) && Fits(o, p.rows) && Variance(p, o) > 0.0 && x.rows == p.rows && x.cols == 1
    ensures Mul(ScalarJoseph(p, o), x) == Sub(Mul(p, x), Scale(Cross(p, o.h, x), ScalarGain(p, o)))
  {
    var row, k := Transpose(o.h), ScalarGain(p, o);
    Prepare(p, o);
    JosephReduced(p, k, row, Single(Sq(o.sigma)));
    MulAddLeft(p, Mul(k, Mul(row, p)), x);
    MulAssoc(k, Mul(row, p), x);
    MulAssoc(row, p, x);
    var c := Mul(row, Mul(p, x));
    SameEntries(c, Single(Cross(p, o.h, x)));
    MulSingle(k, Cross(p, o.h, x));
  }

  lemma Prepare(p: Matrix, o: Scalar)
    requires Symmetric(p) && Fits(o, p.rows) && Variance(p, o) > 0.0
    ensures var row, r, k := Transpose(o.h), Single(Sq(o.sigma)), ScalarGain(p, o);
            Shapes(p, row, r) && Symmetric(r) && Transpose(row) == o.h
            && Mul(k, InnovationCovariance(p, row, r)) == Mul(p, Transpose(row))
            && ScalarJoseph(p, o) == Joseph(p, k, row, r)
  {
    ScalarIsVectorUpdate(p, o);
    TransposeTwice(o.h);
    SameEntries(Transpose(Single(Sq(o.sigma))), Single(Sq(o.sigma)));
  }

  /** P' h = sigma^2 K. */
  lemma UpdatedTimesRow(p: Matrix, o: Scalar)
    requires Symmetric(p) && Fits(o, p.rows) && Variance(p, o) > 0.0
    ensures Mul(ScalarJoseph(p, o), o.h) == Scale(Sq(o.sigma), ScalarGain(p, o))
  {
    var row, k := Transpose(o.h), ScalarGain(p, o);
    Prepare(p, o);
    JosephReduced(p, k, row, Single(Sq(o.sigma)));
    MulSingle(k, Sq(o.sigma));
  }

  lemma CrossSub(p: Matrix, a: Matrix, u: Matrix, v: Matrix)
    requires a.rows == u.rows == v.rows && a.cols == u.cols == v.cols == 1
    ensures At(Mul(Transpose(a), Sub(u, v)), 0, 0)
         == At(Mul(Transpose(a), u), 0, 0) - At(Mul(Transpose(a), v), 0, 0)
  {
    MulAddRight(Transpose(a), u, v);
  }

  lemma InnerScale(c: real, a: Matrix, u: Matrix)
    requires a.rows == u.rows && a.cols == u.cols == 1
    ensures At(Mul(Transpose(a), Scale(c, u)), 0, 0) == c * At(Mul(Transpose(a), u), 0, 0)
  {
    MulScale(c, Transpose(a), u);
  }

  /** a^T P' b = a^T P b - (h^T P b) (a^T P h) / S. */
  lemma CrossAfter(p: Matrix, o: Scalar, a: Matrix, b: Matrix)
    requires Symmetric(p) && Fits(o, p.rows) && Variance(p, o) > 0.0
    requires a.rows == b.rows == p.rows && a.cols == b.cols == 1
    ensures Cross(ScalarJoseph(p, o), a, b)
         == Cross(p, a, b) - Cross(p, o.h, b) * (1.0 / Variance(p, o) * Cross(p, a, o.h))
  {
    hide ScalarJoseph, Variance, Mul, Sub, Scale, Transpose, At;
    var k := ScalarGain(p, o);
    ScalarJosephTimes(p, o, b);
    CrossSub(p, a, Mul(p, b), Scale(Cross(p, o.h, b), k));
    InnerScale(Cross(p, o.h, b), a, k);
    InnerScale(1.0 / Variance(p, o), a, Mul(p, o.h));
  }

  // ---- Rows that all pass ------------------------------------------------------------------

  lemma VariancePositive(p: Matrix, o: Scalar)
    requires PositiveSemidefinite(p) && Fits(o, p.rows) && Sq(o.sigma) > 0.0
    ensures Variance(p, o) > 0.0
  {
    assert Quadratic(p, o.h) >= 0.0;
    CrossIsQuadratic(p, o.h);
  }

  lemma ScalarJosephCovariance(p: Matrix, o: Scalar)
    requires Covariance(p, p.rows) && Fits(o, p.rows) && Sq(o.sigma) > 0.0 && Variance(p, o) > 0.0
    ensures Covariance(ScalarJoseph(p, o), p.rows)
  {
    Prepare(p, o);
    SinglePositive(Sq(o.sigma));
    JosephIsCovariance(p, ScalarGain(p, o), Transpose(o.h), Single(Sq(o.sigma)));
  }

  lemma SinglePositive(c: real)
    requires c >= 0.0
    ensures PositiveSemidefinite(Single(c))
  {
    forall x: Matrix | x.rows == 1 && x.cols == 1 ensures Quadratic(Single(c), x) >= 0.0 {
      SingleQuadratic(c, x);
    }
  }

  lemma SingleQuadratic(c: real, x: Matrix)
    requires c >= 0.0 && x.rows == 1 && x.cols == 1
    ensures Quadratic(Single(c), x) >= 0.0
  {
    var t, v := Transpose(x), At(x, 0, 0);
    MulSingle(t, c);
    var u := Scale(c, t);
    assert Dot(u, x, 0, 0, 1) == Dot(u, x, 0, 0, 0) + At(u, 0, 0) * At(x, 0, 0);
    assert Quadratic(Single(c), x) == (c * v) * v == c * (v * v);
  }

  /** The covariance after rows that are not gated. */
  ghost function CovarianceAfter(p: Matrix, rows: seq<Row>): (after: Matrix)
    requires Covariance(p, p.rows) && Informative(rows, p.rows)
    ensures Covariance(after, p.rows) && Square(after, p.rows)
    decreases rows
  {
    if rows == [] then
      p
    else
      VariancePositive(p, rows[0].observation);
      ScalarJosephCovariance(p, rows[0].observation);
      CovarianceAfter(ScalarJoseph(p, rows[0].observation), rows[1..])
  }

  /** A row sees nothing of a direction it is P-orthogonal to. */
  ghost predicate Blind(p: Matrix, rows: seq<Row>, x: Matrix)
    requires p.rows == p.cols == x.rows && x.cols == 1 && AllFit(rows, p.rows)
  {
    forall i | 0 <= i < |rows| :: Cross(p, rows[i].observation.h, x) == 0.0
  }

  lemma OrthogonalRowKeeps(p: Matrix, o: Scalar, x: Matrix)
    requires Symmetric(p) && Fits(o, p.rows) && Variance(p, o) > 0.0 && x.rows == p.rows && x.cols == 1
    requires Cross(p, o.h, x) == 0.0
    ensures Mul(ScalarJoseph(p, o), x) == Mul(p, x)
  {
    ScalarJosephTimes(p, o, x);
    var k := ScalarGain(p, o);
    SameEntries(Scale(0.0, k), Zero(k.rows, k.cols));
    AddZero(Mul(p, x));
  }

  lemma BlindFollows(p: Matrix, p1: Matrix, rows: seq<Row>, x: Matrix)
    requires p.rows == p.cols == p1.rows == p1.cols == x.rows && x.cols == 1 && AllFit(rows, p.rows)
    requires Mul(p1, x) == Mul(p, x)
    ensures Blind(p1, rows, x) == Blind(p, rows, x)
  {
    assert forall i | 0 <= i < |rows| :: Cross(p1, rows[i].observation.h, x) == Cross(p, rows[i].observation.h, x);
  }

  lemma BlindSplit(p: Matrix, rows: seq<Row>, x: Matrix)
    requires p.rows == p.cols == x.rows && x.cols == 1 && AllFit(rows, p.rows) && rows != []
    ensures AllFit(rows[1..], p.rows)
    ensures Blind(p, rows, x) <==> Cross(p, rows[0].observation.h, x) == 0.0 && Blind(p, rows[1..], x)
  {
    assert forall i | 0 < i < |rows| :: rows[i] == rows[1..][i - 1];
  }

  /** The first row of a list: what every induction over rows needs. */
  lemma FirstRow(p: Matrix, rows: seq<Row>)
    requires Covariance(p, p.rows) && Informative(rows, p.rows) && rows != []
    ensures var o := rows[0].observation;
            Fits(o, p.rows) && Sq(o.sigma) > 0.0 && Variance(p, o) > 0.0 && Symmetric(p)
            && Covariance(ScalarJoseph(p, o), p.rows) && Informative(rows[1..], p.rows) && AllFit(rows, p.rows)
            && CovarianceAfter(p, rows) == CovarianceAfter(ScalarJoseph(p, o), rows[1..])
  {
    VariancePositive(p, rows[0].observation);
    ScalarJosephCovariance(p, rows[0].observation);
  }

  /** Rows that are all blind to x leave P x alone. */
  lemma {:induction false} BlindRowsKeep(p: Matrix, rows: seq<Row>, x: Matrix)
    requires Covariance(p, p.rows) && Informative(rows, p.rows) && x.rows == p.rows && x.cols == 1
    requires Blind(p, rows, x)
    ensures Mul(CovarianceAfter(p, rows), x) == Mul(p, x)
    decreases rows
  {
    if rows != [] {
      FirstRow(p, rows);
      hide Mul, Cross, ScalarJoseph, Variance, Blind, CovarianceAfter, Covariance, Informative, AllFit;
      var o := rows[0].observation;
      var p1 := ScalarJoseph(p, o);
      BlindSplit(p, rows, x);
      OrthogonalRowKeeps(p, o, x);
      BlindFollows(p, p1, rows[1..], x);
      BlindRowsKeep(p1, rows[1..], x);
    }
  }

  /** One row removes (h^T P x)^2 / S from the variance along x. */
  lemma VarianceLoss(p: Matrix, o: Scalar, x: Matrix)
    requires Symmetric(p) && Fits(o, p.rows) && Variance(p, o) > 0.0 && x.rows == p.rows && x.cols == 1
    ensures Quadratic(ScalarJoseph(p, o), x) <= Quadratic(p, x)
    ensures Quadratic(ScalarJoseph(p, o), x) == Quadratic(p, x) ==> Cross(p, o.h, x) == 0.0
  {
    hide Quadratic, Cross, ScalarJoseph, Variance;
    var c, s := Cross(p, o.h, x), Variance(p, o);
    CrossAfter(p, o, x, x);
    CrossIsQuadratic(p, x);
    CrossIsQuadratic(ScalarJoseph(p, o), x);
    CrossSymmetric(p, x, o.h);
    LossIsPositive(c, s);
  }

  lemma LossIsPositive(c: real, s: real)
    requires s > 0.0
    ensures c * (1.0 / s * c) >= 0.0
    ensures c * (1.0 / s * c) == 0.0 ==> c == 0.0
  {
    var w := 1.0 / s;
    assert w > 0.0;
    if c != 0.0 {
      SquarePositive(c);
      TimesPositive(w, Sq(c));
      assert c * (w * c) == Times(w, Sq(c));
    }
  }

  lemma {:induction false} VarianceOnlyShrinks(p: Matrix, rows: seq<Row>, x: Matrix)
    requires Covariance(p, p.rows) && Informative(rows, p.rows) && x.rows == p.rows && x.cols == 1
    ensures Quadratic(CovarianceAfter(p, rows), x) <= Quadratic(p, x)
    ensures Quadratic(CovarianceAfter(p, rows), x) == Quadratic(p, x) ==> Blind(p, rows, x)
    decreases rows
  {
    hide Quadratic, Mul, Cross, ScalarJoseph, Variance;
    if rows != [] {
      FirstRow(p, rows);
      var o := rows[0].observation;
      var p1 := ScalarJoseph(p, o);
      VarianceLoss(p, o, x);
      VarianceOnlyShrinks(p1, rows[1..], x);
      BlindSplit(p, rows, x);
      if Quadratic(CovarianceAfter(p, rows), x) == Quadratic(p, x) {
        OrthogonalRowKeeps(p, o, x);
        BlindFollows(p, p1, rows[1..], x);
      }
    }
  }

  // ---- The two means -----------------------------------------------------------------------

  /** The error state of ScalarUpdate after all rows, from zero: the sum of K innovation. */
  ghost function SequentialMean(p: Matrix, rows: seq<Row>, nu: seq<real>): (mean: Matrix)
    requires Covariance(p, p.rows) && Informative(rows, p.rows) && |nu| == |rows|
    ensures mean.rows == p.rows && mean.cols == 1
    decreases rows
  {
    if rows == [] then
      Zero(p.rows, 1)
    else
      FirstRow(p, rows);
      Add(Scale(nu[0], ScalarGain(p, rows[0].observation)),
          SequentialMean(ScalarJoseph(p, rows[0].observation), rows[1..], nu[1..]))
  }

  /** The sum of h innovation / sigma^2. */
  function InformationVector(rows: seq<Row>, nu: seq<real>, n: nat): (v: Matrix)
    requires Informative(rows, n) && |nu| == |rows|
    ensures v.rows == n && v.cols == 1
  {
    if rows == [] then
      Zero(n, 1)
    else
      var o := rows[0].observation;
      Add(Scale(nu[0], Scale(1.0 / Sq(o.sigma), o.h)), InformationVector(rows[1..], nu[1..], n))
  }

  /** The mean of the batch update: P' H^T R^-1 innovation. */
  ghost function BatchMean(p: Matrix, rows: seq<Row>, nu: seq<real>): (mean: Matrix)
    requires Covariance(p, p.rows) && Informative(rows, p.rows) && |nu| == |rows|
    ensures mean.rows == p.rows && mean.cols == 1
  {
    Mul(CovarianceAfter(p, rows), InformationVector(rows, nu, p.rows))
  }

  ghost predicate MeansAgree(p: Matrix, rows: seq<Row>)
    requires Covariance(p, p.rows) && Informative(rows, p.rows)
  {
    forall nu: seq<real> | |nu| == |rows| :: SequentialMean(p, rows, nu) == BatchMean(p, rows, nu)
  }

  /** Every row is P-orthogonal to every earlier row. */
  ghost predicate Orthogonal(p: Matrix, rows: seq<Row>)
    requires p.rows == p.cols && AllFit(rows, p.rows)
  {
    forall i, j | 0 <= i < j < |rows| :: Cross(p, rows[j].observation.h, rows[i].observation.h) == 0.0
  }

  lemma OrthogonalSplit(p: Matrix, rows: seq<Row>)
    requires p.rows == p.cols && AllFit(rows, p.rows) && rows != []
    ensures AllFit(rows[1..], p.rows) && Fits(rows[0].observation, p.rows)
    ensures Orthogonal(p, rows)
       <==> Blind(p, rows[1..], rows[0].observation.h) && Orthogonal(p, rows[1..])
  {
    hide Cross;
    var rest := rows[1..];
    assert forall i | 0 <= i < |rest| :: rest[i] == rows[i + 1];
    if Orthogonal(p, rows) {
      assert forall i, j | 0 <= i < j < |rest| ::
          Cross(p, rest[j].observation.h, rest[i].observation.h)
          == Cross(p, rows[j + 1].observation.h, rows[i + 1].observation.h);
    }
    if Blind(p, rest, rows[0].observation.h) && Orthogonal(p, rest) {
      forall i, j | 0 <= i < j < |rows| ensures Cross(p, rows[j].observation.h, rows[i].observation.h) == 0.0 {
        assert rows[j] == rest[j - 1];
        if i > 0 { assert rows[i] == rest[i - 1]; }
      }
    }
  }

  /** What is left of x after the update by h along x itself is x sigma^2 / S. */
  lemma Remainder(x: real, a: real, s: real)
    requires s > a && s > 0.0
    ensures x - a * (1.0 / s * x) == 0.0 <==> x == 0.0
  {
    var y := 1.0 / s * x;
    assert x == s * y;
    assert x - a * y == (s - a) * y;
    if x - a * y == 0.0 { assert y == 0.0; }
  }

  /** Updating with h first does not change whether a direction is P-orthogonal to h. */
  lemma OrthogonalToHead(p: Matrix, o: Scalar, a: Matrix)
    requires Symmetric(p) && Fits(o, p.rows) && Sq(o.sigma) > 0.0 && Variance(p, o) > 0.0
    requires a.rows == p.rows && a.cols == 1
    ensures Cross(ScalarJoseph(p, o), a, o.h) == 0.0 <==> Cross(p, a, o.h) == 0.0
  {
    CrossAfter(p, o, a, o.h);
    VarianceIs(p, o);
    hide ScalarJoseph, Cross, Variance, Symmetric, Sq;
    Remainder(Cross(p, a, o.h), Cross(p, o.h, o.h), Variance(p, o));
  }

  /** Nor which rows are blind to h. */
  lemma BlindHead(p: Matrix, o: Scalar, rest: seq<Row>)
    requires Symmetric(p) && Fits(o, p.rows) && Sq(o.sigma) > 0.0 && Variance(p, o) > 0.0 && AllFit(rest, p.rows)
    ensures Blind(ScalarJoseph(p, o), rest, o.h) == Blind(p, rest, o.h)
  {
    forall i | 0 <= i < |rest|
      ensures Cross(ScalarJoseph(p, o), rest[i].observation.h, o.h) == 0.0
         <==> Cross(p, rest[i].observation.h, o.h) == 0.0
    {
      OrthogonalToHead(p, o, rest[i].observation.h);
    }
    hide ScalarJoseph, Cross, Variance, Symmetric;
  }

  lemma VarianceIs(p: Matrix, o: Scalar)
    requires p.rows == p.cols && Fits(o, p.rows)
    ensures Variance(p, o) == Cross(p, o.h, o.h) + Sq(o.sigma)
  {
  }

  lemma OrthogonalFollows(p: Matrix, o: Scalar, rest: seq<Row>)
    requires Symmetric(p) && Fits(o, p.rows) && Variance(p, o) > 0.0 && AllFit(rest, p.rows)
    requires Blind(p, rest, o.h)
    ensures Orthogonal(ScalarJoseph(p, o), rest) == Orthogonal(p, rest)
  {
    hide ScalarJoseph, Cross, Variance;
    forall i, j | 0 <= i < j < |rest|
      ensures Cross(ScalarJoseph(p, o), rest[j].observation.h, rest[i].observation.h)
           == Cross(p, rest[j].observation.h, rest[i].observation.h)
    {
      var a, b := rest[j].observation.h, rest[i].observation.h;
      CrossAfter(p, o, a, b);
      CrossSymmetric(p, o.h, b);
      assert Cross(p, b, o.h) == 0.0;
    }
  }

  /** The gain of the scalar update is the batch gain of a row exactly when all later rows are blind to it. */
  lemma HeadGain(p: Matrix, rows: seq<Row>)
    requires Covariance(p, p.rows) && Informative(rows, p.rows) && rows != []
    requires Fits(rows[0].observation, p.rows) && Variance(p, rows[0].observation) > 0.0
    ensures AllFit(rows[1..], p.rows)
    ensures ScalarGain(p, rows[0].observation)
         == Scale(1.0 / Sq(rows[0].observation.sigma), Mul(CovarianceAfter(p, rows), rows[0].observation.h))
       <==> Blind(p, rows[1..], rows[0].observation.h)
  {
    hide Mul, Cross, Quadratic, ScalarJoseph, Variance, ScalarGain, Blind;
    FirstRow(p, rows);
    var o, rest := rows[0].observation, rows[1..];
    var p1, k, c := ScalarJoseph(p, o), ScalarGain(p, o), Sq(o.sigma);
    var after := CovarianceAfter(p, rows);
    UpdatedTimesRow(p, o);
    BlindHead(p, o, rest);
    Reciprocal(c);
    if Blind(p, rest, o.h) {
      BlindRowsKeep(p1, rest, o.h);
      ScaleTwice(1.0 / c, c, k);
    }
    if k == Scale(1.0 / c, Mul(after, o.h)) {
      ScaleTwice(c, 1.0 / c, Mul(after, o.h));
      assert Mul(after, o.h) == Mul(p1, o.h);
      CrossIsQuadratic(after, o.h);
      CrossIsQuadratic(p1, o.h);
      CrossFollows(after, p1, o.h);
      VarianceOnlyShrinks(p1, rest, o.h);
    }
  }

  lemma CrossFollows(p: Matrix, q: Matrix, x: Matrix)
    requires p.rows == p.cols == q.rows == q.cols == x.rows && x.cols == 1 && Mul(p, x) == Mul(q, x)
    ensures Cross(p, x, x) == Cross(q, x, x)
  {
  }

  /** The covariance after the first row. */
  ghost function Next(p: Matrix, rows: seq<Row>): (p1: Matrix)
    requires Covariance(p, p.rows) && Informative(rows, p.rows) && rows != []
    ensures Covariance(p1, p1.rows) && Square(p1, p.rows) && Informative(rows[1..], p1.rows)
  {
    FirstRow(p, rows);
    ScalarJoseph(p, rows[0].observation)
  }

  /** The gain that the batch update gives to the first row: P' h / sigma^2. */
  ghost function BatchGain(p: Matrix, rows: seq<Row>): (k: Matrix)
    requires Covariance(p, p.rows) && Informative(rows, p.rows) && rows != []
    ensures k.rows == p.rows && k.cols == 1
  {
    FirstRow(p, rows);
    Scale(1.0 / Sq(rows[0].observation.sigma), Mul(CovarianceAfter(p, rows), rows[0].observation.h))
  }

  /** The first row's share of the batch mean plus the batch mean of the rest. */
  ghost function SplitMean(p: Matrix, rows: seq<Row>, nu: seq<real>): (mean: Matrix)
    requires Covariance(p, p.rows) && Informative(rows, p.rows) && |nu| == |rows| && rows != []
  {
    var p1, rest := Next(p, rows), rows[1..];
    Add(Scale(nu[0], BatchGain(p, rows)), BatchMean(p1, rest, nu[1..]))
  }

  lemma BatchSplit(p: Matrix, rows: seq<Row>, nu: seq<real>)
    requires Covariance(p, p.rows) && Informative(rows, p.rows) && |nu| == |rows| && rows != []
    ensures BatchMean(p, rows, nu) == SplitMean(p, rows, nu)
  {
    hide Mul, ScalarJoseph, Variance, Covariance, At, Build;
    FirstRow(p, rows);
    var o, after, n := rows[0].observation, CovarianceAfter(p, rows), p.rows;
    var w := 1.0 / Sq(o.sigma);
    MulAddRight(after, Scale(nu[0], Scale(w, o.h)), InformationVector(rows[1..], nu[1..], n));
    MulScale(nu[0], after, Scale(w, o.h));
    MulScale(w, after, o.h);
  }

  function Zeros(m: nat): (z: seq<real>)
    ensures |z| == m && forall i | 0 <= i < m :: z[i] == 0.0
  {
    seq(m, i => 0.0)
  }

  /** An innovation of one in the first of m rows. */
  function FirstOnly(m: nat): (nu: seq<real>)
    requires m > 0
    ensures |nu| == m
  {
    [1.0] + Zeros(m - 1)
  }

  lemma {:induction false} NoInnovation(p: Matrix, rows: seq<Row>)
    requires Covariance(p, p.rows) && Informative(rows, p.rows)
    ensures SequentialMean(p, rows, Zeros(|rows|)) == Zero(p.rows, 1)
    decreases rows
  {
    hide Mul, ScalarJoseph, Variance, Covariance, ScalarGain;
    if rows != [] {
      FirstRow(p, rows);
      var o, z := rows[0].observation, Zeros(|rows|);
      NoInnovation(ScalarJoseph(p, o), rows[1..]);
      assert z[1..] == Zeros(|rows[1..]|);
      ScaleZero(ScalarGain(p, o));
      AddZero(Zero(p.rows, 1));
    }
  }

  lemma {:induction false} NoInformation(rows: seq<Row>, n: nat)
    requires Informative(rows, n)
    ensures InformationVector(rows, Zeros(|rows|), n) == Zero(n, 1)
  {
    if rows != [] {
      var z := Zeros(|rows|);
      NoInformation(rows[1..], n);
      assert z[1..] == Zeros(|rows[1..]|);
      ScaleZero(Scale(1.0 / Sq(rows[0].observation.sigma), rows[0].observation.h));
      AddZero(Zero(n, 1));
    }
  }

  lemma NoBatchMean(p: Matrix, rows: seq<Row>)
    requires Covariance(p, p.rows) && Informative(rows, p.rows)
    ensures BatchMean(p, rows, Zeros(|rows|)) == Zero(p.rows, 1)
  {
    hide Covariance;
    NoInformation(rows, p.rows);
    var after := CovarianceAfter(p, rows);
    MulScale(0.0, after, Zero(p.rows, 1));
    ScaleZero(Zero(p.rows, 1));
    ScaleZero(Mul(after, Zero(p.rows, 1)));
  }

  lemma {:induction false} OrthogonalRowsAgree(p: Matrix, rows: seq<Row>, nu: seq<real>)
    requires Covariance(p, p.rows) && Informative(rows, p.rows) && |nu| == |rows|
    requires Orthogonal(p, rows)
    ensures SequentialMean(p, rows, nu) == BatchMean(p, rows, nu)
    decreases rows
  {
    hide Mul, ScalarJoseph, Variance, Covariance, ScalarGain, Cross, Orthogonal;
    if rows == [] {
      NoBatchMean(p, rows);
      assert nu == Zeros(0);
    } else {
      FirstRow(p, rows);
      var o := rows[0].observation;
      OrthogonalSplit(p, rows);
      OrthogonalFollows(p, o, rows[1..]);
      HeadGain(p, rows);
      BatchSplit(p, rows, nu);
      OrthogonalRowsAgree(ScalarJoseph(p, o), rows[1..], nu[1..]);
    }
  }

  lemma {:induction false} AgreementNeedsOrthogonal(p: Matrix, rows: seq<Row>)
    requires Covariance(p, p.rows) && Informative(rows, p.rows)
    requires MeansAgree(p, rows)
    ensures Orthogonal(p, rows)
    decreases rows
  {
    hide Mul, ScalarJoseph, Variance, Covariance, ScalarGain, Cross, Blind, BatchMean;
    if rows != [] {
      FirstRow(p, rows);
      var o, rest := rows[0].observation, rows[1..];
      FirstInnovationAlone(p, rows);
      LaterInnovations(p, rows);
      HeadGain(p, rows);
      OrthogonalFollows(p, o, rest);
      AgreementNeedsOrthogonal(ScalarJoseph(p, o), rest);
      OrthogonalSplit(p, rows);
    }
  }

  /** An innovation in the first row only compares the two gains of that row. */
  lemma FirstInnovationAlone(p: Matrix, rows: seq<Row>)
    requires Covariance(p, p.rows) && Informative(rows, p.rows) && rows != []
    requires Fits(rows[0].observation, p.rows) && Variance(p, rows[0].observation) > 0.0
    requires SequentialMean(p, rows, FirstOnly(|rows|)) == BatchMean(p, rows, FirstOnly(|rows|))
    ensures ScalarGain(p, rows[0].observation)
         == Scale(1.0 / Sq(rows[0].observation.sigma), Mul(CovarianceAfter(p, rows), rows[0].observation.h))
  {
    hide Mul, ScalarJoseph, Variance, Covariance, ScalarGain;
    FirstRow(p, rows);
    var o, rest := rows[0].observation, rows[1..];
    var p1, z := ScalarJoseph(p, o), Zeros(|rest|);
    var nu := FirstOnly(|rows|);
    assert nu[1..] == z;
    var k, b := ScalarGain(p, o), Scale(1.0 / Sq(o.sigma), Mul(CovarianceAfter(p, rows), o.h));
    BatchSplit(p, rows, nu);
    NoInnovation(p1, rest);
    NoBatchMean(p1, rest);
    ScaleOne(k);
    ScaleOne(b);
    AddZero(k);
    AddZero(b);
  }

  /** With no innovation in the first row the agreement is about the rest. */
  lemma LaterInnovations(p: Matrix, rows: seq<Row>)
    requires Covariance(p, p.rows) && Informative(rows, p.rows) && rows != []
    requires Fits(rows[0].observation, p.rows) && Variance(p, rows[0].observation) > 0.0
    requires Covariance(ScalarJoseph(p, rows[0].observation), p.rows) && Informative(rows[1..], p.rows)
    requires MeansAgree(p, rows)
    ensures MeansAgree(ScalarJoseph(p, rows[0].observation), rows[1..])
  {
    hide Mul, ScalarJoseph, Variance, Covariance, ScalarGain;
    FirstRow(p, rows);
    var o, rest := rows[0].observation, rows[1..];
    var p1 := ScalarJoseph(p, o);
    forall later: seq<real> | |later| == |rest|
      ensures SequentialMean(p1, rest, later) == BatchMean(p1, rest, later)
    {
      var nu := [0.0] + later;
      assert nu[1..] == later;
      var b := Scale(1.0 / Sq(o.sigma), Mul(CovarianceAfter(p, rows), o.h));
      assert SequentialMean(p, rows, nu) == BatchMean(p, rows, nu);
      BatchSplit(p, rows, nu);
      ScaleZero(ScalarGain(p, o));
      ScaleZero(b);
      AddZero(SequentialMean(p1, rest, later));
      AddZero(BatchMean(p1, rest, later));
    }
  }

  /** The two means agree for all innovations exactly when the rows are P-orthogonal. */
  lemma MeansAgreeIffOrthogonal(p: Matrix, rows: seq<Row>)
    requires Covariance(p, p.rows) && Informative(rows, p.rows)
    ensures MeansAgree(p, rows) <==> Orthogonal(p, rows)
  {
    hide SequentialMean, BatchMean, Orthogonal;
    if Orthogonal(p, rows) {
      forall nu: seq<real> | |nu| == |rows| ensures SequentialMean(p, rows, nu) == BatchMean(p, rows, nu) {
        OrthogonalRowsAgree(p, rows, nu);
      }
    }
    if MeansAgree(p, rows) { AgreementNeedsOrthogonal(p, rows); }
  }

  // ---- The two updates of the filter -----------------------------------------------------------

  /** The same rows with new innovations. */
  function WithInnovations(rows: seq<Row>, nu: seq<real>): (r: seq<Row>)
    requires |nu| == |rows|
    ensures |r| == |rows|
    ensures forall i | 0 <= i < |rows| :: r[i] == WithInnovation(rows[i], nu[i])
  {
    seq(|rows|, i requires 0 <= i < |rows| => WithInnovation(rows[i], nu[i]))
  }

  function WithInnovation(row: Row, innovation: real): Row {
    row.(observation := row.observation.(innovation := innovation))
  }

  lemma WithInnovationsSplit(rows: seq<Row>, nu: seq<real>, n: nat)
    requires |nu| == |rows| && rows != [] && Informative(rows, n)
    ensures Informative(WithInnovations(rows, nu), n)
    ensures WithInnovations(rows, nu)[0] == WithInnovation(rows[0], nu[0])
    ensures WithInnovations(rows, nu)[1..] == WithInnovations(rows[1..], nu[1..])
  {
  }

  /** Without a gate, Final accumulates SequentialMean and CovarianceAfter. */
  lemma {:induction false} FinalIsSequentialMean(e: Estimate, rows: seq<Row>, nu: seq<real>)
    requires Proper(e) && Covariance(e.covariance, e.error.rows) && Informative(rows, e.error.rows)
    requires |nu| == |rows|
    ensures AllFit(WithInnovations(rows, nu), e.error.rows)
    ensures Final(e, WithInnovations(rows, nu), 0.0)
         == Estimate(Add(e.error, SequentialMean(e.covariance, rows, nu)), CovarianceAfter(e.covariance, rows))
    decreases rows
  {
    hide Mul, Add, Scale, Variance, Covariance;
    var p := e.covariance;
    if rows == [] {
      AddZero(e.error);
    } else {
      FirstRow(p, rows);
      WithInnovationsSplit(rows, nu, e.error.rows);
      var o := rows[0].observation;
      OneStep(e, o, nu[0]);
      var k, later := ScalarGain(p, o), SequentialMean(ScalarJoseph(p, o), rows[1..], nu[1..]);
      var next := Estimate(Add(e.error, Scale(nu[0], k)), ScalarJoseph(p, o));
      FinalIsSequentialMean(next, rows[1..], nu[1..]);
      AddAssoc(e.error, Scale(nu[0], k), later);
    }
  }

  lemma OneStep(e: Estimate, o: Scalar, innovation: real)
    requires Proper(e) && Fits(o, e.error.rows) && Variance(e.covariance, o) > 0.0
    ensures Step(e, o.(innovation := innovation), 0.0)
         == Estimate(Add(e.error, Scale(innovation, ScalarGain(e.covariance, o))), ScalarJoseph(e.covariance, o))
  {
    hide Mul, Add, Scale, Sub;
    var o' := o.(innovation := innovation);
    assert Variance(e.covariance, o') == Variance(e.covariance, o);
    assert ScalarGain(e.covariance, o') == ScalarGain(e.covariance, o);
  }
}
