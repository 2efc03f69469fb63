/** The unscented filter: Merwe weights, sigma points and the measurement update. */
module Ukf {
  import opened Matrices
  import opened EkfUpdates

  datatype MerweParams = MerweParams(alpha: real, beta: real, kappa: real)

  function Lambda(n: nat, params: MerweParams): real {
    params.alpha * params.alpha * (n as real + params.kappa) - n as real
  }

  /** n + lambda, the spread of the sigma points. */
  function Spread(n: nat, params: MerweParams): real { n as real + Lambda(n, params) }

  datatype Weights = Weights(mean: seq<real>, cov: seq<real>)

  /** The Merwe weights of 2n + 1 sigma points. */
  predicate Merwe(w: Weights, n: nat, params: MerweParams)
    requires Spread(n, params) != 0.0
  {
    && |w.mean| == |w.cov| == 2 * n + 1
    && w.mean[0] == Lambda(n, params) / Spread(n, params)
    && w.cov[0] == w.mean[0] + (1.0 - params.alpha * params.alpha + params.beta)
    && forall i | 1 <= i <= 2 * n :: w.mean[i] == w.cov[i] == 1.0 / (2.0 * Spread(n, params))
  }

  function Repeated<T>(x: T, k: nat): (s: seq<T>)
    ensures |s| == k && forall i | 0 <= i < k :: s[i] == x
  {
    seq(k, i => x)
  }

  method ComputeWeights(n: nat, params: MerweParams) returns (w: Weights)
    requires Spread(n, params) != 0.0
    ensures Merwe(w, n, params)
  {
    var scaling := params.alpha * params.alpha * (n as real + params.kappa) - n as real;
    var mean := Repeated(0.0, 2 * n + 1);
    var cov := Repeated(0.0, 2 * n + 1);
    mean := mean[0 := scaling / (n as real + scaling)];
    cov := cov[0 := scaling / (n as real + scaling) + (1.0 - params.alpha * params.alpha + params.beta)];
    var each := 1.0 / (2.0 * (n as real + scaling));
    for i := 1 to 2 * n + 1
      invariant |mean| == |cov| == 2 * n + 1
      invariant mean[0] == scaling / (n as real + scaling)
      invariant cov[0] == mean[0] + (1.0 - params.alpha * params.alpha + params.beta)
      invariant forall k | 1 <= k < i :: mean[k] == cov[k] == each
    {
      mean := mean[i := each];
      cov := cov[i := each];
    }
    w := Weights(mean, cov);
  }

  function Total(w: seq<real>, k: nat): real
    requires k <= |w|
  {
    if k == 0 then 0.0 else Total(w, k - 1) + w[k - 1]
  }

  lemma {:induction false} TotalOfEqual(w: seq<real>, k: nat, c: real)
    requires 1 <= k <= |w| && forall i | 1 <= i < |w| :: w[i] == c
    ensures Total(w, k) == w[0] + (k - 1) as real * c
  {
    if k > 1 {
      TotalOfEqual(w, k - 1, c);
      assert (k - 1) as real == (k - 2) as real + 1.0;
    } else {
      assert Total(w, 0) == 0.0;
    }
  }

  /** The mean weights sum to one; the covariance weights sum to one more 1 - alpha^2 + beta. */
  lemma WeightsTotal(w: Weights, n: nat, params: MerweParams)
    requires Spread(n, params) != 0.0 && Merwe(w, n, params)
    ensures Total(w.mean, 2 * n + 1) == 1.0
    ensures Total(w.cov, 2 * n + 1) == 2.0 - params.alpha * params.alpha + params.beta
  {
    var d, scaling := Spread(n, params), Lambda(n, params);
    var c := 1.0 / (2.0 * d);
    TotalOfEqual(w.mean, 2 * n + 1, c);
    TotalOfEqual(w.cov, 2 * n + 1, c);
    assert (2 * n) as real == 2.0 * n as real;
    WeightIdentity(scaling, n as real, d);
  }

  lemma WeightIdentity(scaling: real, n: real, d: real)
    requires d != 0.0 && d == n + scaling
    ensures scaling / d + (2.0 * n) * (1.0 / (2.0 * d)) == 1.0
  {
    assert (2.0 * n) * (1.0 / (2.0 * d)) == n / d;
    assert scaling / d + n / d == (scaling + n) / d;
  }

  // ---- Sigma points ------------------------------------------------------------------------

  /** Point 0 is zero, points 1 to n are the columns of L, points n + 1 to 2n their negations. */
  predicate SigmaPoints(points: seq<Matrix>, l: Matrix) {
    var n := l.rows;
    && l.cols == n && |points| == 2 * n + 1
    && points[0] == Zero(n, 1)
    && (forall i | 0 <= i < n :: points[1 + i] == ColumnOf(l, i))
    && (forall i | 0 <= i < n :: points[1 + n + i] == Scale(-1.0, ColumnOf(l, i)))
  }

  /** l stands for the Cholesky factor of (n + lambda) P. */
  method GenerateSigmaPoints(l: Matrix) returns (points: seq<Matrix>)
    requires l.rows == l.cols
    ensures SigmaPoints(points, l)
  {
    var n := l.rows;
    points := Repeated(Zero(n, 1), 2 * n + 1);
    for i := 0 to n
      invariant |points| == 2 * n + 1 && points[0] == Zero(n, 1)
      invariant forall k | 0 <= k < i :: points[1 + k] == ColumnOf(l, k)
      invariant forall k | 0 <= k < i :: points[1 + n + k] == Scale(-1.0, ColumnOf(l, k))
    {
      points := points[i + 1 := ColumnOf(l, i)];
      points := points[i + 1 + n := Scale(-1.0, ColumnOf(l, i))];
    }
  }

  predicate AllColumns(v: seq<Matrix>, rows: nat) {
    forall i | 0 <= i < |v| :: v[i].rows == rows && v[i].cols == 1
  }

  /** The weighted sum of the first k vectors. */
  function WeightedSum(w: seq<real>, v: seq<Matrix>, rows: nat, k: nat): (sum: Matrix)
    requires k <= |w| == |v| && AllColumns(v, rows)
    ensures sum.rows == rows && sum.cols == 1
  {
    if k == 0 then Zero(rows, 1) else Add(WeightedSum(w, v, rows, k - 1), Scale(w[k - 1], v[k - 1]))
  }

  /** The weighted sum of the first k products a b^T. */
  function Moment(w: seq<real>, a: seq<Matrix>, b: seq<Matrix>, rows: nat, cols: nat, k: nat): (sum: Matrix)
    requires k <= |w| == |a| == |b| && AllColumns(a, rows) && AllColumns(b, cols)
    ensures sum.rows == rows && sum.cols == cols
  {
    if k == 0 then
      Zero(rows, cols)
    else
      Add(Moment(w, a, b, rows, cols, k - 1), Mul(Scale(w[k - 1], a[k - 1]), Transpose(b[k - 1])))
  }

  // ---- The measurement update ----------------------------------------------------------------

  function Predictions(points: seq<Matrix>, x: Matrix, predict: Matrix -> Matrix): (z: seq<Matrix>)
    requires AllColumns(points, x.rows) && x.cols == 1
    ensures |z| == |points|
  {
    seq(|points|, i requires 0 <= i < |points| => Prediction(points[i], x, predict))
  }

  function Prediction(point: Matrix, x: Matrix, predict: Matrix -> Matrix): Matrix
    requires point.rows == x.rows && point.cols == x.cols
  {
    predict(Add(x, point))
  }

  function Deviations(z: seq<Matrix>, mean: Matrix): (dz: seq<Matrix>)
    requires AllColumns(z, mean.rows) && mean.cols == 1
    ensures |dz| == |z| && AllColumns(dz, mean.rows)
  {
    seq(|z|, i requires 0 <= i < |z| => Sub(z[i], mean))
  }

  /** The quantities of one unscented update over additive states. */
  datatype Unscented = Unscented(mean: Matrix, s: Matrix, cross: Matrix)

  function Transform(w: Weights, points: seq<Matrix>, z: seq<Matrix>, r: Matrix, n: nat): (u: Unscented)
    requires |w.mean| == |w.cov| == |points| == |z| && r.rows == r.cols
    requires AllColumns(points, n) && AllColumns(z, r.rows)
    ensures u.mean.rows == r.rows && u.mean.cols == 1 && Square(u.s, r.rows)
    ensures u.cross.rows == n && u.cross.cols == r.rows
  {
    var m, count := r.rows, |points|;
    var mean := WeightedSum(w.mean, z, m, count);
    var dz := Deviations(z, mean);
    Unscented(mean, Add(r, Moment(w.cov, dz, dz, m, m, count)), Moment(w.cov, points, dz, n, m, count))
  }

  /** K = (S^-1 Pxz^T)^T, the correction K (z - mean) and P - K S K^T, symmetrised. */
  function UnscentedUpdate(u: Unscented, x: Matrix, p: Matrix, z: Matrix, sInverse: Matrix): Estimate
    requires Square(p, x.rows) && x.cols == 1
    requires u.cross.rows == x.rows && u.cross.cols == u.mean.rows && u.mean.cols == 1
    requires Square(u.s, u.mean.rows) && Square(sInverse, u.mean.rows) && z.rows == u.mean.rows && z.cols == 1
  {
    var k := Transpose(Mul(sInverse, Transpose(u.cross)));
    Estimate(Add(x, Mul(k, Sub(z, u.mean))), Symmetrize(Sub(p, Mul(Mul(k, u.s), Transpose(k)))))
  }

  /** The loops of ApplyMeasurementModel. */
  method ApplyMeasurement(w: Weights, points: seq<Matrix>, x: Matrix, p: Matrix, predict: Matrix -> Matrix,
                          z: Matrix, r: Matrix, sInverse: Matrix)
    returns (after: Estimate)
    requires Square(p, x.rows) && x.cols == 1 && |w.mean| == |w.cov| == |points|
    requires AllColumns(points, x.rows) && r.rows == r.cols == z.rows && z.cols == 1
    requires AllColumns(Predictions(points, x, predict), r.rows) && Square(sInverse, r.rows)
    ensures after == UnscentedUpdate(Transform(w, points, Predictions(points, x, predict), r, x.rows),
                                     x, p, z, sInverse)
  {
    hide Mul, Add, Scale, Sub, Transpose, Zero, Symmetrize;
    var m, n, count := r.rows, x.rows, |points|;
    ghost var zs := Predictions(points, x, predict);
    var columns: seq<Matrix> := [];
    for i := 0 to count
      invariant columns == zs[..i]
    {
      columns := columns + [predict(Add(x, points[i]))];
    }
    var mean := Zero(m, 1);
    for i := 0 to count
      invariant mean == WeightedSum(w.mean, zs, m, i)
    {
      mean := Add(mean, Scale(w.mean[i], columns[i]));
    }
    var s, cross := r, Zero(n, m);
    ghost var dzs := Deviations(zs, mean);
    AddZero(r);
    for i := 0 to count
      invariant s == Add(r, Moment(w.cov, dzs, dzs, m, m, i))
      invariant cross == Moment(w.cov, points, dzs, n, m, i)
    {
      var dz := Sub(columns[i], mean);
      AddAssoc(r, Moment(w.cov, dzs, dzs, m, m, i), Mul(Scale(w.cov[i], dz), Transpose(dz)));
      s := Add(s, Mul(Scale(w.cov[i], dz), Transpose(dz)));
      cross := Add(cross, Mul(Scale(w.cov[i], points[i]), Transpose(dz)));
    }
    var k := Transpose(Mul(sInverse, Transpose(cross)));
    var x1 := Add(x, Mul(k, Sub(z, mean)));
    var p1 := Sub(p, Mul(Mul(k, s), Transpose(k)));
    after := Estimate(x1, Symmetrize(p1));
  }

  // ---- The prediction ------------------------------------------------------------------------

  /** The weighted mean of the propagated points, and their weighted covariance plus the process noise. */
  function UnscentedPrediction(w: Weights, y: seq<Matrix>, noise: Matrix): Estimate
    requires |w.mean| == |w.cov| == |y| && noise.rows == noise.cols && AllColumns(y, noise.rows)
  {
    var n, count := noise.rows, |y|;
    var mean := WeightedSum(w.mean, y, n, count);
    var dy := Deviations(y, mean);
    Estimate(mean, Symmetrize(Add(Moment(w.cov, dy, dy, n, n, count), noise)))
  }

  /** The loops of PropagateImu over additive states; propagate is one step of the motion. */
  method PropagatePoints(w: Weights, points: seq<Matrix>, x: Matrix, propagate: Matrix -> Matrix, noise: Matrix)
    returns (after: Estimate)
    requires |w.mean| == |w.cov| == |points| && x.cols == 1 && noise.rows == noise.cols == x.rows
    requires AllColumns(points, x.rows) && AllColumns(Predictions(points, x, propagate), x.rows)
    ensures after == UnscentedPrediction(w, Predictions(points, x, propagate), noise)
  {
    hide Mul, Add, Scale, Sub, Transpose, Zero, Symmetrize;
    var n, count := x.rows, |points|;
    ghost var ys := Predictions(points, x, propagate);
    var propagated: seq<Matrix> := [];
    for i := 0 to count
      invariant propagated == ys[..i]
    {
      propagated := propagated + [propagate(Add(x, points[i]))];
    }
    var mean := Zero(n, 1);
    for i := 0 to count
      invariant mean == WeightedSum(w.mean, ys, n, i)
    {
      mean := Add(mean, Scale(w.mean[i], propagated[i]));
    }
    var covariance := Zero(n, n);
    ghost var dys := Deviations(ys, mean);
    for i := 0 to count
      invariant covariance == Moment(w.cov, dys, dys, n, n, i)
    {
      var dy := Sub(propagated[i], mean);
      covariance := Add(covariance, Mul(Scale(w.cov[i], dy), Transpose(dy)));
    }
    after := Estimate(mean, Symmetrize(Add(covariance, noise)));
  }

  // ---- What the sigma points reproduce ------------------------------------------------------

  lemma PointsAreColumns(points: seq<Matrix>, l: Matrix)
    requires SigmaPoints(points, l)
    ensures AllColumns(points, l.rows)
  {
    var n := l.rows;
    forall i | 0 <= i < |points| ensures points[i].rows == n && points[i].cols == 1 {
      if 1 <= i <= n {
        var k := i - 1;
        assert points[1 + k] == ColumnOf(l, k);
      } else if i > n {
        var k := i - 1 - n;
        assert points[1 + n + k] == Scale(-1.0, ColumnOf(l, k));
      }
    }
  }

  /** Each negated column takes back what its column added. */
  lemma {:induction false} ColumnsCancel(w: seq<real>, points: seq<Matrix>, l: Matrix, c: real, j: nat)
    requires SigmaPoints(points, l) && AllColumns(points, l.rows) && |w| == |points| && j <= l.rows
    requires forall i | 1 <= i < |w| :: w[i] == c
    ensures Add(WeightedSum(w, points, l.rows, 1 + l.rows + j), WeightedSum(w, points, l.rows, 1 + j))
         == WeightedSum(w, points, l.rows, 1 + l.rows)
  {
    hide Add, Scale, Zero, ColumnOf;
    var n := l.rows;
    if j == 0 {
      NoFirstPoint(w, points, l);
      AddZero(WeightedSum(w, points, n, 1 + n));
    } else {
      ColumnsCancel(w, points, l, c, j - 1);
      var a, b := WeightedSum(w, points, n, n + j), WeightedSum(w, points, n, j);
      var column := ColumnOf(l, j - 1);
      assert points[1 + (j - 1)] == column && points[1 + n + (j - 1)] == Scale(-1.0, column);
      CancelPair(a, b, c, column);
    }
  }

  lemma NoFirstPoint(w: seq<real>, points: seq<Matrix>, l: Matrix)
    requires SigmaPoints(points, l) && AllColumns(points, l.rows) && |w| == |points|
    ensures WeightedSum(w, points, l.rows, 1) == Zero(l.rows, 1)
  {
    var zero := Zero(l.rows, 1);
    assert WeightedSum(w, points, l.rows, 1) == Add(WeightedSum(w, points, l.rows, 0), Scale(w[0], points[0]));
    SameEntries(Add(zero, Scale(w[0], zero)), zero);
  }

  lemma CancelPair(a: Matrix, b: Matrix, c: real, v: Matrix)
    requires a.rows == b.rows == v.rows && a.cols == b.cols == v.cols
    ensures Add(Add(a, Scale(c, Scale(-1.0, v))), Add(b, Scale(c, v))) == Add(a, b)
  {
    SameEntries(Add(Add(a, Scale(c, Scale(-1.0, v))), Add(b, Scale(c, v))), Add(a, b));
  }

  /** The weighted mean of the sigma points is zero. */
  lemma SigmaMean(w: seq<real>, points: seq<Matrix>, l: Matrix, c: real)
    requires SigmaPoints(points, l) && |w| == |points|
    requires forall i | 1 <= i < |w| :: w[i] == c
    ensures AllColumns(points, l.rows)
    ensures WeightedSum(w, points, l.rows, |points|) == Zero(l.rows, 1)
  {
    hide Add, Zero, Scale, Sub, WeightedSum;
    var n := l.rows;
    PointsAreColumns(points, l);
    ColumnsCancel(w, points, l, c, n);
    var all, half := WeightedSum(w, points, n, 2 * n + 1), WeightedSum(w, points, n, n + 1);
    SubCancels(all, half);
    SubSelf(half);
  }

  /** The sum of the first k outer products of the columns of l. */
  function Outer(l: Matrix, k: nat): (m: Matrix)
    ensures Square(m, l.rows)
  {
    if k == 0 then
      Zero(l.rows, l.rows)
    else
      Add(Outer(l, k - 1), Mul(ColumnOf(l, k - 1), Transpose(ColumnOf(l, k - 1))))
  }

  lemma {:induction false} OuterEntries(l: Matrix, k: nat, i: int, j: int)
    requires k <= l.cols && 0 <= i < l.rows && 0 <= j < l.rows
    ensures At(Outer(l, k), i, j) == Dot(l, Transpose(l), i, j, k)
  {
    hide Outer, Transpose, At;
    if k == 0 {
      NoOuter(l, i, j);
    } else {
      OuterEntries(l, k - 1, i, j);
      OuterStep(l, k, i, j);
    }
  }

  lemma NoOuter(l: Matrix, i: int, j: int)
    requires 0 <= i < l.rows && 0 <= j < l.rows
    ensures At(Outer(l, 0), i, j) == 0.0
  {
  }

  lemma ColumnEntry(l: Matrix, k: nat, i: nat)
    requires k < l.cols && i < l.rows
    ensures At(ColumnOf(l, k), i, 0) == At(l, i, k) == At(Transpose(l), k, i)
  {
  }

  lemma SumEntry(a: Matrix, b: Matrix, i: nat, j: nat)
    requires a.rows == b.rows && a.cols == b.cols && i < a.rows && j < a.cols
    ensures At(Add(a, b), i, j) == At(a, i, j) + At(b, i, j)
  {
  }

  lemma OuterStep(l: Matrix, k: nat, i: int, j: int)
    requires 0 < k <= l.cols && 0 <= i < l.rows && 0 <= j < l.rows
    ensures At(Outer(l, k), i, j) == At(Outer(l, k - 1), i, j) + At(l, i, k - 1) * At(Transpose(l), k - 1, j)
  {
    hide Mul, Add, At, Transpose, ColumnOf;
    var v := ColumnOf(l, k - 1);
    OuterAt(v, i, j);
    ColumnEntry(l, k - 1, i);
    ColumnEntry(l, k - 1, j);
    SumEntry(Outer(l, k - 1), Mul(v, Transpose(v)), i, j);
  }

  lemma OuterIsProduct(l: Matrix)
    ensures Outer(l, l.cols) == Mul(l, Transpose(l))
  {
    hide Outer, Dot;
    var product := Mul(l, Transpose(l));
    forall i, j | 0 <= i < l.rows && 0 <= j < l.rows ensures At(Outer(l, l.cols), i, j) == At(product, i, j) {
      OuterEntries(l, l.cols, i, j);
    }
    SameEntries(Outer(l, l.cols), product);
  }

  lemma NegatedOuter(c: real, v: Matrix)
    requires v.cols == 1
    ensures Mul(Scale(c, Scale(-1.0, v)), Transpose(Scale(-1.0, v))) == Scale(c, Mul(v, Transpose(v)))
  {
    hide Mul, Scale, Transpose;
    var t := Transpose(v);
    TransposeScale(-1.0, v);
    MulScale(c, Scale(-1.0, v), Scale(-1.0, t));
    MulScale(-1.0, v, Scale(-1.0, t));
    MulScale(-1.0, v, t);
    NegateTwice(Mul(v, t));
  }

  lemma NegateTwice(m: Matrix)
    ensures Scale(-1.0, Scale(-1.0, m)) == m
  {
    SameEntries(Scale(-1.0, Scale(-1.0, m)), m);
  }

  lemma NoFirstMoment(w: seq<real>, points: seq<Matrix>, l: Matrix)
    requires SigmaPoints(points, l) && AllColumns(points, l.rows) && |w| == |points|
    ensures Moment(w, points, points, l.rows, l.rows, 1) == Zero(l.rows, l.rows)
  {
    var n := l.rows;
    var zero := Zero(n, 1);
    assert Moment(w, points, points, n, n, 1)
        == Add(Moment(w, points, points, n, n, 0), Mul(Scale(w[0], points[0]), Transpose(points[0])));
    SameEntries(Scale(w[0], zero), zero);
    forall i, j | 0 <= i < n && 0 <= j < n
      ensures At(Mul(zero, Transpose(zero)), i, j) == 0.0
    {
      OuterAt(zero, i, j);
    }
    SameEntries(Add(Zero(n, n), Mul(zero, Transpose(zero))), Zero(n, n));
  }

  lemma {:induction false} FirstMoments(w: seq<real>, points: seq<Matrix>, l: Matrix, c: real, j: nat)
    requires SigmaPoints(points, l) && AllColumns(points, l.rows) && |w| == |points| && j <= l.rows
    requires forall i | 1 <= i < |w| :: w[i] == c
    ensures Moment(w, points, points, l.rows, l.rows, 1 + j) == Scale(c, Outer(l, j))
  {
    hide Mul, Scale, Add, Zero, ColumnOf, Transpose;
    var n := l.rows;
    if j == 0 {
      NoFirstMoment(w, points, l);
      ScaleOfZero(c, n, n);
    } else {
      FirstMoments(w, points, l, c, j - 1);
      var column := ColumnOf(l, j - 1);
      assert points[1 + (j - 1)] == column;
      MulScale(c, column, Transpose(column));
      ScaleAdd(c, Outer(l, j - 1), Mul(column, Transpose(column)));
    }
  }

  lemma {:induction false} SecondMoments(w: seq<real>, points: seq<Matrix>, l: Matrix, c: real, j: nat)
    requires SigmaPoints(points, l) && AllColumns(points, l.rows) && |w| == |points| && j <= l.rows
    requires forall i | 1 <= i < |w| :: w[i] == c
    ensures Moment(w, points, points, l.rows, l.rows, 1 + l.rows + j)
         == Scale(c, Add(Outer(l, l.rows), Outer(l, j)))
  {
    hide Mul, Scale, Add, Zero, ColumnOf, Transpose;
    var n := l.rows;
    FirstMoments(w, points, l, c, n);
    if j == 0 {
      AddZero(Outer(l, n));
    } else {
      SecondMoments(w, points, l, c, j - 1);
      var column := ColumnOf(l, j - 1);
      assert points[1 + n + (j - 1)] == Scale(-1.0, column);
      NegatedOuter(c, column);
      var square := Mul(column, Transpose(column));
      AddAssoc(Outer(l, n), Outer(l, j - 1), square);
      ScaleAdd(c, Add(Outer(l, n), Outer(l, j - 1)), square);
    }
  }

  /** With L L^T = (n + lambda) P the covariance weights reproduce P. */
  lemma SigmaCovariance(w: Weights, points: seq<Matrix>, l: Matrix, p: Matrix, params: MerweParams)
    requires Spread(l.rows, params) > 0.0 && Merwe(w, l.rows, params) && SigmaPoints(points, l)
    requires Square(p, l.rows) && Mul(l, Transpose(l)) == Scale(Spread(l.rows, params), p)
    ensures AllColumns(points, l.rows)
    ensures Moment(w.cov, points, points, l.rows, l.rows, |points|) == p
  {
    var n, d := l.rows, Spread(l.rows, params);
    var c := 1.0 / (2.0 * d);
    PointsAreColumns(points, l);
    SecondMoments(w.cov, points, l, c, n);
    OuterIsProduct(l);
    Halves(c, d, p);
  }

  lemma Halves(c: real, d: real, p: Matrix)
    requires d > 0.0 && c == 1.0 / (2.0 * d)
    ensures Scale(c, Add(Scale(d, p), Scale(d, p))) == p
  {
    assert c * d == 0.5;
    forall i, j | 0 <= i < p.rows && 0 <= j < p.cols
      ensures At(Scale(c, Add(Scale(d, p), Scale(d, p))), i, j) == At(p, i, j)
    {
      var x := At(p, i, j);
      assert c * (d * x + d * x) == (c * d) * (2.0 * x);
    }
    SameEntries(Scale(c, Add(Scale(d, p), Scale(d, p))), p);
  }

  // ---- Affine measurements: the unscented update is the Kalman update -------------------------

  /** predict(s) = H s + c for every state s. */
  ghost predicate Affine(predict: Matrix -> Matrix, h: Matrix, c: Matrix) {
    h.rows == c.rows && c.cols == 1
    && forall s: Matrix {:trigger predict(s)} | s.rows == h.cols && s.cols == 1 :: predict(s) == Add(Mul(h, s), c)
  }

  lemma AffinePredictions(points: seq<Matrix>, x: Matrix, predict: Matrix -> Matrix, h: Matrix, c: Matrix)
    requires Affine(predict, h, c) && x.rows == h.cols && x.cols == 1 && AllColumns(points, x.rows)
    ensures predict(x).rows == h.rows && predict(x).cols == 1
    ensures AllColumns(Predictions(points, x, predict), h.rows)
    ensures forall i | 0 <= i < |points| ::
      Predictions(points, x, predict)[i] == Add(predict(x), Mul(h, points[i]))
  {
    hide Mul, Add;
    forall i | 0 <= i < |points|
      ensures Predictions(points, x, predict)[i] == Add(predict(x), Mul(h, points[i]))
    {
      var s := Add(x, points[i]);
      assert predict(s) == Add(Mul(h, s), c);
      MulAddRight(h, x, points[i]);
      AddAssoc(Mul(h, x), Mul(h, points[i]), c);
      AddAssoc(Mul(h, points[i]), c, c);
      AddAssoc(Mul(h, x), c, Mul(h, points[i]));
    }
  }

  lemma {:induction false} AffineMean(w: seq<real>, points: seq<Matrix>, z: seq<Matrix>, z0: Matrix, h: Matrix, k: nat)
    requires k <= |w| == |points| == |z| && AllColumns(points, h.cols) && AllColumns(z, h.rows)
    requires z0.rows == h.rows && z0.cols == 1
    requires forall i | 0 <= i < |z| :: z[i] == Add(z0, Mul(h, points[i]))
    ensures WeightedSum(w, z, h.rows, k) == Add(Scale(Total(w, k), z0), Mul(h, WeightedSum(w, points, h.cols, k)))
  {
    hide Mul, Add, Scale, Zero;
    if k == 0 {
      MulZero(h);
      ScaleZero(z0);
      AddZero(Zero(h.rows, 1));
    } else {
      AffineMean(w, points, z, z0, h, k - 1);
      var t, a := Total(w, k - 1), w[k - 1];
      var v := WeightedSum(w, points, h.cols, k - 1);
      var hv, hp := Mul(h, v), Mul(h, points[k - 1]);
      ScaleAdd(a, z0, hp);
      MulScale(a, h, points[k - 1]);
      MulAddRight(h, v, Scale(a, points[k - 1]));
      Regroup(t, a, z0, hv, Scale(a, hp));
    }
  }

  lemma MulZero(h: Matrix)
    ensures Mul(h, Zero(h.cols, 1)) == Zero(h.rows, 1)
  {
    var zero := Zero(h.cols, 1);
    ScaleOfZero(0.0, h.cols, 1);
    MulScale(0.0, h, zero);
    ScaleZero(Mul(h, zero));
  }

  lemma Regroup(t: real, a: real, z: Matrix, u: Matrix, v: Matrix)
    requires z.rows == u.rows == v.rows && z.cols == u.cols == v.cols
    ensures Add(Add(Scale(t, z), u), Add(Scale(a, z), v)) == Add(Scale(t + a, z), Add(u, v))
  {
    SameEntries(Add(Add(Scale(t, z), u), Add(Scale(a, z), v)), Add(Scale(t + a, z), Add(u, v)));
  }

  /** Images of the points under h. */
  predicate Images(d: seq<Matrix>, points: seq<Matrix>, h: Matrix)
    requires AllColumns(points, h.cols)
  {
    |d| == |points| && forall i | 0 <= i < |d| :: d[i] == Mul(h, points[i])
  }

  /** sum w a (H p)^T = (sum w a p^T) H^T. */
  lemma {:induction false} MomentRight(w: seq<real>, a: seq<Matrix>, points: seq<Matrix>, d: seq<Matrix>,
                                       n: nat, h: Matrix, k: nat)
    requires k <= |w| == |a| == |points| && AllColumns(a, n) && AllColumns(points, h.cols)
    requires Images(d, points, h) && AllColumns(d, h.rows)
    ensures Moment(w, a, d, n, h.rows, k) == Mul(Moment(w, a, points, n, h.cols, k), Transpose(h))
  {
    hide Mul, Add, Scale, Zero, Transpose;
    var ht := Transpose(h);
    if k == 0 {
      ZeroMul(n, ht);
    } else {
      MomentRight(w, a, points, d, n, h, k - 1);
      var wa, pt := Scale(w[k - 1], a[k - 1]), Transpose(points[k - 1]);
      TransposeMul(h, points[k - 1]);
      MulAssoc(wa, pt, ht);
      MulAddLeft(Moment(w, a, points, n, h.cols, k - 1), Mul(wa, pt), ht);
    }
  }

  /** sum w (H p) b^T = H (sum w p b^T). */
  lemma {:induction false} MomentLeft(w: seq<real>, points: seq<Matrix>, d: seq<Matrix>, b: seq<Matrix>,
                                      n: nat, h: Matrix, k: nat)
    requires k <= |w| == |b| == |points| && AllColumns(b, n) && AllColumns(points, h.cols)
    requires Images(d, points, h) && AllColumns(d, h.rows)
    ensures Moment(w, d, b, h.rows, n, k) == Mul(h, Moment(w, points, b, h.cols, n, k))
  {
    hide Mul, Add, Scale, Zero, Transpose;
    if k == 0 {
      MulZeroMatrix(h, n);
    } else {
      MomentLeft(w, points, d, b, n, h, k - 1);
      var p, bt := points[k - 1], Transpose(b[k - 1]);
      MulScale(w[k - 1], h, p);
      MulAssoc(h, Scale(w[k - 1], p), bt);
      MulAddRight(h, Moment(w, points, b, h.cols, n, k - 1), Mul(Scale(w[k - 1], p), bt));
    }
  }

  lemma AffineMeanIsCentre(w: seq<real>, weight: real, points: seq<Matrix>, l: Matrix, z: seq<Matrix>, z0: Matrix,
                           h: Matrix)
    requires SigmaPoints(points, l) && |w| == |points| && Total(w, |w|) == 1.0
    requires forall i | 1 <= i < |w| :: w[i] == weight
    requires h.cols == l.rows && AllColumns(points, h.cols) && AllColumns(z, h.rows) && |z| == |points|
    requires z0.rows == h.rows && z0.cols == 1
    requires forall i | 0 <= i < |z| :: z[i] == Add(z0, Mul(h, points[i]))
    ensures WeightedSum(w, z, h.rows, |points|) == z0
  {
    hide Mul, Add, Scale, Zero, WeightedSum;
    SigmaMean(w, points, l, weight);
    AffineMean(w, points, z, z0, h, |points|);
    MulZero(h);
    ScaleOne(z0);
    AddZero(z0);
  }

  lemma AffineDeviations(points: seq<Matrix>, z: seq<Matrix>, z0: Matrix, h: Matrix)
    requires AllColumns(points, h.cols) && AllColumns(z, h.rows) && |z| == |points|
    requires z0.rows == h.rows && z0.cols == 1
    requires forall i | 0 <= i < |z| :: z[i] == Add(z0, Mul(h, points[i]))
    ensures Images(Deviations(z, z0), points, h)
  {
    hide Mul, Add, Sub;
    forall i | 0 <= i < |z| ensures Deviations(z, z0)[i] == Mul(h, points[i]) {
      var hp := Mul(h, points[i]);
      AddAssoc(z0, hp, z0);
      SubCancels(hp, z0);
    }
  }

  /** For an affine measurement the transform yields predict(x), H P H^T + R and P H^T. */
  lemma AffineTransform(w: Weights, points: seq<Matrix>, l: Matrix, x: Matrix, p: Matrix, r: Matrix,
                        predict: Matrix -> Matrix, h: Matrix, c: Matrix, params: MerweParams)
    requires Spread(l.rows, params) > 0.0 && Merwe(w, l.rows, params) && SigmaPoints(points, l)
    requires Square(p, l.rows) && Mul(l, Transpose(l)) == Scale(Spread(l.rows, params), p)
    requires Affine(predict, h, c) && x.rows == h.cols == l.rows && x.cols == 1 && Square(r, h.rows)
    ensures AllColumns(points, x.rows) && AllColumns(Predictions(points, x, predict), r.rows)
    ensures predict(x).rows == h.rows && predict(x).cols == 1
    ensures Transform(w, points, Predictions(points, x, predict), r, x.rows)
         == Unscented(predict(x), InnovationCovariance(p, h, r), Mul(p, Transpose(h)))
  {
    hide Mul, Add, Scale, Zero, Transpose, Sub, Moment, WeightedSum;
    var n, m, count := l.rows, h.rows, |points|;
    PointsAreColumns(points, l);
    AffinePredictions(points, x, predict, h, c);
    var z, z0 := Predictions(points, x, predict), predict(x);
    WeightsTotal(w, n, params);
    AffineMeanIsCentre(w.mean, 1.0 / (2.0 * Spread(n, params)), points, l, z, z0, h);
    AffineDeviations(points, z, z0, h);
    var d := Deviations(z, z0);
    SigmaCovariance(w, points, l, p, params);
    hide Affine, Merwe, SigmaPoints, Predictions, Deviations, Images, Spread;
    MomentRight(w.cov, points, points, d, n, h, count);
    MomentLeft(w.cov, points, d, d, m, h, count);
    AddAssoc(r, Mul(h, Mul(p, Transpose(h))), r);
  }

  /** On an affine measurement the unscented update returns exactly what EkfUpdate computes with its
      gate off from a zero error state: the same correction and the same covariance. */
  lemma UnscentedIsKalman(w: Weights, points: seq<Matrix>, l: Matrix, x: Matrix, p: Matrix, z: Matrix, r: Matrix,
                          predict: Matrix -> Matrix, h: Matrix, c: Matrix, sInverse: Matrix, params: MerweParams)
    requires Spread(l.rows, params) > 0.0 && Merwe(w, l.rows, params) && SigmaPoints(points, l)
    requires Square(p, l.rows) && Symmetric(p) && Mul(l, Transpose(l)) == Scale(Spread(l.rows, params), p)
    requires Affine(predict, h, c) && x.rows == h.cols == l.rows && x.cols == 1
    requires Square(r, h.rows) && Symmetric(r) && z.rows == h.rows && z.cols == 1
    requires Inverse(InnovationCovariance(p, h, r), sInverse)
    ensures AllColumns(points, x.rows) && AllColumns(Predictions(points, x, predict), r.rows)
    ensures predict(x).rows == h.rows && predict(x).cols == 1
    ensures var u := Transform(w, points, Predictions(points, x, predict), r, x.rows);
            var unscented := UnscentedUpdate(u, x, p, z, sInverse);
            var m := Measurement(h, Sub(z, predict(x)), r, sInverse);
            var kalman := Updated(Estimate(Zero(x.rows, 1), p), m, 0.0);
            unscented == Estimate(Add(x, kalman.error), kalman.covariance)
  {
    hide Mul, Add, Scale, Zero, Transpose, Sub, Moment, WeightedSum, Transform, Symmetric;
    AffineTransform(w, points, l, x, p, r, predict, h, c, params);
    var s, pht, k := InnovationCovariance(p, h, r), Mul(p, Transpose(h)), Gain(p, h, sInverse);
    // (S^-1 Pxz^T)^T = Pxz S^-1
    InnovationSymmetric(p, h, r);
    InverseSymmetric(s, sInverse);
    TransposeMul(sInverse, Transpose(pht));
    TransposeTwice(pht);
    GainIsOptimal(p, h, r, sInverse);
    JosephWithOptimalGain(p, k, h, r);
    DifferenceSymmetric(p, k, h, r);
    AddZero(Mul(k, Sub(z, predict(x))));
  }

  lemma PredictionIsTransform(w: Weights, points: seq<Matrix>, y: seq<Matrix>, noise: Matrix, n: nat)
    requires |w.mean| == |w.cov| == |points| == |y| && noise.rows == noise.cols
    requires AllColumns(points, n) && AllColumns(y, noise.rows)
    ensures var u := Transform(w, points, y, noise, n);
            UnscentedPrediction(w, y, noise) == Estimate(u.mean, Symmetrize(u.s))
  {
    hide Mul, Add, Scale, Zero, Transpose, Sub, Moment, WeightedSum, Symmetrize;
    var m, count := noise.rows, |y|;
    var dy := Deviations(y, WeightedSum(w.mean, y, m, count));
    AddAssoc(noise, Moment(w.cov, dy, dy, m, m, count), noise);
  }

  lemma PropagatedIs(p: Matrix, f: Matrix, noise: Matrix)
    requires Square(p, f.rows) && Square(f, f.rows) && Square(noise, f.rows)
    ensures Symmetrize(InnovationCovariance(p, f, noise)) == Propagated(p, f, noise)
  {
    hide Mul, Add, Transpose, Symmetrize;
    MulAssoc(f, p, Transpose(f));
  }

  /** For affine motion the unscented prediction is the Kalman one: the mean moves along, and F P F^T + Q. */
  lemma UnscentedPredictionIsKalman(w: Weights, points: seq<Matrix>, l: Matrix, x: Matrix, p: Matrix, noise: Matrix,
                                    propagate: Matrix -> Matrix, f: Matrix, c: Matrix, params: MerweParams)
    requires Spread(l.rows, params) > 0.0 && Merwe(w, l.rows, params) && SigmaPoints(points, l)
    requires Square(p, l.rows) && Mul(l, Transpose(l)) == Scale(Spread(l.rows, params), p)
    requires Affine(propagate, f, c) && x.rows == f.cols == l.rows && x.cols == 1
    requires Square(noise, f.rows) && f.rows == f.cols
    ensures AllColumns(points, x.rows) && AllColumns(Predictions(points, x, propagate), noise.rows)
    ensures propagate(x).rows == x.rows && propagate(x).cols == 1
    ensures UnscentedPrediction(w, Predictions(points, x, propagate), noise)
         == Estimate(propagate(x), Propagated(p, f, noise))
  {
    hide Mul, Add, Scale, Zero, Transpose, Sub, Moment, WeightedSum, Transform, UnscentedPrediction, Deviations;
    hide InnovationCovariance, Propagated, Symmetrize;
    AffineTransform(w, points, l, x, p, noise, propagate, f, c, params);
    PredictionIsTransform(w, points, Predictions(points, x, propagate), noise, x.rows);
    PropagatedIs(p, f, noise);
  }

  lemma InverseSymmetric(a: Matrix, b: Matrix)
    requires Symmetric(a) && Inverse(a, b)
    ensures Transpose(b) == b
  {
    InformationSymmetric(a, b);
  }

  lemma DifferenceSymmetric(p: Matrix, k: Matrix, h: Matrix, r: Matrix)
    requires Shapes(p, h, r) && Symmetric(p) && Symmetric(r) && k.rows == p.rows && k.cols == h.rows
    ensures var s := InnovationCovariance(p, h, r);
            Symmetrize(Sub(p, Mul(Mul(k, s), Transpose(k)))) == Sub(p, Mul(Mul(k, s), Transpose(k)))
  {
    hide Mul, Sub;
    var s, kt := InnovationCovariance(p, h, r), Transpose(k);
    InnovationSymmetric(p, h, r);
    TransposeMul(k, s);
    TransposeMul(Mul(k, s), kt);
    TransposeTwice(k);
    MulAssoc(k, s, kt);
    TransposeAdd(p, Mul(Mul(k, s), kt));
    SymmetrizeKeeps(Sub(p, Mul(Mul(k, s), kt)));
  }
}
