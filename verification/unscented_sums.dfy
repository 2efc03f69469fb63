/** The unscented transform of any measurement or motion, entry by entry over all sigma points. */
module UnscentedSums {
  import opened EkfUpdates
  import opened Matrices
  import opened Ukf

  // ---- Entries as sums over the points -----------------------------------------------------

  /** Row i of each vector. */
  function Coordinate(v: seq<Matrix>, i: nat): (u: seq<real>)
    ensures |u| == |v| && forall k | 0 <= k < |v| :: u[k] == At(v[k], i, 0)
  {
    seq(|v|, k requires 0 <= k < |v| => At(v[k], i, 0))
  }

  function Product(a: real, b: real): real { a * b }

  /** w u v, place by place. */
  function Products(w: seq<real>, u: seq<real>, v: seq<real>): (p: seq<real>)
    requires |w| == |u| == |v|
    ensures |p| == |w| && forall k | 0 <= k < |w| :: p[k] == Product(w[k], Product(u[k], v[k]))
  {
    seq(|w|, k requires 0 <= k < |w| => Product(w[k], Product(u[k], v[k])))
  }

  function Weighed(w: seq<real>, u: seq<real>): (p: seq<real>)
    requires |w| == |u|
    ensures |p| == |w| && forall k | 0 <= k < |w| :: p[k] == Product(w[k], u[k])
  {
    seq(|w|, k requires 0 <= k < |w| => Product(w[k], u[k]))
  }

  /** u - a in every place. */
  function Less(u: seq<real>, a: real): (d: seq<real>)
    ensures |d| == |u| && forall k | 0 <= k < |u| :: d[k] == u[k] - a
  {
    seq(|u|, k requires 0 <= k < |u| => u[k] - a)
  }

  function Sum(u: seq<real>): real { Total(u, |u|) }

  /** The sum of w (u - a) (v - b). */
  function Spreads(w: seq<real>, u: seq<real>, v: seq<real>, a: real, b: real): real
    requires |w| == |u| == |v|
  {
    Sum(Products(w, Less(u, a), Less(v, b)))
  }

  lemma NothingAt(rows: nat, cols: nat, i: nat, j: nat)
    ensures At(Zero(rows, cols), i, j) == 0.0
  {
  }

  lemma {:induction false} WeightedSumEntry(w: seq<real>, v: seq<Matrix>, rows: nat, k: nat, i: nat)
    requires k <= |w| == |v| && AllColumns(v, rows) && i < rows
    ensures At(WeightedSum(w, v, rows, k), i, 0) == Total(Weighed(w, Coordinate(v, i)), k)
  {
    hide Add, Scale, At, Coordinate, Weighed;
    if k == 0 {
      NothingAt(rows, 1, i, 0);
    } else {
      WeightedSumEntry(w, v, rows, k - 1, i);
      ScaleAt(w[k - 1], v[k - 1], i, 0);
      SumEntry(WeightedSum(w, v, rows, k - 1), Scale(w[k - 1], v[k - 1]), i, 0);
    }
  }

  lemma OuterEntry(c: real, a: Matrix, b: Matrix, i: nat, j: nat)
    requires a.cols == b.cols == 1 && i < a.rows && j < b.rows
    ensures At(Mul(Scale(c, a), Transpose(b)), i, j) == Product(c, Product(At(a, i, 0), At(b, j, 0)))
  {
    var ca, t := Scale(c, a), Transpose(b);
    assert Dot(ca, t, i, j, 1) == Dot(ca, t, i, j, 0) + At(ca, i, 0) * At(t, 0, j);
    ScaleAt(c, a, i, 0);
    Reassociate(c, At(a, i, 0), At(b, j, 0));
  }

  lemma Reassociate(c: real, x: real, y: real)
    ensures (c * x) * y == Product(c, Product(x, y))
  {
  }

  lemma {:induction false} MomentEntry(w: seq<real>, a: seq<Matrix>, b: seq<Matrix>, rows: nat, cols: nat, k: nat,
                                       i: nat, j: nat)
    requires k <= |w| == |a| == |b| && AllColumns(a, rows) && AllColumns(b, cols) && i < rows && j < cols
    ensures At(Moment(w, a, b, rows, cols, k), i, j) == Total(Products(w, Coordinate(a, i), Coordinate(b, j)), k)
  {
    hide Add, Scale, At, Mul, Transpose, Zero, Products, Coordinate, Product;
    if k == 0 {
      NothingAt(rows, cols, i, j);
    } else {
      MomentEntry(w, a, b, rows, cols, k - 1, i, j);
      OuterEntry(w[k - 1], a[k - 1], b[k - 1], i, j);
      SumEntry(Moment(w, a, b, rows, cols, k - 1), Mul(Scale(w[k - 1], a[k - 1]), Transpose(b[k - 1])), i, j);
    }
  }

  lemma DeviationCoordinates(z: seq<Matrix>, mean: Matrix, i: nat)
    requires AllColumns(z, mean.rows) && mean.cols == 1 && i < mean.rows
    ensures Coordinate(Deviations(z, mean), i) == Less(Coordinate(z, i), At(mean, i, 0))
  {
    forall k | 0 <= k < |z| ensures At(Sub(z[k], mean), i, 0) == At(z[k], i, 0) - At(mean, i, 0) {
    }
  }

  /** For any measurement: the mean sums the predictions of all points with the mean weights. */
  lemma MeanEntry(w: Weights, points: seq<Matrix>, z: seq<Matrix>, r: Matrix, n: nat, j: nat)
    requires |w.mean| == |w.cov| == |points| == |z| && r.rows == r.cols && j < r.rows
    requires AllColumns(points, n) && AllColumns(z, r.rows)
    ensures At(Transform(w, points, z, r, n).mean, j, 0) == Sum(Weighed(w.mean, Coordinate(z, j)))
  {
    hide Moment, WeightedSum, Coordinate, Weighed, Total;
    WeightedSumEntry(w.mean, z, r.rows, |z|, j);
  }

  lemma LessNothing(u: seq<real>)
    ensures Less(u, 0.0) == u
  {
  }

  /** The innovation covariance adds to R the products of all deviations from the mean, with the covariance weights. */
  lemma InnovationEntry(w: Weights, points: seq<Matrix>, z: seq<Matrix>, r: Matrix, n: nat, i: nat, j: nat)
    requires |w.mean| == |w.cov| == |points| == |z| && r.rows == r.cols && i < r.rows && j < r.rows
    requires AllColumns(points, n) && AllColumns(z, r.rows)
    ensures var u := Transform(w, points, z, r, n);
            At(u.s, i, j)
            == At(r, i, j) + Spreads(w.cov, Coordinate(z, i), Coordinate(z, j), At(u.mean, i, 0), At(u.mean, j, 0))
  {
    hide Moment, WeightedSum, Coordinate, Products, Less, Deviations, Total;
    var m, count := r.rows, |points|;
    var mean := WeightedSum(w.mean, z, m, count);
    var dz := Deviations(z, mean);
    DeviationCoordinates(z, mean, i);
    DeviationCoordinates(z, mean, j);
    MomentEntry(w.cov, dz, dz, m, m, count, i, j);
    SumEntry(r, Moment(w.cov, dz, dz, m, m, count), i, j);
  }

  /** The cross covariance sums the products of the points with those deviations. */
  lemma CrossEntry(w: Weights, points: seq<Matrix>, z: seq<Matrix>, r: Matrix, n: nat, i: nat, j: nat)
    requires |w.mean| == |w.cov| == |points| == |z| && r.rows == r.cols && i < n && j < r.rows
    requires AllColumns(points, n) && AllColumns(z, r.rows)
    ensures var u := Transform(w, points, z, r, n);
            At(u.cross, i, j) == Spreads(w.cov, Coordinate(points, i), Coordinate(z, j), 0.0, At(u.mean, j, 0))
  {
    hide Moment, WeightedSum, Coordinate, Products, Less, Deviations, Total;
    var mean := WeightedSum(w.mean, z, r.rows, |points|);
    DeviationCoordinates(z, mean, j);
    MomentEntry(w.cov, points, Deviations(z, mean), n, r.rows, |points|, i, j);
    LessNothing(Coordinate(points, i));
  }

  // ---- What the centre point adds ----------------------------------------------------------

  lemma SquareOut(w: real, u: real, v: real, a: real, b: real)
    ensures Product(w, Product(u - a, v - b))
         == Product(w, Product(u, v)) - Product(b, Product(w, u)) - Product(a, Product(w, v))
            + Product(Product(a, b), w)
  {
    assert (u - a) * (v - b) == u * v - b * u - a * v + a * b;
    assert w * (u * v - b * u - a * v + a * b) == w * (u * v) - w * (b * u) - w * (a * v) + w * (a * b);
    assert w * (b * u) == b * (w * u) && w * (a * v) == a * (w * v);
  }

  lemma SumStep(c: real, x: real, y: real)
    ensures Product(c, x + y) == Product(c, x) + Product(c, y)
    ensures Product(c, x - y) == Product(c, x) - Product(c, y)
  {
  }

  lemma {:induction false} Expanded(w: seq<real>, u: seq<real>, v: seq<real>, a: real, b: real, k: nat)
    requires k <= |w| == |u| == |v|
    ensures Total(Products(w, Less(u, a), Less(v, b)), k)
         == Total(Products(w, u, v), k) - Product(b, Total(Weighed(w, u), k)) - Product(a, Total(Weighed(w, v), k))
            + Product(Product(a, b), Total(w, k))
  {
    if k > 0 {
      Expanded(w, u, v, a, b, k - 1);
      SquareOut(w[k - 1], u[k - 1], v[k - 1], a, b);
      hide Product;
      SumStep(b, Total(Weighed(w, u), k - 1), Product(w[k - 1], u[k - 1]));
      SumStep(a, Total(Weighed(w, v), k - 1), Product(w[k - 1], v[k - 1]));
      SumStep(Product(a, b), Total(w, k - 1), w[k - 1]);
    } else {
      assert Product(b, 0.0) == Product(a, 0.0) == Product(Product(a, b), 0.0) == 0.0;
    }
  }

  /** Two sequences that agree from the second place on have totals that differ as their first places. */
  lemma {:induction false} FirstDiffers(u: seq<real>, v: seq<real>, k: nat)
    requires 1 <= k <= |u| == |v| && forall i | 1 <= i < |u| :: u[i] == v[i]
    ensures Total(u, k) - Total(v, k) == u[0] - v[0]
  {
    if k > 1 {
      FirstDiffers(u, v, k - 1);
    } else {
      assert Total(u, 0) == Total(v, 0) == 0.0;
    }
  }

  /** The mean weights with 0 for the centre point. */
  function WithoutCentre(w: seq<real>): (o: seq<real>)
    requires w != []
  {
    w[0 := 0.0]
  }

  lemma AboutCentre(u: real, v: real, a: real, b: real, x: real, y: real)
    requires y == x - Product(v, u) - Product(u, v) + Product(u, v)
    ensures x - Product(b, u) - Product(a, v) + Product(a, b) == y + Product(u - a, v - b)
  {
  }

  /** With total weight one, products about the mean are products about any a, b less the product of the offsets. */
  lemma AboutMean(m: seq<real>, u: seq<real>, v: seq<real>, a: real, b: real)
    requires |m| == |u| == |v| && Sum(m) == 1.0
    ensures var mu, mv := Sum(Weighed(m, u)), Sum(Weighed(m, v));
            Spreads(m, u, v, a, b) == Spreads(m, u, v, mu, mv) + Product(mu - a, mv - b)
  {
    hide Products, Weighed, Less, Total;
    var n, mu, mv := |m|, Sum(Weighed(m, u)), Sum(Weighed(m, v));
    Expanded(m, u, v, mu, mv, n);
    Expanded(m, u, v, a, b, n);
    assert Product(Product(mu, mv), 1.0) == Product(mu, mv) && Product(Product(a, b), 1.0) == Product(a, b);
    AboutCentre(mu, mv, a, b, Sum(Products(m, u, v)), Sum(Products(m, Less(u, mu), Less(v, mv))));
  }

  /** The covariance weights are the mean weights with extra added for the centre point. */
  lemma CentrePointAdds(m: seq<real>, c: seq<real>, u: seq<real>, v: seq<real>, extra: real)
    requires |m| == |c| == |u| == |v| && m != [] && Sum(m) == 1.0
    requires c[0] == m[0] + extra && forall k | 1 <= k < |c| :: c[k] == m[k]
    ensures var mu, mv := Sum(Weighed(m, u)), Sum(Weighed(m, v));
            Spreads(c, u, v, mu, mv)
            == Spreads(WithoutCentre(m), u, v, u[0], v[0])
               + Product(extra - 1.0, Product(mu - u[0], mv - v[0]))
  {
    var n, mu, mv := |m|, Sum(Weighed(m, u)), Sum(Weighed(m, v));
    var du, dv, eu, ev := Less(u, mu), Less(v, mv), Less(u, u[0]), Less(v, v[0]);
    AboutMean(m, u, v, u[0], v[0]);
    FirstDiffers(Products(c, du, dv), Products(m, du, dv), n);
    FirstDiffers(Products(m, eu, ev), Products(WithoutCentre(m), eu, ev), n);
    assert Products(m, eu, ev)[0] == Product(m[0], Product(0.0, 0.0)) == 0.0;
    assert Products(WithoutCentre(m), eu, ev)[0] == Product(0.0, Product(0.0, 0.0)) == 0.0;
    hide Products, Weighed, Less, Total;
    CentreTerms(m[0], extra, u[0] - mu, v[0] - mv);
  }

  lemma CentreTerms(m: real, extra: real, x: real, y: real)
    ensures Product(m + extra, Product(x, y)) - Product(m, Product(x, y)) - Product(-x, -y)
         == Product(extra - 1.0, Product(-x, -y))
  {
    assert (-x) * (-y) == x * y;
    var p := x * y;
    assert (m + extra) * p - m * p - p == (extra - 1.0) * p;
  }

  /**
   * For any measurement in any dimension: the innovation covariance is R, the products of the other points'
   * deviations from the centre point's prediction, and beta - alpha^2 times the product of the mean's deviation from
   * it.
   */
  lemma CentreOfInnovation(w: Weights, points: seq<Matrix>, z: seq<Matrix>, r: Matrix, n: nat, params: MerweParams,
                           i: nat, j: nat)
    requires Spread(n, params) > 0.0 && Merwe(w, n, params) && |points| == |z| == 2 * n + 1
    requires AllColumns(points, n) && AllColumns(z, r.rows) && r.rows == r.cols && i < r.rows && j < r.rows
    ensures var u, zi, zj := Transform(w, points, z, r, n), Coordinate(z, i), Coordinate(z, j);
            At(u.s, i, j)
            == At(r, i, j) + Spreads(WithoutCentre(w.mean), zi, zj, zi[0], zj[0])
               + Product(params.beta - params.alpha * params.alpha,
                         Product(At(u.mean, i, 0) - zi[0], At(u.mean, j, 0) - zj[0]))
  {
    hide Transform, Coordinate, Weighed, Spreads, Sum, AllColumns, At, WithoutCentre, Product, Merwe, Spread;
    WeightSum(w, n, params);
    MeanEntry(w, points, z, r, n, i);
    MeanEntry(w, points, z, r, n, j);
    InnovationEntry(w, points, z, r, n, i, j);
    CentreWeight(w, n, params, Coordinate(z, i), Coordinate(z, j));
  }

  lemma WeightSum(w: Weights, n: nat, params: MerweParams)
    requires Spread(n, params) > 0.0 && Merwe(w, n, params)
    ensures |w.mean| == |w.cov| == 2 * n + 1 && Sum(w.mean) == 1.0
  {
    WeightsTotal(w, n, params);
  }

  lemma CentreWeight(w: Weights, n: nat, params: MerweParams, u: seq<real>, v: seq<real>)
    requires Spread(n, params) > 0.0 && Merwe(w, n, params) && |u| == |v| == 2 * n + 1 && Sum(w.mean) == 1.0
    ensures var mu, mv := Sum(Weighed(w.mean, u)), Sum(Weighed(w.mean, v));
            Spreads(w.cov, u, v, mu, mv)
            == Spreads(WithoutCentre(w.mean), u, v, u[0], v[0])
               + Product(params.beta - params.alpha * params.alpha, Product(mu - u[0], mv - v[0]))
  {
    hide Lambda, Weighed, Products, Less, Total, WithoutCentre;
    var extra := 1.0 - params.alpha * params.alpha + params.beta;
    CentrePointAdds(w.mean, w.cov, u, v, extra);
    assert extra - 1.0 == params.beta - params.alpha * params.alpha;
  }

  /** The cross covariance pairs the points with the same deviations. */
  lemma CentreOfCross(w: Weights, points: seq<Matrix>, l: Matrix, z: seq<Matrix>, r: Matrix, params: MerweParams,
                      i: nat, j: nat)
    requires Spread(l.rows, params) > 0.0 && Merwe(w, l.rows, params) && SigmaPoints(points, l)
    requires |points| == |z| && AllColumns(z, r.rows) && r.rows == r.cols && i < l.rows && j < r.rows
    ensures AllColumns(points, l.rows)
    ensures var u, zj := Transform(w, points, z, r, l.rows), Coordinate(z, j);
            At(u.cross, i, j) == Spreads(WithoutCentre(w.mean), Coordinate(points, i), zj, 0.0, zj[0])
  {
    hide Transform, Lambda, Coordinate, Spreads, Total, At, SigmaPoints, WithoutCentre;
    PointsAreColumns(points, l);
    WeightSum(w, l.rows, params);
    PointCount(points, l);
    CrossEntry(w, points, z, r, l.rows, i, j);
    CrossFromCentre(w, points, l, Coordinate(z, j), At(Transform(w, points, z, r, l.rows).mean, j, 0), params, i);
  }

  lemma PointCount(points: seq<Matrix>, l: Matrix)
    requires SigmaPoints(points, l)
    ensures |points| == 2 * l.rows + 1 && l.cols == l.rows
  {
  }

  /** The points cancel, so their products with v do not depend on where v is counted from. */
  lemma CrossFromCentre(w: Weights, points: seq<Matrix>, l: Matrix, v: seq<real>, mean: real, params: MerweParams,
                        i: nat)
    requires Spread(l.rows, params) > 0.0 && Merwe(w, l.rows, params) && SigmaPoints(points, l)
    requires |v| == |points| && i < l.rows
    ensures Spreads(w.cov, Coordinate(points, i), v, 0.0, mean)
         == Spreads(WithoutCentre(w.mean), Coordinate(points, i), v, 0.0, v[0])
  {
    var n, u, c := |points|, Coordinate(points, i), 1.0 / (2.0 * Spread(l.rows, params));
    SigmaMean(w.cov, points, l, c);
    WeightedSumEntry(w.cov, points, l.rows, n, i);
    assert At(Zero(l.rows, 1), i, 0) == 0.0;
    assert Sum(Weighed(w.cov, u)) == 0.0;
    LessNothing(u);
    Expanded(w.cov, u, v, 0.0, mean, n);
    Expanded(w.cov, u, v, 0.0, v[0], n);
    NothingFromOrigin(mean, v[0], Total(Weighed(w.cov, v), n), Total(w.cov, n));
    assert u[0] == At(points[0], i, 0) == 0.0;
    FirstDiffers(Products(w.cov, u, Less(v, v[0])), Products(WithoutCentre(w.mean), u, Less(v, v[0])), n);
    assert Product(0.0, v[0] - v[0]) == 0.0 && Product(w.cov[0], 0.0) == 0.0 && Product(0.0, 0.0) == 0.0;
  }

  lemma NothingFromOrigin(a: real, b: real, x: real, t: real)
    ensures Product(a, 0.0) == Product(b, 0.0) == Product(0.0, x) == 0.0
    ensures Product(Product(0.0, a), t) == Product(Product(0.0, b), t) == 0.0
  {
  }

  // ---- A measurement that is not affine ----------------------------------------------------

  function Single(c: real): (m: Matrix)
    ensures m.rows == 1 && m.cols == 1
  {
    Build(1, 1, (i, j) => c)
  }

  lemma SingleEntry(m: Matrix, c: real)
    requires Square(m, 1)
    ensures m == Single(c) <==> At(m, 0, 0) == c
  {
    if At(m, 0, 0) == c {
      SameEntries(m, Single(c));
    }
  }

  /** The square of the first coordinate's distance from x. */
  ghost predicate SquaredDistance(predict: Matrix -> Matrix, x: Matrix) {
    forall s: Matrix {:trigger predict(s)} | s.rows == x.rows && s.cols == 1 ::
      predict(s) == Single(Product(At(s, 0, 0) - At(x, 0, 0), At(s, 0, 0) - At(x, 0, 0)))
  }

  /** Only places a and b are not zero. */
  predicate OnlyAt(p: seq<real>, a: nat, b: nat) { forall k | 0 <= k < |p| && k != a && k != b :: p[k] == 0.0 }

  lemma {:induction false} TotalOfTwo(p: seq<real>, a: nat, b: nat, k: nat)
    requires a < b && k <= |p| && OnlyAt(p, a, b)
    ensures Total(p, k) == (if a < k then p[a] else 0.0) + (if b < k then p[b] else 0.0)
  {
    if k > 0 {
      TotalOfTwo(p, a, b, k - 1);
    }
  }

  lemma PointEntry(points: seq<Matrix>, l: Matrix, i: nat, k: nat)
    requires SigmaPoints(points, l) && i < l.rows && k < |points|
    ensures At(points[k], i, 0) == if k == 0 then 0.0 else if k <= l.rows then At(l, i, k - 1)
                                   else -At(l, i, k - 1 - l.rows)
  {
    var n := l.rows;
    if 0 < k <= n {
      assert points[1 + (k - 1)] == ColumnOf(l, k - 1);
    } else if k > n {
      assert points[1 + n + (k - 1 - n)] == Scale(-1.0, ColumnOf(l, k - 1 - n));
    }
  }

  /** A factor whose first row ends after its first entry, as a triangular one does. */
  predicate FirstRowShort(l: Matrix) { l.rows > 0 && forall j | 0 < j < l.cols :: At(l, 0, j) == 0.0 }

  lemma {:induction false} FirstRowDot(l: Matrix, k: nat)
    requires FirstRowShort(l) && l.rows == l.cols && 0 < k <= l.cols
    ensures Dot(l, Transpose(l), 0, 0, k) == Product(At(l, 0, 0), At(l, 0, 0))
  {
    if k > 1 {
      FirstRowDot(l, k - 1);
    } else {
      assert Dot(l, Transpose(l), 0, 0, 0) == 0.0;
    }
  }

  lemma FirstVariance(l: Matrix, p: Matrix, d: real)
    requires FirstRowShort(l) && l.rows == l.cols && Square(p, l.rows) && Mul(l, Transpose(l)) == Scale(d, p)
    ensures Product(At(l, 0, 0), At(l, 0, 0)) == Product(d, At(p, 0, 0))
  {
    FirstRowDot(l, l.cols);
    ScaleAt(d, p, 0, 0);
    assert At(Mul(l, Transpose(l)), 0, 0) == Dot(l, Transpose(l), 0, 0, l.cols);
  }

  /** The predictions are zero except at the first column and its negation. */
  lemma SquaredPredictions(points: seq<Matrix>, l: Matrix, x: Matrix, predict: Matrix -> Matrix)
    requires SigmaPoints(points, l) && FirstRowShort(l) && x.rows == l.rows && x.cols == 1
    requires SquaredDistance(predict, x)
    ensures AllColumns(points, x.rows) && AllColumns(Predictions(points, x, predict), 1)
    ensures var zs, q := Coordinate(Predictions(points, x, predict), 0), Product(At(l, 0, 0), At(l, 0, 0));
            && |zs| == 2 * l.rows + 1
            && zs[1] == q == zs[1 + l.rows] && OnlyAt(zs, 1, 1 + l.rows)
  {
    PointsAreColumns(points, l);
    var zs := Predictions(points, x, predict);
    forall k | 0 <= k < |zs|
      ensures zs[k] == Single(Product(At(points[k], 0, 0), At(points[k], 0, 0)))
    {
      var s := Add(x, points[k]);
      assert predict(s) == Single(Product(At(s, 0, 0) - At(x, 0, 0), At(s, 0, 0) - At(x, 0, 0)));
      assert At(s, 0, 0) - At(x, 0, 0) == At(points[k], 0, 0);
    }
    SquaredEntries(points, l, zs);
  }

  lemma SquaredEntries(points: seq<Matrix>, l: Matrix, zs: seq<Matrix>)
    requires SigmaPoints(points, l) && FirstRowShort(l) && |zs| == |points|
    requires forall k | 0 <= k < |zs| :: zs[k] == Single(Product(At(points[k], 0, 0), At(points[k], 0, 0)))
    ensures var u, q := Coordinate(zs, 0), Product(At(l, 0, 0), At(l, 0, 0));
            u[1] == q == u[1 + l.rows] && OnlyAt(u, 1, 1 + l.rows)
  {
    hide SigmaPoints, At, FirstRowShort;
    PointCount(points, l);
    FirstRowOf(l, 0);
    var a := At(l, 0, 0);
    forall k: nat | k < |zs|
      ensures Coordinate(zs, 0)[k] == if k == 1 || k == 1 + l.rows then Product(a, a) else 0.0
    {
      SingleEntry(zs[k], Product(At(points[k], 0, 0), At(points[k], 0, 0)));
      PointEntry(points, l, 0, k);
      FirstRowOf(l, k);
      assert Product(-a, -a) == Product(a, a) && Product(0.0, 0.0) == 0.0;
    }
  }

  lemma FirstRowOf(l: Matrix, k: nat)
    requires FirstRowShort(l) && l.cols == l.rows
    ensures l.rows > 0
    ensures 1 < k <= l.rows ==> At(l, 0, k - 1) == 0.0
    ensures 1 + l.rows < k <= 2 * l.rows ==> At(l, 0, k - 1 - l.rows) == 0.0
  {
  }

  lemma HalfEach(d: real, q: real, p: real)
    requires d > 0.0 && q == Product(d, p)
    ensures var c := 1.0 / (2.0 * d);
            && Product(c, q) + Product(c, q) == p
            && Product(c, Product(q, q)) + Product(c, Product(q, q)) == Product(d, Product(p, p))
  {
    var c := 1.0 / (2.0 * d);
    assert c * d == 0.5;
    assert c * (d * p) == (c * d) * p;
    assert q * q == (d * p) * (d * p) == d * (d * (p * p));
    assert c * (d * (d * (p * p))) == (c * d) * (d * (p * p));
  }

  lemma SquaredMean(m: seq<real>, zs: seq<real>, n: nat, d: real, q: real, p: real)
    requires |m| == |zs| == 2 * n + 1 && n > 0 && d > 0.0 && q == Product(d, p)
    requires forall k | 1 <= k < |m| :: m[k] == 1.0 / (2.0 * d)
    requires zs[1] == q == zs[1 + n] && OnlyAt(zs, 1, 1 + n)
    ensures Sum(Weighed(m, zs)) == p
    ensures Spreads(WithoutCentre(m), zs, zs, 0.0, 0.0) == Product(d, Product(p, p))
  {
    HalfEach(d, q, p);
    var c, o := 1.0 / (2.0 * d), WithoutCentre(m);
    LessNothing(zs);
    hide Less;
    forall k: nat | k < |m| && k != 1 && k != 1 + n
      ensures Weighed(m, zs)[k] == 0.0 && Products(o, zs, zs)[k] == 0.0
    {
      NoProduct(m[k], o[k]);
    }
    TotalOfTwo(Weighed(m, zs), 1, 1 + n, 2 * n + 1);
    TotalOfTwo(Products(o, zs, zs), 1, 1 + n, 2 * n + 1);
  }

  lemma NoProduct(a: real, b: real)
    ensures Product(a, 0.0) == 0.0 && Product(b, Product(0.0, 0.0)) == 0.0
  {
  }

  /** The first column and its negation are weighted alike. */
  lemma SquaredCross(m: seq<real>, u: seq<real>, zs: seq<real>, n: nat, c: real)
    requires |m| == |u| == |zs| == 2 * n + 1 && n > 0
    requires forall k | 1 <= k < |m| :: m[k] == c
    requires zs[1] == zs[1 + n] && OnlyAt(zs, 1, 1 + n) && u[1 + n] == -u[1]
    ensures Spreads(WithoutCentre(m), u, zs, 0.0, 0.0) == 0.0
  {
    var o := WithoutCentre(m);
    LessNothing(u);
    LessNothing(zs);
    hide Less;
    forall k: nat | k < |m| && k != 1 && k != 1 + n ensures Products(o, u, zs)[k] == 0.0 {
      ProductWithZero(o[k], u[k]);
    }
    TotalOfTwo(Products(o, u, zs), 1, 1 + n, 2 * n + 1);
    OppositeProducts(c, u[1], zs[1]);
  }

  lemma ProductWithZero(a: real, b: real)
    ensures Product(a, Product(b, 0.0)) == 0.0
  {
  }

  lemma OppositeProducts(c: real, a: real, q: real)
    ensures Product(c, Product(a, q)) + Product(c, Product(-a, q)) == 0.0
  {
    assert (-a) * q == -(a * q);
    var p := a * q;
    assert c * p + c * (-p) == 0.0;
  }

  /** (alpha^2 (n - 1 + kappa) + beta) v^2. */
  function SquareVariance(n: nat, params: MerweParams, v: real): real {
    (params.alpha * params.alpha * (n as real - 1.0 + params.kappa) + params.beta) * (v * v)
  }

  /**
   * Measuring the square of the first coordinate's distance from x, in any dimension, with a triangular factor: the
   * predicted value is that coordinate's variance p, the innovation covariance is R + (alpha^2 (n - 1 + kappa) + beta)
   * p^2, and the measurement tells nothing about the state.
   */
  lemma SquaredDistanceTransform(w: Weights, points: seq<Matrix>, l: Matrix, x: Matrix, p: Matrix, r: Matrix,
                                 predict: Matrix -> Matrix, params: MerweParams)
    requires Spread(l.rows, params) > 0.0 && Merwe(w, l.rows, params) && SigmaPoints(points, l)
    requires Square(p, l.rows) && Mul(l, Transpose(l)) == Scale(Spread(l.rows, params), p) && FirstRowShort(l)
    requires x.rows == l.rows && x.cols == 1 && SquaredDistance(predict, x) && Square(r, 1)
    ensures AllColumns(points, x.rows) && AllColumns(Predictions(points, x, predict), 1)
    ensures var v := At(p, 0, 0);
            Transform(w, points, Predictions(points, x, predict), r, x.rows)
            == Unscented(Single(v), Single(At(r, 0, 0) + SquareVariance(l.rows, params, v)), Zero(l.rows, 1))
  {
    hide Transform, Predictions, Coordinate, Weighed, Spreads, Sum, At, WithoutCentre, SigmaPoints, Mul, Transpose;
    hide Scale, Zero, Single, FirstRowShort, OnlyAt, Merwe, Product, Spread, SquareVariance;
    var n, d, v := l.rows, Spread(l.rows, params), At(p, 0, 0);
    var q := Product(At(l, 0, 0), At(l, 0, 0));
    SquaredPredictions(points, l, x, predict);
    PointCount(points, l);
    WeightSum(w, n, params);
    FirstVariance(l, p, d);
    FirstRowOf(l, 0);
    var z := Predictions(points, x, predict);
    var u, zs := Transform(w, points, z, r, n), Coordinate(z, 0);
    OuterWeights(w, n, params);
    SquaredMean(w.mean, zs, n, d, q, v);
    MeanEntry(w, points, z, r, n, 0);
    CentreOfInnovation(w, points, z, r, n, params, 0, 0);
    FirstIsZero(zs, n);
    SquaredCovariance(n, params, v);
    SingleEntry(u.mean, v);
    SingleEntry(u.s, At(u.s, 0, 0));
    forall i, j | 0 <= i < n && 0 <= j < 1 ensures At(u.cross, i, j) == At(Zero(n, 1), i, j) {
      CentreOfCross(w, points, l, z, r, params, i, j);
      OppositeEntries(points, l, i);
      SquaredCross(w.mean, Coordinate(points, i), zs, n, 1.0 / (2.0 * d));
      NothingAt(n, 1, i, j);
    }
    SameEntries(u.cross, Zero(n, 1));
    assert u.mean == Single(v);
    assert u == Unscented(Single(v), Single(At(u.s, 0, 0)), Zero(n, 1));
  }

  lemma OuterWeights(w: Weights, n: nat, params: MerweParams)
    requires Spread(n, params) > 0.0 && Merwe(w, n, params)
    ensures forall k | 1 <= k < |w.mean| :: w.mean[k] == 1.0 / (2.0 * Spread(n, params))
  {
  }

  lemma FirstIsZero(zs: seq<real>, n: nat)
    requires n > 0 && |zs| == 2 * n + 1 && OnlyAt(zs, 1, 1 + n)
    ensures zs[0] == 0.0
  {
  }

  lemma OppositeEntries(points: seq<Matrix>, l: Matrix, i: nat)
    requires SigmaPoints(points, l) && i < l.rows
    ensures |points| == 2 * l.rows + 1 && Coordinate(points, i)[1 + l.rows] == -Coordinate(points, i)[1]
  {
    PointCount(points, l);
    PointEntry(points, l, i, 1);
    PointEntry(points, l, i, 1 + l.rows);
  }

  lemma SquaredCovariance(n: nat, params: MerweParams, v: real)
    requires n > 0
    ensures var a, d := params.alpha, Spread(n, params);
            Product(d, Product(v, v)) + Product(params.beta - a * a, Product(v - 0.0, v - 0.0))
            == SquareVariance(n, params, v)
  {
    var a, b, k, m, s := params.alpha * params.alpha, params.beta, params.kappa, n as real, v * v;
    assert Spread(n, params) == a * (m + k);
    assert a * ((m - 1.0) + k) == a * (m + k) - a;
    var d := a * (m + k);
    assert d * s + (b - a) * s == (d - a + b) * s;
  }

  // ---- The prediction ----------------------------------------------------------------------

  /**
   * For any motion: the predicted mean and covariance are those sums over all points; the covariance adds the process
   * noise.
   */
  lemma PredictionEntries(w: Weights, points: seq<Matrix>, y: seq<Matrix>, noise: Matrix, n: nat, i: nat, j: nat)
    requires |w.mean| == |w.cov| == |points| == |y| && Symmetric(noise) && i < noise.rows && j < noise.rows
    requires AllColumns(points, n) && AllColumns(y, noise.rows)
    ensures var after := UnscentedPrediction(w, y, noise);
            var a, b := At(after.error, i, 0), At(after.error, j, 0);
            && after.error.rows == noise.rows && Square(after.covariance, noise.rows)
            && a == Sum(Weighed(w.mean, Coordinate(y, i)))
            && At(after.covariance, i, j)
               == Spreads(w.cov, Coordinate(y, i), Coordinate(y, j), a, b) + At(noise, i, j)
  {
    hide Transform, UnscentedPrediction, Coordinate, Weighed, Spreads, Sum, AllColumns;
    var u := Transform(w, points, y, noise, n);
    PredictionIsTransform(w, points, y, noise, n);
    MeanEntry(w, points, y, noise, n, i);
    InnovationEntry(w, points, y, noise, n, i, j);
    InnovationEntry(w, points, y, noise, n, j, i);
    SpreadsSwap(w.cov, Coordinate(y, i), Coordinate(y, j), At(u.mean, i, 0), At(u.mean, j, 0));
    assert At(noise, j, i) == At(Transpose(noise), i, j);
    SymmetrizedEntry(u.s, i, j);
  }

  lemma SymmetrizedEntry(s: Matrix, i: nat, j: nat)
    requires s.rows == s.cols && i < s.rows && j < s.rows && At(s, i, j) == At(s, j, i)
    ensures Square(Symmetrize(s), s.rows) && At(Symmetrize(s), i, j) == At(s, i, j)
  {
  }

  lemma SpreadsSwap(w: seq<real>, u: seq<real>, v: seq<real>, a: real, b: real)
    requires |w| == |u| == |v|
    ensures Spreads(w, u, v, a, b) == Spreads(w, v, u, b, a)
  {
    var du, dv := Less(u, a), Less(v, b);
    assert forall k | 0 <= k < |w| :: Product(du[k], dv[k]) == Product(dv[k], du[k]);
    assert Products(w, du, dv) == Products(w, dv, du);
  }

  /** For any motion the centre point enters the predicted covariance as it does for a measurement. */
  lemma CentreOfPrediction(w: Weights, points: seq<Matrix>, y: seq<Matrix>, noise: Matrix, n: nat,
                           params: MerweParams, i: nat, j: nat)
    requires Spread(n, params) > 0.0 && Merwe(w, n, params) && |points| == |y| == 2 * n + 1
    requires AllColumns(points, n) && AllColumns(y, noise.rows) && Symmetric(noise)
    requires i < noise.rows && j < noise.rows
    ensures |w.mean| == |w.cov| == 2 * n + 1
    ensures var after, yi, yj := UnscentedPrediction(w, y, noise), Coordinate(y, i), Coordinate(y, j);
            && after.error.rows == noise.rows && Square(after.covariance, noise.rows)
            && At(after.covariance, i, j)
               == Spreads(WithoutCentre(w.mean), yi, yj, yi[0], yj[0])
                  + Product(params.beta - params.alpha * params.alpha,
                            Product(At(after.error, i, 0) - yi[0], At(after.error, j, 0) - yj[0]))
                  + At(noise, i, j)
  {
    hide UnscentedPrediction, Coordinate, Weighed, Spreads, Sum, AllColumns, WithoutCentre, Product, Merwe, Spread;
    WeightSum(w, n, params);
    PredictionEntries(w, points, y, noise, n, i, j);
    PredictionEntries(w, points, y, noise, n, j, i);
    CentreWeight(w, n, params, Coordinate(y, i), Coordinate(y, j));
  }
}
