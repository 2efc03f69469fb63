/** What the sequential scalar updates add up to: the information of all accepted rows. */
module GnssInformation {
  import opened Matrices
  import opened EkfUpdates
  import opened GnssTightlyCoupled

  // ---- The scalar update is the vector update with one row -----------------------------------

  function Single(x: real): (m: Matrix)
    ensures Square(m, 1)
  {
    Build(1, 1, (i, j) => x)
  }

  lemma SingleInverse(x: real)
    requires x != 0.0
    ensures Inverse(Single(x), Single(1.0 / x))
  {
    var a, b := Single(x), Single(1.0 / x);
    assert Dot(a, b, 0, 0, 1) == Dot(a, b, 0, 0, 0) + At(a, 0, 0) * At(b, 0, 0);
    assert Dot(b, a, 0, 0, 1) == Dot(b, a, 0, 0, 0) + At(b, 0, 0) * At(a, 0, 0);
    assert x * (1.0 / x) == 1.0;
    SameEntries(Mul(a, b), Identity(1));
    SameEntries(Mul(b, a), Identity(1));
  }

  lemma MulSingle(a: Matrix, x: real)
    requires a.cols == 1
    ensures Mul(a, Single(x)) == Scale(x, a)
  {
    forall i, j | 0 <= i < a.rows && 0 <= j < 1
      ensures At(Mul(a, Single(x)), i, j) == At(Scale(x, a), i, j)
    {
      var b := Single(x);
      assert Dot(a, b, i, j, 1) == Dot(a, b, i, j, 0) + At(a, i, 0) * At(b, 0, j);
    }
    SameEntries(Mul(a, Single(x)), Scale(x, a));
  }

  lemma ScalarIsVectorUpdate(p: Matrix, o: Scalar)
    requires p.rows == p.cols && Fits(o, p.rows) && Variance(p, o) > 0.0
    ensures Shapes(p, Transpose(o.h), Single(Sq(o.sigma)))
    ensures InnovationCovariance(p, Transpose(o.h), Single(Sq(o.sigma))) == Single(Variance(p, o))
    ensures ScalarJoseph(p, o) == Joseph(p, ScalarGain(p, o), Transpose(o.h), Single(Sq(o.sigma)))
    ensures Mul(ScalarGain(p, o), Single(Variance(p, o))) == Mul(p, o.h)
  {
    var row, r, k, v := Transpose(o.h), Single(Sq(o.sigma)), ScalarGain(p, o), Variance(p, o);
    TransposeTwice(o.h);
    SameEntries(InnovationCovariance(p, row, r), Single(v));
    MulSingle(k, Sq(o.sigma));
    MulScale(Sq(o.sigma), k, Transpose(k));
    MulSingle(k, v);
    ScaleBack(v, Mul(p, o.h));
  }

  lemma ScaleBack(v: real, a: Matrix)
    requires v != 0.0
    ensures Scale(v, Scale(1.0 / v, a)) == a
  {
    forall i, j | 0 <= i < a.rows && 0 <= j < a.cols ensures At(Scale(v, Scale(1.0 / v, a)), i, j) == At(a, i, j) {
      var x := At(a, i, j);
      assert v * (1.0 / v) == 1.0;
      assert v * ((1.0 / v) * x) == (v * (1.0 / v)) * x;
    }
    SameEntries(Scale(v, Scale(1.0 / v, a)), a);
  }

  // ---- The information of a list of rows ------------------------------------------------------

  /** h h^T / sigma^2. */
  function RowInformation(o: Scalar): (m: Matrix)
    requires o.h.cols == 1 && Sq(o.sigma) != 0.0
    ensures m.rows == o.h.rows && m.cols == o.h.rows
  {
    Scale(1.0 / Sq(o.sigma), Mul(o.h, Transpose(o.h)))
  }

  predicate Informative(rows: seq<Row>, n: nat) {
    AllFit(rows, n) && forall i | 0 <= i < |rows| :: Sq(rows[i].observation.sigma) > 0.0
  }

  function Information(rows: seq<Row>, n: nat): (m: Matrix)
    requires Informative(rows, n)
    ensures Square(m, n)
  {
    if rows == [] then Zero(n, n) else Add(RowInformation(rows[0].observation), Information(rows[1..], n))
  }

  lemma RowInformationIs(o: Scalar)
    requires o.h.cols == 1 && Sq(o.sigma) != 0.0
    ensures RowInformation(o) == Mul(Mul(o.h, Single(1.0 / Sq(o.sigma))), Transpose(o.h))
  {
    MulSingle(o.h, 1.0 / Sq(o.sigma));
    MulScale(1.0 / Sq(o.sigma), o.h, Transpose(o.h));
    hide Mul, Scale, Transpose, Single, Sq;
  }

  lemma SingleSymmetric(x: real)
    ensures Symmetric(Single(x))
  {
    SameEntries(Transpose(Single(x)), Single(x));
  }

  /** One accepted row adds its information, and the gain is P' h / sigma^2. */
  lemma ScalarInformation(p: Matrix, o: Scalar, information: Matrix)
    requires Symmetric(p) && Fits(o, p.rows) && Sq(o.sigma) > 0.0 && Variance(p, o) > 0.0
    requires Square(information, p.rows) && Mul(p, information) == Identity(p.rows)
    ensures Symmetric(ScalarJoseph(p, o))
    ensures Mul(ScalarJoseph(p, o), Add(information, RowInformation(o))) == Identity(p.rows)
  {
    var r, k := Single(Sq(o.sigma)), ScalarGain(p, o);
    ScalarIsVectorUpdate(p, o);
    TransposeTwice(o.h);
    SingleInverse(Sq(o.sigma));
    SingleSymmetric(Sq(o.sigma));
    RowInformationIs(o);
    ScalarJosephSymmetric(p, o);
    hide Mul, Joseph, ScalarJoseph, ScalarGain, Variance, Add, Transpose, Single, Identity, Sq, RowInformation;
    InformationForm(p, k, Transpose(o.h), r, information, Single(1.0 / Sq(o.sigma)));
  }

  lemma ScalarJosephSymmetric(p: Matrix, o: Scalar)
    requires p.rows == p.cols && Fits(o, p.rows) && Variance(p, o) > 0.0
    ensures Symmetric(ScalarJoseph(p, o))
  {
    var k := ScalarGain(p, o);
    var ikh := Sub(Identity(p.rows), Mul(k, Transpose(o.h)));
    SymmetrizeIsSymmetric(Add(Mul(Mul(ikh, p), Transpose(ikh)), Scale(Sq(o.sigma), Mul(k, Transpose(k)))));
  }

  /** The final covariance times (P^-1 + the information of the accepted rows) is the identity. */
  lemma {:induction false} SequentialInformation(e: Estimate, rows: seq<Row>, gate: real, information: Matrix)
    requires Proper(e) && Symmetric(e.covariance) && Informative(rows, e.error.rows)
    requires Square(information, e.error.rows) && Mul(e.covariance, information) == Identity(e.error.rows)
    ensures Informative(AcceptedRows(e, rows, gate), e.error.rows)
    ensures Symmetric(Final(e, rows, gate).covariance)
    ensures Mul(Final(e, rows, gate).covariance,
                Add(information, Information(AcceptedRows(e, rows, gate), e.error.rows)))
         == Identity(e.error.rows)
    decreases rows
  {
    var n := e.error.rows;
    if rows == [] {
      AddZero(information);
    } else {
      var o, next := rows[0].observation, Step(e, rows[0].observation, gate);
      var tail := AcceptedRows(next, rows[1..], gate);
      if Passes(e.covariance, o, gate) {
        ScalarInformation(e.covariance, o, information);
        SequentialInformation(next, rows[1..], gate, Add(information, RowInformation(o)));
        AddAssoc(information, RowInformation(o), Information(tail, n));
        assert ([rows[0]] + tail)[1..] == tail;
      } else {
        SequentialInformation(next, rows[1..], gate, information);
        assert [] + tail == tail;
      }
    }
  }

  // ---- Order does not matter --------------------------------------------------------------

  lemma {:induction false} InformationPull(rows: seq<Row>, j: nat, n: nat)
    requires Informative(rows, n) && j < |rows|
    ensures Informative(rows[..j] + rows[j + 1..], n)
    ensures Information(rows, n)
         == Add(RowInformation(rows[j].observation), Information(rows[..j] + rows[j + 1..], n))
  {
    var rest := rows[..j] + rows[j + 1..];
    assert forall i | 0 <= i < |rest| :: rest[i] == if i < j then rows[i] else rows[i + 1];
    if j == 0 {
      assert rest == rows[1..];
    } else {
      var a, b := RowInformation(rows[0].observation), RowInformation(rows[j].observation);
      InformationPull(rows[1..], j - 1, n);
      assert rest[1..] == rows[1..][..j - 1] + rows[1..][j..];
      assert rest[0] == rows[0];
      AddAssoc(a, b, Information(rest[1..], n));
      AddAssoc(b, a, Information(rest[1..], n));
    }
  }

  lemma RemoveOne<T>(a: seq<T>, b: seq<T>, j: nat)
    requires a != [] && j < |b| && b[j] == a[0] && multiset(a) == multiset(b)
    ensures multiset(a[1..]) == multiset(b[..j] + b[j + 1..])
  {
    assert b == b[..j] + [b[j]] + b[j + 1..];
    assert a == [a[0]] + a[1..];
    assert multiset(b[..j] + b[j + 1..]) == multiset(b) - multiset{b[j]};
    assert multiset(a[1..]) == multiset(a) - multiset{a[0]};
  }

  lemma {:induction false} InformationPermutes(a: seq<Row>, b: seq<Row>, n: nat)
    requires Informative(a, n) && Informative(b, n) && multiset(a) == multiset(b)
    ensures Information(a, n) == Information(b, n)
  {
    if a == [] {
      assert |b| == |multiset(b)| == 0;
    } else {
      assert a[0] in multiset(b);
      var j :| 0 <= j < |b| && b[j] == a[0];
      InformationPull(b, j, n);
      RemoveOne(a, b, j);
      InformationPermutes(a[1..], b[..j] + b[j + 1..], n);
    }
  }

  /** Two epochs whose accepted rows agree up to order end with the same covariance, whatever
      the order of satellites, the gates and the innovations of the rejected rows. */
  lemma OrderDoesNotMatter(e: Estimate, rows: seq<Row>, gate: real, e': Estimate, rows': seq<Row>, gate': real,
                           information: Matrix)
    requires Proper(e) && Proper(e') && e.covariance == e'.covariance && Symmetric(e.covariance)
    requires Informative(rows, e.error.rows) && Informative(rows', e.error.rows)
    requires Square(information, e.error.rows) && Mul(e.covariance, information) == Identity(e.error.rows)
    requires multiset(AcceptedRows(e, rows, gate)) == multiset(AcceptedRows(e', rows', gate'))
    ensures Final(e, rows, gate).covariance == Final(e', rows', gate').covariance
  {
    var n := e.error.rows;
    var a, b := AcceptedRows(e, rows, gate), AcceptedRows(e', rows', gate');
    SequentialInformation(e, rows, gate, information);
    SequentialInformation(e', rows', gate', information);
    InformationPermutes(a, b, n);
    SumInformationSymmetric(e, rows, gate, information);
    InverseUnique(Final(e, rows, gate).covariance, Final(e', rows', gate').covariance,
                  Add(information, Information(a, n)));
  }

  lemma SumInformationSymmetric(e: Estimate, rows: seq<Row>, gate: real, information: Matrix)
    requires Proper(e) && Symmetric(e.covariance) && Informative(rows, e.error.rows)
    requires Square(information, e.error.rows) && Mul(e.covariance, information) == Identity(e.error.rows)
    ensures Informative(AcceptedRows(e, rows, gate), e.error.rows)
    ensures Symmetric(Add(information, Information(AcceptedRows(e, rows, gate), e.error.rows)))
  {
    SequentialInformation(e, rows, gate, information);
    InformationSymmetric(Final(e, rows, gate).covariance,
                         Add(information, Information(AcceptedRows(e, rows, gate), e.error.rows)));
  }

  // ---- Sequential equals batch ---------------------------------------------------------------

  /** The rows stacked into one Jacobian. */
  function Stacked(rows: seq<Row>, n: nat): (m: Matrix)
    requires AllFit(rows, n)
    ensures m.rows == |rows| && m.cols == n
  {
    Build(|rows|, n, (i, j) => if 0 <= i < |rows| then At(rows[i].observation.h, j, 0) else 0.0)
  }

  function Diagonal(values: seq<real>): (m: Matrix)
    ensures Square(m, |values|)
  {
    Build(|values|, |values|, (i, j) => if i == j && 0 <= i < |values| then values[i] else 0.0)
  }

  function Noises(rows: seq<Row>): (values: seq<real>)
    ensures |values| == |rows|
  {
    seq(|rows|, i requires 0 <= i < |rows| => Sq(rows[i].observation.sigma))
  }

  function Weights(rows: seq<Row>): (values: seq<real>)
    requires forall i | 0 <= i < |rows| :: Sq(rows[i].observation.sigma) > 0.0
    ensures |values| == |rows|
  {
    seq(|rows|, i requires 0 <= i < |rows| => 1.0 / Sq(rows[i].observation.sigma))
  }

  /** Column k of a diagonal matrix scales; every other term of the sum is zero. */
  lemma {:induction false} DotDiagonal(a: Matrix, values: seq<real>, i: int, k: int, m: nat)
    requires m <= |values| && 0 <= k < |values|
    ensures Dot(a, Diagonal(values), i, k, m) == if k < m then At(a, i, k) * values[k] else 0.0
  {
    if m > 0 { DotDiagonal(a, values, i, k, m - 1); }
  }

  lemma DiagonalProduct(a: seq<real>, b: seq<real>, i: int, j: int)
    requires |a| == |b| && 0 <= i < |a| && 0 <= j < |a|
    ensures At(Mul(Diagonal(a), Diagonal(b)), i, j) == if i == j then a[i] * b[i] else 0.0
  {
    DotDiagonal(Diagonal(a), b, i, j, |a|);
    assert At(Diagonal(a), i, j) == if i == j then a[i] else 0.0;
  }

  lemma DiagonalInverse(values: seq<real>, inverses: seq<real>)
    requires |values| == |inverses|
    requires forall i | 0 <= i < |values| :: values[i] * inverses[i] == 1.0
    ensures Inverse(Diagonal(values), Diagonal(inverses))
  {
    var a, b, m := Diagonal(values), Diagonal(inverses), |values|;
    forall i, j | 0 <= i < m && 0 <= j < m
      ensures At(Mul(a, b), i, j) == At(Identity(m), i, j)
      ensures At(Mul(b, a), i, j) == At(Identity(m), i, j)
    {
      DiagonalProduct(values, inverses, i, j);
      DiagonalProduct(inverses, values, i, j);
      assert values[i] * inverses[i] == 1.0;
    }
    SameEntries(Mul(a, b), Identity(m));
    SameEntries(Mul(b, a), Identity(m));
  }

  /** Column k of H^T W is row k of H over its variance. */
  lemma WeightedColumn(rows: seq<Row>, n: nat, i: int, k: nat)
    requires Informative(rows, n) && k < |rows| && 0 <= i < n
    ensures At(Mul(Transpose(Stacked(rows, n)), Diagonal(Weights(rows))), i, k)
         == At(rows[k].observation.h, i, 0) * (1.0 / Sq(rows[k].observation.sigma))
  {
    var ht, weights := Transpose(Stacked(rows, n)), Weights(rows);
    DotDiagonal(ht, weights, i, k, |rows|);
    assert At(ht, i, k) == At(rows[k].observation.h, i, 0);
  }

  lemma RowInformationAt(o: Scalar, i: int, j: int)
    requires o.h.cols == 1 && Sq(o.sigma) != 0.0 && 0 <= i < o.h.rows && 0 <= j < o.h.rows
    ensures At(RowInformation(o), i, j) == 1.0 / Sq(o.sigma) * (At(o.h, i, 0) * At(o.h, j, 0))
  {
    OuterAt(o.h, i, j);
    hide Mul;
    ScaleAt(1.0 / Sq(o.sigma), Mul(o.h, Transpose(o.h)), i, j);
  }

  /** One term of the stacked product is the information of one row. */
  lemma StackedTerm(rows: seq<Row>, n: nat, i: int, j: int, k: nat)
    requires Informative(rows, n) && k < |rows| && 0 <= i < n && 0 <= j < n
    ensures At(Mul(Transpose(Stacked(rows, n)), Diagonal(Weights(rows))), i, k) * At(Stacked(rows, n), k, j)
         == At(RowInformation(rows[k].observation), i, j)
  {
    var o := rows[k].observation;
    assert At(Stacked(rows, n), k, j) == At(o.h, j, 0);
    WeightedColumn(rows, n, i, k);
    RowInformationAt(o, i, j);
    hide Mul, Transpose, Stacked, Diagonal, Weights, RowInformation, At, Sq;
    ThreeFactors(At(o.h, i, 0), 1.0 / Sq(o.sigma), At(o.h, j, 0));
  }

  /** Entry (i, j) of H^T W H over the first m rows of H. */
  function StackedSum(rows: seq<Row>, n: nat, i: int, j: int, m: nat): real
    requires Informative(rows, n) && m <= |rows|
  {
    Dot(Mul(Transpose(Stacked(rows, n)), Diagonal(Weights(rows))), Stacked(rows, n), i, j, m)
  }

  /** Entry (i, j) of the information of the first m rows. */
  function InformationEntry(rows: seq<Row>, n: nat, i: int, j: int, m: nat): real
    requires Informative(rows, n) && m <= |rows|
  {
    At(Information(rows[..m], n), i, j)
  }

  lemma InformationEntryStep(rows: seq<Row>, n: nat, i: int, j: int, m: nat)
    requires Informative(rows, n) && 0 < m <= |rows| && 0 <= i < n && 0 <= j < n
    ensures InformationEntry(rows, n, i, j, m)
         == InformationEntry(rows, n, i, j, m - 1) + At(RowInformation(rows[m - 1].observation), i, j)
  {
    InformationPull(rows[..m], m - 1, n);
    assert rows[..m][..m - 1] + rows[..m][m..] == rows[..m - 1];
  }

  lemma StackedSumStep(rows: seq<Row>, n: nat, i: int, j: int, m: nat)
    requires Informative(rows, n) && 0 < m <= |rows| && 0 <= i < n && 0 <= j < n
    ensures StackedSum(rows, n, i, j, m)
         == StackedSum(rows, n, i, j, m - 1) + At(RowInformation(rows[m - 1].observation), i, j)
  {
    hide Stacked, Diagonal, RowInformation, Mul, Transpose, Weights;
    StackedTerm(rows, n, i, j, m - 1);
  }

  lemma NoRows(rows: seq<Row>, n: nat, i: int, j: int)
    requires Informative(rows, n) && 0 <= i < n && 0 <= j < n
    ensures StackedSum(rows, n, i, j, 0) == 0.0 == InformationEntry(rows, n, i, j, 0)
  {
    assert rows[..0] == [];
  }

  lemma {:induction false} StackedEntries(rows: seq<Row>, n: nat, i: int, j: int, m: nat)
    requires Informative(rows, n) && m <= |rows| && 0 <= i < n && 0 <= j < n
    ensures StackedSum(rows, n, i, j, m) == InformationEntry(rows, n, i, j, m)
  {
    hide StackedSum, InformationEntry;
    if m == 0 {
      NoRows(rows, n, i, j);
    } else {
      StackedEntries(rows, n, i, j, m - 1);
      StackedSumStep(rows, n, i, j, m);
      InformationEntryStep(rows, n, i, j, m);
    }
  }

  lemma ThreeFactors(x: real, y: real, z: real)
    ensures (x * y) * z == y * (x * z)
  {
  }

  lemma StackedInformation(rows: seq<Row>, n: nat)
    requires Informative(rows, n)
    ensures Mul(Mul(Transpose(Stacked(rows, n)), Diagonal(Weights(rows))), Stacked(rows, n)) == Information(rows, n)
  {
    var h := Stacked(rows, n);
    var left := Mul(Mul(Transpose(h), Diagonal(Weights(rows))), h);
    forall i, j | 0 <= i < n && 0 <= j < n ensures At(left, i, j) == At(Information(rows, n), i, j) {
      StackedEntries(rows, n, i, j, |rows|);
      assert rows[..|rows|] == rows;
    }
    SameEntries(left, Information(rows, n));
  }

  lemma NoiseInverse(rows: seq<Row>, n: nat)
    requires Informative(rows, n)
    ensures Inverse(Diagonal(Noises(rows)), Diagonal(Weights(rows)))
    ensures Symmetric(Diagonal(Noises(rows)))
  {
    forall i | 0 <= i < |rows| ensures Noises(rows)[i] * Weights(rows)[i] == 1.0 {
      Reciprocal(Sq(rows[i].observation.sigma));
    }
    DiagonalInverse(Noises(rows), Weights(rows));
    var r := Diagonal(Noises(rows));
    SameEntries(Transpose(r), r);
  }

  lemma Reciprocal(x: real)
    requires x > 0.0
    ensures x * (1.0 / x) == 1.0
  {
  }

  /** The sequential covariance is the covariance of one EkfUpdate over the accepted rows. */
  lemma SequentialEqualsBatch(e: Estimate, rows: seq<Row>, gate: real, information: Matrix, sInverse: Matrix)
    requires Proper(e) && Symmetric(e.covariance) && Informative(rows, e.error.rows)
    requires Square(information, e.error.rows) && Mul(e.covariance, information) == Identity(e.error.rows)
    requires var accepted := AcceptedRows(e, rows, gate);
             Inverse(InnovationCovariance(e.covariance, Stacked(accepted, e.error.rows), Diagonal(Noises(accepted))),
                     sInverse)
    ensures var accepted := AcceptedRows(e, rows, gate);
            var h := Stacked(accepted, e.error.rows);
            Final(e, rows, gate).covariance
            == Joseph(e.covariance, Gain(e.covariance, h, sInverse), h, Diagonal(Noises(accepted)))
  {
    var n := e.error.rows;
    var accepted := AcceptedRows(e, rows, gate);
    var h, r := Stacked(accepted, n), Diagonal(Noises(accepted));
    SequentialInformation(e, rows, gate, information);
    StackedInformation(accepted, n);
    NoiseInverse(accepted, n);
    var k := Gain(e.covariance, h, sInverse);
    GainIsOptimal(e.covariance, h, r, sInverse);
    InformationForm(e.covariance, k, h, r, information, Diagonal(Weights(accepted)));
    SumInformationSymmetric(e, rows, gate, information);
    InverseUnique(Final(e, rows, gate).covariance, Joseph(e.covariance, k, h, r),
                  Add(information, Information(accepted, n)));
  }
}
