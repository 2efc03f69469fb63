/** Real matrices of any shape with the algebra the filters rely on. A vector is a matrix with
    one column, as in Eigen. */
module Matrices {
  datatype RawMatrix = RawMatrix(rows: nat, cols: nat, cells: seq<seq<real>>) {
    predicate WellShaped() {
      |cells| == rows && forall i | 0 <= i < rows :: |cells[i]| == cols
    }
  }

  type Matrix = m: RawMatrix | m.WellShaped() witness RawMatrix(0, 0, [])

  /** The entry at row i and column j; zero outside the matrix. */
  function At(m: Matrix, i: int, j: int): real {
    if 0 <= i < m.rows && 0 <= j < m.cols then m.cells[i][j] else 0.0
  }

  function Build(rows: nat, cols: nat, f: (int, int) -> real): (m: Matrix)
    ensures m.rows == rows && m.cols == cols
  {
    RawMatrix(rows, cols, seq(rows, i => seq(cols, j => f(i, j))))
  }

  lemma SameEntries(a: Matrix, b: Matrix)
    requires a.rows == b.rows && a.cols == b.cols
    requires forall i, j | 0 <= i < a.rows && 0 <= j < a.cols :: At(a, i, j) == At(b, i, j)
    ensures a == b
  {
    forall i | 0 <= i < a.rows ensures a.cells[i] == b.cells[i] {
      forall j | 0 <= j < a.cols ensures a.cells[i][j] == b.cells[i][j] {
        assert At(a, i, j) == At(b, i, j);
      }
    }
  }

  function Zero(rows: nat, cols: nat): (m: Matrix)
    ensures m.rows == rows && m.cols == cols
  {
    Build(rows, cols, (i, j) => 0.0)
  }

  function Identity(n: nat): (m: Matrix)
    ensures m.rows == n && m.cols == n
  {
    Build(n, n, (i, j) => if i == j then 1.0 else 0.0)
  }

  function Add(a: Matrix, b: Matrix): (m: Matrix)
    requires a.rows == b.rows && a.cols == b.cols
    ensures m.rows == a.rows && m.cols == a.cols
  {
    Build(a.rows, a.cols, (i, j) => At(a, i, j) + At(b, i, j))
  }

  function Scale(c: real, a: Matrix): (m: Matrix)
    ensures m.rows == a.rows && m.cols == a.cols
  {
    Build(a.rows, a.cols, (i, j) => c * At(a, i, j))
  }

  function Sub(a: Matrix, b: Matrix): (m: Matrix)
    requires a.rows == b.rows && a.cols == b.cols
    ensures m.rows == a.rows && m.cols == a.cols
  {
    Build(a.rows, a.cols, (i, j) => At(a, i, j) - At(b, i, j))
  }

  function Transpose(a: Matrix): (m: Matrix)
    ensures m.rows == a.cols && m.cols == a.rows
  {
    Build(a.cols, a.rows, (i, j) => At(a, j, i))
  }

  /** The first n terms of row i of a times column j of b. */
  function Dot(a: Matrix, b: Matrix, i: int, j: int, n: nat): real {
    if n == 0 then 0.0 else Dot(a, b, i, j, n - 1) + At(a, i, n - 1) * At(b, n - 1, j)
  }

  function Mul(a: Matrix, b: Matrix): (m: Matrix)
    requires a.cols == b.rows
    ensures m.rows == a.rows && m.cols == b.cols
  {
    Build(a.rows, b.cols, (i, j) => Dot(a, b, i, j, a.cols))
  }

  // ---- Associativity --------------------------------------------------------------------

  /** The first n terms of row i of (a * b) times column j of c, each with m terms. */
  function LeftSum(a: Matrix, b: Matrix, c: Matrix, i: int, j: int, m: nat, n: nat): real {
    if n == 0 then 0.0 else LeftSum(a, b, c, i, j, m, n - 1) + Dot(a, b, i, n - 1, m) * At(c, n - 1, j)
  }

  /** The first m terms of row i of a times column j of (b * c), each with n terms. */
  function RightSum(a: Matrix, b: Matrix, c: Matrix, i: int, j: int, m: nat, n: nat): real {
    if m == 0 then 0.0 else RightSum(a, b, c, i, j, m - 1, n) + At(a, i, m - 1) * Dot(b, c, m - 1, j, n)
  }

  lemma {:induction false} RightSumStep(a: Matrix, b: Matrix, c: Matrix, i: int, j: int, m: nat, n: nat)
    requires n > 0
    ensures RightSum(a, b, c, i, j, m, n)
         == RightSum(a, b, c, i, j, m, n - 1) + Dot(a, b, i, n - 1, m) * At(c, n - 1, j)
  {
    if m > 0 { RightSumStep(a, b, c, i, j, m - 1, n); }
  }

  lemma {:induction false} RightSumEmpty(a: Matrix, b: Matrix, c: Matrix, i: int, j: int, m: nat)
    ensures RightSum(a, b, c, i, j, m, 0) == 0.0
  {
    if m > 0 { RightSumEmpty(a, b, c, i, j, m - 1); }
  }

  lemma {:induction false} SumsAgree(a: Matrix, b: Matrix, c: Matrix, i: int, j: int, m: nat, n: nat)
    ensures LeftSum(a, b, c, i, j, m, n) == RightSum(a, b, c, i, j, m, n)
  {
    if n == 0 {
      RightSumEmpty(a, b, c, i, j, m);
    } else {
      SumsAgree(a, b, c, i, j, m, n - 1);
      RightSumStep(a, b, c, i, j, m, n);
    }
  }

  lemma {:induction false} LeftSumIsDot(a: Matrix, b: Matrix, c: Matrix, i: int, j: int, n: nat)
    requires a.cols == b.rows && n <= b.cols && 0 <= i < a.rows
    ensures LeftSum(a, b, c, i, j, a.cols, n) == Dot(Mul(a, b), c, i, j, n)
  {
    if n > 0 { LeftSumIsDot(a, b, c, i, j, n - 1); }
  }

  lemma {:induction false} RightSumIsDot(a: Matrix, b: Matrix, c: Matrix, i: int, j: int, m: nat)
    requires b.cols == c.rows && m <= b.rows && 0 <= j < c.cols
    ensures RightSum(a, b, c, i, j, m, b.cols) == Dot(a, Mul(b, c), i, j, m)
  {
    if m > 0 { RightSumIsDot(a, b, c, i, j, m - 1); }
  }

  lemma MulAssoc(a: Matrix, b: Matrix, c: Matrix)
    requires a.cols == b.rows && b.cols == c.rows
    ensures Mul(Mul(a, b), c) == Mul(a, Mul(b, c))
  {
    forall i, j | 0 <= i < a.rows && 0 <= j < c.cols
      ensures At(Mul(Mul(a, b), c), i, j) == At(Mul(a, Mul(b, c)), i, j)
    {
      LeftSumIsDot(a, b, c, i, j, b.cols);
      SumsAgree(a, b, c, i, j, a.cols, b.cols);
      RightSumIsDot(a, b, c, i, j, a.cols);
    }
    SameEntries(Mul(Mul(a, b), c), Mul(a, Mul(b, c)));
  }

  // ---- Transposition --------------------------------------------------------------------

  lemma {:induction false} DotTransposed(a: Matrix, b: Matrix, i: int, j: int, n: nat)
    ensures Dot(Transpose(b), Transpose(a), j, i, n) == Dot(a, b, i, j, n)
  {
    if n > 0 { DotTransposed(a, b, i, j, n - 1); }
  }

  lemma TransposeMul(a: Matrix, b: Matrix)
    requires a.cols == b.rows
    ensures Transpose(Mul(a, b)) == Mul(Transpose(b), Transpose(a))
  {
    forall i, j | 0 <= i < b.cols && 0 <= j < a.rows
      ensures At(Transpose(Mul(a, b)), i, j) == At(Mul(Transpose(b), Transpose(a)), i, j)
    {
      DotTransposed(a, b, j, i, a.cols);
    }
    SameEntries(Transpose(Mul(a, b)), Mul(Transpose(b), Transpose(a)));
  }

  lemma TransposeTwice(a: Matrix)
    ensures Transpose(Transpose(a)) == a
  {
    SameEntries(Transpose(Transpose(a)), a);
  }

  lemma TransposeAdd(a: Matrix, b: Matrix)
    requires a.rows == b.rows && a.cols == b.cols
    ensures Transpose(Add(a, b)) == Add(Transpose(a), Transpose(b))
    ensures Transpose(Sub(a, b)) == Sub(Transpose(a), Transpose(b))
  {
    SameEntries(Transpose(Add(a, b)), Add(Transpose(a), Transpose(b)));
    SameEntries(Transpose(Sub(a, b)), Sub(Transpose(a), Transpose(b)));
  }

  lemma TransposeScale(c: real, a: Matrix)
    ensures Transpose(Scale(c, a)) == Scale(c, Transpose(a))
  {
    SameEntries(Transpose(Scale(c, a)), Scale(c, Transpose(a)));
  }

  lemma TransposeIdentity(n: nat)
    ensures Transpose(Identity(n)) == Identity(n)
  {
    SameEntries(Transpose(Identity(n)), Identity(n));
  }

  // ---- Linearity ------------------------------------------------------------------------

  lemma Distribute(x: real, y: real, z: real)
    ensures x * (y + z) == x * y + x * z && (y + z) * x == y * x + z * x
    ensures x * (y - z) == x * y - x * z && (y - z) * x == y * x - z * x
  {
  }

  lemma {:induction false} DotAddRight(a: Matrix, b: Matrix, c: Matrix, i: int, j: int, n: nat)
    requires b.rows == c.rows && b.cols == c.cols
    ensures Dot(a, Add(b, c), i, j, n) == Dot(a, b, i, j, n) + Dot(a, c, i, j, n)
    ensures Dot(a, Sub(b, c), i, j, n) == Dot(a, b, i, j, n) - Dot(a, c, i, j, n)
  {
    if n > 0 {
      DotAddRight(a, b, c, i, j, n - 1);
      Distribute(At(a, i, n - 1), At(b, n - 1, j), At(c, n - 1, j));
    }
  }

  lemma {:induction false} DotAddLeft(a: Matrix, b: Matrix, c: Matrix, i: int, j: int, n: nat)
    requires a.rows == b.rows && a.cols == b.cols
    ensures Dot(Add(a, b), c, i, j, n) == Dot(a, c, i, j, n) + Dot(b, c, i, j, n)
    ensures Dot(Sub(a, b), c, i, j, n) == Dot(a, c, i, j, n) - Dot(b, c, i, j, n)
  {
    if n > 0 {
      DotAddLeft(a, b, c, i, j, n - 1);
      Distribute(At(c, n - 1, j), At(a, i, n - 1), At(b, i, n - 1));
    }
  }

  lemma ScaleTerm(s: real, x: real, y: real, z: real)
    ensures s * (x + y * z) == s * x + (s * y) * z
    ensures s * (x + y * z) == s * x + y * (s * z)
  {
    var p := y * z;
    assert s * (x + p) == s * x + s * p;
    assert s * p == (s * y) * z;
    assert s * p == y * (s * z);
  }

  lemma {:induction false} DotScaleLeft(s: real, a: Matrix, b: Matrix, i: int, j: int, n: nat)
    ensures Dot(Scale(s, a), b, i, j, n) == s * Dot(a, b, i, j, n)
  {
    if n > 0 {
      DotScaleLeft(s, a, b, i, j, n - 1);
      ScaleTerm(s, Dot(a, b, i, j, n - 1), At(a, i, n - 1), At(b, n - 1, j));
      ScaleAt(s, a, i, n - 1);
    }
  }

  lemma {:induction false} DotScaleRight(s: real, a: Matrix, b: Matrix, i: int, j: int, n: nat)
    ensures Dot(a, Scale(s, b), i, j, n) == s * Dot(a, b, i, j, n)
  {
    if n > 0 {
      DotScaleRight(s, a, b, i, j, n - 1);
      ScaleTerm(s, Dot(a, b, i, j, n - 1), At(a, i, n - 1), At(b, n - 1, j));
      ScaleAt(s, b, n - 1, j);
    }
  }

  lemma ScaleAt(s: real, a: Matrix, i: int, j: int)
    ensures At(Scale(s, a), i, j) == s * At(a, i, j)
  {
  }

  lemma {:induction false} DotIdentity(a: Matrix, i: int, j: int, n: nat)
    ensures n <= a.cols && 0 <= j < n && 0 <= i < a.rows ==> Dot(a, Identity(a.cols), i, j, n) == At(a, i, j)
    ensures n <= a.cols && n <= j ==> Dot(a, Identity(a.cols), i, j, n) == 0.0
    ensures n <= a.rows && 0 <= i < n ==> Dot(Identity(a.rows), a, i, j, n) == At(a, i, j)
    ensures n <= a.rows && n <= i ==> Dot(Identity(a.rows), a, i, j, n) == 0.0
  {
    if n > 0 { DotIdentity(a, i, j, n - 1); }
  }

  lemma MulAddRight(a: Matrix, b: Matrix, c: Matrix)
    requires a.cols == b.rows == c.rows && b.cols == c.cols
    ensures Mul(a, Add(b, c)) == Add(Mul(a, b), Mul(a, c))
    ensures Mul(a, Sub(b, c)) == Sub(Mul(a, b), Mul(a, c))
  {
    forall i, j | 0 <= i < a.rows && 0 <= j < b.cols
      ensures At(Mul(a, Add(b, c)), i, j) == At(Add(Mul(a, b), Mul(a, c)), i, j)
      ensures At(Mul(a, Sub(b, c)), i, j) == At(Sub(Mul(a, b), Mul(a, c)), i, j)
    {
      DotAddRight(a, b, c, i, j, a.cols);
    }
    SameEntries(Mul(a, Add(b, c)), Add(Mul(a, b), Mul(a, c)));
    SameEntries(Mul(a, Sub(b, c)), Sub(Mul(a, b), Mul(a, c)));
  }

  lemma MulAddLeft(a: Matrix, b: Matrix, c: Matrix)
    requires a.cols == b.cols == c.rows && a.rows == b.rows
    ensures Mul(Add(a, b), c) == Add(Mul(a, c), Mul(b, c))
    ensures Mul(Sub(a, b), c) == Sub(Mul(a, c), Mul(b, c))
  {
    forall i, j | 0 <= i < a.rows && 0 <= j < c.cols
      ensures At(Mul(Add(a, b), c), i, j) == At(Add(Mul(a, c), Mul(b, c)), i, j)
      ensures At(Mul(Sub(a, b), c), i, j) == At(Sub(Mul(a, c), Mul(b, c)), i, j)
    {
      DotAddLeft(a, b, c, i, j, a.cols);
    }
    SameEntries(Mul(Add(a, b), c), Add(Mul(a, c), Mul(b, c)));
    SameEntries(Mul(Sub(a, b), c), Sub(Mul(a, c), Mul(b, c)));
  }

  lemma MulScaleLeft(s: real, a: Matrix, b: Matrix)
    requires a.cols == b.rows
    ensures Mul(Scale(s, a), b) == Scale(s, Mul(a, b))
  {
    forall i, j | 0 <= i < a.rows && 0 <= j < b.cols
      ensures At(Mul(Scale(s, a), b), i, j) == At(Scale(s, Mul(a, b)), i, j)
    {
      DotScaleLeft(s, a, b, i, j, a.cols);
    }
    SameEntries(Mul(Scale(s, a), b), Scale(s, Mul(a, b)));
  }

  lemma MulScale(s: real, a: Matrix, b: Matrix)
    requires a.cols == b.rows
    ensures Mul(Scale(s, a), b) == Scale(s, Mul(a, b)) == Mul(a, Scale(s, b))
  {
    MulScaleLeft(s, a, b);
    forall i, j | 0 <= i < a.rows && 0 <= j < b.cols
      ensures At(Mul(a, Scale(s, b)), i, j) == At(Scale(s, Mul(a, b)), i, j)
    {
      DotScaleRight(s, a, b, i, j, a.cols);
    }
    SameEntries(Mul(a, Scale(s, b)), Scale(s, Mul(a, b)));
  }

  lemma MulIdentity(a: Matrix)
    ensures Mul(a, Identity(a.cols)) == a
    ensures Mul(Identity(a.rows), a) == a
  {
    forall i, j | 0 <= i < a.rows && 0 <= j < a.cols
      ensures At(Mul(a, Identity(a.cols)), i, j) == At(a, i, j)
      ensures At(Mul(Identity(a.rows), a), i, j) == At(a, i, j)
    {
      DotIdentity(a, i, j, a.cols);
      DotIdentity(a, i, j, a.rows);
    }
    SameEntries(Mul(a, Identity(a.cols)), a);
    SameEntries(Mul(Identity(a.rows), a), a);
  }

  // ---- Sums and differences -------------------------------------------------------------

  lemma AddZero(a: Matrix)
    ensures Add(a, Zero(a.rows, a.cols)) == a
    ensures Add(Zero(a.rows, a.cols), a) == a
    ensures Sub(a, Zero(a.rows, a.cols)) == a
  {
    SameEntries(Add(a, Zero(a.rows, a.cols)), a);
    SameEntries(Add(Zero(a.rows, a.cols), a), a);
    SameEntries(Sub(a, Zero(a.rows, a.cols)), a);
  }

  lemma AddAssoc(a: Matrix, b: Matrix, c: Matrix)
    requires a.rows == b.rows == c.rows && a.cols == b.cols == c.cols
    ensures Add(Add(a, b), c) == Add(a, Add(b, c))
    ensures Add(a, b) == Add(b, a)
  {
    SameEntries(Add(Add(a, b), c), Add(a, Add(b, c)));
    SameEntries(Add(a, b), Add(b, a));
  }

  lemma SubCancels(a: Matrix, b: Matrix)
    requires a.rows == b.rows && a.cols == b.cols
    ensures Add(Sub(a, b), b) == a
    ensures Sub(Add(a, b), b) == a
  {
    SameEntries(Add(Sub(a, b), b), a);
    SameEntries(Sub(Add(a, b), b), a);
  }

  lemma OuterAt(h: Matrix, i: int, j: int)
    requires h.cols == 1 && 0 <= i < h.rows && 0 <= j < h.rows
    ensures At(Mul(h, Transpose(h)), i, j) == At(h, i, 0) * At(h, j, 0)
  {
    var t := Transpose(h);
    assert Dot(h, t, i, j, 1) == Dot(h, t, i, j, 0) + At(h, i, 0) * At(t, 0, j);
  }

  lemma ScaleZero(a: Matrix)
    ensures Scale(0.0, a) == Zero(a.rows, a.cols)
  {
    SameEntries(Scale(0.0, a), Zero(a.rows, a.cols));
  }

  lemma ScaleOne(a: Matrix)
    ensures Scale(1.0, a) == a
  {
    SameEntries(Scale(1.0, a), a);
  }

  lemma SubSelf(a: Matrix)
    ensures Sub(a, a) == Zero(a.rows, a.cols)
  {
    SameEntries(Sub(a, a), Zero(a.rows, a.cols));
  }

  lemma ScaleOfZero(c: real, rows: nat, cols: nat)
    ensures Scale(c, Zero(rows, cols)) == Zero(rows, cols)
  {
    SameEntries(Scale(c, Zero(rows, cols)), Zero(rows, cols));
  }

  lemma ScaleTwice(c: real, d: real, a: Matrix)
    requires c * d == 1.0
    ensures Scale(c, Scale(d, a)) == a
  {
    forall i, j | 0 <= i < a.rows && 0 <= j < a.cols ensures At(Scale(c, Scale(d, a)), i, j) == At(a, i, j) {
      var x := At(a, i, j);
      assert c * (d * x) == (c * d) * x;
    }
    SameEntries(Scale(c, Scale(d, a)), a);
  }

  lemma ScaleAdd(c: real, a: Matrix, b: Matrix)
    requires a.rows == b.rows && a.cols == b.cols
    ensures Scale(c, Add(a, b)) == Add(Scale(c, a), Scale(c, b))
  {
    SameEntries(Scale(c, Add(a, b)), Add(Scale(c, a), Scale(c, b)));
  }

  lemma ScaledSame(c: real, a: Matrix, b: Matrix)
    requires c > 0.0 && Scale(c, a) == Scale(c, b)
    ensures a == b
  {
    hide Scale;
    assert 1.0 / c * c == 1.0;
    ScaleTwice(1.0 / c, c, a);
    ScaleTwice(1.0 / c, c, b);
  }

  lemma ZeroMul(n: nat, b: Matrix)
    ensures Mul(Zero(n, b.rows), b) == Zero(n, b.cols)
  {
    var zero := Zero(n, b.rows);
    ScaleOfZero(0.0, n, b.rows);
    MulScale(0.0, zero, b);
    ScaleZero(Mul(zero, b));
  }

  lemma MulZeroMatrix(h: Matrix, n: nat)
    ensures Mul(h, Zero(h.cols, n)) == Zero(h.rows, n)
  {
    var zero := Zero(h.cols, n);
    ScaleOfZero(0.0, h.cols, n);
    MulScale(0.0, h, zero);
    ScaleZero(Mul(h, zero));
  }

  // ---- Columns ----------------------------------------------------------------------------

  function ColumnOf(m: Matrix, j: nat): (c: Matrix)
    ensures c.rows == m.rows && c.cols == 1
  {
    Build(m.rows, 1, (i, k) => At(m, i, j))
  }

  lemma {:induction false} DotOfColumn(a: Matrix, b: Matrix, i: int, j: nat, n: nat)
    requires n <= b.rows
    ensures Dot(a, ColumnOf(b, j), i, 0, n) == Dot(a, b, i, j, n)
  {
    if n > 0 {
      DotOfColumn(a, b, i, j, n - 1);
    }
  }

  lemma ColumnOfMul(a: Matrix, b: Matrix, j: nat)
    requires a.cols == b.rows && j < b.cols
    ensures ColumnOf(Mul(a, b), j) == Mul(a, ColumnOf(b, j))
  {
    forall i, k | 0 <= i < a.rows && 0 <= k < 1
      ensures At(ColumnOf(Mul(a, b), j), i, k) == At(Mul(a, ColumnOf(b, j)), i, k)
    {
      DotOfColumn(a, b, i, j, a.cols);
    }
    SameEntries(ColumnOf(Mul(a, b), j), Mul(a, ColumnOf(b, j)));
  }

  lemma SameColumns(a: Matrix, b: Matrix)
    requires a.rows == b.rows && a.cols == b.cols
    requires forall j: nat | j < a.cols :: ColumnOf(a, j) == ColumnOf(b, j)
    ensures a == b
  {
    forall i, j | 0 <= i < a.rows && 0 <= j < a.cols ensures At(a, i, j) == At(b, i, j) {
      assert At(ColumnOf(a, j), i, 0) == At(ColumnOf(b, j), i, 0);
    }
    SameEntries(a, b);
  }
}
