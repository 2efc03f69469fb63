/** Matrices put together from blocks. */
module BlockMatrices {
  import opened Matrices

  function Below(a: Matrix, b: Matrix): (m: Matrix)
    requires a.cols == b.cols
    ensures m.rows == a.rows + b.rows && m.cols == a.cols
  {
    Build(a.rows + b.rows, a.cols, (i, j) => if i < a.rows then At(a, i, j) else At(b, i - a.rows, j))
  }

  function Beside(a: Matrix, b: Matrix): (m: Matrix)
    requires a.rows == b.rows
    ensures m.rows == a.rows && m.cols == a.cols + b.cols
  {
    Build(a.rows, a.cols + b.cols, (i, j) => if j < a.cols then At(a, i, j) else At(b, i, j - a.cols))
  }

  /** Two blocks on the diagonal, zero elsewhere. */
  function Corners(a: Matrix, b: Matrix): (m: Matrix)
    ensures m.rows == a.rows + b.rows && m.cols == a.cols + b.cols
  {
    Below(Beside(a, Zero(a.rows, b.cols)), Beside(Zero(b.rows, a.cols), b))
  }

  lemma {:induction false} SameDot(a: Matrix, b: Matrix, i: int, j: int, c: Matrix, d: Matrix, k: int, l: int, n: nat)
    requires forall t | 0 <= t < n :: At(a, i, t) == At(c, k, t) && At(b, t, j) == At(d, t, l)
    ensures Dot(a, b, i, j, n) == Dot(c, d, k, l, n)
  {
    if n > 0 {
      SameDot(a, b, i, j, c, d, k, l, n - 1);
      assert At(a, i, n - 1) == At(c, k, n - 1);
    }
  }

  /** From place m on, n products are those of other matrices. */
  predicate Continues(a: Matrix, b: Matrix, i: int, j: int, m: nat, c: Matrix, d: Matrix, k: int, l: int, n: nat) {
    forall t, u | 0 <= t < n && u == m + t :: At(a, i, u) == At(c, k, t) && At(b, u, j) == At(d, t, l)
  }

  lemma {:induction false} SplitDot(a: Matrix, b: Matrix, i: int, j: int, m: nat, c: Matrix, d: Matrix, k: int, l: int,
                                    n: nat)
    requires Continues(a, b, i, j, m, c, d, k, l, n)
    ensures Dot(a, b, i, j, m + n) == Dot(a, b, i, j, m) + Dot(c, d, k, l, n)
  {
    if n > 0 {
      SplitDot(a, b, i, j, m, c, d, k, l, n - 1);
      assert At(a, i, m + (n - 1)) == At(c, k, n - 1);
    }
  }

  lemma BelowAt(a: Matrix, b: Matrix, i: int, j: int)
    requires a.cols == b.cols
    ensures i < a.rows ==> At(Below(a, b), i, j) == At(a, i, j)
    ensures i >= a.rows ==> At(Below(a, b), i, j) == At(b, i - a.rows, j)
  {
  }

  lemma BesideAt(a: Matrix, b: Matrix, i: int, j: int)
    requires a.rows == b.rows
    ensures j < a.cols ==> At(Beside(a, b), i, j) == At(a, i, j)
    ensures j >= a.cols ==> At(Beside(a, b), i, j) == At(b, i, j - a.cols)
  {
  }

  lemma CornersAt(a: Matrix, b: Matrix, i: int, j: int)
    ensures At(Corners(a, b), i, j) == if i < a.rows then (if j < a.cols then At(a, i, j) else 0.0)
                                       else if j < a.cols then 0.0 else At(b, i - a.rows, j - a.cols)
  {
    var upper, lower := Zero(a.rows, b.cols), Zero(b.rows, a.cols);
    BelowAt(Beside(a, upper), Beside(lower, b), i, j);
    BesideAt(a, upper, i, j);
    BesideAt(lower, b, i - a.rows, j);
    hide Below, Beside;
  }

  lemma ProductAt(a: Matrix, b: Matrix, i: int, j: int)
    requires a.cols == b.rows && 0 <= i < a.rows && 0 <= j < b.cols
    ensures At(Mul(a, b), i, j) == Dot(a, b, i, j, a.cols)
  {
  }

  lemma BelowMul(a: Matrix, b: Matrix, x: Matrix)
    requires a.cols == b.cols == x.rows
    ensures Mul(Below(a, b), x) == Below(Mul(a, x), Mul(b, x))
  {
    hide Mul, Below, At;
    var left, right := Mul(Below(a, b), x), Below(Mul(a, x), Mul(b, x));
    forall i, j | 0 <= i < left.rows && 0 <= j < x.cols ensures At(left, i, j) == At(right, i, j) {
      BelowAt(Mul(a, x), Mul(b, x), i, j);
      ProductAt(Below(a, b), x, i, j);
      forall t | 0 <= t < x.rows
        ensures At(Below(a, b), i, t) == if i < a.rows then At(a, i, t) else At(b, i - a.rows, t)
      {
        BelowAt(a, b, i, t);
      }
      if i < a.rows {
        SameDot(Below(a, b), x, i, j, a, x, i, j, x.rows);
        ProductAt(a, x, i, j);
      } else {
        SameDot(Below(a, b), x, i, j, b, x, i - a.rows, j, x.rows);
        ProductAt(b, x, i - a.rows, j);
      }
    }
    SameEntries(left, right);
  }

  lemma MulBeside(x: Matrix, a: Matrix, b: Matrix)
    requires a.rows == b.rows == x.cols
    ensures Mul(x, Beside(a, b)) == Beside(Mul(x, a), Mul(x, b))
  {
    hide Mul, Beside, At;
    var left, right := Mul(x, Beside(a, b)), Beside(Mul(x, a), Mul(x, b));
    forall i, j | 0 <= i < x.rows && 0 <= j < left.cols ensures At(left, i, j) == At(right, i, j) {
      BesideAt(Mul(x, a), Mul(x, b), i, j);
      ProductAt(x, Beside(a, b), i, j);
      forall t | 0 <= t < x.cols
        ensures At(Beside(a, b), t, j) == if j < a.cols then At(a, t, j) else At(b, t, j - a.cols)
      {
        BesideAt(a, b, t, j);
      }
      if j < a.cols {
        SameDot(x, Beside(a, b), i, j, x, a, i, j, x.cols);
        ProductAt(x, a, i, j);
      } else {
        SameDot(x, Beside(a, b), i, j, x, b, i, j - a.cols, x.cols);
        ProductAt(x, b, i, j - a.cols);
      }
    }
    SameEntries(left, right);
  }

  lemma BesideDotBelow(u: Matrix, v: Matrix, a: Matrix, b: Matrix, i: int, j: int)
    requires u.rows == v.rows && a.cols == b.cols && u.cols == a.rows && v.cols == b.rows
    ensures Dot(Beside(u, v), Below(a, b), i, j, u.cols + v.cols) == Dot(u, a, i, j, u.cols) + Dot(v, b, i, j, v.cols)
  {
    hide Beside, Below, At;
    BesideContinues(u, v, a, b, i, j);
    hide Dot, Continues;
    SplitDot(Beside(u, v), Below(a, b), i, j, u.cols, v, b, i, j, v.cols);
    BesideDotStart(u, v, a, b, i, j);
  }

  lemma BesideContinues(u: Matrix, v: Matrix, a: Matrix, b: Matrix, i: int, j: int)
    requires u.rows == v.rows && a.cols == b.cols && u.cols == a.rows && v.cols == b.rows
    ensures Continues(Beside(u, v), Below(a, b), i, j, u.cols, v, b, i, j, v.cols)
  {
    hide Beside, Below, At;
    var row, column := Beside(u, v), Below(a, b);
    forall t, s | 0 <= t < v.cols && s == u.cols + t
      ensures At(row, i, s) == At(v, i, t) && At(column, s, j) == At(b, t, j)
    {
      BesideAt(u, v, i, s);
      BelowAt(a, b, s, j);
    }
  }

  lemma BesideDotStart(u: Matrix, v: Matrix, a: Matrix, b: Matrix, i: int, j: int)
    requires u.rows == v.rows && a.cols == b.cols && u.cols == a.rows
    ensures Dot(Beside(u, v), Below(a, b), i, j, u.cols) == Dot(u, a, i, j, u.cols)
  {
    hide Beside, Below, At;
    forall t | 0 <= t < u.cols
      ensures At(Beside(u, v), i, t) == At(u, i, t) && At(Below(a, b), t, j) == At(a, t, j)
    {
      BesideAt(u, v, i, t);
      BelowAt(a, b, t, j);
    }
    SameDot(Beside(u, v), Below(a, b), i, j, u, a, i, j, u.cols);
  }

  lemma BesideTimesBelow(u: Matrix, v: Matrix, a: Matrix, b: Matrix)
    requires u.rows == v.rows && a.cols == b.cols && u.cols == a.rows && v.cols == b.rows
    ensures Mul(Beside(u, v), Below(a, b)) == Add(Mul(u, a), Mul(v, b))
  {
    hide Beside, Below;
    var left, right := Mul(Beside(u, v), Below(a, b)), Add(Mul(u, a), Mul(v, b));
    forall i, j | 0 <= i < u.rows && 0 <= j < a.cols ensures At(left, i, j) == At(right, i, j) {
      BesideDotBelow(u, v, a, b, i, j);
    }
    SameEntries(left, right);
  }

  lemma TransposeBelow(a: Matrix, b: Matrix)
    requires a.cols == b.cols
    ensures Transpose(Below(a, b)) == Beside(Transpose(a), Transpose(b))
  {
    SameEntries(Transpose(Below(a, b)), Beside(Transpose(a), Transpose(b)));
  }

  lemma CornersTimesBelow(a: Matrix, b: Matrix, x: Matrix, y: Matrix)
    requires a.cols == x.rows && b.cols == y.rows && x.cols == y.cols
    ensures Mul(Corners(a, b), Below(x, y)) == Below(Mul(a, x), Mul(b, y))
  {
    hide Mul, Add, Below, Beside, Zero;
    var upper, lower := Zero(a.rows, b.cols), Zero(b.rows, a.cols);
    BelowMul(Beside(a, upper), Beside(lower, b), Below(x, y));
    BesideTimesBelow(a, upper, x, y);
    BesideTimesBelow(lower, b, x, y);
    ZeroMul(a.rows, y);
    ZeroMul(b.rows, x);
    AddZero(Mul(a, x));
    AddZero(Mul(b, y));
  }

  lemma CornersMul(a: Matrix, b: Matrix, c: Matrix, d: Matrix)
    requires a.cols == c.rows && b.cols == d.rows
    ensures Mul(Corners(a, b), Corners(c, d)) == Corners(Mul(a, c), Mul(b, d))
  {
    hide Mul, Below, Beside, Zero;
    CornersTimesBelow(a, b, Beside(c, Zero(c.rows, d.cols)), Beside(Zero(d.rows, c.cols), d));
    MulBeside(a, c, Zero(c.rows, d.cols));
    MulBeside(b, Zero(d.rows, c.cols), d);
    MulZeroMatrix(a, d.cols);
    MulZeroMatrix(b, c.cols);
  }

  lemma IdentityCorners(m: nat, n: nat)
    ensures Corners(Identity(m), Identity(n)) == Identity(m + n)
  {
    hide Corners;
    forall i, j | 0 <= i < m + n && 0 <= j < m + n
      ensures At(Corners(Identity(m), Identity(n)), i, j) == At(Identity(m + n), i, j)
    {
      CornersAt(Identity(m), Identity(n), i, j);
    }
    SameEntries(Corners(Identity(m), Identity(n)), Identity(m + n));
  }

  lemma TransposeCorners(a: Matrix, b: Matrix)
    ensures Transpose(Corners(a, b)) == Corners(Transpose(a), Transpose(b))
  {
    hide Corners;
    forall i, j | 0 <= i < a.cols + b.cols && 0 <= j < a.rows + b.rows
      ensures At(Transpose(Corners(a, b)), i, j) == At(Corners(Transpose(a), Transpose(b)), i, j)
    {
      CornersAt(a, b, j, i);
      CornersAt(Transpose(a), Transpose(b), i, j);
    }
    SameEntries(Transpose(Corners(a, b)), Corners(Transpose(a), Transpose(b)));
  }
}
