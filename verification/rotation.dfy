/** Vectors, 3x3 matrices and unit quaternions over exact reals. */
module Rotations {
  datatype Vec = Vec(x: real, y: real, z: real) {
    function Plus(v: Vec): Vec { Vec(x + v.x, y + v.y, z + v.z) }
    function Minus(v: Vec): Vec { Vec(x - v.x, y - v.y, z - v.z) }
    function Times(c: real): Vec { Vec(x * c, y * c, z * c) }
    function Inner(v: Vec): real { Row(x, y, z, v.x, v.y, v.z) }
    function Cross(v: Vec): Vec { Vec(y * v.z - z * v.y, z * v.x - x * v.z, x * v.y - y * v.x) }
  }

  lemma ProductVanishes(x: real, c: real)
    requires c > 0.0
    ensures x * c == 0.0 <==> x == 0.0
  {
  }

  function Row(a: real, b: real, c: real, x: real, y: real, z: real): real { a * x + b * y + c * z }

  const ZeroVec := Vec(0.0, 0.0, 0.0)

  datatype Mat3 = Mat3(r0: Vec, r1: Vec, r2: Vec) {
    function Apply(v: Vec): Vec { Vec(r0.Inner(v), r1.Inner(v), r2.Inner(v)) }
    function Plus(m: Mat3): Mat3 { Mat3(r0.Plus(m.r0), r1.Plus(m.r1), r2.Plus(m.r2)) }
    function Minus(m: Mat3): Mat3 { Mat3(r0.Minus(m.r0), r1.Minus(m.r1), r2.Minus(m.r2)) }
    function Times(c: real): Mat3 { Mat3(r0.Times(c), r1.Times(c), r2.Times(c)) }
    function Transposed(): Mat3 {
      Mat3(Vec(r0.x, r1.x, r2.x), Vec(r0.y, r1.y, r2.y), Vec(r0.z, r1.z, r2.z))
    }
    function Mul(m: Mat3): Mat3 {
      var t := m.Transposed();
      Mat3(t.Apply(r0), t.Apply(r1), t.Apply(r2))
    }
  }

  const ZeroMat := Mat3(ZeroVec, ZeroVec, ZeroVec)
  const IdentityMat := Mat3(Vec(1.0, 0.0, 0.0), Vec(0.0, 1.0, 0.0), Vec(0.0, 0.0, 1.0))

  function Skew(v: Vec): Mat3 { Mat3(Vec(0.0, -v.z, v.y), Vec(v.z, 0.0, -v.x), Vec(-v.y, v.x, 0.0)) }

  // Hamilton's product, one component at a time.

  function ProductW(a: real, b: real, c: real, d: real, e: real, f: real, g: real, h: real): real {
    a * e - b * f - c * g - d * h
  }

  function ProductX(a: real, b: real, c: real, d: real, e: real, f: real, g: real, h: real): real {
    a * f + b * e + c * h - d * g
  }

  function ProductY(a: real, b: real, c: real, d: real, e: real, f: real, g: real, h: real): real {
    a * g - b * h + c * e + d * f
  }

  function ProductZ(a: real, b: real, c: real, d: real, e: real, f: real, g: real, h: real): real {
    a * h + b * g - c * f + d * e
  }

  function SquareSum(w: real, x: real, y: real, z: real): real { w * w + x * x + y * y + z * z }

  /** Eigen's toRotationMatrix. */
  function MatrixOf(w: real, x: real, y: real, z: real): Mat3 {
    Mat3(Vec(1.0 - 2.0 * (y * y + z * z), 2.0 * (x * y - w * z), 2.0 * (x * z + w * y)),
         Vec(2.0 * (x * y + w * z), 1.0 - 2.0 * (x * x + z * z), 2.0 * (y * z - w * x)),
         Vec(2.0 * (x * z - w * y), 2.0 * (y * z + w * x), 1.0 - 2.0 * (x * x + y * y)))
  }

  datatype Quat = Quat(w: real, x: real, y: real, z: real) {
    function Norm(): real { SquareSum(w, x, y, z) }

    function Conjugate(): Quat { Quat(w, -x, -y, -z) }

    function Negated(): Quat { Quat(-w, -x, -y, -z) }

    function Mul(q: Quat): Quat {
      Quat(ProductW(w, x, y, z, q.w, q.x, q.y, q.z), ProductX(w, x, y, z, q.w, q.x, q.y, q.z),
           ProductY(w, x, y, z, q.w, q.x, q.y, q.z), ProductZ(w, x, y, z, q.w, q.x, q.y, q.z))
    }

    function Matrix(): Mat3 { MatrixOf(w, x, y, z) }

    function Rotate(v: Vec): Vec { Matrix().Apply(v) }
  }

  /** Unit quaternions; normalising one changes nothing. */
  type Rotation = q: Quat | q.Norm() == 1.0 witness Quat(1.0, 0.0, 0.0, 0.0)

  const NoRotation: Rotation := Quat(1.0, 0.0, 0.0, 0.0)

  function Pure(v: Vec): Quat { Quat(0.0, v.x, v.y, v.z) }

  // The product is associative, one component at a time.

  lemma AssociativeW(a: real, b: real, c: real, d: real, e: real, f: real, g: real, h: real,
                     p: real, q: real, r: real, s: real)
    ensures ProductW(ProductW(a, b, c, d, e, f, g, h), ProductX(a, b, c, d, e, f, g, h),
                     ProductY(a, b, c, d, e, f, g, h), ProductZ(a, b, c, d, e, f, g, h), p, q, r, s)
         == ProductW(a, b, c, d, ProductW(e, f, g, h, p, q, r, s), ProductX(e, f, g, h, p, q, r, s),
                     ProductY(e, f, g, h, p, q, r, s), ProductZ(e, f, g, h, p, q, r, s))
  {
    assert ProductW(a * e - b * f - c * g - d * h, a * f + b * e + c * h - d * g,
                    a * g - b * h + c * e + d * f, a * h + b * g - c * f + d * e, p, q, r, s)
        == ProductW(a, b, c, d, e * p - f * q - g * r - h * s, e * q + f * p + g * s - h * r,
                    e * r - f * s + g * p + h * q, e * s + f * r - g * q + h * p);
  }

  lemma AssociativeX(a: real, b: real, c: real, d: real, e: real, f: real, g: real, h: real,
                     p: real, q: real, r: real, s: real)
    ensures ProductX(ProductW(a, b, c, d, e, f, g, h), ProductX(a, b, c, d, e, f, g, h),
                     ProductY(a, b, c, d, e, f, g, h), ProductZ(a, b, c, d, e, f, g, h), p, q, r, s)
         == ProductX(a, b, c, d, ProductW(e, f, g, h, p, q, r, s), ProductX(e, f, g, h, p, q, r, s),
                     ProductY(e, f, g, h, p, q, r, s), ProductZ(e, f, g, h, p, q, r, s))
  {
    assert ProductX(a * e - b * f - c * g - d * h, a * f + b * e + c * h - d * g,
                    a * g - b * h + c * e + d * f, a * h + b * g - c * f + d * e, p, q, r, s)
        == ProductX(a, b, c, d, e * p - f * q - g * r - h * s, e * q + f * p + g * s - h * r,
                    e * r - f * s + g * p + h * q, e * s + f * r - g * q + h * p);
  }

  lemma AssociativeY(a: real, b: real, c: real, d: real, e: real, f: real, g: real, h: real,
                     p: real, q: real, r: real, s: real)
    ensures ProductY(ProductW(a, b, c, d, e, f, g, h), ProductX(a, b, c, d, e, f, g, h),
                     ProductY(a, b, c, d, e, f, g, h), ProductZ(a, b, c, d, e, f, g, h), p, q, r, s)
         == ProductY(a, b, c, d, ProductW(e, f, g, h, p, q, r, s), ProductX(e, f, g, h, p, q, r, s),
                     ProductY(e, f, g, h, p, q, r, s), ProductZ(e, f, g, h, p, q, r, s))
  {
    assert ProductY(a * e - b * f - c * g - d * h, a * f + b * e + c * h - d * g,
                    a * g - b * h + c * e + d * f, a * h + b * g - c * f + d * e, p, q, r, s)
        == ProductY(a, b, c, d, e * p - f * q - g * r - h * s, e * q + f * p + g * s - h * r,
                    e * r - f * s + g * p + h * q, e * s + f * r - g * q + h * p);
  }

  lemma AssociativeZ(a: real, b: real, c: real, d: real, e: real, f: real, g: real, h: real,
                     p: real, q: real, r: real, s: real)
    ensures ProductZ(ProductW(a, b, c, d, e, f, g, h), ProductX(a, b, c, d, e, f, g, h),
                     ProductY(a, b, c, d, e, f, g, h), ProductZ(a, b, c, d, e, f, g, h), p, q, r, s)
         == ProductZ(a, b, c, d, ProductW(e, f, g, h, p, q, r, s), ProductX(e, f, g, h, p, q, r, s),
                     ProductY(e, f, g, h, p, q, r, s), ProductZ(e, f, g, h, p, q, r, s))
  {
    assert ProductZ(a * e - b * f - c * g - d * h, a * f + b * e + c * h - d * g,
                    a * g - b * h + c * e + d * f, a * h + b * g - c * f + d * e, p, q, r, s)
        == ProductZ(a, b, c, d, e * p - f * q - g * r - h * s, e * q + f * p + g * s - h * r,
                    e * r - f * s + g * p + h * q, e * s + f * r - g * q + h * p);
  }

  lemma MulAssoc(a: Quat, b: Quat, c: Quat)
    ensures a.Mul(b).Mul(c) == a.Mul(b.Mul(c))
  {
    hide ProductW, ProductX, ProductY, ProductZ;
    AssociativeW(a.w, a.x, a.y, a.z, b.w, b.x, b.y, b.z, c.w, c.x, c.y, c.z);
    AssociativeX(a.w, a.x, a.y, a.z, b.w, b.x, b.y, b.z, c.w, c.x, c.y, c.z);
    AssociativeY(a.w, a.x, a.y, a.z, b.w, b.x, b.y, b.z, c.w, c.x, c.y, c.z);
    AssociativeZ(a.w, a.x, a.y, a.z, b.w, b.x, b.y, b.z, c.w, c.x, c.y, c.z);
  }

  lemma ConjugateMul(a: Quat, b: Quat)
    ensures a.Mul(b).Conjugate() == b.Conjugate().Mul(a.Conjugate())
  {
    ConjugateProduct(a.w, a.x, a.y, a.z, b.w, b.x, b.y, b.z);
  }

  lemma ConjugateProduct(a: real, b: real, c: real, d: real, e: real, f: real, g: real, h: real)
    ensures ProductW(e, -f, -g, -h, a, -b, -c, -d) == ProductW(a, b, c, d, e, f, g, h)
    ensures ProductX(e, -f, -g, -h, a, -b, -c, -d) == -ProductX(a, b, c, d, e, f, g, h)
    ensures ProductY(e, -f, -g, -h, a, -b, -c, -d) == -ProductY(a, b, c, d, e, f, g, h)
    ensures ProductZ(e, -f, -g, -h, a, -b, -c, -d) == -ProductZ(a, b, c, d, e, f, g, h)
  {
  }

  lemma FourSquares(a: real, b: real, c: real, d: real, e: real, f: real, g: real, h: real)
    ensures SquareSum(a * e - b * f - c * g - d * h, a * f + b * e + c * h - d * g,
                      a * g - b * h + c * e + d * f, a * h + b * g - c * f + d * e)
         == (a * a + b * b + c * c + d * d) * (e * e + f * f + g * g + h * h)
  {
  }

  lemma EqualProducts(x: real, y: real, u: real, v: real)
    requires x == u && y == v
    ensures x * y == u * v
  {
  }

  lemma NormProduct(a: real, b: real, c: real, d: real, e: real, f: real, g: real, h: real)
    ensures SquareSum(ProductW(a, b, c, d, e, f, g, h), ProductX(a, b, c, d, e, f, g, h),
                      ProductY(a, b, c, d, e, f, g, h), ProductZ(a, b, c, d, e, f, g, h))
         == SquareSum(a, b, c, d) * SquareSum(e, f, g, h)
  {
    FourSquares(a, b, c, d, e, f, g, h);
    var m, n := SquareSum(a, b, c, d), SquareSum(e, f, g, h);
    assert m == a * a + b * b + c * c + d * d && n == e * e + f * f + g * g + h * h;
    hide SquareSum;
    EqualProducts(m, n, a * a + b * b + c * c + d * d, e * e + f * f + g * g + h * h);
  }

  lemma NormMul(a: Quat, b: Quat)
    ensures a.Mul(b).Norm() == a.Norm() * b.Norm()
  {
    hide ProductW, ProductX, ProductY, ProductZ, SquareSum;
    NormProduct(a.w, a.x, a.y, a.z, b.w, b.x, b.y, b.z);
  }

  lemma ConjugateProducts(a: real, b: real, c: real, d: real)
    ensures ProductW(a, -b, -c, -d, a, b, c, d) == a * a + b * b + c * c + d * d == ProductW(a, b, c, d, a, -b, -c, -d)
    ensures ProductX(a, -b, -c, -d, a, b, c, d) == 0.0 == ProductX(a, b, c, d, a, -b, -c, -d)
    ensures ProductY(a, -b, -c, -d, a, b, c, d) == 0.0 == ProductY(a, b, c, d, a, -b, -c, -d)
    ensures ProductZ(a, -b, -c, -d, a, b, c, d) == 0.0 == ProductZ(a, b, c, d, a, -b, -c, -d)
  {
  }

  lemma ConjugateInverse(q: Rotation)
    ensures q.Conjugate().Norm() == 1.0
    ensures q.Conjugate().Mul(q) == NoRotation == q.Mul(q.Conjugate())
  {
    ConjugateProducts(q.w, q.x, q.y, q.z);
  }

  lemma NoRotationNeutral(q: Quat)
    ensures NoRotation.Mul(q) == q == q.Mul(NoRotation)
  {
  }

  /** The product of unit quaternions is one. */
  function Compose(a: Rotation, b: Rotation): (c: Rotation) {
    NormMul(a, b);
    a.Mul(b)
  }

  function Inverse(q: Rotation): (r: Rotation) {
    ConjugateInverse(q);
    q.Conjugate()
  }

  // For a unit quaternion, q v q* is the rotation of v by q's matrix.

  lemma TimesConjugate(w: real, x: real, y: real, z: real, a: real, b: real, c: real, d: real)
    ensures ProductW(w, x, y, z, a, -b, -c, -d) == w * a + x * b + y * c + z * d
    ensures ProductX(w, x, y, z, a, -b, -c, -d) == x * a - w * b - y * d + z * c
    ensures ProductY(w, x, y, z, a, -b, -c, -d) == y * a - w * c - z * b + x * d
    ensures ProductZ(w, x, y, z, a, -b, -c, -d) == z * a - w * d - x * c + y * b
  {
  }

  lemma ExpandedW(a: real, b: real, c: real, d: real, x: real, y: real, z: real)
    ensures (-(b * x) - c * y - d * z) * a + (a * x + c * z - d * y) * b
          + (a * y - b * z + d * x) * c + (a * z + b * y - c * x) * d
         == 0.0
  {
  }

  lemma ExpandedX(a: real, b: real, c: real, d: real, x: real, y: real, z: real)
    ensures (a * x + c * z - d * y) * a - (-(b * x) - c * y - d * z) * b
          - (a * y - b * z + d * x) * d + (a * z + b * y - c * x) * c
         == (a * a + b * b - c * c - d * d) * x + 2.0 * (b * c - a * d) * y + 2.0 * (b * d + a * c) * z
  {
  }

  lemma ExpandedY(a: real, b: real, c: real, d: real, x: real, y: real, z: real)
    ensures (a * y - b * z + d * x) * a - (-(b * x) - c * y - d * z) * c
          - (a * z + b * y - c * x) * b + (a * x + c * z - d * y) * d
         == 2.0 * (b * c + a * d) * x + (a * a - b * b + c * c - d * d) * y + 2.0 * (c * d - a * b) * z
  {
  }

  lemma ExpandedZ(a: real, b: real, c: real, d: real, x: real, y: real, z: real)
    ensures (a * z + b * y - c * x) * a - (-(b * x) - c * y - d * z) * d
          - (a * x + c * z - d * y) * c + (a * y - b * z + d * x) * b
         == 2.0 * (b * d - a * c) * x + 2.0 * (c * d + a * b) * y + (a * a - b * b - c * c + d * d) * z
  {
  }

  lemma SandwichW(a: real, b: real, c: real, d: real, x: real, y: real, z: real)
    ensures ProductW(ProductW(a, b, c, d, 0.0, x, y, z), ProductX(a, b, c, d, 0.0, x, y, z),
                     ProductY(a, b, c, d, 0.0, x, y, z), ProductZ(a, b, c, d, 0.0, x, y, z), a, -b, -c, -d)
         == 0.0
  {
    TimesConjugate(-(b * x) - c * y - d * z, a * x + c * z - d * y, a * y - b * z + d * x, a * z + b * y - c * x,
                   a, b, c, d);
    ExpandedW(a, b, c, d, x, y, z);
  }

  lemma SandwichX(a: real, b: real, c: real, d: real, x: real, y: real, z: real)
    ensures ProductX(ProductW(a, b, c, d, 0.0, x, y, z), ProductX(a, b, c, d, 0.0, x, y, z),
                     ProductY(a, b, c, d, 0.0, x, y, z), ProductZ(a, b, c, d, 0.0, x, y, z), a, -b, -c, -d)
         == Row(a * a + b * b - c * c - d * d, 2.0 * (b * c - a * d), 2.0 * (b * d + a * c), x, y, z)
  {
    TimesConjugate(-(b * x) - c * y - d * z, a * x + c * z - d * y, a * y - b * z + d * x, a * z + b * y - c * x,
                   a, b, c, d);
    ExpandedX(a, b, c, d, x, y, z);
  }

  lemma SandwichY(a: real, b: real, c: real, d: real, x: real, y: real, z: real)
    ensures ProductY(ProductW(a, b, c, d, 0.0, x, y, z), ProductX(a, b, c, d, 0.0, x, y, z),
                     ProductY(a, b, c, d, 0.0, x, y, z), ProductZ(a, b, c, d, 0.0, x, y, z), a, -b, -c, -d)
         == Row(2.0 * (b * c + a * d), a * a - b * b + c * c - d * d, 2.0 * (c * d - a * b), x, y, z)
  {
    TimesConjugate(-(b * x) - c * y - d * z, a * x + c * z - d * y, a * y - b * z + d * x, a * z + b * y - c * x,
                   a, b, c, d);
    ExpandedY(a, b, c, d, x, y, z);
  }

  lemma SandwichZ(a: real, b: real, c: real, d: real, x: real, y: real, z: real)
    ensures ProductZ(ProductW(a, b, c, d, 0.0, x, y, z), ProductX(a, b, c, d, 0.0, x, y, z),
                     ProductY(a, b, c, d, 0.0, x, y, z), ProductZ(a, b, c, d, 0.0, x, y, z), a, -b, -c, -d)
         == Row(2.0 * (b * d - a * c), 2.0 * (c * d + a * b), a * a - b * b - c * c + d * d, x, y, z)
  {
    TimesConjugate(-(b * x) - c * y - d * z, a * x + c * z - d * y, a * y - b * z + d * x, a * z + b * y - c * x,
                   a, b, c, d);
    ExpandedZ(a, b, c, d, x, y, z);
  }

  lemma UnitDiagonal(a: real, b: real, c: real, d: real)
    requires a * a + b * b + c * c + d * d == 1.0
    ensures 1.0 - 2.0 * (c * c + d * d) == a * a + b * b - c * c - d * d
    ensures 1.0 - 2.0 * (b * b + d * d) == a * a - b * b + c * c - d * d
    ensures 1.0 - 2.0 * (b * b + c * c) == a * a - b * b - c * c + d * d
  {
  }

  lemma UnitMatrix(a: real, b: real, c: real, d: real)
    requires a * a + b * b + c * c + d * d == 1.0
    ensures MatrixOf(a, b, c, d)
         == Mat3(Vec(a * a + b * b - c * c - d * d, 2.0 * (b * c - a * d), 2.0 * (b * d + a * c)),
                 Vec(2.0 * (b * c + a * d), a * a - b * b + c * c - d * d, 2.0 * (c * d - a * b)),
                 Vec(2.0 * (b * d - a * c), 2.0 * (c * d + a * b), a * a - b * b - c * c + d * d))
  {
    UnitDiagonal(a, b, c, d);
  }

  lemma SandwichIsRotation(q: Rotation, v: Vec)
    ensures q.Mul(Pure(v)).Mul(q.Conjugate()) == Pure(q.Rotate(v))
  {
    hide ProductW, ProductX, ProductY, ProductZ, Row, MatrixOf;
    var a, b, c, d := q.w, q.x, q.y, q.z;
    SandwichW(a, b, c, d, v.x, v.y, v.z);
    SandwichX(a, b, c, d, v.x, v.y, v.z);
    SandwichY(a, b, c, d, v.x, v.y, v.z);
    SandwichZ(a, b, c, d, v.x, v.y, v.z);
    UnitMatrix(a, b, c, d);
  }

  lemma RotateCompose(a: Rotation, b: Rotation, v: Vec)
    ensures Compose(a, b).Rotate(v) == a.Rotate(b.Rotate(v))
  {
    hide Quat.Mul, Quat.Rotate, Quat.Conjugate;
    var p, d, e := Pure(v), a.Conjugate(), b.Conjugate();
    SandwichIsRotation(Compose(a, b), v);
    SandwichIsRotation(b, v);
    SandwichIsRotation(a, b.Rotate(v));
    ConjugateMul(a, b);
    MulAssoc(a, b, p);
    MulAssoc(a.Mul(b.Mul(p)), e, d);
    MulAssoc(a, b.Mul(p), e);
  }

  lemma RotateByNone(v: Vec)
    ensures NoRotation.Rotate(v) == v
  {
  }

  lemma RotateInverse(q: Rotation, v: Vec)
    ensures Inverse(q).Rotate(q.Rotate(v)) == v == q.Rotate(Inverse(q).Rotate(v))
  {
    hide Quat.Mul, Quat.Rotate, Quat.Conjugate;
    ConjugateInverse(q);
    RotateCompose(Inverse(q), q, v);
    RotateCompose(q, Inverse(q), v);
    RotateByNone(v);
  }

  lemma SignsCancel(x: real, y: real, w: real)
    ensures (-x) * (-y) == x * y && w * (-x) == -(w * x)
  {
  }

  lemma ConjugateMatrix(w: real, x: real, y: real, z: real)
    ensures MatrixOf(w, -x, -y, -z) == MatrixOf(w, x, y, z).Transposed()
  {
    SignsCancel(x, x, w);
    SignsCancel(y, y, w);
    SignsCancel(z, z, w);
    SignsCancel(x, y, w);
    SignsCancel(x, z, w);
    SignsCancel(y, z, w);
  }

  lemma TransposeIsInverse(q: Quat)
    ensures q.Matrix().Transposed() == q.Conjugate().Matrix()
  {
    hide MatrixOf, Mat3.Transposed;
    ConjugateMatrix(q.w, q.x, q.y, q.z);
  }

  // Matrices act linearly.

  lemma InnerLinear(r: Vec, u: Vec, v: Vec, c: real)
    ensures r.Inner(u.Plus(v)) == r.Inner(u) + r.Inner(v)
    ensures r.Inner(u.Minus(v)) == r.Inner(u) - r.Inner(v)
    ensures r.Inner(u.Times(c)) == r.Inner(u) * c
  {
  }

  lemma ApplyLinear(m: Mat3, u: Vec, v: Vec, c: real)
    ensures m.Apply(u.Plus(v)) == m.Apply(u).Plus(m.Apply(v))
    ensures m.Apply(u.Minus(v)) == m.Apply(u).Minus(m.Apply(v))
    ensures m.Apply(u.Times(c)) == m.Apply(u).Times(c)
  {
    InnerLinear(m.r0, u, v, c);
    InnerLinear(m.r1, u, v, c);
    InnerLinear(m.r2, u, v, c);
    hide Vec.Inner;
  }

  // Which way rotations turn, and matrices as linear maps.

  lemma SkewIsCross(a: Vec, v: Vec)
    ensures Skew(a).Apply(v) == a.Cross(v)
  {
  }

  lemma TimesSum(x: real, y: real, u: real, v: real, a: real)
    ensures (x * y + u * v) * a == x * (y * a) + u * (v * a)
    ensures (x * y - u * v) * a == x * (y * a) - u * (v * a)
  {
    assert (x * y) * a == x * (y * a) && (u * v) * a == u * (v * a);
  }

  lemma TimesDifference(x: real, a: real, b: real)
    ensures x * (a - b) == x * a - x * b
    ensures (a - b) * (2.0 * x) == 2.0 * (x * a) - 2.0 * (x * b)
  {
  }

  /** One coordinate, up to the order of the axes; i, j and k are the entries of the matrix row. */
  lemma RodriguesCoordinate(w: real, x: real, y: real, z: real, a: real, b: real, c: real, i: real, j: real, k: real)
    requires i == 1.0 - 2.0 * (y * y + z * z) && j == 2.0 * (x * y - w * z) && k == 2.0 * (x * z + w * y)
    ensures i * a + j * b + k * c
         == a + (y * c - z * b) * (2.0 * w) + (y * (x * b - y * a) - z * (z * a - x * c)) * 2.0
  {
    var p, q, r := y * y + z * z, x * y - w * z, x * z + w * y;
    assert p * a == y * (y * a) + z * (z * a) by { TimesSum(y, y, z, z, a); }
    assert q * b == y * (x * b) - w * (z * b) by { TimesSum(y, x, w, z, b); }
    assert r * c == z * (x * c) + w * (y * c) by { TimesSum(z, x, w, y, c); }
    assert (1.0 - 2.0 * p) * a == a - 2.0 * (p * a);
    assert (2.0 * q) * b == 2.0 * (q * b) && (2.0 * r) * c == 2.0 * (r * c);
    TimesDifference(w, y * c, z * b);
    TimesDifference(y, x * b, y * a);
    TimesDifference(z, z * a, x * c);
  }

  lemma RodriguesX(w: real, x: real, y: real, z: real, v: Vec)
    ensures MatrixOf(w, x, y, z).r0.Inner(v)
         == v.x + (y * v.z - z * v.y) * (2.0 * w) + (y * (x * v.y - y * v.x) - z * (z * v.x - x * v.z)) * 2.0
  {
    var r := MatrixOf(w, x, y, z).r0;
    RodriguesCoordinate(w, x, y, z, v.x, v.y, v.z, r.x, r.y, r.z);
    hide MatrixOf;
  }

  lemma RodriguesY(w: real, x: real, y: real, z: real, v: Vec)
    ensures MatrixOf(w, x, y, z).r1.Inner(v)
         == v.y + (z * v.x - x * v.z) * (2.0 * w) + (z * (y * v.z - z * v.y) - x * (x * v.y - y * v.x)) * 2.0
  {
    var r := MatrixOf(w, x, y, z).r1;
    RodriguesCoordinate(w, y, z, x, v.y, v.z, v.x, r.y, r.z, r.x);
    hide MatrixOf;
  }

  lemma RodriguesZ(w: real, x: real, y: real, z: real, v: Vec)
    ensures MatrixOf(w, x, y, z).r2.Inner(v)
         == v.z + (x * v.y - y * v.x) * (2.0 * w) + (x * (z * v.x - x * v.z) - y * (y * v.z - z * v.y)) * 2.0
  {
    var r := MatrixOf(w, x, y, z).r2;
    RodriguesCoordinate(w, z, x, y, v.z, v.x, v.y, r.z, r.x, r.y);
    hide MatrixOf;
  }

  /** v turned about the vector part u of q: v + 2 w (u x v) + 2 u x (u x v). */
  lemma RotateIsRodrigues(q: Quat, v: Vec)
    ensures var u := Vec(q.x, q.y, q.z);
            q.Rotate(v) == v.Plus(u.Cross(v).Times(2.0 * q.w)).Plus(u.Cross(u.Cross(v)).Times(2.0))
  {
    hide MatrixOf, Vec.Inner;
    RodriguesX(q.w, q.x, q.y, q.z, v);
    RodriguesY(q.w, q.x, q.y, q.z, v);
    RodriguesZ(q.w, q.x, q.y, q.z, v);
  }

  lemma RowOfProduct(a: Vec, m: Mat3, v: Vec)
    ensures m.Transposed().Apply(a).Inner(v) == a.Inner(m.Apply(v))
  {
    var b0, b1, b2 := m.r0, m.r1, m.r2;
    assert (b0.x * a.x + b1.x * a.y + b2.x * a.z) * v.x + (b0.y * a.x + b1.y * a.y + b2.y * a.z) * v.y
           + (b0.z * a.x + b1.z * a.y + b2.z * a.z) * v.z
        == a.x * (b0.x * v.x + b0.y * v.y + b0.z * v.z) + a.y * (b1.x * v.x + b1.y * v.y + b1.z * v.z)
           + a.z * (b2.x * v.x + b2.y * v.y + b2.z * v.z);
  }

  lemma MatrixProductApplies(a: Mat3, b: Mat3, v: Vec)
    ensures a.Mul(b).Apply(v) == a.Apply(b.Apply(v))
  {
    RowOfProduct(a.r0, b, v);
    RowOfProduct(a.r1, b, v);
    RowOfProduct(a.r2, b, v);
  }

  lemma RowsAdd(r: Vec, u: Vec, v: Vec)
    ensures r.Plus(u).Inner(v) == r.Inner(v) + u.Inner(v)
    ensures r.Minus(u).Inner(v) == r.Inner(v) - u.Inner(v)
  {
  }

  lemma MatrixSumApplies(a: Mat3, b: Mat3, v: Vec)
    ensures a.Plus(b).Apply(v) == a.Apply(v).Plus(b.Apply(v))
    ensures a.Minus(b).Apply(v) == a.Apply(v).Minus(b.Apply(v))
  {
    RowsAdd(a.r0, b.r0, v);
    RowsAdd(a.r1, b.r1, v);
    RowsAdd(a.r2, b.r2, v);
    hide Vec.Inner;
  }

  lemma IdentityApplies(v: Vec)
    ensures IdentityMat.Apply(v) == v
  {
  }

  lemma MatrixTimesApplies(a: Mat3, c: real, v: Vec)
    ensures a.Times(c).Apply(v) == a.Apply(v).Times(c)
  {
    hide Vec.Inner;
    RowTimes(a.r0, v, c);
    RowTimes(a.r1, v, c);
    RowTimes(a.r2, v, c);
  }

  lemma RowTimes(r: Vec, v: Vec, c: real)
    ensures r.Times(c).Inner(v) == r.Inner(v) * c
  {
    assert (r.x * c) * v.x == (r.x * v.x) * c && (r.y * c) * v.y == (r.y * v.y) * c;
    assert (r.z * c) * v.z == (r.z * v.z) * c;
  }
}
