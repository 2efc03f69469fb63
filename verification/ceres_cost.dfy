/** The residual of an inertial factor between two keyframes of the sliding window. */
module CeresCosts {
  import opened ImuPreintegrators
  import opened Rotations
  import opened Strapdown
  import opened Timestamps

  datatype Keyframe = Keyframe(timestamp: Timestamp, motion: Motion, bias: Bias)

  datatype Residual = Residual(p: Vec, q: Vec, v: Vec)

  const ZeroResidual := Residual(ZeroVec, ZeroVec, ZeroVec)

  /** Twice the vector part, with the sign that makes the scalar part positive. */
  function QuatResidual(q: Quat): Vec {
    var r := if q.w > 0.0 then q else q.Negated();
    Vec(r.x * 2.0, r.y * 2.0, r.z * 2.0)
  }

  /** The deltas corrected to first order for a bias away from the one they were integrated with. */
  function Corrected(exp: Vec -> Rotation, f: Factor, bias: Bias): Delta {
    var dba, dbg := bias.accel.Minus(f.bias.accel), bias.gyro.Minus(f.bias.gyro);
    var j := f.jacobians;
    Delta(f.delta.p.Plus(j.dpDba.Apply(dba)).Plus(j.dpDbg.Apply(dbg)),
          Compose(f.delta.q, exp(j.dqDbg.Apply(dbg))),
          f.delta.v.Plus(j.dvDba.Apply(dba)).Plus(j.dvDbg.Apply(dbg)),
          f.delta.t)
  }

  /** The unscaled residual of state b following state a by the corrected delta d. */
  function Mismatch(a: Motion, d: Delta, b: Motion): Residual {
    var back, dt := a.q.Matrix().Transposed(), d.t;
    Residual(back.Apply(b.p.Minus(Displaced(a.p, a.v, GRAVITY, dt))).Minus(d.p),
             QuatResidual(d.q.Conjugate().Mul(a.q.Conjugate().Mul(b.q))),
             back.Apply(b.v.Minus(Accelerated(a.v, GRAVITY, dt))).Minus(d.v))
  }

  /** The residual of factor f between keyframes a and b; scale stands for the information weight. */
  function ImuResidual(exp: Vec -> Rotation, f: Factor, a: Keyframe, b: Motion, scale: real): Residual {
    var r := Mismatch(a.motion, Corrected(exp, f, a.bias), b);
    Residual(r.p.Times(scale), r.q.Times(scale), r.v.Times(scale))
  }

  /** Equal motions, with q and -q standing for the same attitude. */
  predicate SameMotion(a: Motion, b: Motion) {
    a.p == b.p && a.v == b.v && (a.q == b.q || a.q == b.q.Negated())
  }

  // The residual vanishes at the predicted state and nowhere else.

  lemma UnitRoot(w: real)
    requires w * w == 1.0
    ensures w == 1.0 || w == -1.0
  {
    assert (w - 1.0) * (w + 1.0) == 0.0;
  }

  lemma SquaresVanish(w: real, x: real, y: real, z: real)
    requires w * w + x * x + y * y + z * z == 1.0 && x == 0.0 && y == 0.0 && z == 0.0
    ensures w == 1.0 || w == -1.0
  {
    UnitRoot(w);
  }

  lemma QuatResidualVanishes(q: Rotation)
    ensures QuatResidual(q) == ZeroVec <==> q == NoRotation || q == NoRotation.Negated()
  {
    if QuatResidual(q) == ZeroVec {
      SquaresVanish(q.w, q.x, q.y, q.z);
    }
  }

  lemma NegatedProducts(a: Quat, b: Quat)
    ensures a.Mul(b.Negated()) == a.Mul(b).Negated()
  {
    ProductsNegate(a.w, a.x, a.y, a.z, b.w, b.x, b.y, b.z);
  }

  lemma ProductsNegate(a: real, b: real, c: real, d: real, e: real, f: real, g: real, h: real)
    ensures ProductW(a, b, c, d, -e, -f, -g, -h) == -ProductW(a, b, c, d, e, f, g, h)
    ensures ProductX(a, b, c, d, -e, -f, -g, -h) == -ProductX(a, b, c, d, e, f, g, h)
    ensures ProductY(a, b, c, d, -e, -f, -g, -h) == -ProductY(a, b, c, d, e, f, g, h)
    ensures ProductZ(a, b, c, d, -e, -f, -g, -h) == -ProductZ(a, b, c, d, e, f, g, h)
  {
  }

  /** a* b is one of e, -e exactly when b is one of a e, -a e. */
  lemma CancelLeft(a: Rotation, b: Quat, e: Quat)
    ensures a.Conjugate().Mul(b) == e <==> b == a.Mul(e)
  {
    hide Quat.Mul, Quat.Conjugate;
    ConjugateInverse(a);
    MulAssoc(a, a.Conjugate(), b);
    MulAssoc(a.Conjugate(), a, e);
    NoRotationNeutral(b);
    NoRotationNeutral(e);
  }

  lemma AttitudeVanishes(a: Rotation, d: Rotation, b: Rotation)
    ensures QuatResidual(d.Conjugate().Mul(a.Conjugate().Mul(b))) == ZeroVec
        <==> b == a.Mul(d) || b == a.Mul(d).Negated()
  {
    hide Quat.Mul, Quat.Conjugate, QuatResidual;
    QuatResidualVanishes(Compose(Inverse(d), Compose(Inverse(a), b)));
    var m := NoRotation.Negated();
    CancelLeft(d, a.Conjugate().Mul(b), NoRotation);
    CancelLeft(d, a.Conjugate().Mul(b), m);
    NoRotationNeutral(d);
    NegatedProducts(d, NoRotation);
    CancelLeft(a, b, d);
    CancelLeft(a, b, d.Negated());
    NegatedProducts(a, d);
  }

  lemma VectorVanishes(q: Rotation, x: Vec, base: Vec, d: Vec)
    ensures q.Matrix().Transposed().Apply(x.Minus(base)).Minus(d) == ZeroVec <==> x == base.Plus(q.Rotate(d))
  {
    TransposeIsInverse(q);
    var y := x.Minus(base);
    RotateInverse(q, y);
    RotateInverse(q, d);
    assert Inverse(q).Rotate(y) == q.Matrix().Transposed().Apply(y);
    hide Quat.Rotate, Mat3.Apply, MatrixOf, Quat.Norm, Quat.Conjugate;
    assert Inverse(q).Rotate(y).Minus(d) == ZeroVec <==> Inverse(q).Rotate(y) == d;
    assert Inverse(q).Rotate(y) == d <==> y == q.Rotate(d);
  }

  lemma MismatchVanishes(a: Motion, d: Delta, b: Motion)
    ensures Mismatch(a, d, b) == ZeroResidual <==> SameMotion(b, Predicted(a, d))
  {
    hide Quat.Mul, Quat.Conjugate, Quat.Norm, QuatResidual, Mat3.Apply, MatrixOf;
    hide Displaced, Accelerated, Vec.Minus, Vec.Plus;
    VectorVanishes(a.q, b.p, Displaced(a.p, a.v, GRAVITY, d.t), d.p);
    VectorVanishes(a.q, b.v, Accelerated(a.v, GRAVITY, d.t), d.v);
    AttitudeVanishes(a.q, d.q, b.q);
  }

  lemma ScaledVanishes(v: Vec, c: real)
    requires c > 0.0
    ensures v.Times(c) == ZeroVec <==> v == ZeroVec
  {
    ProductVanishes(v.x, c);
    ProductVanishes(v.y, c);
    ProductVanishes(v.z, c);
  }

  /** All nine residuals are zero exactly when b is the state predicted from a with the corrected deltas. */
  lemma ResidualVanishesAtPrediction(exp: Vec -> Rotation, f: Factor, a: Keyframe, b: Motion, scale: real)
    requires scale > 0.0
    ensures ImuResidual(exp, f, a, b, scale) == ZeroResidual
        <==> SameMotion(b, Predicted(a.motion, Corrected(exp, f, a.bias)))
  {
    hide Mismatch, Predicted, Corrected, SameMotion, Vec.Times;
    var d := Corrected(exp, f, a.bias);
    MismatchVanishes(a.motion, d, b);
    var r := Mismatch(a.motion, d, b);
    ScaledVanishes(r.p, scale);
    ScaledVanishes(r.q, scale);
    ScaledVanishes(r.v, scale);
  }

  // How large the residual is, and which way it points.

  lemma DisplacementSeenFrom(q: Rotation, x: Vec, base: Vec, d: Vec)
    ensures q.Matrix().Transposed().Apply(x.Minus(base)).Minus(d)
         == Inverse(q).Rotate(x.Minus(base.Plus(q.Rotate(d))))
  {
    TransposeIsInverse(q);
    RotateInverse(q, d);
    var y, rd := x.Minus(base), q.Rotate(d);
    ApplyLinear(Inverse(q).Matrix(), y, rd, 0.0);
    hide Quat.Rotate, MatrixOf, Quat.Norm, Quat.Conjugate, Mat3.Apply;
    assert x.Minus(base.Plus(rd)) == y.Minus(rd);
    AsMatrix(q, y, rd);
  }

  lemma AsMatrix(q: Rotation, y: Vec, rd: Vec)
    ensures Inverse(q).Rotate(y) == q.Conjugate().Matrix().Apply(y)
    ensures Inverse(q).Rotate(y.Minus(rd)) == Inverse(q).Rotate(y).Minus(Inverse(q).Rotate(rd))
  {
    ApplyLinear(Inverse(q).Matrix(), y, rd, 0.0);
    hide MatrixOf, Mat3.Apply;
  }

  /**
   * Position and velocity residuals are the state's distances from the predicted one, seen from the first keyframe's
   * attitude, times the scale.
   */
  lemma ResidualIsDistance(exp: Vec -> Rotation, f: Factor, a: Keyframe, b: Motion, scale: real)
    ensures var m := Predicted(a.motion, Corrected(exp, f, a.bias));
            var r := ImuResidual(exp, f, a, b, scale);
            && r.p == Inverse(a.motion.q).Rotate(b.p.Minus(m.p)).Times(scale)
            && r.v == Inverse(a.motion.q).Rotate(b.v.Minus(m.v)).Times(scale)
  {
    hide Corrected, Quat.Rotate, Displaced, Accelerated, Vec.Minus, Vec.Plus, Vec.Times, MatrixOf, Mat3.Apply;
    hide Quat.Mul, Quat.Conjugate, Quat.Norm, QuatResidual, Inverse;
    var d, q := Corrected(exp, f, a.bias), a.motion.q;
    DisplacementSeenFrom(q, b.p, Displaced(a.motion.p, a.motion.v, GRAVITY, d.t), d.p);
    DisplacementSeenFrom(q, b.v, Accelerated(a.motion.v, GRAVITY, d.t), d.v);
  }

  lemma UndoTwice(a: Rotation, d: Rotation, e: Quat)
    ensures d.Conjugate().Mul(a.Conjugate().Mul(a.Mul(d).Mul(e))) == e
  {
    hide Quat.Mul, Quat.Conjugate;
    MulAssoc(a, d, e);
    MulAssoc(a.Conjugate(), a, d.Mul(e));
    ConjugateInverse(a);
    NoRotationNeutral(d.Mul(e));
    MulAssoc(d.Conjugate(), d, e);
    ConjugateInverse(d);
    NoRotationNeutral(e);
  }

  /** An attitude off the predicted one by e leaves twice the vector part of e, or of -e, times the scale. */
  lemma AttitudeResidual(exp: Vec -> Rotation, f: Factor, a: Keyframe, b: Motion, e: Rotation, scale: real)
    requires b.q == Compose(Predicted(a.motion, Corrected(exp, f, a.bias)).q, e)
    ensures var c := if e.w > 0.0 then 2.0 else -2.0;
            ImuResidual(exp, f, a, b, scale).q == Vec(e.x, e.y, e.z).Times(c).Times(scale)
  {
    hide Corrected, Quat.Rotate, Displaced, Accelerated, Vec.Minus, Vec.Plus, MatrixOf, Mat3.Apply;
    hide Quat.Mul, Quat.Conjugate, Quat.Norm;
    UndoTwice(a.motion.q, Corrected(exp, f, a.bias).q, e);
  }

  // What a shift of the biases does to the residual.

  function BiasPlus(bias: Bias, da: Vec, dg: Vec): Bias { Bias(bias.accel.Plus(da), bias.gyro.Plus(dg)) }

  lemma CorrectionMoves(j: Mat3, k: Mat3, base: Vec, x: Vec, y: Vec, da: Vec, dg: Vec, x0: Vec, y0: Vec)
    ensures base.Plus(j.Apply(x.Plus(da).Minus(x0))).Plus(k.Apply(y.Plus(dg).Minus(y0)))
         == base.Plus(j.Apply(x.Minus(x0))).Plus(k.Apply(y.Minus(y0))).Plus(j.Apply(da).Plus(k.Apply(dg)))
  {
    ApplyLinear(j, x.Minus(x0), da, 0.0);
    ApplyLinear(k, y.Minus(y0), dg, 0.0);
    hide Mat3.Apply;
    assert x.Plus(da).Minus(x0) == x.Minus(x0).Plus(da) && y.Plus(dg).Minus(y0) == y.Minus(y0).Plus(dg);
  }

  lemma LessMore(x: Vec, d: Vec, u: Vec, c: real)
    ensures x.Minus(d.Plus(u)).Times(c) == x.Minus(d).Times(c).Minus(u.Times(c))
  {
  }

  /**
   * Shifting the start keyframe's biases by da and dg lowers the position and velocity residuals of fixed states by
   * their Jacobians times the shifts, times the scale.
   */
  lemma ShiftMovesResidual(exp: Vec -> Rotation, f: Factor, a: Keyframe, b: Motion, da: Vec, dg: Vec, scale: real)
    ensures var r, j := ImuResidual(exp, f, a, b, scale), f.jacobians;
            var moved := ImuResidual(exp, f, a.(bias := BiasPlus(a.bias, da, dg)), b, scale);
            && moved.p == r.p.Minus(j.dpDba.Apply(da).Plus(j.dpDbg.Apply(dg)).Times(scale))
            && moved.v == r.v.Minus(j.dvDba.Apply(da).Plus(j.dvDbg.Apply(dg)).Times(scale))
  {
    hide Quat.Mul, Quat.Conjugate, Quat.Norm, QuatResidual, Mat3.Apply, Mat3.Transposed, MatrixOf, Compose;
    hide Displaced, Accelerated, Vec.Minus, Vec.Plus, Vec.Times;
    var j := f.jacobians;
    CorrectionMoves(j.dpDba, j.dpDbg, f.delta.p, a.bias.accel, a.bias.gyro, da, dg, f.bias.accel, f.bias.gyro);
    CorrectionMoves(j.dvDba, j.dvDbg, f.delta.v, a.bias.accel, a.bias.gyro, da, dg, f.bias.accel, f.bias.gyro);
    var c, back := Corrected(exp, f, a.bias), a.motion.q.Matrix().Transposed();
    LessMore(back.Apply(b.p.Minus(Displaced(a.motion.p, a.motion.v, GRAVITY, c.t))), c.p,
             j.dpDba.Apply(da).Plus(j.dpDbg.Apply(dg)), scale);
    LessMore(back.Apply(b.v.Minus(Accelerated(a.motion.v, GRAVITY, c.t))), c.v,
             j.dvDba.Apply(da).Plus(j.dvDbg.Apply(dg)), scale);
  }

  lemma CorrectedByShift(exp: Vec -> Rotation, f: Factor, da: Vec, dg: Vec)
    ensures var c, j := Corrected(exp, f, BiasPlus(f.bias, da, dg)), f.jacobians;
            && c.p == f.delta.p.Plus(j.dpDba.Apply(da).Plus(j.dpDbg.Apply(dg)))
            && c.v == f.delta.v.Plus(j.dvDba.Apply(da).Plus(j.dvDbg.Apply(dg)))
            && c.q == Compose(f.delta.q, exp(j.dqDbg.Apply(dg))) && c.t == f.delta.t
  {
    hide Mat3.Apply, Compose;
    assert f.bias.accel.Plus(da).Minus(f.bias.accel) == da && f.bias.gyro.Plus(dg).Minus(f.bias.gyro) == dg;
  }

  lemma RotatedSum(q: Rotation, base: Vec, u: Vec, v: Vec)
    ensures base.Plus(q.Rotate(u.Plus(v))) == base.Plus(q.Rotate(u)).Plus(q.Rotate(v))
  {
    ApplyLinear(q.Matrix(), u, v, 0.0);
    hide Mat3.Apply, MatrixOf;
  }

  /**
   * With biases shifted by da and dg from the linearisation point, the state without residual is the one-shot
   * prediction moved by the turned Jacobians times the shifts and turned by the exponential of the rotation Jacobian
   * times dg.
   */
  lemma ShiftMovesPrediction(exp: Vec -> Rotation, f: Factor, a: Keyframe, b: Motion, da: Vec, dg: Vec, scale: real)
    requires scale > 0.0 && a.bias == BiasPlus(f.bias, da, dg)
    ensures var m, q, j := Predicted(a.motion, f.delta), a.motion.q, f.jacobians;
            ImuResidual(exp, f, a, b, scale) == ZeroResidual
            <==> SameMotion(b, Motion(m.p.Plus(q.Rotate(j.dpDba.Apply(da).Plus(j.dpDbg.Apply(dg)))),
                                      m.v.Plus(q.Rotate(j.dvDba.Apply(da).Plus(j.dvDbg.Apply(dg)))),
                                      Compose(m.q, exp(j.dqDbg.Apply(dg)))))
  {
    hide Corrected, ImuResidual, SameMotion, Quat.Rotate, Mat3.Apply, Vec.Plus, Displaced, Accelerated, Quat.Mul;
    hide Quat.Norm, BiasPlus;
    var j, d, m := f.jacobians, f.delta, a.motion;
    ResidualVanishesAtPrediction(exp, f, a, b, scale);
    CorrectedByShift(exp, f, da, dg);
    RotatedSum(m.q, Displaced(m.p, m.v, GRAVITY, d.t), d.p, j.dpDba.Apply(da).Plus(j.dpDbg.Apply(dg)));
    RotatedSum(m.q, Accelerated(m.v, GRAVITY, d.t), d.v, j.dvDba.Apply(da).Plus(j.dvDbg.Apply(dg)));
    MulAssoc(m.q, d.q, exp(j.dqDbg.Apply(dg)));
  }

  lemma ApplyZero(m: Mat3)
    ensures m.Apply(ZeroVec) == ZeroVec
  {
  }

  lemma NoCorrectionAtLinearisation(exp: Vec -> Rotation, f: Factor)
    requires exp(ZeroVec) == NoRotation
    ensures Corrected(exp, f, f.bias) == f.delta
  {
    hide Mat3.Apply, Quat.Mul;
    var j := f.jacobians;
    ApplyZero(j.dpDba);
    ApplyZero(j.dpDbg);
    ApplyZero(j.dqDbg);
    ApplyZero(j.dvDba);
    ApplyZero(j.dvDbg);
    NoRotationNeutral(f.delta.q);
    assert f.bias.accel.Minus(f.bias.accel) == ZeroVec == f.bias.gyro.Minus(f.bias.gyro);
  }

  /** With the start keyframe's bias still the linearisation point, the one-shot prediction zeroes the residual. */
  lemma PredictionHasNoResidual(exp: Vec -> Rotation, f: Factor, a: Keyframe, scale: real)
    requires exp(ZeroVec) == NoRotation && scale > 0.0 && a.bias == f.bias
    ensures ImuResidual(exp, f, a, Predicted(a.motion, f.delta), scale) == ZeroResidual
  {
    NoCorrectionAtLinearisation(exp, f);
    ResidualVanishesAtPrediction(exp, f, a, Predicted(a.motion, f.delta), scale);
  }

  // The correction for the accelerometer bias is added where preintegrating again would subtract it.

  ghost predicate Reintegrates(exp: Vec -> Rotation, bias: Bias, d: Vec, start: Timestamp, samples: seq<Sample>,
                               f: Factor, again: Delta) {
    && f.delta == IntegratedAll(exp, Fresh(bias, start), samples).delta
    && f.jacobians == IntegratedAll(exp, Fresh(bias, start), samples).jacobians
    && f.bias == bias
    && again == IntegratedAll(exp, Fresh(Shifted(bias, d), start), samples).delta
  }

  /** Corrected deltas minus deltas integrated again under the shifted bias: twice the Jacobian times the shift. */
  lemma CorrectionIsOffByTwice(exp: Vec -> Rotation, bias: Bias, d: Vec, start: Timestamp, samples: seq<Sample>,
                               f: Factor, again: Delta)
    requires exp(ZeroVec) == NoRotation && Reintegrates(exp, bias, d, start, samples, f, again)
    ensures var c := Corrected(exp, f, Shifted(bias, d));
            && c.p == again.p.Plus(f.jacobians.dpDba.Apply(d)).Plus(f.jacobians.dpDba.Apply(d))
            && c.v == again.v.Plus(f.jacobians.dvDba.Apply(d)).Plus(f.jacobians.dvDba.Apply(d))
            && c.q == again.q && c.t == again.t
  {
    hide Mat3.Apply, Quat.Mul;
    LinearInAccelerometerBias(exp, bias, start, samples, d);
    var j := f.jacobians;
    ApplyZero(j.dpDbg);
    ApplyZero(j.dqDbg);
    ApplyZero(j.dvDbg);
    NoRotationNeutral(f.delta.q);
    assert bias.accel.Plus(d).Minus(bias.accel) == d && bias.gyro.Minus(bias.gyro) == ZeroVec;
  }

  lemma PlusTwice(u: Vec, e: Vec)
    ensures u == u.Plus(e).Plus(e) <==> e == ZeroVec
  {
  }

  lemma PlusCancels(base: Vec, q: Rotation, u: Vec, v: Vec)
    ensures base.Plus(q.Rotate(u)) == base.Plus(q.Rotate(v)) <==> u == v
  {
    RotateInverse(q, u);
    RotateInverse(q, v);
    hide Quat.Rotate;
  }

  /**
   * After the bias moved by d, the state that the navigation equations really reach under the new bias has no
   * residual exactly when the Jacobians send d to zero.
   */
  lemma ShiftedBiasIsConsistentIff(exp: Vec -> Rotation, bias: Bias, d: Vec, start: Timestamp, samples: seq<Sample>,
                                   f: Factor, again: Delta, a: Keyframe, scale: real)
    requires exp(ZeroVec) == NoRotation && scale > 0.0 && Reintegrates(exp, bias, d, start, samples, f, again)
    requires a.bias == Shifted(bias, d)
    ensures Predicted(a.motion, again) == Stepped(exp, a.motion, a.bias, samples)
    ensures ImuResidual(exp, f, a, Predicted(a.motion, again), scale) == ZeroResidual
        <==> f.jacobians.dpDba.Apply(d) == ZeroVec && f.jacobians.dvDba.Apply(d) == ZeroVec
  {
    PreintegrationIsStrapdown(exp, a.motion, a.bias, start, samples);
    CorrectionIsOffByTwice(exp, bias, d, start, samples, f, again);
    var c := Corrected(exp, f, a.bias);
    ResidualVanishesAtPrediction(exp, f, a, Predicted(a.motion, again), scale);
    hide Mat3.Apply, Quat.Mul, Quat.Rotate, Displaced, Accelerated, Vec.Plus, Corrected, ImuResidual, Reintegrates;
    PlusTwice(again.p, f.jacobians.dpDba.Apply(d));
    PlusTwice(again.v, f.jacobians.dvDba.Apply(d));
    PlusCancels(Displaced(a.motion.p, a.motion.v, GRAVITY, c.t), a.motion.q, again.p, c.p);
    PlusCancels(Accelerated(a.motion.v, GRAVITY, c.t), a.motion.q, again.v, c.v);
  }

  lemma OneInterval(exp: Vec -> Rotation, bias: Bias, start: Timestamp, s: Sample, t: Sample)
    requires Integrable(Interval(s, t))
    ensures IntegratedAll(exp, Fresh(bias, start), [s, t]).jacobians.dvDba
         == AcceleratedRows(ZeroMat, NoRotation.Matrix(), Interval(s, t))
  {
    hide Vec.Plus, Vec.Minus, Vec.Times, Mat3.Plus, Mat3.Minus, Mat3.Times, Mat3.Mul, Mat3.Apply, MatrixOf, Skew;
    hide Quat.Mul, Quat.Norm, Displaced, DisplacedRows, AcceleratedRows, Compose, Accelerated, Interval, Integrable;
    assert [s, t][..1] == [s] && [s][..0] == [];
    var fresh0 := Fresh(bias, start);
    assert IntegratedAll(exp, fresh0, [s]) == Integrated(exp, fresh0, s);
    assert IntegratedAll(exp, fresh0, [s, t]) == Integrated(exp, Integrated(exp, fresh0, s), t);
  }

  lemma AcceleratedFromRest(d: Vec, h: real)
    requires h > 0.0 && d != ZeroVec
    ensures Accelerated(ZeroVec, d, h) != ZeroVec
  {
    ProductVanishes(d.x, h);
    ProductVanishes(d.y, h);
    ProductVanishes(d.z, h);
  }

  /** Already one interval between two samples makes any nonzero shift inconsistent. */
  lemma OneIntervalIsInconsistent(exp: Vec -> Rotation, bias: Bias, d: Vec, start: Timestamp, s: Sample, t: Sample)
    requires Integrable(Interval(s, t)) && d != ZeroVec
    ensures IntegratedAll(exp, Fresh(bias, start), [s, t]).jacobians.dvDba.Apply(d) != ZeroVec
  {
    hide Mat3.Apply, Accelerated, AcceleratedRows, IntegratedAll, Interval, MatrixOf;
    OneInterval(exp, bias, start, s, t);
    RowsApplied(ZeroMat, ZeroMat, NoRotation.Matrix(), d, Interval(s, t));
    RotateByNone(d);
    ZeroApply(d);
    AcceleratedFromRest(d, Interval(s, t));
  }

  lemma ZeroApply(d: Vec)
    ensures ZeroMat.Apply(d) == ZeroVec
  {
  }
}
