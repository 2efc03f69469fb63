/** What preintegration does with the readings: errors common to reading and bias, constant readings, and drift. */
module PreintegrationLaws {
  import opened ImuPreintegrators
  import opened Options
  import opened Rotations
  import opened Strapdown
  import opened Timestamps

  // ---- Only the difference between reading and bias counts ----------------------------------

  function Offset(s: Sample, e: Vec, d: Vec): Sample { s.(force := s.force.Plus(e), rate := s.rate.Plus(d)) }

  function OffsetAll(samples: seq<Sample>, e: Vec, d: Vec): (r: seq<Sample>)
    ensures |r| == |samples| && forall i | 0 <= i < |r| :: r[i] == Offset(samples[i], e, d)
  {
    seq(|samples|, i requires 0 <= i < |samples| => Offset(samples[i], e, d))
  }

  lemma OffsetMidpoint(a: Sample, b: Sample, bias: Bias, e: Vec, d: Vec)
    ensures var shifted := Bias(bias.accel.Plus(e), bias.gyro.Plus(d));
            && MidForce(Offset(a, e, d), Offset(b, e, d), shifted) == MidForce(a, b, bias)
            && MidRate(Offset(a, e, d), Offset(b, e, d), shifted) == MidRate(a, b, bias)
  {
  }

  /** The two ends of an interval count alike. */
  lemma EndsExchange(a: Sample, b: Sample, bias: Bias)
    ensures MidForce(b, a, bias) == MidForce(a, b, bias) && MidRate(b, a, bias) == MidRate(a, b, bias)
  {
  }

  /**
   * For every list of samples: an error e common to all forces and the accelerometer bias, and one d common to all
   * rates and the gyroscope bias, leave deltas and Jacobians as they are.
   */
  lemma {:induction false} CommonErrorCancels(exp: Vec -> Rotation, bias: Bias, start: Timestamp, samples: seq<Sample>,
                                              e: Vec, d: Vec)
    ensures var s := IntegratedAll(exp, Fresh(bias, start), samples);
            var shifted := Bias(bias.accel.Plus(e), bias.gyro.Plus(d));
            var t := IntegratedAll(exp, Fresh(shifted, start), OffsetAll(samples, e, d));
            t.delta == s.delta && t.jacobians == s.jacobians && t.samples == s.samples
  {
    hide MidForce, MidRate, Extend, ExtendJacobians, Integrable, Seconds, Vec.Plus;
    if samples != [] {
      var before, next := samples[..|samples| - 1], samples[|samples| - 1];
      var shifted := Bias(bias.accel.Plus(e), bias.gyro.Plus(d));
      var all := OffsetAll(samples, e, d);
      assert all[..|all| - 1] == OffsetAll(before, e, d);
      CommonErrorCancels(exp, bias, start, before, e, d);
      KeepsSetting(exp, bias, start, before);
      KeepsSetting(exp, shifted, start, OffsetAll(before, e, d));
      if before != [] {
        OffsetMidpoint(before[|before| - 1], next, bias, e, d);
      }
    }
  }

  // ---- Constant readings --------------------------------------------------------------------

  /** Turning by w for one time and then another is turning by w for their sum. */
  ghost predicate Additive(exp: Vec -> Rotation, w: Vec) {
    exp(ZeroVec) == NoRotation &&
    forall s: real, t: real :: Compose(exp(w.Times(s)), exp(w.Times(t))) == exp(w.Times(s + t))
  }

  predicate Constant(samples: seq<Sample>, force: Vec, rate: Vec) {
    forall i | 0 <= i < |samples| :: samples[i].force == force && samples[i].rate == rate
  }

  lemma ConstantMidpoint(a: Sample, b: Sample, bias: Bias)
    requires a.force == b.force && a.rate == b.rate
    ensures MidForce(a, b, bias) == a.force.Minus(bias.accel) && MidRate(a, b, bias) == a.rate.Minus(bias.gyro)
  {
  }

  function HalfSquare(t: real): real { 0.5 * t * t }

  lemma NoTime(v: Vec)
    ensures v.Times(0.0) == ZeroVec && v.Times(HalfSquare(0.0)) == ZeroVec
  {
  }

  /** Under a constant rate the delta's rotation is the one by the rate less the bias over the covered time. */
  lemma {:induction false} ConstantRateTurns(exp: Vec -> Rotation, bias: Bias, start: Timestamp, samples: seq<Sample>,
                                             force: Vec, rate: Vec)
    requires Constant(samples, force, rate) && Additive(exp, rate.Minus(bias.gyro))
    ensures IntegratedAll(exp, Fresh(bias, start), samples).delta.q
         == exp(rate.Minus(bias.gyro).Times(Covered(samples)))
  {
    hide MidForce, MidRate, ExtendJacobians, Seconds, Vec.Minus, Vec.Times, Compose, Displaced, Accelerated;
    NoTime(rate.Minus(bias.gyro));
    if samples != [] {
      var before, next := samples[..|samples| - 1], samples[|samples| - 1];
      ConstantRateTurns(exp, bias, start, before, force, rate);
      KeepsSetting(exp, bias, start, before);
      if before != [] {
        ConstantMidpoint(before[|before| - 1], next, bias);
      }
    }
  }

  lemma FromRest(a: Vec, t: real)
    ensures Displaced(ZeroVec, ZeroVec, a, t) == a.Times(HalfSquare(t))
    ensures Accelerated(ZeroVec, a, t) == a.Times(t)
  {
    FromRestAlong(a.x, t);
    FromRestAlong(a.y, t);
    FromRestAlong(a.z, t);
  }

  lemma FromRestAlong(a: real, t: real)
    ensures 0.5 * a * t * t == a * HalfSquare(t)
  {
  }

  /**
   * Constant force, and a rate that equals the bias: no rotation, and the deltas of constant acceleration by the force
   * less the bias over the covered time T, a T and a T^2 / 2.
   */
  lemma {:induction false} ConstantForceAccelerates(exp: Vec -> Rotation, bias: Bias, start: Timestamp,
                                                    samples: seq<Sample>, force: Vec)
    requires Constant(samples, force, bias.gyro) && exp(ZeroVec) == NoRotation
    ensures var a, t := force.Minus(bias.accel), Covered(samples);
            IntegratedAll(exp, Fresh(bias, start), samples).delta
            == Delta(a.Times(HalfSquare(t)), NoRotation, a.Times(t), t)
  {
    hide MidForce, MidRate, ExtendJacobians, Seconds, Vec.Minus, Vec.Times, Compose, Displaced, Accelerated, HalfSquare;
    var a, t := force.Minus(bias.accel), Covered(samples);
    NoTime(a);
    if samples != [] {
      var before, next := samples[..|samples| - 1], samples[|samples| - 1];
      ConstantForceAccelerates(exp, bias, start, before, force);
      KeepsSetting(exp, bias, start, before);
      FromRest(a, Covered(before));
      FromRest(a, t);
      if before != [] {
        var h := Interval(before[|before| - 1], next);
        ConstantMidpoint(before[|before| - 1], next, bias);
        DisplacedOn(ZeroVec, ZeroVec, a, Covered(before), h);
        NoRate(bias);
        NoTurn(exp, NoRotation, h);
        Unturned(a);
      }
    }
  }

  lemma NoRate(bias: Bias)
    ensures bias.gyro.Minus(bias.gyro) == ZeroVec
  {
  }

  lemma Unturned(a: Vec)
    ensures NoRotation.Rotate(a) == a
  {
    RotateByNone(a);
  }

  // ---- What the gyroscope Jacobians accumulate ----------------------------------------------

  /** Errors of attitude, velocity and position. */
  datatype Drift = Drift(attitude: Vec, v: Vec, p: Vec)

  const NoDrift := Drift(ZeroVec, ZeroVec, ZeroVec)

  /**
   * The linear error equations over one interval under a gyroscope bias error d: the attitude error e changes by
   * -(w x e + d), and turns the force f by e x f.
   */
  function Drifted(x: Drift, r: Mat3, force: Vec, rate: Vec, d: Vec, dt: real): Drift {
    var a := r.Apply(x.attitude.Cross(force));
    Drift(x.attitude.Minus(rate.Cross(x.attitude).Plus(d).Times(dt)), Accelerated(x.v, a, dt),
          Displaced(x.p, x.v, a, dt))
  }

  function DriftOf(j: Jacobians, d: Vec): Drift { Drift(j.dqDbg.Apply(d), j.dvDbg.Apply(d), j.dpDbg.Apply(d)) }

  lemma AttitudeDrifts(dq: Mat3, rate: Vec, d: Vec, dt: real)
    ensures IdentityMat.Minus(Skew(rate).Times(dt)).Mul(dq).Minus(IdentityMat.Times(dt)).Apply(d)
         == dq.Apply(d).Minus(rate.Cross(dq.Apply(d)).Plus(d).Times(dt))
  {
    hide Mat3.Apply, Mat3.Mul, Mat3.Minus, Mat3.Times, Skew, Vec.Cross;
    var e, m := dq.Apply(d), IdentityMat.Minus(Skew(rate).Times(dt));
    MatrixSumApplies(m.Mul(dq), IdentityMat.Times(dt), d);
    MatrixProductApplies(m, dq, d);
    MatrixSumApplies(IdentityMat, Skew(rate).Times(dt), e);
    IdentityApplies(e);
    IdentityApplies(d);
    MatrixTimesApplies(Skew(rate), dt, e);
    MatrixTimesApplies(IdentityMat, dt, d);
    SkewIsCross(rate, e);
    TimesOut(e, rate.Cross(e), d, dt);
  }

  lemma TimesOut(e: Vec, a: Vec, d: Vec, dt: real)
    ensures e.Minus(a.Times(dt)).Minus(d.Times(dt)) == e.Minus(a.Plus(d).Times(dt))
  {
  }

  /** The turned force of the Jacobian update, applied to d, is minus the force that the attitude error adds. */
  lemma ForceDrifts(r: Mat3, force: Vec, dq: Mat3, d: Vec)
    ensures r.Mul(Skew(force)).Mul(dq).Apply(d) == ZeroVec.Minus(r.Apply(dq.Apply(d).Cross(force)))
  {
    hide Mat3.Apply, Mat3.Mul, Skew;
    var e := dq.Apply(d);
    MatrixProductApplies(r.Mul(Skew(force)), dq, d);
    MatrixProductApplies(r, Skew(force), e);
    SkewIsCross(force, e);
    CrossSwaps(force, e);
    ApplyLinear(r, ZeroVec, e.Cross(force), 0.0);
    NothingApplied(r);
  }

  lemma CrossSwaps(a: Vec, b: Vec)
    ensures a.Cross(b) == ZeroVec.Minus(b.Cross(a))
  {
  }

  lemma NothingApplied(r: Mat3)
    ensures r.Apply(ZeroVec) == ZeroVec
  {
  }

  lemma VelocityDrifts(dv: Mat3, turned: Mat3, a: Vec, d: Vec, dt: real)
    requires turned.Apply(d) == ZeroVec.Minus(a)
    ensures dv.Minus(turned.Times(dt)).Apply(d) == Accelerated(dv.Apply(d), a, dt)
  {
    hide Mat3.Apply, Mat3.Minus, Mat3.Times;
    MatrixSumApplies(dv, turned.Times(dt), d);
    MatrixTimesApplies(turned, dt, d);
  }

  lemma PositionDrifts(dp: Mat3, dv: Mat3, turned: Mat3, a: Vec, d: Vec, dt: real)
    requires turned.Apply(d) == ZeroVec.Minus(a)
    ensures dp.Plus(dv.Times(dt).Minus(turned.Times(0.5).Times(dt).Times(dt))).Apply(d)
         == Displaced(dp.Apply(d), dv.Apply(d), a, dt)
  {
    hide Mat3.Apply, Mat3.Minus, Mat3.Times, Mat3.Plus;
    var half, once := turned.Times(0.5), turned.Times(0.5).Times(dt);
    MatrixSumApplies(dp, dv.Times(dt).Minus(once.Times(dt)), d);
    MatrixSumApplies(dv.Times(dt), once.Times(dt), d);
    MatrixTimesApplies(dv, dt, d);
    MatrixTimesApplies(once, dt, d);
    MatrixTimesApplies(half, dt, d);
    MatrixTimesApplies(turned, 0.5, d);
    MovedByHalf(dp.Apply(d), dv.Apply(d), a, dt);
  }

  lemma MovedByHalf(p: Vec, v: Vec, a: Vec, t: real)
    ensures p.Plus(v.Times(t).Minus(ZeroVec.Minus(a).Times(0.5).Times(t).Times(t))) == Displaced(p, v, a, t)
  {
    HalfMoves(p.x, v.x, a.x, t);
    HalfMoves(p.y, v.y, a.y, t);
    HalfMoves(p.z, v.z, a.z, t);
  }

  lemma HalfMoves(p: real, v: real, a: real, t: real)
    ensures p + (v * t - (0.0 - a) * 0.5 * t * t) == Moved(p, v, a, t)
  {
  }

  lemma JacobiansDrift(j: Jacobians, r: Mat3, force: Vec, rate: Vec, d: Vec, dt: real)
    ensures DriftOf(ExtendJacobians(j, r, force, rate, dt), d) == Drifted(DriftOf(j, d), r, force, rate, d, dt)
  {
    hide Mat3.Apply, Mat3.Mul, Mat3.Minus, Mat3.Times, Mat3.Plus, Skew, DisplacedRows, AcceleratedRows, Vec.Cross;
    hide Displaced, Accelerated, Vec.Minus, Vec.Plus, Vec.Times;
    var turned, a := r.Mul(Skew(force)).Mul(j.dqDbg), r.Apply(j.dqDbg.Apply(d).Cross(force));
    AttitudeDrifts(j.dqDbg, rate, d, dt);
    ForceDrifts(r, force, j.dqDbg, d);
    VelocityDrifts(j.dvDbg, turned, a, d, dt);
    PositionDrifts(j.dpDbg, j.dvDbg, turned, a, d, dt);
  }

  /** The error equations stepped over the samples along the preintegrated rotation. */
  function Drifting(exp: Vec -> Rotation, bias: Bias, start: Timestamp, samples: seq<Sample>, d: Vec): Drift {
    if |samples| < 2 then NoDrift
    else
      var before, from, to := samples[..|samples| - 1], samples[|samples| - 2], samples[|samples| - 1];
      var x := Drifting(exp, bias, start, before, d);
      if Skipless(Interval(from, to)) == 0.0 then x
      else Drifted(x, IntegratedAll(exp, Fresh(bias, start), before).delta.q.Matrix(),
                   Halfway(from.force, to.force).Minus(bias.accel), Halfway(from.rate, to.rate).Minus(bias.gyro), d,
                   Interval(from, to))
  }

  /**
   * For every list of samples and every gyroscope bias error d, the three gyroscope Jacobians send d to the attitude,
   * velocity and position errors that the linear error equations accumulate from none.
   */
  lemma {:induction false} GyroJacobiansAccumulateDrift(exp: Vec -> Rotation, bias: Bias, start: Timestamp,
                                                        samples: seq<Sample>, d: Vec)
    ensures DriftOf(IntegratedAll(exp, Fresh(bias, start), samples).jacobians, d)
         == Drifting(exp, bias, start, samples, d)
  {
    hide MidForce, MidRate, Halfway, Extend, ExtendJacobians, Drifted, DriftOf, Seconds;
    NoJacobiansNoDrift(d);
    if samples != [] {
      var before, next := samples[..|samples| - 1], samples[|samples| - 1];
      GyroJacobiansAccumulateDrift(exp, bias, start, before, d);
      KeepsSetting(exp, bias, start, before);
      if before != [] {
        var s, from := IntegratedAll(exp, Fresh(bias, start), before), before[|before| - 1];
        MidpointIsHalfway(from, next, bias);
        JacobiansDrift(s.jacobians, s.delta.q.Matrix(), MidForce(from, next, bias), MidRate(from, next, bias), d,
                       Interval(from, next));
      }
    }
  }

  lemma NoJacobiansNoDrift(d: Vec)
    ensures DriftOf(NoJacobians, d) == NoDrift
  {
  }
}
