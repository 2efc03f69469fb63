/** Inertial preintegration between keyframes. */
module ImuPreintegrators {
  import opened Options
  import opened Rotations
  import opened Strapdown
  import opened Timestamps

  /** Sensitivities of the deltas to the biases, as the loop accumulates them. */
  datatype Jacobians = Jacobians(dpDba: Mat3, dpDbg: Mat3, dqDbg: Mat3, dvDba: Mat3, dvDbg: Mat3)

  const NoJacobians := Jacobians(ZeroMat, ZeroMat, ZeroMat, ZeroMat, ZeroMat)

  datatype Bias = Bias(accel: Vec, gyro: Vec)

  datatype Delta = Delta(p: Vec, q: Rotation, v: Vec, t: real)

  const NoDelta := Delta(ZeroVec, NoRotation, ZeroVec, 0.0)

  /** A preintegration under way: what was reset, what is accumulated, and the last sample seen. */
  datatype State = State(start: Timestamp, bias: Bias, delta: Delta, jacobians: Jacobians,
                         last: Option<Sample>, samples: nat)

  /** A finished preintegration between two keyframes. */
  datatype Factor = Factor(start: Timestamp, end: Timestamp, delta: Delta, jacobians: Jacobians, bias: Bias,
                           samples: nat)

  function Fresh(bias: Bias, start: Timestamp): State { State(start, bias, NoDelta, NoJacobians, None, 0) }

  function Interval(from: Sample, to: Sample): real { Seconds(to.timestamp.steady - from.timestamp.steady) }

  /** Only intervals longer than zero and of at most one second are integrated. */
  predicate Integrable(dt: real) { 0.0 < dt <= 1.0 }

  function MidForce(a: Sample, b: Sample, bias: Bias): Vec {
    a.force.Minus(bias.accel).Plus(b.force.Minus(bias.accel)).Times(0.5)
  }

  function MidRate(a: Sample, b: Sample, bias: Bias): Vec {
    a.rate.Minus(bias.gyro).Plus(b.rate.Minus(bias.gyro)).Times(0.5)
  }

  function Extend(exp: Vec -> Rotation, d: Delta, force: Vec, rate: Vec, dt: real): Delta {
    var a := d.q.Rotate(force);
    Delta(Displaced(d.p, d.v, a, dt), Compose(d.q, exp(rate.Times(dt))), Accelerated(d.v, a, dt), d.t + dt)
  }

  function ExtendJacobians(j: Jacobians, r: Mat3, force: Vec, rate: Vec, dt: real): Jacobians {
    var turned := r.Mul(Skew(force)).Mul(j.dqDbg);
    Jacobians(DisplacedRows(j.dpDba, j.dvDba, r, dt),
              j.dpDbg.Plus(j.dvDbg.Times(dt).Minus(turned.Times(0.5).Times(dt).Times(dt))),
              IdentityMat.Minus(Skew(rate).Times(dt)).Mul(j.dqDbg).Minus(IdentityMat.Times(dt)),
              AcceleratedRows(j.dvDba, r, dt),
              j.dvDbg.Minus(turned.Times(dt)))
  }

  function Integrated(exp: Vec -> Rotation, s: State, next: Sample): State {
    if s.last.None? || !Integrable(Interval(s.last.value, next)) then s.(last := Some(next))
    else
      var dt := Interval(s.last.value, next);
      var force, rate := MidForce(s.last.value, next, s.bias), MidRate(s.last.value, next, s.bias);
      s.(delta := Extend(exp, s.delta, force, rate, dt),
         jacobians := ExtendJacobians(s.jacobians, s.delta.q.Matrix(), force, rate, dt),
         last := Some(next), samples := s.samples + 1)
  }

  function Finished(s: State, end: Timestamp): Factor {
    Factor(s.start, end, s.delta, s.jacobians, s.bias, s.samples)
  }

  class Preintegrator {
    const exp: Vec -> Rotation
    var t0: Timestamp
    var bias: Bias
    var delta: Delta
    var jacobians: Jacobians
    var hasPrev: bool
    var prevTs: Timestamp
    var prevImu: Sample
    var numSamples: nat

    ghost predicate Valid()
      reads this
    {
      hasPrev ==> prevTs == prevImu.timestamp
    }

    ghost function Value(): State
      reads this
    {
      State(t0, bias, delta, jacobians, if hasPrev then Some(prevImu) else None, numSamples)
    }

    constructor (exp: Vec -> Rotation, t0: Timestamp)
      ensures Valid() && this.exp == exp && Value() == Fresh(Bias(ZeroVec, ZeroVec), t0)
    {
      this.exp, this.t0, bias, delta, jacobians := exp, t0, Bias(ZeroVec, ZeroVec), NoDelta, NoJacobians;
      hasPrev, prevTs, prevImu, numSamples := false, t0, Sample(t0, ZeroVec, ZeroVec), 0;
    }

    method Reset(accelBias: Vec, gyroBias: Vec, start: Timestamp)
      modifies this
      ensures Valid() && Value() == Fresh(Bias(accelBias, gyroBias), start)
    {
      t0, bias := start, Bias(accelBias, gyroBias);
      delta, jacobians := NoDelta, NoJacobians;
      hasPrev, numSamples := false, 0;
    }

    method Integrate(imu: Sample)
      requires Valid()
      modifies this
      ensures Valid() && Value() == Integrated(exp, old(Value()), imu)
    {
      hide Vec.Plus, Vec.Minus, Vec.Times, Mat3.Plus, Mat3.Minus, Mat3.Times, Mat3.Mul, Mat3.Apply, MatrixOf, Skew;
      hide Quat.Mul, Quat.Norm, Displaced, Accelerated, DisplacedRows, AcceleratedRows, Seconds, Compose;
      if !hasPrev {
        prevTs, prevImu, hasPrev := imu.timestamp, imu, true;
        return;
      }
      var dt := Seconds(imu.timestamp.steady - prevTs.steady);
      if dt <= 0.0 || dt > 1.0 {
        prevTs, prevImu := imu.timestamp, imu;
        return;
      }
      var a0, a1 := prevImu.force.Minus(bias.accel), imu.force.Minus(bias.accel);
      var w0, w1 := prevImu.rate.Minus(bias.gyro), imu.rate.Minus(bias.gyro);
      var aMid, wMid := a0.Plus(a1).Times(0.5), w0.Plus(w1).Times(0.5);
      var r := delta.q.Matrix();
      var aWorld := r.Apply(aMid);
      var p := Displaced(delta.p, delta.v, aWorld, dt);
      var v := Accelerated(delta.v, aWorld, dt);
      var q := Compose(delta.q, exp(wMid.Times(dt)));
      var turned := r.Mul(Skew(aMid)).Mul(jacobians.dqDbg);
      var dpDba := DisplacedRows(jacobians.dpDba, jacobians.dvDba, r, dt);
      var dpDbg := jacobians.dpDbg.Plus(jacobians.dvDbg.Times(dt).Minus(turned.Times(0.5).Times(dt).Times(dt)));
      var dvDba := AcceleratedRows(jacobians.dvDba, r, dt);
      var dvDbg := jacobians.dvDbg.Minus(turned.Times(dt));
      var dqDbg := IdentityMat.Minus(Skew(wMid).Times(dt)).Mul(jacobians.dqDbg).Minus(IdentityMat.Times(dt));
      delta, jacobians := Delta(p, q, v, delta.t + dt), Jacobians(dpDba, dpDbg, dqDbg, dvDba, dvDbg);
      prevTs, prevImu, numSamples := imu.timestamp, imu, numSamples + 1;
    }

    method Finalize(end: Timestamp) returns (factor: Factor)
      ensures factor == Finished(Value(), end)
    {
      factor := Factor(t0, end, delta, jacobians, bias, numSamples);
    }
  }

  function IntegratedAll(exp: Vec -> Rotation, s: State, samples: seq<Sample>): State {
    if samples == [] then s
    else Integrated(exp, IntegratedAll(exp, s, samples[..|samples| - 1]), samples[|samples| - 1])
  }

  // Preintegration predicts what stepping the navigation equations computes.

  /** The motion at the end of a delta that starts from m. */
  function Predicted(m: Motion, d: Delta): Motion {
    Motion(Displaced(m.p, m.v, GRAVITY, d.t).Plus(m.q.Rotate(d.p)),
           Accelerated(m.v, GRAVITY, d.t).Plus(m.q.Rotate(d.v)),
           Compose(m.q, d.q))
  }

  /** Halfway between two readings. */
  function Halfway(a: Vec, b: Vec): Vec { a.Plus(b).Times(0.5) }

  /** The midpoint lies halfway between the readings, less the bias. */
  lemma MidpointIsHalfway(a: Sample, b: Sample, bias: Bias)
    ensures MidForce(a, b, bias) == Halfway(a.force, b.force).Minus(bias.accel)
    ensures MidRate(a, b, bias) == Halfway(a.rate, b.rate).Minus(bias.gyro)
  {
  }

  /** Intervals longer than zero and of at most one second, the others skipped. */
  function Skipless(dt: real): real { if 0.0 < dt <= 1.0 then dt else 0.0 }

  /**
   * Stepping the navigation equations over every interval longer than zero and of at most a second, with the reading
   * halfway between its ends, less the bias.
   */
  function Stepped(exp: Vec -> Rotation, m: Motion, bias: Bias, samples: seq<Sample>): Motion {
    if |samples| < 2 then m
    else
      var from, to := samples[|samples| - 2], samples[|samples| - 1];
      var before := Stepped(exp, m, bias, samples[..|samples| - 1]);
      if Skipless(Interval(from, to)) == 0.0 then before
      else Propagate(exp, before, Halfway(from.force, to.force).Minus(bias.accel),
                     Halfway(from.rate, to.rate).Minus(bias.gyro), Interval(from, to))
  }

  /** One more interval in the delta is one more step from the predicted motion. */
  lemma PredictedExtends(exp: Vec -> Rotation, m: Motion, d: Delta, force: Vec, rate: Vec, h: real)
    ensures Predicted(m, Extend(exp, d, force, rate, h)) == Propagate(exp, Predicted(m, d), force, rate, h)
  {
    hide Quat.Mul, Mat3.Apply, Displaced, Accelerated, Vec.Plus;
    var a, r := d.q.Rotate(force), m.q.Matrix();
    RotateCompose(m.q, d.q, force);
    ApplyDisplaced(r, d.p, d.v, a, h);
    DisplacedTwice(m.p, m.v, GRAVITY, r.Apply(d.p), r.Apply(d.v), r.Apply(a), d.t, h);
    MulAssoc(m.q, d.q, exp(rate.Times(h)));
  }

  lemma NothingPredicted(m: Motion)
    ensures Predicted(m, NoDelta) == m
  {
    NoRotationNeutral(m.q);
  }

  lemma {:induction false} KeepsSetting(exp: Vec -> Rotation, bias: Bias, start: Timestamp, samples: seq<Sample>)
    ensures var s := IntegratedAll(exp, Fresh(bias, start), samples);
            && s.bias == bias && s.start == start
            && s.last == if samples == [] then None else Some(samples[|samples| - 1])
  {
    if samples != [] {
      KeepsSetting(exp, bias, start, samples[..|samples| - 1]);
    }
  }

  /**
   * For every start motion and every list of samples, the one-shot prediction from the preintegrated deltas is the
   * motion reached by stepping the navigation equations interval by interval.
   */
  lemma {:induction false} PreintegrationIsStrapdown(exp: Vec -> Rotation, m: Motion, bias: Bias, start: Timestamp,
                                                     samples: seq<Sample>)
    ensures Predicted(m, IntegratedAll(exp, Fresh(bias, start), samples).delta) == Stepped(exp, m, bias, samples)
  {
    hide Predicted, Propagate, Extend, Halfway, MidForce, MidRate;
    NothingPredicted(m);
    if samples != [] {
      var before, next := samples[..|samples| - 1], samples[|samples| - 1];
      var s := IntegratedAll(exp, Fresh(bias, start), before);
      PreintegrationIsStrapdown(exp, m, bias, start, before);
      KeepsSetting(exp, bias, start, before);
      if |samples| > 1 {
        var from := samples[|samples| - 2];
        assert s.last == Some(from);
        MidpointIsHalfway(from, next, bias);
        PredictedExtends(exp, m, s.delta, MidForce(from, next, bias), MidRate(from, next, bias), Interval(from, next));
      }
    }
  }

  // Preintegration is linear in the accelerometer bias.

  function Shifted(bias: Bias, d: Vec): Bias { Bias(bias.accel.Plus(d), bias.gyro) }

  /** The deltas under an accelerometer bias shifted by d, predicted from the deltas and Jacobians under the bias. */
  ghost predicate ShiftedBy(s: State, t: State, d: Vec) {
    && t.bias == Shifted(s.bias, d) && t.last == s.last && t.samples == s.samples
    && t.delta.q == s.delta.q && t.delta.t == s.delta.t
    && t.delta.p == s.delta.p.Minus(s.jacobians.dpDba.Apply(d))
    && t.delta.v == s.delta.v.Minus(s.jacobians.dvDba.Apply(d))
  }

  lemma MidpointShifts(a: Sample, b: Sample, bias: Bias, d: Vec)
    ensures MidForce(a, b, Shifted(bias, d)) == MidForce(a, b, bias).Minus(d)
    ensures MidRate(a, b, Shifted(bias, d)) == MidRate(a, b, bias)
  {
  }

  lemma ShiftExtends(exp: Vec -> Rotation, s: State, t: State, d: Vec, next: Sample)
    requires ShiftedBy(s, t, d)
    ensures ShiftedBy(Integrated(exp, s, next), Integrated(exp, t, next), d)
  {
    if s.last.Some? && Integrable(Interval(s.last.value, next)) {
      var h, r := Interval(s.last.value, next), s.delta.q.Matrix();
      var f := MidForce(s.last.value, next, s.bias);
      MidpointShifts(s.last.value, next, s.bias, d);
      hide Integrable, Interval, MidForce, MidRate, Shifted, Mat3.Apply, Mat3.Mul, MatrixOf, Compose;
      hide Displaced, Accelerated, DisplacedRows, AcceleratedRows, Vec.Minus, Quat.Norm;
      var j := s.jacobians;
      ApplyLinear(r, f, d, h);
      RowsApplied(j.dpDba, j.dvDba, r, d, h);
      DisplacedMinus(s.delta.p, s.delta.v, r.Apply(f), j.dpDba.Apply(d), j.dvDba.Apply(d), r.Apply(d), h);
    }
  }

  /**
   * For every list of samples, shifting the accelerometer bias by d changes the position delta by minus its Jacobian
   * times d and the velocity delta likewise, and leaves the rotation delta as it is. No term of higher order exists.
   */
  lemma {:induction false} LinearInAccelerometerBias(exp: Vec -> Rotation, bias: Bias, start: Timestamp,
                                                     samples: seq<Sample>, d: Vec)
    ensures ShiftedBy(IntegratedAll(exp, Fresh(bias, start), samples),
                      IntegratedAll(exp, Fresh(Shifted(bias, d), start), samples), d)
  {
    if samples != [] {
      var before, next := samples[..|samples| - 1], samples[|samples| - 1];
      LinearInAccelerometerBias(exp, bias, start, before, d);
      hide ShiftedBy;
      ShiftExtends(exp, IntegratedAll(exp, Fresh(bias, start), before),
                   IntegratedAll(exp, Fresh(Shifted(bias, d), start), before), d, next);
    }
  }

  // The time a factor covers.

  /** Each sample follows the one before by more than zero and at most a second. */
  predicate Steady(samples: seq<Sample>) {
    forall i :: 0 < i < |samples| ==> Integrable(Interval(samples[i - 1], samples[i]))
  }

  /**
   * The integrated time runs from the first sample to the last, so what lies between a keyframe and its first sample
   * is in no factor.
   */
  lemma {:induction false} CoversFirstToLastSample(exp: Vec -> Rotation, bias: Bias, start: Timestamp,
                                                   samples: seq<Sample>)
    requires samples != [] && Steady(samples)
    ensures var s := IntegratedAll(exp, Fresh(bias, start), samples);
            s.delta.t == Interval(samples[0], samples[|samples| - 1]) && s.samples == |samples| - 1
  {
    var before := samples[..|samples| - 1];
    if before != [] {
      CoversFirstToLastSample(exp, bias, start, before);
      KeepsSetting(exp, bias, start, before);
      assert Integrable(Interval(samples[|samples| - 2], samples[|samples| - 1]));
    } else {
      assert samples == [] + [samples[0]];
    }
  }

  /** The sum of the intervals between neighbouring samples that are longer than zero and at most a second. */
  function Covered(samples: seq<Sample>): real {
    if |samples| < 2 then 0.0
    else
      var dt := Interval(samples[|samples| - 2], samples[|samples| - 1]);
      Covered(samples[..|samples| - 1]) + Skipless(dt)
  }

  /** For every list of samples, in whatever order they come. */
  lemma {:induction false} IntegratesCoveredTime(exp: Vec -> Rotation, bias: Bias, start: Timestamp,
                                                 samples: seq<Sample>)
    ensures IntegratedAll(exp, Fresh(bias, start), samples).delta.t == Covered(samples)
  {
    hide Seconds, MidForce, MidRate, ExtendJacobians, Displaced, Accelerated, Compose;
    if samples != [] {
      var before := samples[..|samples| - 1];
      IntegratesCoveredTime(exp, bias, start, before);
      KeepsSetting(exp, bias, start, before);
    }
  }

  predicate InOrder(samples: seq<Sample>) {
    forall i :: 0 < i < |samples| ==> samples[i - 1].timestamp.steady <= samples[i].timestamp.steady
  }

  /** Samples in the order of their times, none before start and none after end. */
  predicate Between(start: Timestamp, samples: seq<Sample>, end: Timestamp) {
    InOrder(samples) &&
    if samples == [] then start.steady <= end.steady
       else start.steady <= samples[0].timestamp.steady && samples[|samples| - 1].timestamp.steady <= end.steady
  }

  /** No two neighbouring samples are more than a second apart. */
  predicate Gapless(samples: seq<Sample>) {
    forall i :: 0 < i < |samples| ==> Interval(samples[i - 1], samples[i]) <= 1.0
  }

  /** A first sample at the very start, a last one at the very end, and no gap. */
  predicate Fills(start: Timestamp, samples: seq<Sample>, end: Timestamp) {
    if samples == [] then start.steady == end.steady
    else samples[0].timestamp.steady == start.steady && samples[|samples| - 1].timestamp.steady == end.steady
         && Gapless(samples)
  }

  lemma GaplessExtends(samples: seq<Sample>)
    requires |samples| > 1
    ensures Gapless(samples) <==>
              Gapless(samples[..|samples| - 1]) && Interval(samples[|samples| - 2], samples[|samples| - 1]) <= 1.0
  {
    hide Interval;
    var before := samples[..|samples| - 1];
    if Gapless(before) && Interval(samples[|samples| - 2], samples[|samples| - 1]) <= 1.0 {
      forall i | 0 < i < |samples| ensures Interval(samples[i - 1], samples[i]) <= 1.0 {
        if i < |before| {
          assert Interval(before[i - 1], before[i]) <= 1.0;
        }
      }
    }
  }

  lemma IntervalsAdd(a: Sample, b: Sample, c: Sample)
    ensures Interval(a, c) == Interval(a, b) + Interval(b, c)
    ensures b.timestamp.steady <= c.timestamp.steady ==> Interval(b, c) >= 0.0
  {
  }

  lemma {:induction false} CoveredAtMostSpan(samples: seq<Sample>)
    requires samples != [] && InOrder(samples)
    ensures Covered(samples) <= Interval(samples[0], samples[|samples| - 1])
    ensures Covered(samples) == Interval(samples[0], samples[|samples| - 1]) <==> Gapless(samples)
  {
    IntervalsAdd(samples[0], samples[0], samples[0]);
    if |samples| > 1 {
      var last := |samples| - 1;
      CoveredAtMostSpan(samples[..last]);
      GaplessExtends(samples);
      IntervalsAdd(samples[0], samples[last - 1], samples[last]);
      hide Interval, Gapless;
    }
    hide Interval;
  }

  /**
   * A factor between two keyframes covers the time they are apart exactly when a sample lies at each of them and no
   * gap between samples is longer than a second.
   */
  lemma CoversStampedSpanIff(exp: Vec -> Rotation, bias: Bias, start: Timestamp, samples: seq<Sample>, end: Timestamp)
    requires Between(start, samples, end)
    ensures Finished(IntegratedAll(exp, Fresh(bias, start), samples), end).delta.t
              == Seconds(end.steady - start.steady)
            <==> Fills(start, samples, end)
  {
    IntegratesCoveredTime(exp, bias, start, samples);
    hide IntegratedAll, Fresh;
    if samples != [] {
      CoveredAtMostSpan(samples);
    }
  }
}
