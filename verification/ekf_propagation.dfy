/** Propagation of the error-state filter's nominal state through buffered inertial readings. */
module EkfPropagation {
  import opened Options
  import opened Rotations
  import opened Strapdown
  import opened TimeOrderedBuffers
  import opened Timestamps

  datatype ImuOptions = ImuOptions(minDt: real, maxDt: real)

  /** Both filters keep the latest 2000 readings, in time order. */
  const IMU_BUFFER := Limits(2000, true)

  datatype Inertial = Inertial(force: Vec, rate: Vec)

  datatype Nominal = Nominal(timestamp: Timestamp, motion: Motion, accelBias: Vec, gyroBias: Vec)

  /** The nominal part of one propagation by dt with one reading. */
  function ImuPropagated(exp: Vec -> Rotation, n: Nominal, imu: Reading<Inertial>, dt: real): Nominal {
    var force, rate := imu.value.force.Minus(n.accelBias), imu.value.rate.Minus(n.gyroBias);
    n.(timestamp := imu.timestamp, motion := Propagate(exp, n.motion, force, rate, dt))
  }

  // A gap is split into steps of at most maxDt.

  function StepsLeft(remaining: real, maxDt: real): nat
    requires maxDt > 0.0
  {
    if remaining <= 0.0 then 0
    else
      PositiveQuotient(remaining, maxDt);
      (remaining / maxDt).Floor + 1
  }

  lemma PositiveQuotient(a: real, b: real)
    requires a > 0.0 && b > 0.0
    ensures a / b > 0.0
  {
  }

  lemma QuotientDrops(a: real, b: real)
    requires b > 0.0
    ensures (a - b) / b == a / b - 1.0
  {
    var q, r := a / b, (a - b) / b;
    assert q * b == a && r * b == a - b;
    assert (q - 1.0 - r) * b == 0.0;
    ProductVanishes(q - 1.0 - r, b);
  }

  function StepLength(remaining: real, maxDt: real): real { if remaining < maxDt then remaining else maxDt }

  lemma StepsShrink(remaining: real, maxDt: real)
    requires remaining > 0.0 && maxDt > 0.0
    ensures StepsLeft(remaining - StepLength(remaining, maxDt), maxDt) < StepsLeft(remaining, maxDt)
  {
    PositiveQuotient(remaining, maxDt);
    if remaining >= maxDt {
      QuotientDrops(remaining, maxDt);
    }
  }

  function Split(remaining: real, maxDt: real): seq<real>
    requires maxDt > 0.0
    decreases StepsLeft(remaining, maxDt)
  {
    if remaining <= 0.0 then []
    else
      StepsShrink(remaining, maxDt);
      var step := StepLength(remaining, maxDt);
      [step] + Split(remaining - step, maxDt)
  }

  function Sum(steps: seq<real>): real { if steps == [] then 0.0 else steps[0] + Sum(steps[1..]) }

  ghost predicate Bounded(steps: seq<real>, maxDt: real) {
    forall i :: 0 <= i < |steps| ==> 0.0 < steps[i] <= maxDt
  }

  /** The steps of a gap lie in (0, maxDt] and add up to the gap; all but the last have the full length. */
  lemma {:induction false} SplitCoversGap(gap: real, maxDt: real)
    requires maxDt > 0.0 && gap >= 0.0
    ensures Bounded(Split(gap, maxDt), maxDt) && Sum(Split(gap, maxDt)) == gap
    ensures forall i :: 0 <= i < |Split(gap, maxDt)| - 1 ==> Split(gap, maxDt)[i] == maxDt
    decreases StepsLeft(gap, maxDt)
  {
    if gap > 0.0 {
      StepsShrink(gap, maxDt);
      SplitCoversGap(gap - StepLength(gap, maxDt), maxDt);
    }
  }

  function SplitPropagated(exp: Vec -> Rotation, n: Nominal, imu: Reading<Inertial>, steps: seq<real>): Nominal
    decreases |steps|
  {
    if steps == [] then n else SplitPropagated(exp, ImuPropagated(exp, n, imu, steps[0]), imu, steps[1..])
  }

  // What one reading does: nothing, only setting the clock, or a propagation over the gap to it.

  predicate Clockless(t: Timestamp) { !t.hasSteady && !t.hasGps }

  function Gap(o: ImuOptions, from: Timestamp, to: Timestamp): Option<real> {
    match TimeDifference(to, from)
    case None => None
    case Some(ns) => if Seconds(ns) < o.minDt then None else Some(Seconds(ns))
  }

  function Advanced(exp: Vec -> Rotation, o: ImuOptions, n: Nominal, imu: Reading<Inertial>): Nominal
    requires o.maxDt > 0.0
  {
    if Clockless(n.timestamp) then n.(timestamp := imu.timestamp)
    else match Gap(o, n.timestamp, imu.timestamp)
      case None => n
      case Some(gap) => SplitPropagated(exp, n, imu, Split(gap, o.maxDt)).(timestamp := imu.timestamp)
  }

  function AdvancedAll(exp: Vec -> Rotation, o: ImuOptions, n: Nominal, batch: seq<Reading<Inertial>>): Nominal
    requires o.maxDt > 0.0
  {
    if batch == [] then n
    else Advanced(exp, o, AdvancedAll(exp, o, n, batch[..|batch| - 1]), batch[|batch| - 1])
  }

  class Propagator {
    const exp: Vec -> Rotation
    const options: ImuOptions
    const buffer: TimeOrderedBuffer<Inertial>
    var nominal: Nominal

    constructor (exp: Vec -> Rotation, options: ImuOptions, nominal: Nominal)
      ensures this.exp == exp && this.options == options && this.nominal == nominal && fresh(buffer)
      ensures buffer.Past() == History([], [], [], []) && buffer.limits == Limits(2000, true)
    {
      this.exp, this.options, this.nominal := exp, options, nominal;
      buffer := new TimeOrderedBuffer<Inertial>(IMU_BUFFER);
    }

    method PropagateImu(imu: Reading<Inertial>, dt: real)
      modifies this
      ensures nominal == ImuPropagated(exp, old(nominal), imu, dt)
    {
      var f, omega := imu.value.force.Minus(nominal.accelBias), imu.value.rate.Minus(nominal.gyroBias);
      var a := nominal.motion.q.Matrix().Apply(f).Plus(GRAVITY);
      var motion := Motion(Displaced(nominal.motion.p, nominal.motion.v, a, dt), Accelerated(nominal.motion.v, a, dt),
                           Compose(nominal.motion.q, exp(omega.Times(dt))));
      nominal := nominal.(motion := motion, timestamp := imu.timestamp);
    }

    method PropagateTo(target: Timestamp)
      requires options.maxDt > 0.0
      modifies this, buffer
      ensures buffer.Past() == AfterPop(old(buffer.Past()), target, true)
      ensures nominal == AdvancedAll(exp, options, old(nominal),
                                     old(buffer.measurements)[..PopCount(old(buffer.measurements), target, true)])
    {
      var batch := buffer.PopUntil(target);
      for i := 0 to |batch|
        invariant nominal == AdvancedAll(exp, options, old(nominal), batch[..i])
        invariant buffer.Past() == AfterPop(old(buffer.Past()), target, true)
      {
        hide Advanced, TimeDifference;
        assert batch[..i + 1][..i] == batch[..i];
        AdvanceBy(batch[i]);
      }
      assert batch[..|batch|] == batch;
    }

    method AdvanceBy(imu: Reading<Inertial>)
      requires options.maxDt > 0.0
      modifies this
      ensures nominal == Advanced(exp, options, old(nominal), imu)
    {
      hide ImuPropagated, Seconds, StepsLeft;
      if !nominal.timestamp.hasSteady && !nominal.timestamp.hasGps {
        nominal := nominal.(timestamp := imu.timestamp);
        return;
      }
      var difference := TimeDifference(imu.timestamp, nominal.timestamp);
      if difference.None? {
        return;
      }
      var dt := Seconds(difference.value);
      if dt < options.minDt {
        return;
      }
      var remaining := dt;
      while remaining > 0.0
        invariant SplitPropagated(exp, nominal, imu, Split(remaining, options.maxDt))
               == SplitPropagated(exp, old(nominal), imu, Split(dt, options.maxDt))
        decreases StepsLeft(remaining, options.maxDt)
      {
        StepsShrink(remaining, options.maxDt);
        var step := if remaining < options.maxDt then remaining else options.maxDt;
        assert Split(remaining, options.maxDt)[1..] == Split(remaining - step, options.maxDt);
        PropagateImu(imu, step);
        remaining := remaining - step;
      }
      nominal := nominal.(timestamp := imu.timestamp);
    }
  }

  // Splitting a gap changes neither position nor velocity when the corrected rate is zero.

  lemma {:induction false} SplittingIsOneStep(exp: Vec -> Rotation, n: Nominal, imu: Reading<Inertial>,
                                              steps: seq<real>)
    requires exp(ZeroVec) == NoRotation && imu.value.rate.Minus(n.gyroBias) == ZeroVec && steps != []
    ensures SplitPropagated(exp, n, imu, steps) == ImuPropagated(exp, n, imu, Sum(steps))
    decreases |steps|
  {
    var rest := steps[1..];
    var next := ImuPropagated(exp, n, imu, steps[0]);
    hide Displaced, Accelerated, Quat.Rotate, Quat.Mul, Compose, Vec.Minus;
    NoTurn(exp, n.motion.q, steps[0]);
    NoTurn(exp, n.motion.q, Sum(steps));
    if rest == [] {
      assert SplitPropagated(exp, next, imu, rest) == next;
      assert Sum(steps) == steps[0] + Sum(rest);
    } else {
      SplittingIsOneStep(exp, next, imu, rest);
      NoTurn(exp, n.motion.q, Sum(rest));
      var a := n.motion.q.Rotate(imu.value.force.Minus(n.accelBias)).Plus(GRAVITY);
      DisplacedOn(n.motion.p, n.motion.v, a, steps[0], Sum(rest));
    }
  }

  // Only the difference between reading and bias counts.

  function OffsetReading(imu: Reading<Inertial>, e: Vec, d: Vec): Reading<Inertial> {
    imu.(value := Inertial(imu.value.force.Plus(e), imu.value.rate.Plus(d)))
  }

  function OffsetReadings(batch: seq<Reading<Inertial>>, e: Vec, d: Vec): (r: seq<Reading<Inertial>>)
    ensures |r| == |batch| && forall i :: 0 <= i < |r| ==> r[i] == OffsetReading(batch[i], e, d)
  {
    seq(|batch|, i requires 0 <= i < |batch| => OffsetReading(batch[i], e, d))
  }

  function OffsetNominal(n: Nominal, e: Vec, d: Vec): Nominal {
    n.(accelBias := n.accelBias.Plus(e), gyroBias := n.gyroBias.Plus(d))
  }

  lemma OffsetCancels(u: Vec, v: Vec, e: Vec)
    ensures u.Plus(e).Minus(v.Plus(e)) == u.Minus(v)
  {
  }

  lemma {:induction false} OffsetSteps(exp: Vec -> Rotation, n: Nominal, imu: Reading<Inertial>, steps: seq<real>,
                                       e: Vec, d: Vec)
    ensures SplitPropagated(exp, OffsetNominal(n, e, d), OffsetReading(imu, e, d), steps)
         == OffsetNominal(SplitPropagated(exp, n, imu, steps), e, d)
    decreases |steps|
  {
    hide Propagate, Vec.Plus, Vec.Minus;
    if steps != [] {
      OffsetCancels(imu.value.force, n.accelBias, e);
      OffsetCancels(imu.value.rate, n.gyroBias, d);
      OffsetSteps(exp, ImuPropagated(exp, n, imu, steps[0]), imu, steps[1..], e, d);
    }
  }

  lemma OffsetAdvances(exp: Vec -> Rotation, o: ImuOptions, n: Nominal, imu: Reading<Inertial>, e: Vec, d: Vec)
    requires o.maxDt > 0.0
    ensures Advanced(exp, o, OffsetNominal(n, e, d), OffsetReading(imu, e, d))
         == OffsetNominal(Advanced(exp, o, n, imu), e, d)
  {
    hide SplitPropagated, Split, Vec.Plus, Gap;
    var gap := Gap(o, n.timestamp, imu.timestamp);
    if gap.Some? {
      OffsetSteps(exp, n, imu, Split(gap.value, o.maxDt), e, d);
    }
  }

  /**
   * For every batch: an error e common to all forces and the accelerometer bias, and one d common to all rates and
   * the gyroscope bias, change nothing but the biases.
   */
  lemma {:induction false} CommonErrorCancels(exp: Vec -> Rotation, o: ImuOptions, n: Nominal,
                                              batch: seq<Reading<Inertial>>, e: Vec, d: Vec)
    requires o.maxDt > 0.0
    ensures AdvancedAll(exp, o, OffsetNominal(n, e, d), OffsetReadings(batch, e, d))
         == OffsetNominal(AdvancedAll(exp, o, n, batch), e, d)
  {
    hide Advanced, Vec.Plus;
    if batch != [] {
      var before, last, all := batch[..|batch| - 1], batch[|batch| - 1], OffsetReadings(batch, e, d);
      assert all[..|all| - 1] == OffsetReadings(before, e, d);
      CommonErrorCancels(exp, o, n, before, e, d);
      OffsetAdvances(exp, o, AdvancedAll(exp, o, n, before), last, e, d);
    }
  }

  function StepsOf(o: ImuOptions, t: Timestamp, imu: Reading<Inertial>): seq<real>
    requires o.maxDt > 0.0
  {
    if Clockless(t) || Gap(o, t, imu.timestamp).None? then [] else Split(Gap(o, t, imu.timestamp).value, o.maxDt)
  }

  function StepsOfAll(exp: Vec -> Rotation, o: ImuOptions, n: Nominal, batch: seq<Reading<Inertial>>): seq<real>
    requires o.maxDt > 0.0
  {
    if batch == [] then []
    else
      var before := batch[..|batch| - 1];
      StepsOfAll(exp, o, n, before) + StepsOf(o, AdvancedAll(exp, o, n, before).timestamp, batch[|batch| - 1])
  }

  lemma {:induction false} SumConcat(a: seq<real>, b: seq<real>)
    ensures Sum(a + b) == Sum(a) + Sum(b)
  {
    if a == [] {
      assert a + b == b;
    } else {
      assert (a + b)[1..] == a[1..] + b;
      SumConcat(a[1..], b);
    }
  }

  // A vehicle whose specific force just carries its weight.

  /** The reading less the bias is the weight seen from the body, and no rate. */
  predicate Carries(n: Nominal, imu: Reading<Inertial>) {
    && n.motion.q.Rotate(imu.value.force.Minus(n.accelBias)) == Vec(0.0, 0.0, 9.80665)
    && imu.value.rate.Minus(n.gyroBias) == ZeroVec
  }

  /** The position after t at the same speed; attitude, velocity and biases as they were. */
  function StraightOn(n: Nominal, t: real): Nominal {
    n.(motion := n.motion.(p := n.motion.p.Plus(n.motion.v.Times(t))))
  }

  lemma StraightOnTwice(p: Vec, v: Vec, s: real, t: real)
    ensures p.Plus(v.Times(s)).Plus(v.Times(t)) == p.Plus(v.Times(s + t)) && p.Plus(v.Times(0.0)) == p
  {
  }

  lemma {:induction false} CarriedOverSteps(exp: Vec -> Rotation, n: Nominal, imu: Reading<Inertial>, steps: seq<real>)
    requires exp(ZeroVec) == NoRotation && Carries(n, imu)
    ensures SplitPropagated(exp, n, imu, steps).(timestamp := n.timestamp) == StraightOn(n, Sum(steps))
    decreases |steps|
  {
    hide Propagate, Vec.Plus, Vec.Times, Vec.Minus, Quat.Rotate;
    StraightOnTwice(n.motion.p, n.motion.v, 0.0, 0.0);
    if steps != [] {
      var next := ImuPropagated(exp, n, imu, steps[0]);
      CarriedStraightOn(exp, n.motion, imu.value.force.Minus(n.accelBias), steps[0]);
      CarriedOverSteps(exp, next, imu, steps[1..]);
      StraightOnTwice(n.motion.p, n.motion.v, steps[0], Sum(steps[1..]));
    }
  }

  lemma CarriedOverReading(exp: Vec -> Rotation, o: ImuOptions, n: Nominal, imu: Reading<Inertial>)
    requires exp(ZeroVec) == NoRotation && Carries(n, imu) && o.maxDt > 0.0
    ensures Advanced(exp, o, n, imu).(timestamp := n.timestamp)
         == StraightOn(n, Sum(StepsOf(o, n.timestamp, imu)))
  {
    hide SplitPropagated, Split, Vec.Plus, Vec.Times, Gap, Carries;
    StraightOnTwice(n.motion.p, n.motion.v, 0.0, 0.0);
    var gap := Gap(o, n.timestamp, imu.timestamp);
    if gap.Some? {
      CarriedOverSteps(exp, n, imu, Split(gap.value, o.maxDt));
    }
  }

  /**
   * Over every batch whose corrected readings are the weight and no rate, a vehicle goes straight on by its velocity
   * times the sum of the steps, and keeps velocity, attitude and biases; at rest it stays where it is.
   */
  lemma {:induction false} CarriedOverBatch(exp: Vec -> Rotation, o: ImuOptions, n: Nominal,
                                            batch: seq<Reading<Inertial>>)
    requires exp(ZeroVec) == NoRotation && o.maxDt > 0.0
    requires forall i :: 0 <= i < |batch| ==> Carries(n, batch[i])
    ensures AdvancedAll(exp, o, n, batch).(timestamp := n.timestamp)
         == StraightOn(n, Sum(StepsOfAll(exp, o, n, batch)))
    ensures n.motion.v == ZeroVec ==> AdvancedAll(exp, o, n, batch).motion == n.motion
  {
    hide Advanced, Vec.Plus, Vec.Times, StepsOf, Quat.Rotate, Vec.Minus;
    StraightOnTwice(n.motion.p, n.motion.v, 0.0, 0.0);
    if batch != [] {
      var before, last := batch[..|batch| - 1], batch[|batch| - 1];
      CarriedOverBatch(exp, o, n, before);
      var middle := AdvancedAll(exp, o, n, before);
      CarriedOverReading(exp, o, middle, last);
      SumConcat(StepsOfAll(exp, o, n, before), StepsOf(o, middle.timestamp, last));
      StraightOnTwice(n.motion.p, n.motion.v, Sum(StepsOfAll(exp, o, n, before)),
                      Sum(StepsOf(o, middle.timestamp, last)));
    }
    StaysPut(n.motion.p, Sum(StepsOfAll(exp, o, n, batch)));
  }

  lemma StaysPut(p: Vec, t: real)
    ensures p.Plus(ZeroVec.Times(t)) == p
  {
  }

  // Which readings move the state.

  /**
   * On the monotonic clock a reading less than minDt after the state changes nothing; any other is propagated over
   * exactly the gap, and sets the clock.
   */
  lemma ReadingMovesStateIff(exp: Vec -> Rotation, o: ImuOptions, n: Nominal, imu: Reading<Inertial>)
    requires o.maxDt > 0.0 && o.minDt >= 0.0 && n.timestamp.hasSteady && imu.timestamp.hasSteady
    ensures var gap := (imu.timestamp.steady - n.timestamp.steady) as real / 1_000_000_000.0;
            && (gap < o.minDt ==> Advanced(exp, o, n, imu) == n && StepsOf(o, n.timestamp, imu) == [])
            && (gap >= o.minDt ==>
                  && Advanced(exp, o, n, imu).timestamp == imu.timestamp
                  && Advanced(exp, o, n, imu)
                     == SplitPropagated(exp, n, imu, StepsOf(o, n.timestamp, imu)).(timestamp := imu.timestamp)
                  && Sum(StepsOf(o, n.timestamp, imu)) == gap)
  {
    hide SplitPropagated, Split;
    var gap := Gap(o, n.timestamp, imu.timestamp);
    if gap.Some? {
      SplitCoversGap(gap.value, o.maxDt);
    }
  }

  lemma {:induction false} StepsEndAtReading(exp: Vec -> Rotation, n: Nominal, imu: Reading<Inertial>, steps: seq<real>)
    ensures SplitPropagated(exp, n, imu, steps).timestamp == if steps == [] then n.timestamp else imu.timestamp
    decreases |steps|
  {
    hide Propagate;
    if steps != [] {
      StepsEndAtReading(exp, ImuPropagated(exp, n, imu, steps[0]), imu, steps[1..]);
    }
  }

  /** A state without any clock only takes the reading's; one without a clock in common with it stays as it is. */
  lemma ReadingOnOtherClock(exp: Vec -> Rotation, o: ImuOptions, n: Nominal, imu: Reading<Inertial>)
    requires o.maxDt > 0.0
    ensures !n.timestamp.hasSteady && !n.timestamp.hasGps ==>
              Advanced(exp, o, n, imu) == Nominal(imu.timestamp, n.motion, n.accelBias, n.gyroBias)
    ensures n.timestamp.hasSteady && !n.timestamp.hasGps && !imu.timestamp.hasSteady ==> Advanced(exp, o, n, imu) == n
    ensures n.timestamp.hasGps && !n.timestamp.hasSteady && !imu.timestamp.hasGps ==> Advanced(exp, o, n, imu) == n
  {
    hide SplitPropagated, Split;
  }

  lemma {:induction false} BatchConcat(exp: Vec -> Rotation, o: ImuOptions, n: Nominal, a: seq<Reading<Inertial>>,
                                       b: seq<Reading<Inertial>>)
    requires o.maxDt > 0.0
    ensures AdvancedAll(exp, o, n, a + b) == AdvancedAll(exp, o, AdvancedAll(exp, o, n, a), b)
  {
    hide Advanced;
    if b == [] {
      assert a + b == a;
    } else {
      var before, last := b[..|b| - 1], b[|b| - 1];
      assert (a + b)[..|a + b| - 1] == a + before && (a + b)[|a + b| - 1] == last;
      BatchConcat(exp, o, n, a, before);
    }
  }

  // Whole runs on the monotonic clock.

  /** The filter between calls; steps accounts for every propagation so far. */
  datatype Filter = Filter(nominal: Nominal, past: History<Inertial>, steps: seq<real>)

  /** Corrected stands for what an accepted measurement injects: anything but the time. */
  datatype Event =
    | Imu(reading: Reading<Inertial>)
    | PropagateTo(target: Timestamp)
    | Corrected(motion: Motion, accelBias: Vec, gyroBias: Vec)

  function After(exp: Vec -> Rotation, o: ImuOptions, f: Filter, e: Event): Filter
    requires o.maxDt > 0.0
  {
    match e
    case Imu(reading) => f.(past := AfterInsert(IMU_BUFFER, f.past, reading).0)
    case PropagateTo(target) =>
      var batch := f.past.held[..PopCount(f.past.held, target, true)];
      Filter(AdvancedAll(exp, o, f.nominal, batch), AfterPop(f.past, target, true),
             f.steps + StepsOfAll(exp, o, f.nominal, batch))
    case Corrected(motion, accelBias, gyroBias) =>
      f.(nominal := Nominal(f.nominal.timestamp, motion, accelBias, gyroBias))
  }

  function Run(exp: Vec -> Rotation, o: ImuOptions, f: Filter, events: seq<Event>): Filter
    requires o.maxDt > 0.0
  {
    if events == [] then f
    else After(exp, o, Run(exp, o, f, events[..|events| - 1]), events[|events| - 1])
  }

  /** Steps that lead from one monotonic time to a later one. */
  ghost predicate Leads(steps: seq<real>, maxDt: real, from: Timestamp, to: Timestamp) {
    && from.hasSteady && to.hasSteady && from.steady <= to.steady
    && Bounded(steps, maxDt) && Sum(steps) == Seconds(to.steady - from.steady)
  }

  lemma LeadsOn(a: seq<real>, b: seq<real>, maxDt: real, x: Timestamp, y: Timestamp, z: Timestamp)
    requires Leads(a, maxDt, x, y) && Leads(b, maxDt, y, z)
    ensures Leads(a + b, maxDt, x, z)
  {
    SumConcat(a, b);
  }

  lemma ReadingLeads(exp: Vec -> Rotation, o: ImuOptions, n: Nominal, imu: Reading<Inertial>)
    requires o.maxDt > 0.0 && o.minDt >= 0.0 && n.timestamp.hasSteady && imu.timestamp.hasSteady
    ensures Leads(StepsOf(o, n.timestamp, imu), o.maxDt, n.timestamp, Advanced(exp, o, n, imu).timestamp)
  {
    hide SplitPropagated, Split;
    var gap := Gap(o, n.timestamp, imu.timestamp);
    if gap.Some? {
      SplitCoversGap(gap.value, o.maxDt);
    }
  }

  lemma {:induction false} BatchLeads(exp: Vec -> Rotation, o: ImuOptions, n: Nominal, batch: seq<Reading<Inertial>>)
    requires o.maxDt > 0.0 && o.minDt >= 0.0 && n.timestamp.hasSteady && OnClock(Monotonic, batch)
    ensures Leads(StepsOfAll(exp, o, n, batch), o.maxDt, n.timestamp, AdvancedAll(exp, o, n, batch).timestamp)
  {
    hide Advanced, StepsOf;
    if batch != [] {
      var before, last := batch[..|batch| - 1], batch[|batch| - 1];
      BatchLeads(exp, o, n, before);
      var middle := AdvancedAll(exp, o, n, before);
      ReadingLeads(exp, o, middle, last);
      LeadsOn(StepsOfAll(exp, o, n, before), StepsOf(o, middle.timestamp, last), o.maxDt, n.timestamp,
              middle.timestamp, AdvancedAll(exp, o, n, batch).timestamp);
    }
  }

  ghost predicate OnMonotonicClock(e: Event) { e.Imu? ==> e.reading.timestamp.hasSteady }

  lemma EventLeads(exp: Vec -> Rotation, o: ImuOptions, start: Timestamp, f: Filter, e: Event)
    requires o.maxDt > 0.0 && o.minDt >= 0.0 && OnClock(Monotonic, f.past.held) && OnMonotonicClock(e)
    requires Leads(f.steps, o.maxDt, start, f.nominal.timestamp)
    ensures var g := After(exp, o, f, e);
            && Leads(g.steps, o.maxDt, start, g.nominal.timestamp) && OnClock(Monotonic, g.past.held)
            && f.nominal.timestamp.steady <= g.nominal.timestamp.steady
  {
    hide AdvancedAll, StepsOfAll, PopCount;
    if e.PropagateTo? {
      var batch := f.past.held[..PopCount(f.past.held, e.target, true)];
      BatchLeads(exp, o, f.nominal, batch);
      LeadsOn(f.steps, StepsOfAll(exp, o, f.nominal, batch), o.maxDt, start, f.nominal.timestamp,
              AdvancedAll(exp, o, f.nominal, batch).timestamp);
    }
  }

  lemma NothingLeads(t: Timestamp, maxDt: real)
    requires t.hasSteady
    ensures Leads([], maxDt, t, t)
  {
  }

  /**
   * On every run on the monotonic clock, whatever is corrected in between: all steps lie in (0, maxDt], they add up
   * to the time the nominal state has advanced, and that time never goes back.
   */
  lemma {:induction false} StepsAddUpToElapsedTime(exp: Vec -> Rotation, o: ImuOptions, start: Nominal,
                                                   buffered: History<Inertial>, events: seq<Event>)
    requires o.maxDt > 0.0 && o.minDt >= 0.0 && start.timestamp.hasSteady && OnClock(Monotonic, buffered.held)
    requires forall i :: 0 <= i < |events| ==> OnMonotonicClock(events[i])
    ensures var f := Run(exp, o, Filter(start, buffered, []), events);
            && Leads(f.steps, o.maxDt, start.timestamp, f.nominal.timestamp)
            && OnClock(Monotonic, f.past.held)
    ensures var f0 := Filter(start, buffered, []);
            events == [] || Run(exp, o, f0, events[..|events| - 1]).nominal.timestamp.steady
                         <= Run(exp, o, f0, events).nominal.timestamp.steady
  {
    hide Leads, After, OnClock, OnMonotonicClock;
    NothingLeads(start.timestamp, o.maxDt);
    if events != [] {
      var before, e := events[..|events| - 1], events[|events| - 1];
      StepsAddUpToElapsedTime(exp, o, start, buffered, before);
      EventLeads(exp, o, start.timestamp, Run(exp, o, Filter(start, buffered, []), before), e);
    }
  }
}
