/** The sliding window of keyframes and inertial factors; the solver itself is left open. */
module CeresWindows {
  import opened CeresCosts
  import opened ImuPreintegrators
  import opened Options
  import opened Rotations
  import opened Strapdown
  import opened Timestamps

  const MAX_IMU_BUFFER := 2000

  datatype Setting = Setting(maxKeyframes: nat, minDistance: real)

  datatype Report = Buffered | Accepted | Rejected

  /** A satellite fix, already in the local frame. */
  datatype Fix = Fix(timestamp: Timestamp, valid: bool, position: Vec)

  /** What a solver run leaves in each keyframe it may change; timestamps are not its variables. */
  type Solution = nat -> (Motion, Bias)

  /** The estimator's state. since lists the samples integrated into preint, spans those of each factor. */
  datatype Window = Window(keyframes: seq<Keyframe>, factors: seq<Factor>, preint: State, active: bool,
                           buffer: seq<Sample>, initialised: bool, lastKeyframe: Timestamp, since: seq<Sample>,
                           spans: seq<seq<Sample>>)

  const NO_TIME := Timestamp(0, GpsTime(0, 0.0), false, false)

  const EmptyWindow := Window([], [], Fresh(Bias(ZeroVec, ZeroVec), NO_TIME), false, [], false, NO_TIME, [], [])

  function Last<T>(s: seq<T>): T
    requires s != []
  {
    s[|s| - 1]
  }

  function WithImu(exp: Vec -> Rotation, w: Window, imu: Sample): Window {
    var buffer := if |w.buffer| < MAX_IMU_BUFFER then w.buffer + [imu] else w.buffer;
    if w.active then w.(buffer := buffer, preint := Integrated(exp, w.preint, imu), since := w.since + [imu])
    else w.(buffer := buffer)
  }

  /** The buffered samples that are not before t. */
  function NotBefore(samples: seq<Sample>, t: Timestamp): seq<Sample> {
    if samples == [] then []
    else
      var rest, last := NotBefore(samples[..|samples| - 1], t), Last(samples);
      if CompareTimestamps(last.timestamp, t).Before? then rest else rest + [last]
  }

  /** The first keyframe lies at the origin, levelled by the buffered forces. */
  function Initialised(exp: Vec -> Rotation, w: Window, fix: Fix, level: Rotation): Window {
    var bias, since := Bias(ZeroVec, ZeroVec), NotBefore(w.buffer, fix.timestamp);
    w.(keyframes := w.keyframes + [Keyframe(fix.timestamp, Motion(ZeroVec, ZeroVec, level), bias)],
       preint := IntegratedAll(exp, Fresh(bias, fix.timestamp), since), active := true,
       initialised := true, lastKeyframe := fix.timestamp, since := since)
  }

  /** |a - b| < d, without the square root. */
  predicate Within(a: Vec, b: Vec, d: real) {
    var c := a.Minus(b);
    0.0 < d && c.Inner(c) < d * d
  }

  predicate RefinesLatest(setting: Setting, w: Window, fix: Fix)
    requires w.keyframes != []
  {
    && Within(fix.position, Last(w.keyframes).motion.p, setting.minDistance)
    && Seconds(fix.timestamp.steady - w.lastKeyframe.steady) < 0.2
  }

  /** Only the velocity of the newest keyframe is a variable. */
  function LatestRefined(w: Window, velocity: Vec): Window
    requires w.keyframes != []
  {
    var n := |w.keyframes| - 1;
    w.(keyframes := w.keyframes[n := w.keyframes[n].(motion := w.keyframes[n].motion.(v := velocity))])
  }

  /** The predicted keyframe and the finished factor appended. */
  function Grown(w: Window, t: Timestamp): Window
    requires w.keyframes != []
  {
    var factor, prev := Finished(w.preint, t), Last(w.keyframes);
    var keyframes := w.keyframes + [Keyframe(t, Predicted(prev.motion, factor.delta), prev.bias)];
    w.(keyframes := keyframes, factors := w.factors + [factor], spans := w.spans + [w.since])
  }

  /** The window as the solver finds it: grown, and the oldest keyframes gone. */
  function Extended(setting: Setting, w: Window, t: Timestamp): (r: Window)
    requires w.keyframes != []
    ensures r.keyframes != []
  {
    Trimmed(setting, Grown(w, t))
  }

  function Trimmed(setting: Setting, w: Window): (r: Window)
    requires w.keyframes != []
    ensures r.keyframes != []
    decreases |w.keyframes|
  {
    if |w.keyframes| <= setting.maxKeyframes + 1 then w
    else Trimmed(setting, Dropped(w))
  }

  function Rest<T>(s: seq<T>): seq<T> { if s == [] then [] else s[1..] }

  /** Any change of poses, velocities and biases, except the oldest pose and velocity. */
  function Solved(keyframes: seq<Keyframe>, solution: Solution): (r: seq<Keyframe>)
    ensures |r| == |keyframes| && forall i :: 0 <= i < |r| ==> r[i].timestamp == keyframes[i].timestamp
  {
    seq(|keyframes|, i requires 0 <= i < |keyframes| =>
      Keyframe(keyframes[i].timestamp, if i == 0 then keyframes[0].motion else solution(i).0, solution(i).1))
  }

  function KeyframeCreated(setting: Setting, w: Window, t: Timestamp, solution: Solution): Window
    requires w.keyframes != []
  {
    var extended := Extended(setting, w, t);
    var keyframes := Solved(extended.keyframes, solution);
    extended.(keyframes := keyframes, preint := Fresh(Last(keyframes).bias, t), lastKeyframe := t, since := [])
  }

  function WithFix(exp: Vec -> Rotation, setting: Setting, w: Window, fix: Fix, level: Rotation, velocity: Vec,
                   solution: Solution): (Window, Report)
    requires w.initialised ==> w.keyframes != []
  {
    if !fix.valid then (w, Rejected)
    else if !w.initialised then (Initialised(exp, w, fix, level), Accepted)
    else if RefinesLatest(setting, w, fix) then (LatestRefined(w, velocity), Accepted)
    else (KeyframeCreated(setting, w, fix.timestamp, solution), Accepted)
  }

  /** One factor fewer than keyframes, and factor i runs from keyframe i to keyframe i + 1. */
  ghost predicate Linked(keyframes: seq<Keyframe>, factors: seq<Factor>) {
    && |factors| + 1 == |keyframes|
    && (forall i :: 0 <= i < |factors| ==>
          factors[i].start == keyframes[i].timestamp && factors[i].end == keyframes[i + 1].timestamp)
  }

  /** Each factor is what integrating the samples of its span gives. */
  ghost predicate Spanned(exp: Vec -> Rotation, factors: seq<Factor>, spans: seq<seq<Sample>>) {
    && |spans| == |factors|
    && (forall i :: 0 <= i < |factors| ==>
          var f := factors[i];
          f == Finished(IntegratedAll(exp, Fresh(f.bias, f.start), spans[i]), f.end))
  }

  /**
   * What holds between calls once initialised: each factor links two neighbouring keyframes, and the preintegration
   * under way started at the newest keyframe with its bias and holds exactly the samples since.
   */
  ghost predicate Chained(exp: Vec -> Rotation, setting: Setting, w: Window) {
    && Linked(w.keyframes, w.factors) && Spanned(exp, w.factors, w.spans)
    && |w.keyframes| <= setting.maxKeyframes + 1
    && w.active && w.lastKeyframe == Last(w.keyframes).timestamp
    && w.preint == IntegratedAll(exp, Fresh(Last(w.keyframes).bias, w.lastKeyframe), w.since)
  }

  ghost predicate Consistent(exp: Vec -> Rotation, setting: Setting, w: Window) {
    if w.initialised then Chained(exp, setting, w)
    else w.keyframes == [] && w.factors == [] && w.spans == [] && !w.active
  }

  lemma ImuKeepsChain(exp: Vec -> Rotation, setting: Setting, w: Window, imu: Sample)
    requires Consistent(exp, setting, w)
    ensures Consistent(exp, setting, WithImu(exp, w, imu))
  {
    hide Integrated;
    assert (w.since + [imu])[..|w.since|] == w.since;
  }

  /** One round of the trimming loop. */
  function Dropped(w: Window): Window
    requires w.keyframes != []
  {
    w.(keyframes := w.keyframes[1..], factors := Rest(w.factors), spans := Rest(w.spans))
  }

  /** How many of the oldest keyframes the trimming loop drops. */
  function Excess(setting: Setting, w: Window): nat {
    if |w.keyframes| <= setting.maxKeyframes + 1 then 0 else |w.keyframes| - setting.maxKeyframes - 1
  }

  /** r lacks the k oldest keyframes, factors and spans of w. */
  ghost predicate Lacks(w: Window, r: Window, k: nat) {
    && k <= |w.keyframes| && k <= |w.factors| && k <= |w.spans|
    && r.keyframes == w.keyframes[k..] && r.factors == w.factors[k..] && r.spans == w.spans[k..]
  }

  lemma LacksOneMore(w: Window, r: Window, k: nat)
    requires w.keyframes != [] && w.factors != [] && w.spans != [] && Lacks(Dropped(w), r, k)
    ensures Lacks(w, r, k + 1)
  {
  }

  lemma {:induction false} TrimDropsOldest(setting: Setting, w: Window)
    requires |w.spans| == |w.factors| == |w.keyframes| - 1
    ensures Lacks(w, Trimmed(setting, w), Excess(setting, w))
    decreases |w.keyframes|
  {
    if |w.keyframes| > setting.maxKeyframes + 1 {
      TrimDropsOldest(setting, Dropped(w));
      LacksOneMore(w, Trimmed(setting, w), Excess(setting, w) - 1);
      hide Lacks;
    }
  }

  lemma TrimKeepsChain(setting: Setting, w: Window)
    requires Linked(w.keyframes, w.factors) && |w.spans| == |w.factors|
    ensures var r := Trimmed(setting, w);
            && Linked(r.keyframes, r.factors) && |r.keyframes| <= setting.maxKeyframes + 1
            && Last(r.keyframes) == Last(w.keyframes)
            && (r.factors != [] ==>
                  && Last(r.factors) == Last(w.factors)
                  && r.keyframes[|r.keyframes| - 2] == w.keyframes[|w.keyframes| - 2])
            && (setting.maxKeyframes > 0 && w.factors != [] ==> r.factors != [])
  {
    TrimDropsOldest(setting, w);
    hide Trimmed;
  }

  lemma GrownIsSpanned(exp: Vec -> Rotation, setting: Setting, w: Window, t: Timestamp)
    requires Chained(exp, setting, w)
    ensures var g := Grown(w, t); Spanned(exp, g.factors, g.spans) && Linked(g.keyframes, g.factors)
  {
    hide Predicted, Integrated;
    KeepsSetting(exp, Last(w.keyframes).bias, w.lastKeyframe, w.since);
  }

  lemma TrimKeepsSpans(exp: Vec -> Rotation, setting: Setting, w: Window)
    requires Linked(w.keyframes, w.factors) && Spanned(exp, w.factors, w.spans)
    ensures Spanned(exp, Trimmed(setting, w).factors, Trimmed(setting, w).spans)
  {
    hide Trimmed, IntegratedAll, Finished;
    TrimDropsOldest(setting, w);
  }

  lemma KeyframeKeepsChain(exp: Vec -> Rotation, setting: Setting, w: Window, t: Timestamp, solution: Solution)
    requires Chained(exp, setting, w)
    ensures Chained(exp, setting, KeyframeCreated(setting, w, t, solution))
    ensures KeyframeCreated(setting, w, t, solution).initialised == w.initialised
  {
    GrownIsSpanned(exp, setting, w, t);
    TrimKeepsSpans(exp, setting, Grown(w, t));
    TrimKeepsChain(setting, Grown(w, t));
    TrimKeepsRest(setting, Grown(w, t));
    hide Predicted, Integrated, Trimmed, Spanned;
    var x, next := Extended(setting, w, t), KeyframeCreated(setting, w, t, solution);
    assert Last(x.keyframes) == Last(Grown(w, t).keyframes);
    assert Last(next.keyframes).timestamp == Last(x.keyframes).timestamp == t;
  }

  lemma TrimKeepsRest(setting: Setting, w: Window)
    requires w.keyframes != []
    ensures var r := Trimmed(setting, w);
            r == Window(r.keyframes, r.factors, w.preint, w.active, w.buffer, w.initialised, w.lastKeyframe, w.since,
                     r.spans)
    decreases |w.keyframes|
  {
  }

  lemma FixKeepsChain(exp: Vec -> Rotation, setting: Setting, w: Window, fix: Fix, level: Rotation, velocity: Vec,
                      solution: Solution)
    requires Consistent(exp, setting, w)
    ensures Consistent(exp, setting, WithFix(exp, setting, w, fix, level, velocity, solution).0)
  {
    if fix.valid && w.initialised && !RefinesLatest(setting, w, fix) {
      KeyframeKeepsChain(exp, setting, w, fix.timestamp, solution);
    } else if fix.valid && w.initialised {
      var r := LatestRefined(w, velocity);
      assert Last(r.keyframes).bias == Last(w.keyframes).bias;
    }
  }

  class SlidingWindow {
    const exp: Vec -> Rotation
    const setting: Setting
    const preint: Preintegrator
    var window: seq<Keyframe>
    var factors: seq<Factor>
    var preintActive: bool
    var imuBuffer: seq<Sample>
    var initialised: bool
    var lastKeyframe: Timestamp
    ghost var since: seq<Sample>
    ghost var spans: seq<seq<Sample>>

    ghost predicate Valid()
      reads this, preint
    {
      preint.Valid() && preint.exp == exp && Consistent(exp, setting, Value())
    }

    ghost function Value(): Window
      reads this, preint
    {
      Window(window, factors, preint.Value(), preintActive, imuBuffer, initialised, lastKeyframe, since, spans)
    }

    constructor (exp: Vec -> Rotation, setting: Setting)
      ensures Valid() && this.exp == exp && this.setting == setting && fresh(preint) && Value() == EmptyWindow
    {
      this.exp, this.setting := exp, setting;
      preint := new Preintegrator(exp, NO_TIME);
      window, factors, preintActive, imuBuffer := [], [], false, [];
      initialised, lastKeyframe, since, spans := false, NO_TIME, [], [];
    }

    method AddImu(imu: Sample) returns (report: Report)
      requires Valid()
      modifies this, preint
      ensures Valid() && report == Buffered && Value() == WithImu(exp, old(Value()), imu)
    {
      hide Integrated, Consistent;
      ImuKeepsChain(exp, setting, Value(), imu);
      if |imuBuffer| < MAX_IMU_BUFFER {
        imuBuffer := imuBuffer + [imu];
      }
      if preintActive {
        preint.Integrate(imu);
        since := since + [imu];
      }
      report := Buffered;
    }

    method AddGnss(fix: Fix, level: Rotation, velocity: Vec, solution: Solution) returns (report: Report)
      requires Valid()
      modifies this, preint
      ensures Valid() && (Value(), report) == WithFix(exp, setting, old(Value()), fix, level, velocity, solution)
    {
      assert initialised ==> window != [];
      hide Predicted, Integrated, Within, Consistent;
      if !fix.valid {
        return Rejected;
      }
      FixKeepsChain(exp, setting, Value(), fix, level, velocity, solution);
      if !initialised {
        report := InitFromGnss(fix, level);
        return;
      }
      var newest := window[|window| - 1];
      if Within(fix.position, newest.motion.p, setting.minDistance) &&
         Seconds(fix.timestamp.steady - lastKeyframe.steady) < 0.2 {
        window := window[|window| - 1 := newest.(motion := newest.motion.(v := velocity))];
        return Accepted;
      }
      report := CreateKeyframe(fix.timestamp, solution);
    }

    method InitFromGnss(fix: Fix, level: Rotation) returns (report: Report)
      requires preint.Valid() && preint.exp == exp
      modifies this, preint
      ensures preint.Valid() && report == Accepted && Value() == Initialised(exp, old(Value()), fix, level)
    {
      hide Integrated;
      window := window + [Keyframe(fix.timestamp, Motion(ZeroVec, ZeroVec, level), Bias(ZeroVec, ZeroVec))];
      lastKeyframe, initialised := fix.timestamp, true;
      preint.Reset(ZeroVec, ZeroVec, fix.timestamp);
      since := [];
      var i := 0;
      ghost var start := Fresh(Bias(ZeroVec, ZeroVec), fix.timestamp);
      while i < |imuBuffer|
        invariant 0 <= i <= |imuBuffer| && preint.Valid()
        invariant since == NotBefore(imuBuffer[..i], fix.timestamp)
        invariant preint.Value() == IntegratedAll(exp, start, since)
        invariant unchanged(`factors) && unchanged(`spans) && unchanged(`imuBuffer) && unchanged(`preintActive)
        invariant initialised && lastKeyframe == fix.timestamp
        invariant window == Initialised(exp, old(Value()), fix, level).keyframes
      {
        assert imuBuffer[..i + 1][..i] == imuBuffer[..i];
        if !CompareTimestamps(imuBuffer[i].timestamp, fix.timestamp).Before? {
          preint.Integrate(imuBuffer[i]);
          since := since + [imuBuffer[i]];
          assert since[..|since| - 1] == NotBefore(imuBuffer[..i], fix.timestamp);
        }
        i := i + 1;
      }
      assert imuBuffer[..i] == imuBuffer;
      preintActive := true;
      report := Accepted;
    }

    /** The trimming loop of CreateKeyframe. */
    method TrimOldest()
      requires preint.Valid() && window != []
      modifies `window, `factors, `spans
      ensures window != [] && Value() == Trimmed(setting, old(Value()))
    {
      while |window| > setting.maxKeyframes + 1
        invariant window != [] && Trimmed(setting, Value()) == Trimmed(setting, old(Value()))
        decreases |window|
      {
        ghost var before := Value();
        window := window[1..];
        if factors != [] {
          factors := factors[1..];
        }
        spans := Rest(spans);
        assert Value() == Dropped(before);
      }
    }

    method CreateKeyframe(t: Timestamp, solution: Solution) returns (report: Report)
      requires preint.Valid() && preint.exp == exp && window != []
      modifies this, preint
      ensures preint.Valid() && report == Accepted && Value() == KeyframeCreated(setting, old(Value()), t, solution)
    {
      hide Predicted, Integrated, Trimmed, Solved;
      var factor := preint.Finalize(t);
      var prev := window[|window| - 1];
      window := window + [Keyframe(t, Predicted(prev.motion, factor.delta), prev.bias)];
      factors := factors + [factor];
      spans := spans + [since];
      assert Value() == Grown(old(Value()), t);
      TrimOldest();
      ghost var extended := Extended(setting, old(Value()), t);
      assert Value() == extended;
      window := Solved(window, solution);
      preint.Reset(window[|window| - 1].bias.accel, window[|window| - 1].bias.gyro, t);
      lastKeyframe, since := t, [];
      report := Accepted;
    }
  }

  // Whole runs.

  datatype Event = Imu(imu: Sample) | Gnss(fix: Fix, level: Rotation, velocity: Vec, solution: Solution) | Reset

  function After(exp: Vec -> Rotation, setting: Setting, w: Window, e: Event): Window {
    match e
    case Imu(imu) => WithImu(exp, w, imu)
    case Gnss(fix, level, velocity, solution) =>
      if w.initialised && w.keyframes == [] then w
      else WithFix(exp, setting, w, fix, level, velocity, solution).0
    case Reset => EmptyWindow
  }

  function Run(exp: Vec -> Rotation, setting: Setting, events: seq<Event>): Window {
    if events == [] then EmptyWindow
    else After(exp, setting, Run(exp, setting, events[..|events| - 1]), Last(events))
  }

  /**
   * In every reachable state, whatever the solver does: factors + 1 = keyframes <= maxKeyframes + 1, factor i runs
   * from keyframe i to keyframe i + 1, and the running preintegration starts at the newest keyframe with its bias.
   */
  lemma {:induction false} EveryRunIsChained(exp: Vec -> Rotation, setting: Setting, events: seq<Event>)
    ensures Consistent(exp, setting, Run(exp, setting, events))
  {
    if events != [] {
      var before := events[..|events| - 1];
      EveryRunIsChained(exp, setting, before);
      var w := Run(exp, setting, before);
      match Last(events) {
        case Imu(imu) => ImuKeepsChain(exp, setting, w, imu);
        case Gnss(fix, level, velocity, solution) => FixKeepsChain(exp, setting, w, fix, level, velocity, solution);
        case Reset =>
      }
    }
  }

  /**
   * Whenever a keyframe is created, the solver starts with no inertial residual between the two newest keyframes,
   * and the new one lies where stepping the navigation equations over the samples since the last one leads.
   */
  lemma SolverStartsAtPrediction(exp: Vec -> Rotation, setting: Setting, w: Window, t: Timestamp, scale: real)
    requires Chained(exp, setting, w) && setting.maxKeyframes > 0 && exp(ZeroVec) == NoRotation && scale > 0.0
    ensures var x := Extended(setting, w, t);
            && x.factors != [] && |x.keyframes| == |x.factors| + 1
            && var a, b := x.keyframes[|x.keyframes| - 2], Last(x.keyframes);
            && a == Last(w.keyframes)
            && ImuResidual(exp, Last(x.factors), a, b.motion, scale) == ZeroResidual
            && b.motion == Stepped(exp, a.motion, a.bias, w.since) && b.bias == a.bias && b.timestamp == t
  {
    hide Predicted, Integrated, Trimmed, ImuResidual, Stepped;
    var prev := Last(w.keyframes);
    KeepsSetting(exp, prev.bias, w.lastKeyframe, w.since);
    TrimKeepsChain(setting, Grown(w, t));
    PredictionHasNoResidual(exp, Finished(w.preint, t), prev, scale);
    PreintegrationIsStrapdown(exp, prev.motion, prev.bias, w.lastKeyframe, w.since);
  }

  // The time the factors of a window cover.

  /**
   * In every reachable state: a factor covers exactly the integrable time of the samples added between the creation
   * of its keyframes. When those samples came in order and between the keyframes, that is the time its timestamps are
   * apart exactly when a sample lies at each keyframe and no gap is longer than a second.
   */
  lemma EveryFactorCovers(exp: Vec -> Rotation, setting: Setting, events: seq<Event>, i: nat)
    requires i < |Run(exp, setting, events).factors|
    ensures var w := Run(exp, setting, events);
            && i < |w.spans| && i + 1 < |w.keyframes|
            && var f, span := w.factors[i], w.spans[i];
            var start, end := w.keyframes[i].timestamp, w.keyframes[i + 1].timestamp;
            && f.start == start && f.end == end && f.delta.t == Covered(span)
            && (Between(start, span, end) ==>
                  (f.delta.t == Seconds(end.steady - start.steady) <==> Fills(start, span, end)))
  {
    EveryRunIsChained(exp, setting, events);
    var w := Run(exp, setting, events);
    var f := w.factors[i];
    IntegratesCoveredTime(exp, f.bias, f.start, w.spans[i]);
    hide Run, IntegratedAll;
    if Between(f.start, w.spans[i], f.end) {
      CoversStampedSpanIff(exp, f.bias, f.start, w.spans[i], f.end);
    }
  }

  const TENTH := 100_000_000

  function At(tenths: int): Timestamp { Timestamp(tenths * TENTH, GpsTime(0, 0.0), true, false) }

  function StillAt(tenths: int): Sample { Sample(At(tenths), ZeroVec, ZeroVec) }

  function FixAt(tenths: int): Fix { Fix(At(tenths), true, ZeroVec) }

  lemma RunGoesOn(exp: Vec -> Rotation, setting: Setting, events: seq<Event>, e: Event)
    ensures Run(exp, setting, events + [e]) == After(exp, setting, Run(exp, setting, events), e)
  {
    assert (events + [e])[..|events|] == events;
  }

  const TWO_SAMPLES := [StillAt(1), StillAt(2)]

  lemma SamplesCoverTenth()
    ensures Covered(TWO_SAMPLES) == 0.1
  {
    assert TWO_SAMPLES[..1] == [StillAt(1)];
  }

  /** A fix at 0 s, then the samples. */
  lemma StartedRun(exp: Vec -> Rotation, setting: Setting, start: Event) returns (events: seq<Event>)
    requires start.Gnss? && start.fix == FixAt(0)
    ensures var w := Run(exp, setting, events);
            && w.initialised && w.since == TWO_SAMPLES && w.factors == [] && w.spans == [] && |w.keyframes| == 1
            && w.lastKeyframe == w.keyframes[0].timestamp == At(0)
            && w.preint == IntegratedAll(exp, Fresh(w.keyframes[0].bias, At(0)), TWO_SAMPLES)
  {
    RunGoesOn(exp, setting, [], start);
    assert [] + [start] == [start];
    RunGoesOn(exp, setting, [start], Imu(StillAt(1)));
    RunGoesOn(exp, setting, [start] + [Imu(StillAt(1))], Imu(StillAt(2)));
    events := [start] + [Imu(StillAt(1))] + [Imu(StillAt(2))];
    EveryRunIsChained(exp, setting, events);
    hide Run, Integrated, IntegratedAll, StillAt;
  }

  /** Fixes at 0 s and 0.3 s with samples at 0.1 s and 0.2 s between them: the factor covers a third of its time. */
  lemma FactorMissesTime(exp: Vec -> Rotation, setting: Setting, level: Rotation, velocity: Vec, solution: Solution)
    returns (events: seq<Event>)
    requires setting.maxKeyframes > 0
    ensures var w := Run(exp, setting, events);
            && |w.factors| == 1 && w.spans == [TWO_SAMPLES]
            && Seconds(w.factors[0].end.steady - w.factors[0].start.steady) == 0.3
            && w.factors[0].delta.t == 0.1
  {
    events := StartedRun(exp, setting, Gnss(FixAt(0), level, velocity, solution));
    var w, fix := Run(exp, setting, events), FixAt(3);
    RunGoesOn(exp, setting, events, Gnss(fix, level, velocity, solution));
    assert !RefinesLatest(setting, w, fix);
    IntegratesCoveredTime(exp, w.keyframes[0].bias, At(0), TWO_SAMPLES);
    SamplesCoverTenth();
    KeepsSetting(exp, w.keyframes[0].bias, At(0), TWO_SAMPLES);
    hide Run, IntegratedAll, Predicted, Within, Covered;
    events := events + [Gnss(fix, level, velocity, solution)];
  }
}
