/** Which readings and fixes change the sliding window, and how. */
module CeresWindowLaws {
  import opened CeresCosts
  import opened CeresWindows
  import opened ImuPreintegrators
  import opened Options
  import opened Rotations
  import opened Strapdown
  import opened Timestamps

  // ---- When a fix makes a keyframe ----------------------------------------------------------

  lemma SquaresOrder(r: real, d: real)
    requires r >= 0.0 && d > 0.0
    ensures r * r < d * d <==> r < d
  {
    var e := d - r;
    assert d * d - r * r == e * (d + r);
    if e > 0.0 {
      assert e * (d + r) > 0.0;
    } else {
      var f := -e;
      assert f * (d + r) >= 0.0;
      assert e * (d + r) == -(f * (d + r));
    }
  }

  /**
   * With r the distance of the fix from the newest keyframe: the fix refines that keyframe exactly when it is nearer
   * than the minimum and less than 200 ms later than the keyframe.
   */
  lemma RefinesExactlyWhenNear(setting: Setting, w: Window, fix: Fix, r: real)
    requires w.keyframes != [] && r >= 0.0
    requires var c := fix.position.Minus(Last(w.keyframes).motion.p); r * r == c.x * c.x + c.y * c.y + c.z * c.z
    ensures RefinesLatest(setting, w, fix)
       <==> r < setting.minDistance && fix.timestamp.steady - w.lastKeyframe.steady < 200_000_000
  {
    if setting.minDistance > 0.0 {
      SquaresOrder(r, setting.minDistance);
    }
    NanosecondsOrder(fix.timestamp.steady - w.lastKeyframe.steady);
    hide Seconds;
  }

  lemma NanosecondsOrder(n: int)
    ensures Seconds(n) < 0.2 <==> n < 200_000_000
  {
  }

  /**
   * A valid fix near the newest keyframe leaves everything but that keyframe's velocity; any other makes a keyframe
   * at its own time, from which the preintegration starts again.
   */
  lemma FixRefinesOrMakesKeyframe(exp: Vec -> Rotation, setting: Setting, w: Window, fix: Fix, level: Rotation,
                                  velocity: Vec, solution: Solution)
    requires Chained(exp, setting, w) && w.initialised && fix.valid
    ensures var (next, report) := WithFix(exp, setting, w, fix, level, velocity, solution);
            && report.Accepted? && next.keyframes != []
            && if RefinesLatest(setting, w, fix) then
                 && |next.keyframes| == |w.keyframes|
                 && (forall i :: 0 <= i < |w.keyframes| - 1 ==> next.keyframes[i] == w.keyframes[i])
                 && Last(next.keyframes).timestamp == Last(w.keyframes).timestamp
                 && Last(next.keyframes).bias == Last(w.keyframes).bias
                 && Last(next.keyframes).motion.p == Last(w.keyframes).motion.p
                 && Last(next.keyframes).motion.q == Last(w.keyframes).motion.q
                 && Last(next.keyframes).motion.v == velocity
                 && next.preint == w.preint && next.factors == w.factors && next.lastKeyframe == w.lastKeyframe
               else
                 && Last(next.keyframes).timestamp == next.lastKeyframe == next.preint.start == fix.timestamp
                 && next.preint.samples == 0 && next.preint.last.None? && next.since == []
                 && next.preint.bias == Last(next.keyframes).bias
                 && next.buffer == w.buffer
  {
    hide RefinesLatest, Predicted, Integrated, Trimmed;
    if !RefinesLatest(setting, w, fix) {
      KeyframeKeepsChain(exp, setting, w, fix.timestamp, solution);
      TrimKeepsRest(setting, Grown(w, fix.timestamp));
    }
  }

  /** An invalid fix changes nothing and is rejected. */
  lemma InvalidFixIsRejected(exp: Vec -> Rotation, setting: Setting, w: Window, fix: Fix, level: Rotation,
                             velocity: Vec, solution: Solution)
    requires w.initialised ==> w.keyframes != []
    ensures WithFix(exp, setting, w, fix, level, velocity, solution) == (w, Rejected) <==> !fix.valid
  {
  }

  /** The first valid fix makes the one keyframe, at rest in the origin with zero biases, at the given attitude. */
  lemma FirstFixStartsWindow(exp: Vec -> Rotation, setting: Setting, w: Window, fix: Fix, level: Rotation,
                             velocity: Vec, solution: Solution)
    requires Consistent(exp, setting, w) && !w.initialised && fix.valid
    ensures var next := WithFix(exp, setting, w, fix, level, velocity, solution).0;
            && |next.keyframes| == 1 && next.initialised
            && var k := next.keyframes[0];
            && k.timestamp == fix.timestamp
            && k.motion.p == Vec(0.0, 0.0, 0.0) == k.motion.v && k.motion.q == level
            && k.bias.accel == Vec(0.0, 0.0, 0.0) == k.bias.gyro
            && next.since == NotBefore(w.buffer, fix.timestamp)
  {
    hide NotBefore, IntegratedAll;
  }

  // ---- Which buffered samples are integrated ------------------------------------------------

  predicate Late(s: Sample, t: Timestamp) { !CompareTimestamps(s.timestamp, t).Before? }

  /** Each sample stays as often as it is there, if it is not before t; none is added. */
  lemma {:induction false} NotBeforeKeepsLate(samples: seq<Sample>, t: Timestamp, s: Sample)
    ensures multiset(NotBefore(samples, t))[s] == if Late(s, t) then multiset(samples)[s] else 0
  {
    hide CompareTimestamps;
    if samples != [] {
      var before, last := samples[..|samples| - 1], Last(samples);
      NotBeforeKeepsLate(before, t, s);
      assert samples == before + [last];
    }
  }

  /** The order stays: samples of a list and of a later one stay behind each other. */
  lemma {:induction false} NotBeforeKeepsOrder(a: seq<Sample>, b: seq<Sample>, t: Timestamp)
    ensures NotBefore(a + b, t) == NotBefore(a, t) + NotBefore(b, t)
  {
    hide CompareTimestamps;
    if b == [] {
      assert a + b == a;
    } else {
      var before, last := b[..|b| - 1], Last(b);
      assert (a + b)[..|a + b| - 1] == a + before && Last(a + b) == last;
      NotBeforeKeepsOrder(a, before, t);
    }
  }

  // ---- What a run leaves in buffer and flags ------------------------------------------------

  /** The samples since the last reset. */
  function Received(events: seq<Event>): seq<Sample> {
    if events == [] then []
    else
      var before := Received(events[..|events| - 1]);
      match Last(events)
      case Imu(imu) => before + [imu]
      case Gnss(_, _, _, _) => before
      case Reset => []
  }

  /** A valid fix since the last reset. */
  predicate Fixed(events: seq<Event>) {
    events != [] &&
    match Last(events)
    case Imu(_) => Fixed(events[..|events| - 1])
    case Gnss(fix, _, _, _) => fix.valid || Fixed(events[..|events| - 1])
    case Reset => false
  }

  /**
   * In every reachable state the buffer holds the first 2000 samples since the last reset, or all if they are fewer,
   * and the window is initialised exactly when a valid fix came since.
   */
  lemma {:induction false} BufferHoldsFirst(exp: Vec -> Rotation, setting: Setting, events: seq<Event>)
    ensures var w, received := Run(exp, setting, events), Received(events);
            && w.buffer == received[..if |received| < 2000 then |received| else 2000]
            && (w.initialised <==> Fixed(events))
  {
    hide Integrated, IntegratedAll, Predicted, Trimmed, RefinesLatest, NotBefore;
    if events != [] {
      var before := events[..|events| - 1];
      BufferHoldsFirst(exp, setting, before);
      EveryRunIsChained(exp, setting, before);
      var w := Run(exp, setting, before);
      match Last(events) {
        case Imu(imu) =>
        case Gnss(fix, level, velocity, solution) =>
          if fix.valid && w.initialised {
            FixRefinesOrMakesKeyframe(exp, setting, w, fix, level, velocity, solution);
            FixKeepsFlag(exp, setting, w, fix, level, velocity, solution);
          }
        case Reset =>
      }
    }
  }

  lemma FixKeepsFlag(exp: Vec -> Rotation, setting: Setting, w: Window, fix: Fix, level: Rotation, velocity: Vec,
                     solution: Solution)
    requires Chained(exp, setting, w) && w.initialised && fix.valid
    ensures var next := WithFix(exp, setting, w, fix, level, velocity, solution).0;
            next.initialised && next.buffer == w.buffer
  {
    hide RefinesLatest, Predicted, Integrated, Trimmed;
    if !RefinesLatest(setting, w, fix) {
      TrimKeepsRest(setting, Grown(w, fix.timestamp));
    }
  }

  // ---- What the solver may do ---------------------------------------------------------------

  function Leaving(r: seq<Keyframe>): Solution {
    (i: nat) => if i < |r| then (r[i].motion, r[i].bias)
                else (Motion(ZeroVec, ZeroVec, NoRotation), Bias(ZeroVec, ZeroVec))
  }

  /**
   * Some solver result turns one list of keyframes into another exactly when both have the same timestamps and the
   * oldest keyframe keeps position, velocity and attitude.
   */
  lemma SolverReachesExactly(keyframes: seq<Keyframe>, r: seq<Keyframe>)
    ensures (exists solution :: Solved(keyframes, solution) == r)
       <==> && |r| == |keyframes|
            && (forall i :: 0 <= i < |r| ==> r[i].timestamp == keyframes[i].timestamp)
            && (r != [] ==> r[0].motion == keyframes[0].motion)
  {
    if |r| == |keyframes| && (forall i :: 0 <= i < |r| ==> r[i].timestamp == keyframes[i].timestamp)
       && (r != [] ==> r[0].motion == keyframes[0].motion) {
      assert Solved(keyframes, Leaving(r)) == r;
    }
  }
}
