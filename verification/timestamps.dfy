/** Timestamps that carry a monotonic clock, a GPS time, or both. */
module Timestamps {
  import opened Options

  const NANOSECONDS := 1_000_000_000.0

  datatype GpsTime = GpsTime(week: int, secondsOfWeek: real)

  /** steady is in nanoseconds since an arbitrary epoch. */
  datatype Timestamp = Timestamp(steady: int, gps: GpsTime, hasSteady: bool, hasGps: bool)

  datatype Ordering = Before | Equal | After | NotComparable

  function CompareGpsTime(lhs: GpsTime, rhs: GpsTime): Ordering {
    if lhs.week < rhs.week then Before
    else if lhs.week > rhs.week then After
    else if lhs.secondsOfWeek < rhs.secondsOfWeek then Before
    else if lhs.secondsOfWeek > rhs.secondsOfWeek then After
    else Equal
  }

  /** The monotonic clock decides when both have it, then GPS time when both have that. */
  function CompareTimestamps(lhs: Timestamp, rhs: Timestamp): Ordering {
    if lhs.hasSteady && rhs.hasSteady then
      if lhs.steady < rhs.steady then Before
      else if lhs.steady > rhs.steady then After
      else Equal
    else if lhs.hasGps && rhs.hasGps then CompareGpsTime(lhs.gps, rhs.gps)
    else NotComparable
  }

  predicate NotAfter(lhs: Timestamp, rhs: Timestamp) {
    CompareTimestamps(lhs, rhs).Before? || CompareTimestamps(lhs, rhs).Equal?
  }

  /** Conversion of a real to an integer that drops the fraction, also below zero. */
  function Truncate(x: real): int { if x < 0.0 then -(-x).Floor else x.Floor }

  function Seconds(nanoseconds: int): real { nanoseconds as real / NANOSECONDS }

  /** lhs - rhs in nanoseconds; GPS times of different weeks have none. */
  function TimeDifference(lhs: Timestamp, rhs: Timestamp): Option<int> {
    if lhs.hasSteady && rhs.hasSteady then Some(lhs.steady - rhs.steady)
    else if lhs.hasGps && rhs.hasGps && lhs.gps.week == rhs.gps.week then
      Some(Truncate((lhs.gps.secondsOfWeek - rhs.gps.secondsOfWeek) * NANOSECONDS))
    else None
  }

  /** Either every timestamp has monotonic time, or all have GPS time and no monotonic time. */
  datatype Clock = Monotonic | GpsOnly {
    predicate Has(t: Timestamp) {
      match this
      case Monotonic => t.hasSteady
      case GpsOnly => t.hasGps && !t.hasSteady
    }
  }

  /** On one clock any two timestamps compare, and comparing is a total preorder. */
  lemma OneClockIsOrdered(clock: Clock, a: Timestamp, b: Timestamp, c: Timestamp)
    requires clock.Has(a) && clock.Has(b) && clock.Has(c)
    ensures !CompareTimestamps(a, b).NotComparable?
    ensures CompareTimestamps(a, a).Equal?
    ensures CompareTimestamps(a, b).Before? <==> CompareTimestamps(b, a).After?
    ensures CompareTimestamps(a, b).Equal? <==> CompareTimestamps(b, a).Equal?
    ensures NotAfter(a, b) && NotAfter(b, c) ==> NotAfter(a, c)
    ensures NotAfter(a, b) || NotAfter(b, a)
  {
  }

  /** Timestamps carrying different clocks can compare in a circle. */
  lemma MixedClocksCanCompareInACircle()
    ensures exists a, b, c ::
      CompareTimestamps(a, b).Before? && CompareTimestamps(b, c).Before? && CompareTimestamps(c, a).Before?
  {
    var a := Timestamp(2, GpsTime(0, 1.0), true, true);
    var b := Timestamp(0, GpsTime(0, 2.0), false, true);
    var c := Timestamp(1, GpsTime(0, 3.0), true, true);
    assert CompareTimestamps(a, b).Before? && CompareTimestamps(b, c).Before? && CompareTimestamps(c, a).Before?;
  }

  /** Which of the two clocks a timestamp carries. */
  datatype Carries = Carries(steady: bool, gps: bool)

  predicate Among(patterns: set<Carries>, t: Timestamp) { Carries(t.hasSteady, t.hasGps) in patterns }

  /** Timestamps carrying one of these patterns always compare, and never in a circle, whatever their times. */
  ghost predicate Ordered(patterns: set<Carries>) {
    && (forall a, b | Among(patterns, a) && Among(patterns, b) :: !CompareTimestamps(a, b).NotComparable?)
    && (forall a, b, c | Among(patterns, a) && Among(patterns, b) && Among(patterns, c) ::
          !(CompareTimestamps(a, b).Before? && CompareTimestamps(b, c).Before? && CompareTimestamps(c, a).Before?))
  }

  ghost predicate Covers(clock: Clock, patterns: set<Carries>) {
    forall t | Among(patterns, t) :: clock.Has(t)
  }

  function Carrying(pattern: Carries, steady: int, seconds: real): Timestamp {
    Timestamp(steady, GpsTime(0, seconds), pattern.steady, pattern.gps)
  }

  /** A pattern without monotonic time and another one: two that do not compare, or three in a circle. */
  lemma DisorderedWithoutOneClock(patterns: set<Carries>)
    requires !Covers(Monotonic, patterns) && !Covers(GpsOnly, patterns)
    ensures !Ordered(patterns)
  {
    var x :| Among(patterns, x) && !x.hasSteady;
    var y :| Among(patterns, y) && !GpsOnly.Has(y);
    var with, without := Carries(y.hasSteady, y.hasGps), Carries(x.hasSteady, x.hasGps);
    var a, b, c := Carrying(with, 2, 1.0), Carrying(without, 0, 2.0), Carrying(with, 1, 3.0);
    assert Among(patterns, a) && Among(patterns, b) && Among(patterns, c);
    assert CompareTimestamps(a, b).NotComparable? || CompareTimestamps(b, b).NotComparable?
        || (CompareTimestamps(a, b).Before? && CompareTimestamps(b, c).Before? && CompareTimestamps(c, a).Before?);
  }

  /** Timestamps that may carry these patterns are ordered at all times exactly when one clock covers them. */
  lemma OrderedExactlyOnOneClock(patterns: set<Carries>)
    ensures Ordered(patterns) <==> Covers(Monotonic, patterns) || Covers(GpsOnly, patterns)
  {
    if !Covers(Monotonic, patterns) && !Covers(GpsOnly, patterns) {
      DisorderedWithoutOneClock(patterns);
    }
  }

  /** A difference agrees in sign with the comparison; on the monotonic clock zero means equal. */
  lemma DifferenceAgreesWithOrder(a: Timestamp, b: Timestamp)
    requires TimeDifference(a, b).Some?
    ensures TimeDifference(a, b).value < 0 ==> CompareTimestamps(a, b).Before?
    ensures TimeDifference(a, b).value > 0 ==> CompareTimestamps(a, b).After?
    ensures Clock.Monotonic.Has(a) && Clock.Monotonic.Has(b) && TimeDifference(a, b).value == 0 ==>
              CompareTimestamps(a, b).Equal?
  {
  }

  const WEEK := 604_800.0

  /** Seconds since the first GPS week began. */
  function SinceFirstWeek(t: GpsTime): real { t.week as real * WEEK + t.secondsOfWeek }

  predicate WithinWeek(t: GpsTime) { 0.0 <= t.secondsOfWeek < WEEK }

  lemma WeeksApart(a: int, b: int)
    requires a < b
    ensures a as real * WEEK + WEEK <= b as real * WEEK
  {
    assert (a + 1) as real == a as real + 1.0;
    assert (a + 1) as real <= b as real;
  }

  /** GPS times compare as the seconds since the first week do, across weeks too. */
  lemma GpsTimesCompareAsSeconds(a: GpsTime, b: GpsTime)
    requires WithinWeek(a) && WithinWeek(b)
    ensures CompareGpsTime(a, b).Before? <==> SinceFirstWeek(a) < SinceFirstWeek(b)
    ensures CompareGpsTime(a, b).After? <==> SinceFirstWeek(a) > SinceFirstWeek(b)
    ensures CompareGpsTime(a, b).Equal? <==> a == b
  {
    if a.week < b.week {
      WeeksApart(a.week, b.week);
    } else if b.week < a.week {
      WeeksApart(b.week, a.week);
    }
  }

  /** What is not on both clocks' monotonic side is compared by GPS time; a difference is that of the clock used. */
  lemma TimesFromOneClock(a: Timestamp, b: Timestamp)
    ensures a.hasSteady && b.hasSteady ==>
              && (CompareTimestamps(a, b).Before? <==> a.steady < b.steady)
              && (CompareTimestamps(a, b).After? <==> a.steady > b.steady)
              && TimeDifference(a, b) == Some(a.steady - b.steady)
    ensures !(a.hasSteady && b.hasSteady) && a.hasGps && b.hasGps ==>
              CompareTimestamps(a, b) == CompareGpsTime(a.gps, b.gps)
    ensures CompareTimestamps(a, b).NotComparable? <==> !(a.hasSteady && b.hasSteady) && !(a.hasGps && b.hasGps)
    ensures TimeDifference(a, b).None?
            <==> !(a.hasSteady && b.hasSteady) && !(a.hasGps && b.hasGps && a.gps.week == b.gps.week)
  {
  }

  /** A GPS difference is the exact one in nanoseconds with its fraction dropped, towards zero on either side. */
  lemma GpsDifferenceDropsFraction(a: Timestamp, b: Timestamp)
    requires !(a.hasSteady && b.hasSteady) && TimeDifference(a, b).Some?
    ensures var exact := (a.gps.secondsOfWeek - b.gps.secondsOfWeek) * 1_000_000_000.0;
            var n := TimeDifference(a, b).value as real;
            if exact < 0.0 then exact <= n < exact + 1.0 && n <= 0.0 else exact - 1.0 < n <= exact && n >= 0.0
  {
  }
}
