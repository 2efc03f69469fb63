/** A bounded buffer of readings kept in time order. */
module TimeOrderedBuffers {
  import opened Options
  import opened Timestamps

  datatype Reading<T> = Reading(timestamp: Timestamp, value: T)

  datatype InsertResult = Inserted | InsertedAndDroppedOldest | RejectedOutOfOrder | RejectedNotComparable

  /** The limits a buffer is built with; a maxSize of zero means unbounded. */
  datatype Limits = Limits(maxSize: nat, allowOutOfOrder: bool)

  datatype Slot = At(index: nat) | Refused(reason: InsertResult)

  /** The first position from i on whose reading is not before t. */
  function Search<T>(items: seq<Reading<T>>, t: Timestamp, i: nat): (slot: Slot)
    requires i <= |items|
    ensures slot.At? ==> i <= slot.index <= |items|
    ensures slot.Refused? ==> slot.reason.RejectedNotComparable?
    decreases |items| - i
  {
    if i == |items| then At(i)
    else match CompareTimestamps(t, items[i].timestamp)
      case NotComparable => Refused(RejectedNotComparable)
      case Before | Equal => At(i)
      case After => Search(items, t, i + 1)
  }

  /** Where a reading at t goes, or why it is refused. */
  function Placement<T>(items: seq<Reading<T>>, t: Timestamp, allowOutOfOrder: bool): (slot: Slot)
    ensures slot.At? ==> slot.index <= |items|
    ensures slot.Refused? ==> slot.reason.RejectedOutOfOrder? || slot.reason.RejectedNotComparable?
  {
    if items == [] then At(0)
    else match CompareTimestamps(items[|items| - 1].timestamp, t)
      case Before | Equal => At(|items|)
      case NotComparable => Refused(RejectedNotComparable)
      case After => if allowOutOfOrder then Search(items, t, 0) else Refused(RejectedOutOfOrder)
  }

  function Put<T>(items: seq<Reading<T>>, m: Reading<T>, index: nat): seq<Reading<T>>
    requires index <= |items|
  {
    items[..index] + [m] + items[index..]
  }

  /** How many of the oldest readings a popped target takes: those that come before any reading to keep. */
  function PopCount<T>(items: seq<Reading<T>>, target: Timestamp, includeEqual: bool): (n: nat)
    ensures n <= |items|
  {
    if items == [] then 0
    else match CompareTimestamps(items[0].timestamp, target)
      case Before => 1 + PopCount(items[1..], target, includeEqual)
      case Equal => if includeEqual then 1 + PopCount(items[1..], target, includeEqual) else 0
      case After | NotComparable => 0
  }

  /** A buffer with the account of what went through it. */
  datatype History<T> = History(held: seq<Reading<T>>, popped: seq<Reading<T>>, evicted: seq<Reading<T>>,
                                inserted: seq<Reading<T>>)

  predicate Fits(limits: Limits, size: nat) { limits.maxSize == 0 || size <= limits.maxSize }

  /** The reading is put in its place, then the oldest leaves if there are too many. */
  function PutAndEvict<T>(limits: Limits, h: History<T>, m: Reading<T>, index: nat): History<T>
    requires index <= |h.held|
  {
    var held, inserted := Put(h.held, m, index), h.inserted + [m];
    if Fits(limits, |held|) then h.(held := held, inserted := inserted)
    else h.(held := held[1..], evicted := h.evicted + [held[0]], inserted := inserted)
  }

  function AfterInsert<T>(limits: Limits, h: History<T>, m: Reading<T>): (History<T>, InsertResult) {
    match Placement(h.held, m.timestamp, limits.allowOutOfOrder)
    case Refused(reason) => (h, reason)
    case At(index) =>
      (PutAndEvict(limits, h, m, index), if Fits(limits, |h.held| + 1) then Inserted else InsertedAndDroppedOldest)
  }

  function AfterPop<T>(h: History<T>, target: Timestamp, includeEqual: bool): History<T> {
    var n := PopCount(h.held, target, includeEqual);
    h.(held := h.held[n..], popped := h.popped + h.held[..n])
  }

  class TimeOrderedBuffer<T(==)> {
    const limits: Limits
    var measurements: seq<Reading<T>>
    ghost var popped: seq<Reading<T>>
    ghost var evicted: seq<Reading<T>>
    ghost var inserted: seq<Reading<T>>

    ghost function Past(): History<T>
      reads this
    {
      History(measurements, popped, evicted, inserted)
    }

    constructor (limits: Limits)
      ensures this.limits == limits && Past() == History([], [], [], [])
    {
      this.limits := limits;
      measurements, popped, evicted, inserted := [], [], [], [];
    }

    method EnforceMaxSize() returns (result: InsertResult)
      modifies this
      ensures result == if Fits(limits, |old(measurements)|) then Inserted
                        else InsertedAndDroppedOldest
      ensures Past() == if result.Inserted? then old(Past())
                        else old(Past()).(held := old(measurements)[1..],
                                          evicted := old(evicted) + [old(measurements)[0]])
    {
      if limits.maxSize == 0 || |measurements| <= limits.maxSize {
        return Inserted;
      }
      evicted := evicted + [measurements[0]];
      measurements := measurements[1..];
      return InsertedAndDroppedOldest;
    }

    method Insert(m: Reading<T>) returns (result: InsertResult)
      modifies this
      ensures (Past(), result) == AfterInsert(limits, old(Past()), m)
    {
      if measurements == [] {
        assert Put([], m, 0) == [m];
        measurements, inserted := [m], inserted + [m];
        return Inserted;
      }
      match CompareTimestamps(measurements[|measurements| - 1].timestamp, m.timestamp)
      case Before | Equal =>
        assert Put(measurements, m, |measurements|) == measurements + [m];
        measurements, inserted := measurements + [m], inserted + [m];
        result := EnforceMaxSize();
      case NotComparable =>
        return RejectedNotComparable;
      case After =>
        if !limits.allowOutOfOrder {
          return RejectedOutOfOrder;
        }
        var i := 0;
        while i < |measurements|
          invariant 0 <= i <= |measurements| && Past() == old(Past())
          invariant Search(measurements, m.timestamp, 0) == Search(measurements, m.timestamp, i)
        {
          match CompareTimestamps(m.timestamp, measurements[i].timestamp)
          case NotComparable =>
            return RejectedNotComparable;
          case Before | Equal =>
            measurements, inserted := Put(measurements, m, i), inserted + [m];
            result := EnforceMaxSize();
            return;
          case After =>
            i := i + 1;
        }
        assert Put(measurements, m, i) == measurements + [m];
        measurements, inserted := measurements + [m], inserted + [m];
        result := EnforceMaxSize();
    }

    method PopUntil(target: Timestamp, includeEqual: bool := true) returns (result: seq<Reading<T>>)
      modifies this
      ensures Past() == AfterPop(old(Past()), target, includeEqual)
      ensures result == old(measurements)[..PopCount(old(measurements), target, includeEqual)]
    {
      result := [];
      ghost var n := PopCount(measurements, target, includeEqual);
      while measurements != []
        invariant |result| <= n <= |old(measurements)|
        invariant result == old(measurements)[..|result|] && measurements == old(measurements)[|result|..]
        invariant PopCount(measurements, target, includeEqual) == n - |result|
        invariant popped == old(popped) && evicted == old(evicted) && inserted == old(inserted)
        decreases |measurements|
      {
        var ordering := CompareTimestamps(measurements[0].timestamp, target);
        if ordering.NotComparable? {
          break;
        }
        if !(ordering.Before? || (includeEqual && ordering.Equal?)) {
          break;
        }
        result := result + [measurements[0]];
        measurements := measurements[1..];
      }
      popped := popped + result;
    }
  }

  // Whole runs.

  datatype Event<T> = Insert(m: Reading<T>) | Pop(target: Timestamp, includeEqual: bool)

  function After<T>(limits: Limits, h: History<T>, e: Event<T>): History<T> {
    match e
    case Insert(m) => AfterInsert(limits, h, m).0
    case Pop(target, includeEqual) => AfterPop(h, target, includeEqual)
  }

  function Run<T>(limits: Limits, events: seq<Event<T>>): History<T> {
    if events == [] then History([], [], [], [])
    else After(limits, Run(limits, events[..|events| - 1]), events[|events| - 1])
  }

  ghost predicate Sorted<T>(items: seq<Reading<T>>) {
    forall i, j :: 0 <= i < j < |items| ==> NotAfter(items[i].timestamp, items[j].timestamp)
  }

  predicate OnClock<T>(clock: Clock, items: seq<Reading<T>>) {
    forall i :: 0 <= i < |items| ==> clock.Has(items[i].timestamp)
  }

  predicate EventOnClock<T>(clock: Clock, e: Event<T>) {
    match e
    case Insert(m) => clock.Has(m.timestamp)
    case Pop(target, _) => clock.Has(target)
  }

  /** Nothing is lost or invented. */
  ghost predicate Conserved<T>(h: History<T>) {
    multiset(h.popped) + multiset(h.evicted) + multiset(h.held) == multiset(h.inserted)
  }

  lemma PutAdds<T>(items: seq<Reading<T>>, m: Reading<T>, index: nat)
    requires index <= |items|
    ensures multiset(Put(items, m, index)) == multiset(items) + multiset{m}
  {
    assert items == items[..index] + items[index..];
  }

  lemma PutConserves<T>(limits: Limits, h: History<T>, m: Reading<T>, index: nat)
    requires Conserved(h) && index <= |h.held|
    ensures Conserved(PutAndEvict(limits, h, m, index))
  {
    var held, next := Put(h.held, m, index), PutAndEvict(limits, h, m, index);
    PutAdds(h.held, m, index);
    assert multiset(next.inserted) == multiset(h.inserted) + multiset{m};
    if !Fits(limits, |held|) {
      assert held == [held[0]] + held[1..];
      assert multiset(held) == multiset{held[0]} + multiset(held[1..]);
      assert multiset(next.evicted) == multiset(h.evicted) + multiset{held[0]};
      var p, e, now := multiset(h.popped), multiset(h.evicted), multiset(h.held);
      assert p + (e + multiset{held[0]}) + multiset(held[1..]) == p + e + (multiset{held[0]} + multiset(held[1..]));
      assert p + e + (now + multiset{m}) == p + e + now + multiset{m};
    }
  }

  lemma StepConserves<T>(limits: Limits, h: History<T>, e: Event<T>)
    requires Conserved(h)
    ensures Conserved(After(limits, h, e))
  {
    match e
    case Insert(m) =>
      var slot := Placement(h.held, m.timestamp, limits.allowOutOfOrder);
      if slot.At? {
        PutConserves(limits, h, m, slot.index);
      }
    case Pop(target, includeEqual) =>
      var n := PopCount(h.held, target, includeEqual);
      assert h.held == h.held[..n] + h.held[n..];
  }

  /** On every run, whatever the clocks, popped, evicted and held readings are a permutation of the accepted ones. */
  lemma {:induction false} RunConserves<T>(limits: Limits, events: seq<Event<T>>)
    ensures Conserved(Run(limits, events))
  {
    if events != [] {
      RunConserves(limits, events[..|events| - 1]);
      StepConserves(limits, Run(limits, events[..|events| - 1]), events[|events| - 1]);
    }
  }

  // On one clock the buffer is in time order.

  lemma SearchFinds<T>(clock: Clock, items: seq<Reading<T>>, t: Timestamp, i: nat)
    requires OnClock(clock, items) && clock.Has(t) && i <= |items|
    ensures var slot := Search(items, t, i);
            && slot.At?
            && (forall j :: i <= j < slot.index ==> NotAfter(items[j].timestamp, t))
            && (slot.index < |items| ==> NotAfter(t, items[slot.index].timestamp))
    decreases |items| - i
  {
    if i < |items| {
      OneClockIsOrdered(clock, t, items[i].timestamp, t);
      if CompareTimestamps(t, items[i].timestamp).After? {
        SearchFinds(clock, items, t, i + 1);
      }
    }
  }

  lemma PlacementSplits<T>(clock: Clock, items: seq<Reading<T>>, t: Timestamp, allowOutOfOrder: bool)
    requires OnClock(clock, items) && clock.Has(t) && Sorted(items)
    ensures var slot := Placement(items, t, allowOutOfOrder);
            && (slot.Refused? <==>
                  !allowOutOfOrder && items != [] && CompareTimestamps(items[|items| - 1].timestamp, t).After?)
            && (slot.At? ==>
                  && (forall j :: 0 <= j < slot.index ==> NotAfter(items[j].timestamp, t))
                  && (forall j :: slot.index <= j < |items| ==> NotAfter(t, items[j].timestamp)))
  {
    if items != [] {
      SearchFinds(clock, items, t, 0);
      var slot := Placement(items, t, allowOutOfOrder);
      if slot.At? {
        forall j | 0 <= j < slot.index ensures NotAfter(items[j].timestamp, t) {
          OneClockIsOrdered(clock, items[j].timestamp, items[|items| - 1].timestamp, t);
        }
        forall j | slot.index <= j < |items| ensures NotAfter(t, items[j].timestamp) {
          OneClockIsOrdered(clock, t, items[slot.index].timestamp, items[j].timestamp);
        }
      }
    }
  }

  /** Every reading of a is not after any reading of b. */
  ghost predicate AllBefore<T>(a: seq<Reading<T>>, b: seq<Reading<T>>) {
    forall i, j :: 0 <= i < |a| && 0 <= j < |b| ==> NotAfter(a[i].timestamp, b[j].timestamp)
  }

  lemma PutKeepsOrder<T>(clock: Clock, items: seq<Reading<T>>, m: Reading<T>, index: nat)
    requires OnClock(clock, items) && clock.Has(m.timestamp) && Sorted(items) && index <= |items|
    requires forall j :: 0 <= j < index ==> NotAfter(items[j].timestamp, m.timestamp)
    requires forall j :: index <= j < |items| ==> NotAfter(m.timestamp, items[j].timestamp)
    ensures OnClock(clock, Put(items, m, index)) && Sorted(Put(items, m, index))
  {
    hide NotAfter;
  }

  lemma StepKeepsOrder<T>(clock: Clock, limits: Limits, h: History<T>, e: Event<T>)
    requires OnClock(clock, h.held) && EventOnClock(clock, e) && Sorted(h.held)
    requires limits.maxSize > 0 ==> |h.held| <= limits.maxSize
    ensures var next := After(limits, h, e);
            && OnClock(clock, next.held) && Sorted(next.held)
            && (limits.maxSize > 0 ==> |next.held| <= limits.maxSize)
  {
    hide NotAfter, Placement;
    if e.Insert? {
      PlacementSplits(clock, h.held, e.m.timestamp, limits.allowOutOfOrder);
      var slot := Placement(h.held, e.m.timestamp, limits.allowOutOfOrder);
      if slot.At? {
        PutKeepsOrder(clock, h.held, e.m, slot.index);
      }
    }
  }

  /** On every run on one clock the buffer stays in time order and within its size. */
  lemma {:induction false} RunKeepsOrder<T>(clock: Clock, limits: Limits, events: seq<Event<T>>)
    requires forall i :: 0 <= i < |events| ==> EventOnClock(clock, events[i])
    ensures var h := Run(limits, events);
            && OnClock(clock, h.held) && Sorted(h.held)
            && (limits.maxSize > 0 ==> |h.held| <= limits.maxSize)
  {
    if events != [] {
      var before := events[..|events| - 1];
      RunKeepsOrder(clock, limits, before);
      StepKeepsOrder(clock, limits, Run(limits, before), events[|events| - 1]);
    }
  }

  predicate Taken(t: Timestamp, target: Timestamp, includeEqual: bool) {
    CompareTimestamps(t, target).Before? || (includeEqual && CompareTimestamps(t, target).Equal?)
  }

  /** Popping takes exactly the readings not after the target (strictly before it when equals are left). */
  lemma PopTakesExactly<T>(clock: Clock, items: seq<Reading<T>>, target: Timestamp, includeEqual: bool)
    requires OnClock(clock, items) && clock.Has(target) && Sorted(items)
    ensures forall i :: 0 <= i < |items| ==>
              (i < PopCount(items, target, includeEqual) <==> Taken(items[i].timestamp, target, includeEqual))
  {
    if items != [] {
      if Taken(items[0].timestamp, target, includeEqual) {
        PopTakesExactly(clock, items[1..], target, includeEqual);
      } else {
        forall i | 0 <= i < |items| ensures !Taken(items[i].timestamp, target, includeEqual) {
          OneClockIsOrdered(clock, items[0].timestamp, items[i].timestamp, target);
        }
      }
    }
  }

  /** What an insertion-only run keeps track of. */
  ghost predicate KeepsLatest<T>(clock: Clock, limits: Limits, h: History<T>) {
    && OnClock(clock, h.held) && OnClock(clock, h.evicted) && Sorted(h.held)
    && AllBefore(h.evicted, h.held) && h.popped == [] && Conserved(h)
    && |h.held| == (if limits.maxSize == 0 || |h.inserted| <= limits.maxSize then |h.inserted| else limits.maxSize)
    && (h.evicted != [] ==> 0 < limits.maxSize == |h.held|)
  }

  lemma EvictedStayBefore<T>(clock: Clock, evicted: seq<Reading<T>>, items: seq<Reading<T>>, m: Reading<T>, index: nat)
    requires OnClock(clock, evicted) && OnClock(clock, items) && clock.Has(m.timestamp) && index <= |items|
    requires Sorted(Put(items, m, index)) && AllBefore(evicted, items) && items != []
    ensures var held := Put(items, m, index); AllBefore(evicted + [held[0]], held[1..])
  {
    hide NotAfter, Clock.Has;
    var held := Put(items, m, index);
    forall i, j | 0 <= i < |evicted| && 0 < j < |held|
      ensures NotAfter(evicted[i].timestamp, held[j].timestamp)
    {
      if j == index {
        assert held[0] == items[0] && held[j] == m;
        OneClockIsOrdered(clock, evicted[i].timestamp, items[0].timestamp, m.timestamp);
      } else {
        assert held[j] == items[if j < index then j else j - 1];
      }
    }
  }

  lemma PutKeepsLatest<T>(clock: Clock, limits: Limits, h: History<T>, m: Reading<T>, index: nat)
    requires KeepsLatest(clock, limits, h) && clock.Has(m.timestamp) && index <= |h.held|
    requires OnClock(clock, Put(h.held, m, index)) && Sorted(Put(h.held, m, index))
    ensures KeepsLatest(clock, limits, PutAndEvict(limits, h, m, index))
  {
    hide NotAfter, Conserved, Clock.Has;
    var held := Put(h.held, m, index);
    PutConserves(limits, h, m, index);
    if !Fits(limits, |held|) {
      EvictedStayBefore(clock, h.evicted, h.held, m, index);
    }
  }

  lemma InsertKeepsLatest<T>(clock: Clock, limits: Limits, h: History<T>, m: Reading<T>)
    requires limits.allowOutOfOrder && clock.Has(m.timestamp) && KeepsLatest(clock, limits, h)
    ensures KeepsLatest(clock, limits, After(limits, h, Insert(m)))
    ensures After(limits, h, Insert(m)).inserted == h.inserted + [m]
  {
    hide NotAfter, Placement;
    PlacementSplits(clock, h.held, m.timestamp, true);
    var index := Placement(h.held, m.timestamp, true).index;
    PutKeepsOrder(clock, h.held, m, index);
    PutKeepsLatest(clock, limits, h, m, index);
  }

  function Insertions<T>(ms: seq<Reading<T>>): seq<Event<T>> {
    if ms == [] then [] else Insertions(ms[..|ms| - 1]) + [Insert(ms[|ms| - 1])]
  }

  lemma NothingKeepsLatest<T>(clock: Clock, limits: Limits)
    ensures KeepsLatest<T>(clock, limits, History([], [], [], []))
  {
  }

  /**
   * After any insertions on one clock, out of order or not, the buffer holds the latest maxSize of them in time
   * order: held and evicted are all of them, and no evicted reading is after a held one.
   */
  lemma {:induction false} InsertionsKeepLatest<T>(clock: Clock, limits: Limits, ms: seq<Reading<T>>)
    requires limits.allowOutOfOrder && OnClock(clock, ms)
    ensures Run(limits, Insertions(ms)).inserted == ms
    ensures KeepsLatest(clock, limits, Run(limits, Insertions(ms)))
  {
    hide KeepsLatest, After;
    NothingKeepsLatest<T>(clock, limits);
    if ms != [] {
      var before, m := ms[..|ms| - 1], ms[|ms| - 1];
      InsertionsKeepLatest(clock, limits, before);
      InsertKeepsLatest(clock, limits, Run(limits, Insertions(before)), m);
      assert Insertions(ms)[..|Insertions(ms)| - 1] == Insertions(before);
      assert before + [m] == ms;
    }
  }

  /** With reordering disabled a reading is refused exactly when it is older than the newest one held. */
  lemma RefusedExactlyWhenLate<T>(clock: Clock, limits: Limits, h: History<T>, m: Reading<T>)
    requires !limits.allowOutOfOrder && OnClock(clock, h.held) && clock.Has(m.timestamp) && Sorted(h.held)
    ensures var (next, result) := AfterInsert(limits, h, m);
            && (result.RejectedOutOfOrder? <==>
                  h.held != [] && CompareTimestamps(m.timestamp, h.held[|h.held| - 1].timestamp).Before?)
            && !result.RejectedNotComparable?
            && (result.RejectedOutOfOrder? ==> next == h)
  {
    PlacementSplits(clock, h.held, m.timestamp, false);
    if h.held != [] {
      OneClockIsOrdered(clock, m.timestamp, h.held[|h.held| - 1].timestamp, m.timestamp);
    }
  }

  // Where readings go and why they are refused, on any clocks.

  /** Reading i does not compare with t, and t is after every reading before it. */
  predicate Blocks<T>(items: seq<Reading<T>>, t: Timestamp, i: nat)
    requires i < |items|
  {
    CompareTimestamps(t, items[i].timestamp).NotComparable?
    && forall j :: 0 <= j < i ==> CompareTimestamps(t, items[j].timestamp).After?
  }

  lemma {:induction false} SearchStopsAt<T>(items: seq<Reading<T>>, t: Timestamp, i: nat)
    requires i <= |items|
    requires forall j :: 0 <= j < i ==> CompareTimestamps(t, items[j].timestamp).After?
    ensures var slot := Search(items, t, i);
            && (slot.Refused? <==> exists k :: i <= k < |items| && Blocks(items, t, k))
            && (slot.At? ==>
                  && (forall j :: 0 <= j < slot.index ==> CompareTimestamps(t, items[j].timestamp).After?)
                  && (slot.index < |items| ==> NotAfter(t, items[slot.index].timestamp)))
    decreases |items| - i
  {
    hide CompareTimestamps;
    if i < |items| {
      if CompareTimestamps(t, items[i].timestamp).After? {
        SearchStopsAt(items, t, i + 1);
      } else if CompareTimestamps(t, items[i].timestamp).NotComparable? {
        assert Blocks(items, t, i);
      }
    }
  }

  /**
   * A reading is appended when the newest one is not after it. It is refused as out of order when the newest is after
   * it and reordering is off, and as not comparable when it does not compare with the newest, or on the way to its
   * place meets a reading it does not compare with. Otherwise it goes before the first reading it is not after, so
   * before those of the same time.
   */
  lemma PlacementOnAnyClock<T>(items: seq<Reading<T>>, t: Timestamp, allowOutOfOrder: bool)
    requires items != []
    ensures var slot, newest := Placement(items, t, allowOutOfOrder), items[|items| - 1].timestamp;
            var late := CompareTimestamps(newest, t).After?;
            && (NotAfter(newest, t) ==> slot == At(|items|))
            && (slot == Refused(RejectedOutOfOrder) <==> late && !allowOutOfOrder)
            && (slot == Refused(RejectedNotComparable)
                <==> || CompareTimestamps(newest, t).NotComparable?
                     || (late && allowOutOfOrder && exists k :: 0 <= k < |items| && Blocks(items, t, k)))
            && (late && slot.At? ==>
                  && (forall j :: 0 <= j < slot.index ==> CompareTimestamps(t, items[j].timestamp).After?)
                  && (slot.index < |items| ==> NotAfter(t, items[slot.index].timestamp)))
  {
    hide CompareTimestamps, Search;
    SearchStopsAt(items, t, 0);
  }

  /** An accepted reading drops the oldest exactly when the buffer held as many as it may. */
  lemma DropsExactlyWhenFull<T>(limits: Limits, h: History<T>, m: Reading<T>)
    requires limits.maxSize > 0 ==> |h.held| <= limits.maxSize
    ensures var (next, result) := AfterInsert(limits, h, m);
            && (result.InsertedAndDroppedOldest? ==> 0 < limits.maxSize == |h.held| == |next.held|)
            && (result.Inserted? ==> |next.held| == |h.held| + 1 && next.evicted == h.evicted)
            && (result.InsertedAndDroppedOldest? ==> |next.evicted| == |h.evicted| + 1)
            && (!result.Inserted? && !result.InsertedAndDroppedOldest? ==> next == h)
  {
    hide Placement;
  }

  /** On any clocks a pop takes readings from the front until one that is not to be taken. */
  lemma {:induction false} PopTakesFrontRun<T>(items: seq<Reading<T>>, target: Timestamp, includeEqual: bool)
    ensures var n := PopCount(items, target, includeEqual);
            && (forall i :: 0 <= i < n ==> Taken(items[i].timestamp, target, includeEqual))
            && (n < |items| ==> !Taken(items[n].timestamp, target, includeEqual))
  {
    hide CompareTimestamps;
    if items != [] && Taken(items[0].timestamp, target, includeEqual) {
      PopTakesFrontRun(items[1..], target, includeEqual);
      assert forall i :: 0 < i < |items| ==> items[i] == items[1..][i - 1];
    }
  }
}
