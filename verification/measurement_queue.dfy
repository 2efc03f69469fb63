/** The bounded queue between the sensor threads and the estimator thread: what each critical section does. */
module MeasurementQueues {
  import opened Options

  datatype Contents<T> = Contents(queue: seq<T>, shutdown: bool)

  predicate Takes<T>(c: Contents<T>, capacity: nat) { !c.shutdown && |c.queue| < capacity }

  function Pushed<T>(c: Contents<T>, capacity: nat, m: T): Contents<T> {
    if Takes(c, capacity) then c.(queue := c.queue + [m]) else c
  }

  /** The condition a consumer waits for. */
  predicate Awake<T>(c: Contents<T>) { c.queue != [] || c.shutdown }

  function Popped<T>(c: Contents<T>): Contents<T> { if c.queue == [] then c else c.(queue := c.queue[1..]) }

  function Front<T>(c: Contents<T>): Option<T> { if c.queue == [] then None else Some(c.queue[0]) }

  class MeasurementQueue<T> {
    const capacity: nat
    var queue: seq<T>
    var shutdown: bool

    ghost function Value(): Contents<T>
      reads this
    {
      Contents(queue, shutdown)
    }

    constructor (capacity: nat)
      ensures this.capacity == capacity && Value() == Contents([], false)
    {
      this.capacity, queue, shutdown := capacity, [], false;
    }

    method Push(m: T) returns (taken: bool)
      modifies this
      ensures taken == Takes(old(Value()), capacity) && Value() == Pushed(old(Value()), capacity, m)
    {
      if shutdown || |queue| >= capacity {
        return false;
      }
      queue := queue + [m];
      return true;
    }

    /** The part of Pop after the wait. */
    method Pop() returns (front: Option<T>)
      requires Awake(Value())
      modifies this
      ensures front == Front(old(Value())) && Value() == Popped(old(Value()))
      ensures front.None? ==> shutdown
    {
      if queue == [] {
        return None;
      }
      front := Some(queue[0]);
      queue := queue[1..];
    }

    method RequestShutdown()
      modifies this
      ensures Value() == old(Value()).(shutdown := true)
    {
      shutdown := true;
    }

    method Size() returns (size: nat)
      ensures size == |queue|
    {
      size := |queue|;
    }
  }
}
