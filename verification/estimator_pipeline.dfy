/**
 * The estimator pipeline as an interleaving of threads: any number of producers, one worker that may sleep on the
 * queue's condition variable, and one controller that starts and stops. One step is what a thread does between two
 * points where another may run.
 */
module EstimatorPipelines {
  import opened MeasurementQueues
  import opened Options

  datatype Producer<T> =
    | Away
    | Asking(m: T)      // before reading the running flag
    | Entering(m: T)    // the flag was set; before taking the lock
    | Inside(m: T)      // holds the lock
    | Notifying         // has queued, holds the lock, before waking the worker

  datatype Worker<T> =
    | Unborn
    | Ready             // before taking the lock
    | Checking          // holds the lock
    | Asleep            // gave up the lock to wait
    | Woken             // must take the lock again
    | Delivering(m: T)  // handing m to the estimator
    | Exited

  datatype Controller =
    | Free
    | Spawning          // set the running flag, before creating the worker
    | Stopping          // cleared the running flag, before taking the lock
    | ShuttingDown      // holds the lock
    | Waking            // set the shutdown flag, holds the lock, before waking the worker
    | Joining

  datatype Owner = Nobody | TheWorker | TheController | OneProducer(index: nat)

  datatype Pipeline<T> = Pipeline(
    capacity: nat, running: bool, contents: Contents<T>, owner: Owner,
    producers: seq<Producer<T>>, worker: Worker<T>, controller: Controller,
    accepted: seq<T>, delivered: seq<T>)

  datatype Step<T> =
    | Call(i: nat, m: T) | ReadRunning(i: nat) | LockToPush(i: nat) | Push(i: nat) | Notify(i: nat)
    | LockToPop | Check | WakeUp | LockAgain | Deliver
    | Start | Spawn | Stop | LockToShutDown | ShutDown | WakeAll | Join

  function Initial<T>(capacity: nat, producers: nat): Pipeline<T> {
    Pipeline(capacity, false, Contents([], false), Nobody, seq(producers, _ => Away), Unborn, Free, [], [])
  }

  predicate Can<T>(p: Pipeline<T>, s: Step<T>) {
    match s
    case Call(i, _) => i < |p.producers| && p.producers[i].Away?
    case ReadRunning(i) => i < |p.producers| && p.producers[i].Asking?
    case LockToPush(i) => i < |p.producers| && p.producers[i].Entering? && p.owner.Nobody?
    case Push(i) => i < |p.producers| && p.producers[i].Inside?
    case Notify(i) => i < |p.producers| && p.producers[i].Notifying?
    case LockToPop => p.worker.Ready? && p.owner.Nobody?
    case Check => p.worker.Checking?
    case WakeUp => p.worker.Asleep?
    case LockAgain => p.worker.Woken? && p.owner.Nobody?
    case Deliver => p.worker.Delivering?
    case Start => p.controller.Free?
    case Spawn => p.controller.Spawning?
    case Stop => p.controller.Free?
    case LockToShutDown => p.controller.Stopping? && p.owner.Nobody?
    case ShutDown => p.controller.ShuttingDown?
    case WakeAll => p.controller.Waking?
    case Join => p.controller.Joining? && p.worker.Exited?
  }

  function Roused<T>(w: Worker<T>): Worker<T> { if w.Asleep? then Woken else w }

  function Do<T>(p: Pipeline<T>, s: Step<T>): Pipeline<T>
    requires Can(p, s)
  {
    match s
    case Call(i, m) => p.(producers := p.producers[i := Asking(m)])
    case ReadRunning(i) => p.(producers := p.producers[i := if p.running then Entering(p.producers[i].m) else Away])
    case LockToPush(i) => p.(producers := p.producers[i := Inside(p.producers[i].m)], owner := OneProducer(i))
    case Push(i) =>
      var m := p.producers[i].m;
      if Takes(p.contents, p.capacity) then
        p.(contents := Pushed(p.contents, p.capacity, m), accepted := p.accepted + [m],
           producers := p.producers[i := Notifying])
      else p.(producers := p.producers[i := Away], owner := Nobody)
    case Notify(i) => p.(producers := p.producers[i := Away], owner := Nobody, worker := Roused(p.worker))
    case LockToPop => p.(worker := Checking, owner := TheWorker)
    case Check =>
      if !Awake(p.contents) then p.(worker := Asleep, owner := Nobody)
      else if Front(p.contents).None? then p.(worker := Exited, owner := Nobody)
      else p.(contents := Popped(p.contents), worker := Delivering(Front(p.contents).value), owner := Nobody)
    case WakeUp => p.(worker := Woken)  // condition variables may wake spuriously
    case LockAgain => p.(worker := Checking, owner := TheWorker)
    case Deliver => p.(worker := Ready, delivered := p.delivered + [p.worker.m])
    case Start => if p.running then p else p.(running := true, controller := Spawning)
    case Spawn => p.(worker := Ready, controller := Free)
    case Stop => if p.running then p.(running := false, controller := Stopping) else p
    case LockToShutDown => p.(controller := ShuttingDown, owner := TheController)
    case ShutDown => p.(contents := p.contents.(shutdown := true), controller := Waking)
    case WakeAll => p.(controller := Joining, owner := Nobody, worker := Roused(p.worker))
    case Join => p.(controller := Free)
  }

  ghost predicate Possible<T>(p: Pipeline<T>, steps: seq<Step<T>>)
    decreases steps
  {
    steps == [] || (Can(p, steps[0]) && Possible(Do(p, steps[0]), steps[1..]))
  }

  ghost function After<T>(p: Pipeline<T>, steps: seq<Step<T>>): Pipeline<T>
    requires Possible(p, steps)
    decreases steps
  {
    if steps == [] then p else After(Do(p, steps[0]), steps[1..])
  }

  // What every interleaving keeps.

  function InHand<T>(w: Worker<T>): seq<T> { if w.Delivering? then [w.m] else [] }

  /** Accepted measurements are the delivered ones, the one in hand and the queued ones, first in first out. */
  ghost predicate Conserved<T>(p: Pipeline<T>) {
    p.accepted == p.delivered + InHand(p.worker) + p.contents.queue
  }

  ghost predicate Bounded<T>(p: Pipeline<T>) { |p.contents.queue| <= p.capacity }

  /** The lock belongs to exactly the thread inside a critical section. */
  ghost predicate Exclusive<T>(p: Pipeline<T>) {
    && (p.worker.Checking? <==> p.owner.TheWorker?)
    && (p.controller.ShuttingDown? || p.controller.Waking? <==> p.owner.TheController?)
    && (forall i :: 0 <= i < |p.producers| ==>
          (p.producers[i].Inside? || p.producers[i].Notifying? <==> p.owner == OneProducer(i)))
    && (p.owner.OneProducer? ==> p.owner.index < |p.producers|)
  }

  /** The worker sleeps only while it has nothing to do, or while whoever holds the lock is about to wake it. */
  ghost predicate NoLostWakeUp<T>(p: Pipeline<T>) {
    p.worker.Asleep? && Awake(p.contents) ==>
      || p.controller.Waking?
      || (p.owner.OneProducer? && p.owner.index < |p.producers| && p.producers[p.owner.index].Notifying?)
  }

  /** The worker leaves only after shutdown with the queue empty, and Stop waits for a worker that was told to leave. */
  ghost predicate Orderly<T>(p: Pipeline<T>) {
    && (p.worker.Exited? ==> p.contents.shutdown && p.contents.queue == [])
    && (p.controller.Waking? || p.controller.Joining? ==> p.contents.shutdown)
    && (p.running && !p.controller.Spawning? ==> !p.worker.Unborn?)
    && (p.controller.Spawning? ==> p.running && (p.worker.Unborn? || p.worker.Exited?))
    && (!p.running && p.controller.Free? ==> p.worker.Unborn? || p.worker.Exited?)
    && (p.controller.Stopping? || p.controller.ShuttingDown? || p.controller.Waking? || p.controller.Joining? ==>
          !p.running && !p.worker.Unborn?)
    && (p.contents.shutdown ==> !p.worker.Unborn?)
    && (p.worker.Unborn? && p.controller.Free? ==>
          && p.contents.queue == []
          && forall i :: 0 <= i < |p.producers| ==> p.producers[i].Away? || p.producers[i].Asking?)
  }

  ghost predicate Invariant<T>(p: Pipeline<T>) {
    Conserved(p) && Bounded(p) && Exclusive(p) && NoLostWakeUp(p) && Orderly(p)
  }

  lemma ProducerKeepsInvariant<T>(p: Pipeline<T>, s: Step<T>)
    requires Invariant(p) && Can(p, s)
    requires s.Call? || s.ReadRunning? || s.LockToPush? || s.Push? || s.Notify?
    ensures Invariant(Do(p, s))
  {
  }

  lemma WorkerKeepsInvariant<T>(p: Pipeline<T>, s: Step<T>)
    requires Invariant(p) && Can(p, s)
    requires s.LockToPop? || s.Check? || s.WakeUp? || s.LockAgain? || s.Deliver?
    ensures Invariant(Do(p, s))
  {
  }

  lemma ControllerKeepsInvariant<T>(p: Pipeline<T>, s: Step<T>)
    requires Invariant(p) && Can(p, s)
    requires s.Start? || s.Spawn? || s.Stop? || s.LockToShutDown? || s.ShutDown? || s.WakeAll? || s.Join?
    ensures Invariant(Do(p, s))
  {
  }

  lemma StepKeepsInvariant<T>(p: Pipeline<T>, s: Step<T>)
    requires Invariant(p) && Can(p, s)
    ensures Invariant(Do(p, s))
  {
    hide Invariant, Do, Can;
    match s
    case Call(_, _) | ReadRunning(_) | LockToPush(_) | Push(_) | Notify(_) => ProducerKeepsInvariant(p, s);
    case LockToPop | Check | WakeUp | LockAgain | Deliver => WorkerKeepsInvariant(p, s);
    case Start | Spawn | Stop | LockToShutDown | ShutDown | WakeAll | Join => ControllerKeepsInvariant(p, s);
  }

  lemma {:induction false} RunKeepsInvariant<T>(p: Pipeline<T>, steps: seq<Step<T>>)
    requires Invariant(p) && Possible(p, steps)
    ensures Invariant(After(p, steps))
    decreases steps
  {
    hide Invariant, Do, Can;
    if steps != [] {
      StepKeepsInvariant(p, steps[0]);
      RunKeepsInvariant(Do(p, steps[0]), steps[1..]);
    }
  }

  /** A pipeline that is not running and has no command under way has no worker about. */
  lemma RestingPipe<T>(p: Pipeline<T>)
    requires Invariant(p) && !p.running && p.controller.Free?
    ensures p.worker.Unborn? || p.worker.Exited?
    ensures p.contents.queue == [] && p.delivered == p.accepted
  {
  }

  /** The safety properties of every interleaving from the start. */
  lemma EveryRunIsSafe<T>(capacity: nat, producers: nat, steps: seq<Step<T>>)
    requires Possible(Initial(capacity, producers), steps)
    ensures var p := After(Initial(capacity, producers), steps);
            && p.accepted == p.delivered + InHand(p.worker) + p.contents.queue
            && |p.contents.queue| <= p.capacity
            && (p.worker.Asleep? && p.owner.Nobody? ==> p.contents.queue == [] && !p.contents.shutdown)
            && Invariant(p)
  {
    RunKeepsInvariant(Initial(capacity, producers), steps);
  }

  /** When Stop returns, everything accepted has been delivered. */
  lemma StopDrains<T>(p: Pipeline<T>)
    requires Invariant(p) && Can(p, Join)
    ensures Do(p, Join).delivered == Do(p, Join).accepted && Do(p, Join).contents == Contents([], true)
  {
  }

  // After shutdown.

  lemma ShutdownStays<T>(p: Pipeline<T>, s: Step<T>)
    requires p.contents.shutdown && Can(p, s)
    ensures Do(p, s).contents.shutdown && Do(p, s).accepted == p.accepted
  {
  }

  /** The queue never leaves shutdown: whatever follows, starting again included, nothing more is accepted. */
  lemma {:induction false} NothingAcceptedAfterShutdown<T>(p: Pipeline<T>, steps: seq<Step<T>>)
    requires p.contents.shutdown && Possible(p, steps)
    ensures After(p, steps).contents.shutdown && After(p, steps).accepted == p.accepted
    decreases steps
  {
    hide Do, Can;
    if steps != [] {
      ShutdownStays(p, steps[0]);
      NothingAcceptedAfterShutdown(Do(p, steps[0]), steps[1..]);
    }
  }

  // When measurements can still be accepted.

  predicate Room<T>(p: Pipeline<T>) { |p.contents.queue| < p.capacity }

  /** Past the running flag, and not about to be refused by a full queue. */
  predicate OnItsWay<T>(p: Pipeline<T>, r: Producer<T>) { r.Entering? || (r.Inside? && Room(p)) }

  /**
   * The queue can hold something and is not shut down, and there are producers; once Stop has cleared the running
   * flag, one of them already got past it.
   */
  ghost predicate Open<T>(p: Pipeline<T>) {
    && p.capacity > 0 && !p.contents.shutdown && p.producers != []
    && !p.controller.ShuttingDown?
    && (p.controller.Stopping? ==> exists i :: 0 <= i < |p.producers| && OnItsWay(p, p.producers[i]))
  }

  lemma ClosedStaysClosed<T>(p: Pipeline<T>, s: Step<T>)
    requires Invariant(p) && !Open(p) && Can(p, s)
    ensures !Open(Do(p, s)) && Do(p, s).accepted == p.accepted
  {
    var q := Do(p, s);
    if p.controller.Stopping? && q.controller.Stopping? && p.capacity > 0 && !p.contents.shutdown {
      assert forall i :: 0 <= i < |p.producers| ==> !OnItsWay(p, p.producers[i]);
      assert forall i :: 0 <= i < |q.producers| ==> !OnItsWay(q, q.producers[i]);
    }
  }

  lemma {:induction false} ClosedAcceptsNothing<T>(p: Pipeline<T>, steps: seq<Step<T>>)
    requires Invariant(p) && !Open(p) && Possible(p, steps)
    ensures After(p, steps).accepted == p.accepted
    decreases steps
  {
    hide Invariant, Do, Can, Open;
    if steps != [] {
      ClosedStaysClosed(p, steps[0]);
      StepKeepsInvariant(p, steps[0]);
      ClosedAcceptsNothing(Do(p, steps[0]), steps[1..]);
    }
  }

  /** A producer past the running flag while Stop waits for the lock, or else the first one. */
  ghost function Candidate<T>(p: Pipeline<T>): (i: nat)
    requires Open(p)
    ensures i < |p.producers| && (p.controller.Stopping? ==> OnItsWay(p, p.producers[i]))
  {
    if p.controller.Stopping? then
      var i: nat :| i < |p.producers| && OnItsWay(p, p.producers[i]);
      i
    else 0
  }

  /** A step towards accepting m: free the lock, run, make room, then bring in the candidate. */
  ghost function Toward<T>(p: Pipeline<T>, m: T): Step<T>
    requires Open(p)
  {
    match p.owner
    case TheWorker => Check
    case TheController => WakeAll
    case OneProducer(i) => if i < |p.producers| && p.producers[i].Inside? then Push(i) else Notify(i)
    case Nobody =>
      if p.controller.Spawning? then Spawn
      else if p.controller.Free? && !p.running then Start
      else if !Room(p) then
        match p.worker
        case Woken => LockAgain
        case Delivering(_) => Deliver
        case _ => LockToPop
      else
        var i := Candidate(p);
        match p.producers[i]
        case Away => Call(i, m)
        case Asking(_) => ReadRunning(i)
        case _ => LockToPush(i)
  }

  function WorkerRank<T>(w: Worker<T>): nat {
    match w
    case Asleep => 4
    case Delivering(_) => 3
    case Ready => 2
    case Woken => 2
    case Checking => 1
    case Unborn => 0
    case Exited => 0
  }

  function LockRank<T>(p: Pipeline<T>): nat {
    match p.owner
    case OneProducer(i) =>
      if i < |p.producers| && p.producers[i].Inside? then if Room(p) then 0 else 40 else 20
    case TheWorker => 10
    case TheController => 0
    case Nobody => 0
  }

  function ProducerRank<T>(p: Pipeline<T>): nat
    requires p.producers != []
  {
    if p.owner.OneProducer? && LockRank(p) == 0 then 0
    else if p.controller.Stopping? then 5
    else match p.producers[0]
      case Notifying => 6
      case Away => 5
      case Asking(_) => 4
      case Entering(_) => 3
      case Inside(_) => 5
  }

  /** How many steps Toward needs at most. */
  function TowardRank<T>(p: Pipeline<T>): nat
    requires p.producers != []
  {
    (if p.controller.Spawning? then 1000 else if p.controller.Free? && !p.running then 2000 else 0)
    + (if Room(p) then 0 else 100 + 30 * WorkerRank(p.worker)) + LockRank(p) + ProducerRank(p)
  }

  lemma TowardWorks<T>(p: Pipeline<T>, m: T)
    requires Invariant(p) && Open(p)
    ensures Can(p, Toward(p, m))
    ensures var q := Do(p, Toward(p, m));
            q.accepted != p.accepted || (Open(q) && TowardRank(q) < TowardRank(p))
  {
    var s := Toward(p, m);
    var q := Do(p, s);
    var c := Candidate(p);
    if p.controller.Stopping? && q.accepted == p.accepted {
      assert OnItsWay(q, q.producers[c]);
    }
  }

  lemma {:induction false} OpenAccepts<T>(p: Pipeline<T>, m: T) returns (steps: seq<Step<T>>)
    requires Invariant(p) && Open(p)
    ensures Possible(p, steps) && After(p, steps).accepted != p.accepted
    decreases TowardRank(p)
  {
    var s := Toward(p, m);
    TowardWorks(p, m);
    StepKeepsInvariant(p, s);
    AcceptedGrows(p, s);
    hide Can, Do, Invariant, Open, Toward, TowardRank;
    if Do(p, s).accepted != p.accepted {
      steps := [s];
      assert steps[1..] == [];
    } else {
      var rest := OpenAccepts(Do(p, s), m);
      steps := [s] + rest;
      assert steps[1..] == rest;
    }
  }

  lemma AcceptedGrows<T>(p: Pipeline<T>, s: Step<T>)
    requires Can(p, s)
    ensures p.accepted <= Do(p, s).accepted
  {
  }

  /** From any reachable state some continuation has a further measurement accepted exactly when the queue is open. */
  lemma AcceptsExactlyWhenOpen<T>(p: Pipeline<T>, m: T)
    requires Invariant(p)
    ensures (exists steps :: Possible(p, steps) && After(p, steps).accepted != p.accepted) <==> Open(p)
  {
    if Open(p) {
      var steps := OpenAccepts(p, m);
    } else {
      forall steps | Possible(p, steps) ensures After(p, steps).accepted == p.accepted {
        ClosedAcceptsNothing(p, steps);
      }
    }
  }

  // A run that stops and starts again.

  ghost predicate Reaches<T(!new)>(p: Pipeline<T>, q: Pipeline<T>) {
    exists steps :: Possible(p, steps) && After(p, steps) == q
  }

  lemma {:induction false} AfterAppend<T>(p: Pipeline<T>, steps: seq<Step<T>>, s: Step<T>)
    requires Possible(p, steps) && Can(After(p, steps), s)
    ensures Possible(p, steps + [s]) && After(p, steps + [s]) == Do(After(p, steps), s)
    decreases steps
  {
    hide Can, Do;
    if steps == [] {
      assert (steps + [s])[1..] == [] && (steps + [s])[0] == s;
    } else {
      assert (steps + [s])[1..] == steps[1..] + [s];
      AfterAppend(Do(p, steps[0]), steps[1..], s);
    }
  }

  lemma ReachesFurther<T(!new)>(p: Pipeline<T>, q: Pipeline<T>, s: Step<T>)
    requires Reaches(p, q) && Can(q, s)
    ensures Reaches(p, Do(q, s))
  {
    hide Can, Do;
    var steps :| Possible(p, steps) && After(p, steps) == q;
    AfterAppend(p, steps, s);
  }

  /** Started and stopped, up to where Stop waits for the worker. */
  function Told<T>(capacity: nat, producers: nat): Pipeline<T> {
    Initial(capacity, producers).(contents := Contents([], true), worker := Ready, controller := Joining)
  }

  lemma Stopped<T(!new)>(capacity: nat, producers: nat) returns (p: Pipeline<T>)
    ensures Reaches(Initial(capacity, producers), p) && p == Told(capacity, producers)
  {
    hide Reaches;
    p := Initial(capacity, producers);
    ghost var start := p;
    ReachesItself(p);
    ReachesFurther(start, p, Start);
    p := Do(p, Start);
    ReachesFurther(start, p, Spawn);
    p := Do(p, Spawn);
    ReachesFurther(start, p, Stop);
    p := Do(p, Stop);
    ReachesFurther(start, p, LockToShutDown);
    p := Do(p, LockToShutDown);
    ReachesFurther(start, p, ShutDown);
    p := Do(p, ShutDown);
    ReachesFurther(start, p, WakeAll);
    p := Do(p, WakeAll);
  }

  lemma ReachesItself<T(!new)>(p: Pipeline<T>)
    ensures Reaches(p, p)
  {
    assert Possible(p, []) && After(p, []) == p;
  }

  /** Started, stopped and started again, with a worker alive and the flag set: nothing is accepted any more. */
  lemma RestartedIsClosed<T(!new)>(capacity: nat, producers: nat) returns (p: Pipeline<T>)
    ensures Reaches(Initial(capacity, producers), p) && p.running && p.worker.Ready? && p.controller.Free?
    ensures forall steps :: Possible(p, steps) ==> After(p, steps).accepted == []
  {
    hide Reaches;
    ghost var start := Initial<T>(capacity, producers);
    p := Stopped(capacity, producers);
    ReachesFurther(start, p, LockToPop);
    p := Do(p, LockToPop);
    ReachesFurther(start, p, Check);
    p := Do(p, Check);
    ReachesFurther(start, p, Join);
    p := Do(p, Join);
    ReachesFurther(start, p, Start);
    p := Do(p, Start);
    ReachesFurther(start, p, Spawn);
    p := Do(p, Spawn);
    assert Invariant(start);
    RunKeepsInvariantAt(start, p);
    hide Do, Can, Invariant;
    forall steps | Possible(p, steps) ensures After(p, steps).accepted == [] {
      ClosedAcceptsNothing(p, steps);
    }
  }

  lemma RunKeepsInvariantAt<T(!new)>(p: Pipeline<T>, q: Pipeline<T>)
    requires Invariant(p) && Reaches(p, q)
    ensures Invariant(q)
  {
    hide Invariant;
    var steps :| Possible(p, steps) && After(p, steps) == q;
    RunKeepsInvariant(p, steps);
  }

  predicate OfWorker<T>(s: Step<T>) { s.LockToPop? || s.Check? || s.WakeUp? || s.LockAgain? || s.Deliver? }

  /** An upper bound on the worker's remaining steps once shutdown is set. */
  function WorkLeft<T>(p: Pipeline<T>): nat {
    4 * |p.contents.queue| +
    match p.worker
    case Unborn => 0
    case Exited => 0
    case Checking => 1
    case Ready => 2
    case Woken => 2
    case Asleep => 3
    case Delivering(_) => 3
  }

  /** After shutdown each worker step uses up work, and nothing adds any but starting another worker. */
  lemma WorkRunsOut<T>(p: Pipeline<T>, s: Step<T>)
    requires p.contents.shutdown && Can(p, s) && Exclusive(p)
    ensures OfWorker(s) ==> WorkLeft(Do(p, s)) < WorkLeft(p)
    ensures !s.Spawn? ==> WorkLeft(Do(p, s)) <= WorkLeft(p)
  {
  }

  /** The next step of the worker, or of whoever holds the lock; never a spurious wake-up. */
  function Progress<T>(p: Pipeline<T>): Step<T> {
    match p.owner
    case TheController => if p.controller.ShuttingDown? then ShutDown else WakeAll
    case OneProducer(i) => if i < |p.producers| && p.producers[i].Inside? then Push(i) else Notify(i)
    case TheWorker => Check
    case Nobody =>
      match p.worker
      case Ready => LockToPop
      case Woken => LockAgain
      case Delivering(_) => Deliver
      case Asleep => Check
      case Checking => Check
      case Unborn => Join
      case Exited => Join
  }

  /** How long progress takes: the work left, and whether a producer or the controller still has to give up the lock. */
  function Distance<T>(p: Pipeline<T>): nat {
    3 * WorkLeft(p) +
    match p.owner
    case OneProducer(i) => if i < |p.producers| && p.producers[i].Inside? then 2 else 1
    case TheController => if p.controller.ShuttingDown? then 2 else 1
    case TheWorker => 0
    case Nobody => 0
  }

  lemma ProgressIsPossible<T>(p: Pipeline<T>)
    requires Invariant(p) && p.controller.Joining? && !p.worker.Exited?
    ensures Can(p, Progress(p)) && !Progress(p).WakeUp?
    ensures Do(p, Progress(p)).controller.Joining? && Distance(Do(p, Progress(p))) < Distance(p)
  {
  }

  /**
   * No deadlock: from every reachable state in which Stop waits for the worker, some continuation without spurious
   * wake-ups lets Stop return, and none of its steps needs a producer that is not already inside.
   */
  lemma {:induction false} StopCanReturn<T>(p: Pipeline<T>) returns (steps: seq<Step<T>>)
    requires Invariant(p) && p.controller.Joining?
    ensures Possible(p, steps) && |steps| <= Distance(p) + 1 && (forall s :: s in steps ==> !s.WakeUp? && !s.Call?)
    ensures After(p, steps).controller.Free? && After(p, steps).delivered == After(p, steps).accepted == p.accepted
    decreases Distance(p)
  {
    if p.worker.Exited? {
      steps := [Join];
      assert steps[1..] == [];
      StopDrains(p);
    } else {
      var s := Progress(p);
      ProgressIsPossible(p);
      StepKeepsInvariant(p, s);
      ShutdownStays(p, s);
      hide Do, Can, Conserved, Bounded, Exclusive, NoLostWakeUp, Distance;
      var rest := StopCanReturn(Do(p, s));
      steps := [s] + rest;
      assert steps[1..] == rest;
    }
  }
}
