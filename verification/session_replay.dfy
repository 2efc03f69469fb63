/** Whether the replay thread of a running session reads on: Pause, Resume and the end of the data. */
module SessionReplays {
  import P = EstimatorPipelines
  import opened SessionRestarts
  import opened Sessions

  // ---- Status and pause flag ---------------------------------------------------------------

  /**
   * Outside the commands that change them: a running session with status Paused has the flag set, and one with status
   * Running has it clear.
   */
  ghost predicate FlagMatches(p: Session) {
    && (p.status.Paused? && p.running ==> p.paused || p.controller.ResumeWaking? || p.controller.ResumeMarking?)
    && (p.status.Running? && p.paused ==>
          || p.controller.PauseMarking? || p.controller.StopLocking? || p.controller.StopInside?
          || (Launching(p.controller) && p.joinable))
    && (!p.running && p.paused ==>
          p.controller.StopLocking? || p.controller.StopInside? || p.controller.PauseMarking? || p.status.Paused?)
    && (p.controller.PauseMarking? ==> p.paused)
    && (p.controller.ResumeWaking? || p.controller.ResumeMarking? ==> !p.paused)
  }

  lemma ReplayKeepsFlag(p: Session, s: Step)
    requires Sound(p) && FlagMatches(p) && OfReplay(s) && ReplayCan(p, s)
    ensures FlagMatches(ReplayDo(p, s))
  {
    hide P.Invariant, PipeMatches, ServersMatch;
  }

  lemma StartKeepsFlag(p: Session, s: Step)
    requires Sound(p) && FlagMatches(p) && Starts(s) && StartCan(p, s)
    ensures StartDo(p, s).crashed || FlagMatches(StartDo(p, s))
  {
    hide P.Invariant, PauseMatches, PipeMatches, ServersMatch;
  }

  lemma PauseKeepsFlag(p: Session, s: Step)
    requires FlagMatches(p) && Pauses(s) && PauseCan(p, s)
    ensures FlagMatches(PauseDo(p, s))
  {
  }

  lemma StopKeepsFlag(p: Session, s: Step)
    requires Sound(p) && FlagMatches(p) && Stops(s) && StopCan(p, s)
    ensures FlagMatches(StopDo(p, s))
  {
    hide P.Invariant, PauseMatches, PipeMatches, ServersMatch;
  }

  lemma CloseKeepsFlag(p: Session, s: Step)
    requires Sound(p) && FlagMatches(p) && Closes(s) && CloseCan(p, s)
    ensures CloseDo(p, s).crashed || FlagMatches(CloseDo(p, s))
  {
    hide P.Invariant, PipeMatches, ServersMatch;
  }

  lemma BeginKeepsFlag(p: Session, caller: Caller, command: Command)
    requires Sound(p) && FlagMatches(p) && p.controller.Free? && CallerReady(p, caller)
    ensures FlagMatches(Begun(p, caller, command))
  {
    hide P.Invariant, PauseMatches, PipeMatches, ServersMatch;
  }

  lemma AnnounceKeepsFlag(p: Session)
    requires FlagMatches(p) && Broadcasts(p.controller)
    ensures FlagMatches(AnnouncedBy(p))
  {
  }

  lemma PipeKeepsFlag(p: Session, s: P.Step<Measurement>)
    requires FlagMatches(p) && PipeAllowed(p, s) && P.Can(p.pipe, s)
    ensures FlagMatches(Piped(p, s))
  {
    hide P.Do, P.Can;
  }

  lemma StepKeepsFlag(p: Session, s: Step)
    requires Sound(p) && FlagMatches(p) && Can(p, s)
    ensures Do(p, s).crashed || FlagMatches(Do(p, s))
  {
    hide Sound, FlagMatches, StartDo, ReplayDo, ObserveDo, PauseDo, StopDo, CloseDo, Begun, AnnouncedBy, Piped;
    hide ReplayCan, ObserveCan, StartCan, PauseCan, StopCan, CloseCan, PipeAllowed, ServerCan, CallerReady, Broadcasts;
    hide ServerDone;
    if OfReplay(s) {
      ReplayKeepsFlag(p, s);
    } else if OfWorker(s) {
      ObserveKeepsFlag(p, s);
    } else if Starts(s) {
      StartKeepsFlag(p, s);
    } else if Pauses(s) {
      PauseKeepsFlag(p, s);
    } else if Stops(s) {
      StopKeepsFlag(p, s);
    } else if Closes(s) {
      CloseKeepsFlag(p, s);
    } else {
      match s
      case Begin(caller, command) => BeginKeepsFlag(p, caller, command);
      case Announce => AnnounceKeepsFlag(p);
      case Pipe(step) => PipeKeepsFlag(p, step);
      case Ipc(step) => ServersKeepFlag(p, ServerDone(p.ipc, step), p.ws);
      case Ws(step) => ServersKeepFlag(p, p.ipc, ServerDone(p.ws, step));
    }
  }

  lemma ObserveKeepsFlag(p: Session, s: Step)
    requires FlagMatches(p) && OfWorker(s) && ObserveCan(p, s)
    ensures FlagMatches(ObserveDo(p, s))
  {
  }

  lemma ServersKeepFlag(p: Session, ipc: Server, ws: Server)
    requires FlagMatches(p)
    ensures FlagMatches(p.(ipc := ipc, ws := ws))
  {
  }

  lemma {:induction false} RunKeepsFlag(p: Session, steps: seq<Step>)
    requires Invariant(p) && (p.crashed || FlagMatches(p)) && Possible(p, steps)
    ensures After(p, steps).crashed || FlagMatches(After(p, steps))
    decreases steps
  {
    if steps != [] {
      StepKeepsInvariant(p, steps[0]);
      assert Sound(p) && !p.crashed;
      StepKeepsFlag(p, steps[0]);
      hide Sound, FlagMatches, Do, Can;
      RunKeepsFlag(Do(p, steps[0]), steps[1..]);
    }
  }

  // ---- Reading on --------------------------------------------------------------------------

  /** In its loop, before it has made sure that it is not paused. */
  predicate Waits(r: Replay) { r.Testing? || r.Locking? || r.Checking? || r.Asleep? || r.Woken? }

  /** No command is under way and the flag keeps the replay thread from reading. */
  predicate Held(p: Session) { p.controller.Free? && p.running && p.paused && Waits(p.replay) }

  lemma ReplayStaysHeld(p: Session, s: Step)
    requires Held(p) && OfReplay(s) && ReplayCan(p, s)
    ensures Held(ReplayDo(p, s)) && !s.Read?
  {
  }

  /** With no command under way, only these threads step. */
  lemma FreeSteps(p: Session, s: Step)
    requires p.controller.Free? && Can(p, s) && !s.Begin?
    ensures if OfReplay(s) then ReplayCan(p, s) && Do(p, s) == ReplayDo(p, s)
            else if OfWorker(s) then ObserveCan(p, s) && Do(p, s) == ObserveDo(p, s)
            else if s.Ipc? then Do(p, s) == p.(ipc := ServerDone(p.ipc, s.server))
            else if s.Ws? then Do(p, s) == p.(ws := ServerDone(p.ws, s.server))
            else s.Pipe? && PipeAllowed(p, s.step) && P.Can(p.pipe, s.step) && Do(p, s) == Piped(p, s.step)
  {
    hide PipeAllowed, ServerCan, CallerReady, ReplayCan, ObserveCan;
    hide StartDo, ReplayDo, ObserveDo, PauseDo, StopDo, CloseDo, Begun, AnnouncedBy, Piped, ServerDone, P.Can, P.Do;
  }

  lemma PipeStaysHeld(p: Session, s: P.Step<Measurement>)
    requires Held(p) && PipeAllowed(p, s) && P.Can(p.pipe, s)
    ensures Held(Piped(p, s)) && !s.Push?
  {
    hide P.Do, P.Can;
  }

  lemma StaysHeld(p: Session, s: Step)
    requires Held(p) && Can(p, s) && !s.Begin?
    ensures Held(Do(p, s)) && !s.Read?
  {
    FreeSteps(p, s);
    hide Can, Do, ReplayDo, ReplayCan, Piped, PipeAllowed, P.Can;
    if OfReplay(s) {
      ReplayStaysHeld(p, s);
    } else if s.Pipe? {
      PipeStaysHeld(p, s.step);
    }
  }

  predicate NoCommand(run: seq<Step>) { forall s | s in run :: !s.Begin? }

  predicate Reads(s: Step) { s.Read? && s.result.Ok? }

  lemma {:induction false} HeldReadsNothing(p: Session, run: seq<Step>)
    requires Held(p) && Possible(p, run) && NoCommand(run)
    ensures forall s | s in run :: !Reads(s)
    decreases run
  {
    hide Held, Can, Do;
    if run != [] {
      assert run[0] in run;
      StaysHeld(p, run[0]);
      assert forall s | s in run[1..] :: s in run;
      HeldReadsNothing(Do(p, run[0]), run[1..]);
      assert run == [run[0]] + run[1..];
    }
  }

  lemma ToTheCheck(p: Session) returns (run: seq<Step>, q: Session)
    requires Sound(p) && !p.crashed && p.controller.Free? && p.running && !p.paused && Waits(p.replay)
    ensures Ran(p, run, q) && NoCommand(run)
    ensures q.replay.Checking? && !q.crashed && q.running && !q.paused
  {
    hide Ran, P.Invariant, ReplayMatches, PipeMatches, ServersMatch;
    NoSteps(p);
    run, q := [], p;
    if p.replay.Testing? {
      run, q := NextReplay(p, run, q, Test);
    }
    if q.replay.Locking? {
      run, q := NextReplay(p, run, q, LockPause);
    } else if q.replay.Woken? {
      run, q := NextReplay(p, run, q, LockAgain);
    }
  }

  /** The replay thread makes its way from the head of the loop to the next measurement. */
  lemma ReadOn(p: Session, m: Measurement) returns (run: seq<Step>)
    requires Sound(p) && !p.crashed && p.controller.Free? && p.running && !p.paused && Waits(p.replay)
    ensures Possible(p, run) && NoCommand(run) && Read(Ok(m)) in run
  {
    hide Ran, Sound;
    var q;
    run, q := ToTheCheck(p);
    run, q := NextReplay(p, run, q, CheckPause);
    run, q := NextReplay(p, run, q, Retest);
    run, q := NextReplay(p, run, q, Read(Ok(m)));
    PossibleIf(p, run, q);
  }

  /** A session built and run with any steps whose replay thread waits at the head of its loop, no command under way. */
  ghost predicate AtLoopHead(capacity: nat, steps: seq<Step>, p: Session) {
    && Possible(Sessions.Fresh(capacity), steps) && After(Sessions.Fresh(capacity), steps) == p
    && !p.crashed && p.controller.Free? && p.running && Waits(p.replay)
  }

  lemma StatusAtLoopHead(capacity: nat, steps: seq<Step>, p: Session)
    requires AtLoopHead(capacity, steps, p)
    ensures Sound(p) && (p.status.Running? || p.status.Paused?) && (p.status.Paused? <==> p.paused)
  {
    EverySessionIsSafe(capacity, steps);
    NewPipeIsSound(capacity);
    RunKeepsFlag(Sessions.Fresh(capacity), steps);
    hide P.Invariant, PauseMatches, PipeMatches, ServersMatch, Possible, After;
  }

  /**
   * In every reachable state with the replay thread at the head of its loop and no command under way, the status is
   * Running or Paused, and some continuation without a command reads a measurement exactly when it is Running.
   */
  lemma ReadsOnExactlyWhenRunning(capacity: nat, steps: seq<Step>, p: Session)
    requires AtLoopHead(capacity, steps, p)
    ensures p.status.Running? || p.status.Paused?
    ensures (exists run :: Possible(p, run) && NoCommand(run) && exists s | s in run :: Reads(s)) <==> p.status.Running?
  {
    StatusAtLoopHead(capacity, steps, p);
    hide Sound, Possible, After;
    if p.status.Running? {
      var run := ReadOn(p, 0);
      assert Reads(Read(Ok(0)));
    } else {
      forall run | Possible(p, run) && NoCommand(run) ensures forall s | s in run :: !Reads(s) {
        HeldReadsNothing(p, run);
      }
    }
  }

  // ---- What was already on its way ---------------------------------------------------------

  /** The replay thread got past the pause, or has a measurement that the pipeline did not take yet. */
  predicate PastPause(p: Session) {
    || p.replay.Retesting? || p.replay.Reading? || p.replay.Pushing?
    || (p.replay.InPush? && p.pipe.producers != [] && !p.pipe.producers[0].Notifying?)
  }

  function OnItsWay(p: Session): nat { if PastPause(p) then 1 else 0 }

  /** What was accepted, with what may still be. */
  function AtMost(p: Session): nat { |p.pipe.accepted| + OnItsWay(p) }

  predicate PausedFree(p: Session) { p.controller.Free? && p.running && p.paused }

  lemma ReplayKeepsAtMost(p: Session, s: Step)
    requires PausedFree(p) && OfReplay(s) && ReplayCan(p, s)
    ensures PausedFree(ReplayDo(p, s)) && AtMost(ReplayDo(p, s)) <= AtMost(p)
  {
  }

  lemma PipeKeepsAtMost(p: Session, s: P.Step<Measurement>)
    requires Sound(p) && PausedFree(p) && PipeAllowed(p, s) && P.Can(p.pipe, s)
    ensures PausedFree(Piped(p, s)) && AtMost(Piped(p, s)) <= AtMost(p)
  {
    hide P.Invariant, PauseMatches, ReplayMatches, ServersMatch;
  }

  lemma KeepsAtMost(p: Session, s: Step)
    requires Sound(p) && PausedFree(p) && Can(p, s) && !s.Begin?
    ensures PausedFree(Do(p, s)) && AtMost(Do(p, s)) <= AtMost(p)
  {
    FreeSteps(p, s);
    hide Can, Do, ReplayDo, ReplayCan, Piped, PipeAllowed, P.Can, Sound;
    if OfReplay(s) {
      ReplayKeepsAtMost(p, s);
    } else if s.Pipe? {
      PipeKeepsAtMost(p, s.step);
    }
  }

  /**
   * While a session is paused and no command begins, the pipeline accepts at most the one measurement that was on its
   * way: none if the replay thread was not past the pause.
   */
  lemma {:induction false} PausedAcceptsAtMostOne(p: Session, run: seq<Step>)
    requires Invariant(p) && !p.crashed && PausedFree(p) && Possible(p, run) && NoCommand(run)
    ensures |After(p, run).pipe.accepted| <= |p.pipe.accepted| + if PastPause(p) then 1 else 0
    ensures !After(p, run).crashed && PausedFree(After(p, run)) && AtMost(After(p, run)) <= AtMost(p)
    decreases run
  {
    if run != [] {
      assert run[0] in run;
      StepKeepsInvariant(p, run[0]);
      KeepsAtMost(p, run[0]);
      FreeStepsDoNotCrash(p, run[0]);
      assert forall s | s in run[1..] :: s in run;
      hide Invariant, Can, Do, AtMost;
      PausedAcceptsAtMostOne(Do(p, run[0]), run[1..]);
    }
  }

  lemma ReplayDoesNotCrash(p: Session, s: Step)
    requires OfReplay(s) && ReplayCan(p, s)
    ensures ReplayDo(p, s).crashed == p.crashed
  {
  }

  lemma WorkerDoesNotCrash(p: Session, s: Step)
    requires OfWorker(s) && ObserveCan(p, s)
    ensures ObserveDo(p, s).crashed == p.crashed
  {
  }

  lemma PipeDoesNotCrash(p: Session, s: P.Step<Measurement>)
    requires P.Can(p.pipe, s)
    ensures Piped(p, s).crashed == p.crashed
  {
    hide P.Can, P.Do;
  }

  lemma FreeStepsDoNotCrash(p: Session, s: Step)
    requires p.controller.Free? && Can(p, s) && !s.Begin?
    ensures !Do(p, s).crashed
  {
    hide PipeAllowed, ReplayCan, ObserveCan, StartCan, PauseCan, StopCan, CloseCan, CallerReady, ServerCan, P.Can;
    hide Do, ReplayDo, ObserveDo, Piped, ServerDone;
    FreeSteps(p, s);
    if OfReplay(s) {
      ReplayDoesNotCrash(p, s);
    } else if OfWorker(s) {
      WorkerDoesNotCrash(p, s);
    } else if s.Pipe? {
      PipeDoesNotCrash(p, s.step);
    }
  }

  // ---- The end of the data -----------------------------------------------------------------

  /** Neither completed nor on the way to it. */
  predicate Unfinished(p: Session) {
    && !p.status.Completed? && !p.replay.Completing? && !p.replay.Announcing? && !(p.replay.Finishing? && p.running)
  }

  lemma ReplayStaysUnfinished(p: Session, s: Step)
    requires Unfinished(p) && OfReplay(s) && ReplayCan(p, s) && s != Read(EndOfData)
    ensures Unfinished(ReplayDo(p, s))
  {
  }

  lemma StartStaysUnfinished(p: Session, s: Step)
    requires Sound(p) && Unfinished(p) && Starts(s) && StartCan(p, s)
    ensures Unfinished(StartDo(p, s))
  {
    hide P.Invariant, PauseMatches, PipeMatches, ServersMatch;
  }

  lemma PauseStaysUnfinished(p: Session, s: Step)
    requires Unfinished(p) && Pauses(s) && PauseCan(p, s)
    ensures Unfinished(PauseDo(p, s))
  {
  }

  lemma StopStaysUnfinished(p: Session, s: Step)
    requires Unfinished(p) && Stops(s) && StopCan(p, s)
    ensures Unfinished(StopDo(p, s))
  {
  }

  lemma CloseStaysUnfinished(p: Session, s: Step)
    requires Unfinished(p) && Closes(s) && CloseCan(p, s)
    ensures Unfinished(CloseDo(p, s))
  {
  }

  lemma BeginStaysUnfinished(p: Session, caller: Caller, command: Command)
    requires Unfinished(p)
    ensures Unfinished(Begun(p, caller, command))
  {
  }

  lemma PipeStaysUnfinished(p: Session, s: P.Step<Measurement>)
    requires Unfinished(p) && PipeAllowed(p, s) && P.Can(p.pipe, s)
    ensures Unfinished(Piped(p, s))
  {
    hide P.Do, P.Can;
  }

  lemma OthersStayUnfinished(p: Session, s: Step)
    requires Unfinished(p) && Can(p, s) && (OfWorker(s) || s.Announce? || s.Ipc? || s.Ws?)
    ensures Unfinished(Do(p, s))
  {
    hide StartCan, PauseCan, StopCan, CloseCan, PipeAllowed, CallerReady, ReplayCan, ObserveCan, ServerCan;
    hide StartDo, PauseDo, StopDo, CloseDo, Begun, Piped, ReplayDo, ServerDone;
  }

  lemma StaysUnfinished(p: Session, s: Step)
    requires Sound(p) && Unfinished(p) && Can(p, s) && s != Read(EndOfData)
    ensures Unfinished(Do(p, s))
  {
    hide Sound, Unfinished, StartDo, ReplayDo, ObserveDo, PauseDo, StopDo, CloseDo, Begun, AnnouncedBy, Piped;
    hide ReplayCan, ObserveCan, StartCan, PauseCan, StopCan, CloseCan, PipeAllowed, ServerCan, CallerReady, Broadcasts;
    hide ServerDone;
    if OfReplay(s) {
      ReplayStaysUnfinished(p, s);
    } else if Starts(s) {
      StartStaysUnfinished(p, s);
    } else if Pauses(s) {
      PauseStaysUnfinished(p, s);
    } else if Stops(s) {
      StopStaysUnfinished(p, s);
    } else if Closes(s) {
      CloseStaysUnfinished(p, s);
    } else if s.Begin? {
      BeginStaysUnfinished(p, s.caller, s.command);
    } else if s.Pipe? {
      PipeStaysUnfinished(p, s.step);
    } else {
      OthersStayUnfinished(p, s);
    }
  }

  lemma {:induction false} RunStaysUnfinished(p: Session, run: seq<Step>)
    requires Invariant(p) && (p.crashed || Unfinished(p)) && Possible(p, run) && Read(EndOfData) !in run
    ensures After(p, run).crashed || Unfinished(After(p, run))
    decreases run
  {
    if run != [] {
      assert run[0] in run;
      StepKeepsInvariant(p, run[0]);
      assert Sound(p) && !p.crashed;
      StaysUnfinished(p, run[0]);
      assert forall s | s in run[1..] :: s in run;
      hide Sound, Unfinished, Do, Can;
      RunStaysUnfinished(Do(p, run[0]), run[1..]);
    }
  }

  /** On every run, whatever the commands: no session is completed before its replay thread read the end of the data. */
  lemma CompletedOnlyAtEnd(capacity: nat, run: seq<Step>)
    requires Possible(Sessions.Fresh(capacity), run)
    requires var p := After(Sessions.Fresh(capacity), run); !p.crashed && p.status.Completed?
    ensures Read(EndOfData) in run
  {
    EverySessionIsSafe(capacity, []);
    if Read(EndOfData) !in run {
      RunStaysUnfinished(Sessions.Fresh(capacity), run);
    }
  }

  /** The end of the data was read, no command is under way, and Completed is or will be written. */
  predicate Ending(p: Session) {
    && p.controller.Free? && p.running
    && (p.replay.Finishing? || p.replay.Completing? || (Settled(p.replay) && p.status.Completed?))
  }

  lemma ReplayStaysEnding(p: Session, s: Step)
    requires Ending(p) && OfReplay(s) && ReplayCan(p, s)
    ensures Ending(ReplayDo(p, s))
  {
  }

  lemma PipeStaysEnding(p: Session, s: P.Step<Measurement>)
    requires Ending(p) && PipeAllowed(p, s) && P.Can(p.pipe, s)
    ensures Ending(Piped(p, s)) || p.replay.InPush?
  {
    hide P.Do, P.Can;
  }

  lemma StaysEnding(p: Session, s: Step)
    requires Ending(p) && Can(p, s) && !s.Begin?
    ensures Ending(Do(p, s))
  {
    FreeSteps(p, s);
    hide Can, Do, ReplayDo, ReplayCan, Piped, PipeAllowed, P.Can;
    if OfReplay(s) {
      ReplayStaysEnding(p, s);
    } else if s.Pipe? {
      PipeStaysEnding(p, s.step);
    }
  }

  lemma {:induction false} EndingRun(p: Session, run: seq<Step>)
    requires Ending(p) && Possible(p, run) && NoCommand(run)
    ensures Ending(After(p, run))
    decreases run
  {
    hide Ending, Can, Do;
    if run != [] {
      assert run[0] in run;
      StaysEnding(p, run[0]);
      assert forall s | s in run[1..] :: s in run;
      EndingRun(Do(p, run[0]), run[1..]);
    }
  }

  /**
   * A replay thread that reads the end of the data while no command is under way completes the session: some
   * continuation without a command does, and whenever one has let the thread exit, the status is Completed.
   */
  lemma EndOfDataCompletes(p: Session) returns (run: seq<Step>)
    requires !p.crashed && p.controller.Free? && p.running && p.replay.Reading?
    ensures Can(p, Read(EndOfData))
    ensures Possible(p, run) && NoCommand(run) && After(p, run).status.Completed?
    ensures forall more | Possible(Do(p, Read(EndOfData)), more) && NoCommand(more) ::
              After(Do(p, Read(EndOfData)), more).replay.Exited? ==>
                After(Do(p, Read(EndOfData)), more).status.Completed?
  {
    NoSteps(p);
    var q;
    run, q := NextReplay(p, [], p, Read(EndOfData));
    ReadStep(p);
    run, q := NextReplay(p, run, q, Finish);
    run, q := NextReplay(p, run, q, Complete);
    PossibleIf(p, run, q);
    var ended := Do(p, Read(EndOfData));
    hide Do, Can, Possible, After;
    forall more | Possible(ended, more) && NoCommand(more)
      ensures After(ended, more).replay.Exited? ==> After(ended, more).status.Completed?
    {
      EndingRun(ended, more);
    }
  }

  lemma ReadStep(p: Session)
    requires !p.crashed && p.controller.Free? && p.running && p.replay.Reading?
    ensures Can(p, Read(EndOfData)) && Ending(Do(p, Read(EndOfData)))
  {
  }
}
