/** Which commands a session takes, what they have done when they return, and which states its clients are sent. */
module SessionCommands {
  import P = EstimatorPipelines
  import opened SessionReplays
  import opened SessionRestarts
  import opened Sessions

  // ---- Which commands are taken ------------------------------------------------------------

  /** What each command asks of the session's state. */
  predicate Takes(p: Session, command: Command) {
    match command
    case Start => p.status.Configured? || p.status.Idle? || p.status.Completed?
    case Pause => p.status.Running?
    case Resume => p.status.Paused?
    case Stop => p.running
    case Reconfigure(_) => !p.status.Running? && !p.status.Paused?
  }

  /**
   * A command is under way exactly when it was taken. A refused one changes nothing, except that a refused configure
   * on the local socket has its thread broadcast under its own mutex, for good.
   */
  lemma CommandIsUnderWayIffTaken(p: Session, caller: Caller, command: Command)
    requires Can(p, Begin(caller, command))
    ensures var q := Do(p, Begin(caller, command));
            && (!q.controller.Free? <==> Takes(p, command))
            && (Takes(p, command) ==> q.caller == caller)
            && (Takes(p, command) && caller.IpcThread? ==> q.ipc.InCommand())
            && (!Takes(p, command) && !(caller.IpcThread? && command.Reconfigure?) ==> q == p)
            && (!Takes(p, command) && caller.IpcThread? && command.Reconfigure? ==> q.ipc.InCommand())
  {
  }

  // ---- What Pause and Resume leave ---------------------------------------------------------

  /** A pause that was taken: before, at and after the writes of flag and status. */
  predicate Pausing(p: Session) {
    || p.controller.PauseLocking? || p.controller.PauseInside?
    || (p.controller.PauseMarking? && p.paused)
    || ((p.controller.PauseAnnouncing? || p.controller.Free?) && p.paused
        && (p.status.Paused? || p.status.Completed?))
  }

  predicate Resuming(p: Session) {
    || p.controller.ResumeLocking? || p.controller.ResumeInside?
    || ((p.controller.ResumeWaking? || p.controller.ResumeMarking?) && !p.paused)
    || ((p.controller.ResumeAnnouncing? || p.controller.Free?) && !p.paused
        && (p.status.Running? || p.status.Completed?))
  }

  lemma PauseStep(p: Session, s: Step)
    requires Pauses(s) && PauseCan(p, s)
    ensures Pausing(p) ==> Pausing(PauseDo(p, s))
    ensures Resuming(p) ==> Resuming(PauseDo(p, s))
  {
  }

  lemma ReplayStep(p: Session, s: Step)
    requires OfReplay(s) && ReplayCan(p, s)
    ensures Pausing(p) ==> Pausing(ReplayDo(p, s))
    ensures Resuming(p) ==> Resuming(ReplayDo(p, s))
  {
  }

  lemma PipeStepLeaves(p: Session, s: P.Step<Measurement>)
    requires (Pausing(p) || Resuming(p)) && PipeAllowed(p, s) && P.Can(p.pipe, s)
    ensures Pausing(p) ==> Pausing(Piped(p, s))
    ensures Resuming(p) ==> Resuming(Piped(p, s))
  {
    hide P.Do, P.Can;
  }

  lemma AnnounceStep(p: Session)
    requires Broadcasts(p.controller)
    ensures Pausing(p) ==> Pausing(AnnouncedBy(p))
    ensures Resuming(p) ==> Resuming(AnnouncedBy(p))
  {
  }

  lemma NoOtherCommand(p: Session, s: Step)
    requires (Pausing(p) || Resuming(p)) && Can(p, s)
    ensures !Starts(s) && !Stops(s) && !Closes(s)
  {
    hide ReplayCan, ObserveCan, PauseCan, PipeAllowed, ServerCan, CallerReady, Broadcasts, P.Can;
  }

  lemma PlainStep(p: Session, s: Step)
    requires Can(p, s) && (OfWorker(s) || s.Ipc? || s.Ws?)
    ensures Pausing(p) ==> Pausing(Do(p, s))
    ensures Resuming(p) ==> Resuming(Do(p, s))
  {
    hide StartCan, PauseCan, StopCan, CloseCan, PipeAllowed, CallerReady, ReplayCan, ObserveCan, ServerCan, Broadcasts;
    hide StartDo, PauseDo, StopDo, CloseDo, Begun, Piped, ReplayDo, ServerDone, AnnouncedBy;
  }

  lemma StepLeaves(p: Session, s: Step)
    requires (Pausing(p) || Resuming(p)) && Can(p, s) && !s.Begin?
    ensures Pausing(p) ==> Pausing(Do(p, s))
    ensures Resuming(p) ==> Resuming(Do(p, s))
  {
    hide Pausing, Resuming, StartDo, ReplayDo, ObserveDo, PauseDo, StopDo, CloseDo, Begun, AnnouncedBy, Piped;
    hide ReplayCan, ObserveCan, StartCan, PauseCan, StopCan, CloseCan, PipeAllowed, ServerCan, CallerReady, Broadcasts;
    hide ServerDone;
    NoOtherCommand(p, s);
    if OfReplay(s) {
      ReplayStep(p, s);
    } else if Pauses(s) {
      PauseStep(p, s);
    } else if s.Announce? {
      AnnounceStep(p);
    } else if s.Pipe? {
      PipeStepLeaves(p, s.step);
    } else {
      PlainStep(p, s);
    }
  }

  lemma {:induction false} RunLeaves(p: Session, run: seq<Step>)
    requires (Pausing(p) || Resuming(p)) && Possible(p, run) && NoCommand(run)
    ensures Pausing(p) ==> Pausing(After(p, run))
    ensures Resuming(p) ==> Resuming(After(p, run))
    decreases run
  {
    hide Pausing, Resuming, Can, Do;
    if run != [] {
      assert run[0] in run;
      StepLeaves(p, run[0]);
      assert forall s | s in run[1..] :: s in run;
      RunLeaves(Do(p, run[0]), run[1..]);
    }
  }

  /**
   * A pause issued while the status is Running, and a resume issued while it is Paused: on every run, whenever they
   * have returned and no other command began, the flag is as they say, and so is the status unless the data ended
   * meanwhile.
   */
  lemma PauseAndResumeTakeEffect(p: Session, caller: Caller, command: Command, run: seq<Step>)
    requires Can(p, Begin(caller, command)) && NoCommand(run)
    requires (command.Pause? && p.status.Running?) || (command.Resume? && p.status.Paused?)
    requires Possible(Do(p, Begin(caller, command)), run)
    requires After(Do(p, Begin(caller, command)), run).controller.Free?
    ensures var q := After(Do(p, Begin(caller, command)), run);
            && q.paused == command.Pause?
            && (q.status == (if command.Pause? then Status.Paused else Status.Running) || q.status.Completed?)
  {
    var q := Do(p, Begin(caller, command));
    assert if command.Pause? then Pausing(q) else Resuming(q);
    hide Do, Can;
    RunLeaves(q, run);
  }

  // ---- What clients are sent ---------------------------------------------------------------

  predicate Fuses(s: Step) { s.Fuse? }

  predicate Notifies(s: Step) { s.Fuse? && s.notify }

  predicate Delivers(s: Step) { s == Pipe(P.Deliver) }

  predicate SendsToClients(s: Step) { s.NotifyClients? }

  predicate SendsToSockets(s: Step) { s.NotifySockets? }

  function Count(run: seq<Step>, f: Step -> bool): nat {
    if run == [] then 0 else (if f(run[0]) then 1 else 0) + Count(run[1..], f)
  }

  /** How many measurements are fused and not delivered, and how many broadcasts of a new state are to come. */
  function Fused(p: Session): nat { if p.observer.Fusing? then 0 else 1 }

  function ClientsToCome(p: Session): nat { if p.observer.ToClients? then 1 else 0 }

  function SocketsToCome(p: Session): nat { if p.observer.ToClients? || p.observer.ToSockets? then 1 else 0 }

  lemma ObserverMoves(p: Session, s: Step)
    requires PipeMatches(p) && Can(p, s)
    ensures var q := Do(p, s);
            && Fused(p) + (if Fuses(s) then 1 else 0) == Fused(q) + (if Delivers(s) then 1 else 0)
            && ClientsToCome(p) + (if Notifies(s) then 1 else 0)
               == ClientsToCome(q) + (if SendsToClients(s) then 1 else 0)
            && SocketsToCome(p) + (if Notifies(s) then 1 else 0)
               == SocketsToCome(q) + (if SendsToSockets(s) then 1 else 0)
  {
    if s.Pipe? {
      PipeMovesObserver(p, s.step);
    } else if OfWorker(s) {
      hide PipeMatches, P.Invariant;
    } else {
      OthersKeepObserver(p, s);
    }
    hide Can, Do, PipeMatches, ObserveCan, PipeAllowed;
  }

  lemma PipeMovesObserver(p: Session, s: P.Step<Measurement>)
    requires Can(p, Pipe(s))
    ensures s.Deliver? ==> p.observer.Done? && Do(p, Pipe(s)).observer.Fusing?
    ensures !s.Deliver? ==> Do(p, Pipe(s)).observer == p.observer
  {
    hide P.Do, P.Can;
  }

  lemma OthersKeepObserver(p: Session, s: Step)
    requires Can(p, s) && !s.Pipe? && !OfWorker(s)
    ensures Do(p, s).observer == p.observer
  {
    hide StartCan, PauseCan, StopCan, CloseCan, PipeAllowed, CallerReady, ReplayCan, ObserveCan, ServerCan, Broadcasts;
    hide StartDo, PauseDo, StopDo, CloseDo, Begun, Piped, ReplayDo, ServerDone, AnnouncedBy, ObserveDo;
    if Starts(s) {
      StartKeepsObserver(p, s);
    } else if Closes(s) {
      CloseKeepsObserver(p, s);
    } else if Pauses(s) || Stops(s) || OfReplay(s) {
      LockStepsKeepObserver(p, s);
    } else if s.Begin? {
      BeginKeepsObserver(p, s.caller, s.command);
    } else if s.Announce? {
      AnnounceKeepsObserver(p);
    }
  }

  lemma StartKeepsObserver(p: Session, s: Step)
    requires Starts(s) && StartCan(p, s)
    ensures StartDo(p, s).observer == p.observer
  {
  }

  lemma CloseKeepsObserver(p: Session, s: Step)
    requires Closes(s) && CloseCan(p, s)
    ensures CloseDo(p, s).observer == p.observer
  {
  }

  lemma LockStepsKeepObserver(p: Session, s: Step)
    ensures Pauses(s) && PauseCan(p, s) ==> PauseDo(p, s).observer == p.observer
    ensures Stops(s) && StopCan(p, s) ==> StopDo(p, s).observer == p.observer
    ensures OfReplay(s) && ReplayCan(p, s) ==> ReplayDo(p, s).observer == p.observer
  {
  }

  lemma BeginKeepsObserver(p: Session, caller: Caller, command: Command)
    ensures Begun(p, caller, command).observer == p.observer
  {
  }

  lemma AnnounceKeepsObserver(p: Session)
    ensures AnnouncedBy(p).observer == p.observer
  {
  }

  ghost predicate Balanced(p: Session, run: seq<Step>, q: Session) {
    && Fused(p) + Count(run, Fuses) == Fused(q) + Count(run, Delivers)
    && ClientsToCome(p) + Count(run, Notifies) == ClientsToCome(q) + Count(run, SendsToClients)
    && SocketsToCome(p) + Count(run, Notifies) == SocketsToCome(q) + Count(run, SendsToSockets)
  }

  lemma {:induction false} RunIsBalanced(p: Session, run: seq<Step>)
    requires Invariant(p) && Possible(p, run)
    ensures Balanced(p, run, After(p, run))
    decreases run
  {
    if run != [] {
      StepKeepsInvariant(p, run[0]);
      assert Sound(p);
      ObserverMoves(p, run[0]);
      hide Invariant, Sound, Can, Do, Fused, ClientsToCome, SocketsToCome, Fuses, Notifies, Delivers, SendsToClients;
      hide SendsToSockets;
      RunIsBalanced(Do(p, run[0]), run[1..]);
    }
  }

  /**
   * On every run from a freshly built session: each measurement delivered was fused once, and each new state was sent
   * to the local socket's clients and to the WebSocket's, but for the one in hand.
   */
  lemma EveryStateIsSent(capacity: nat, run: seq<Step>)
    requires Possible(Fresh(capacity), run)
    ensures var q := After(Fresh(capacity), run);
            && Count(run, Fuses) == Count(run, Delivers) + (if q.observer.Fusing? then 0 else 1)
            && Count(run, Notifies)
               == Count(run, SendsToClients) + (if q.observer.ToClients? then 1 else 0)
            && Count(run, Notifies) == Count(run, SendsToSockets)
                                       + (if q.observer.ToClients? || q.observer.ToSockets? then 1 else 0)
  {
    EverySessionIsSafe(capacity, []);
    RunIsBalanced(Fresh(capacity), run);
    hide Possible, After;
  }

  // ---- When a reconfiguration ends the process ---------------------------------------------

  /** Dropping the local socket's server while the replay thread announces its end crashes in a Reconfigure only. */
  lemma ServerGoneUnderAnnouncement(p: Session, s: Step)
    requires Sound(p) && Can(p, s) && (s.CloseIpc? || s.JoinIpc?) && Do(p, s).ipc == NoServer
    ensures Do(p, s).crashed <==> For(p.controller, false) && p.replay.Announcing?
  {
    IsClose(p, s);
    assert IpcMatches(p);
    hide Can, Do, Sound;
    ServerGone(p, s);
  }

  lemma ServerGone(p: Session, s: Step)
    requires IpcMatches(p) && !p.crashed && (s.CloseIpc? || s.JoinIpc?) && CloseCan(p, s)
    requires CloseDo(p, s).ipc == NoServer
    ensures CloseDo(p, s).crashed <==> For(p.controller, false) && p.replay.Announcing?
  {
  }

  // ---- The client mutexes ------------------------------------------------------------------

  /** Steps that broadcast on the local socket, or clear its clients, and those of the WebSocket. */
  predicate OnClients(s: Step) { s.Announce? || s.NotifyClients? || s.AnnounceCompleted? || s.ClearIpc? }

  predicate OnSockets(s: Step) { s.NotifySockets? || s.ClearWs? }

  /** No thread is on a server's clients while the server's own thread has their mutex. */
  lemma ClientsAreExclusive(p: Session, s: Step)
    requires Can(p, s)
    ensures OnClients(s) ==> !p.ipc.Holds()
    ensures OnSockets(s) ==> !p.ws.Holds()
  {
  }

  /**
   * The WebSocket's thread that is to join itself goes on at once: a Stop returns without having written a status, a
   * Reconfigure ends the process. Any other caller waits for the thread to end.
   */
  lemma JoiningItself(p: Session)
    requires !p.crashed && p.controller.WsJoining?
    ensures p.caller.WsThread? ==> Can(p, JoinWs)
    ensures !p.caller.WsThread? ==> (Can(p, JoinWs) <==> p.ws.thread.Down?)
    ensures p.caller.WsThread? && p.controller.purpose.ToStop? ==>
              Do(p, JoinWs).controller.Free? && Do(p, JoinWs).status == p.status && !Do(p, JoinWs).crashed
    ensures p.caller.WsThread? && p.controller.purpose.ToReconfigure? ==> Do(p, JoinWs).crashed
  {
  }
}
