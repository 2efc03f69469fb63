/**
 * Commands of a replay session that come after another one: which of them return, and what a session that was stopped
 * and is started again still delivers.
 */
module SessionRestarts {
  import P = EstimatorPipelines
  import Q = MeasurementQueues
  import opened Sessions

  // ---- Runs, built step by step ------------------------------------------------------------

  /** The run leads from p to q. */
  ghost predicate Ran(p: Session, run: seq<Step>, q: Session) { Possible(p, run) && After(p, run) == q }

  lemma {:induction false} RunAppend(p: Session, run: seq<Step>, s: Step)
    requires Possible(p, run) && Can(After(p, run), s)
    ensures Possible(p, run + [s]) && After(p, run + [s]) == Do(After(p, run), s)
    decreases run
  {
    hide Can, Do;
    if run == [] {
      assert (run + [s])[1..] == [] && (run + [s])[0] == s;
    } else {
      assert (run + [s])[1..] == run[1..] + [s];
      RunAppend(Do(p, run[0]), run[1..], s);
    }
  }

  lemma PossibleIf(p: Session, run: seq<Step>, q: Session)
    requires Ran(p, run, q)
    ensures Possible(p, run)
  {
  }

  /** A step that closes something does what CloseDo says. */
  lemma IsClose(p: Session, s: Step)
    requires Closes(s)
    ensures Can(p, s) <==> !p.crashed && CloseCan(p, s)
    ensures Can(p, s) ==> Do(p, s) == CloseDo(p, s)
  {
    hide StartCan, CloseCan, ReplayCan, ObserveCan, PauseCan, StopCan, StartDo, CloseDo, ReplayDo, ObserveDo, PauseDo;
    hide StopDo;
  }

  lemma NoSteps(p: Session)
    ensures Ran(p, [], p)
  {
  }

  lemma NextStart(p: Session, run: seq<Step>, q: Session, s: Step) returns (longer: seq<Step>, r: Session)
    requires Ran(p, run, q) && !q.crashed && Starts(s) && StartCan(q, s)
    ensures r == StartDo(q, s) && longer == run + [s] && Ran(p, longer, r)
  {
    hide StartCan, CloseCan, ReplayCan, ObserveCan, PauseCan, StopCan, PipeAllowed, ServerCan, CallerReady, Broadcasts;
    hide StartDo, CloseDo, ReplayDo, ObserveDo, PauseDo, StopDo, Begun, AnnouncedBy, Piped, ServerDone;
    longer, r := run + [s], Do(q, s);
    RunAppend(p, run, s);
  }

  lemma NextClose(p: Session, run: seq<Step>, q: Session, s: Step) returns (longer: seq<Step>, r: Session)
    requires Ran(p, run, q) && !q.crashed && Closes(s) && CloseCan(q, s)
    ensures r == CloseDo(q, s) && longer == run + [s] && Ran(p, longer, r)
  {
    IsClose(q, s);
    hide Can, Do, CloseCan, CloseDo;
    longer, r := run + [s], Do(q, s);
    RunAppend(p, run, s);
  }

  lemma NextReplay(p: Session, run: seq<Step>, q: Session, s: Step) returns (longer: seq<Step>, r: Session)
    requires Ran(p, run, q) && !q.crashed && OfReplay(s) && ReplayCan(q, s)
    ensures r == ReplayDo(q, s) && longer == run + [s] && Ran(p, longer, r)
  {
    hide StartCan, CloseCan, ReplayCan, ObserveCan, PauseCan, StopCan, PipeAllowed, ServerCan, CallerReady, Broadcasts;
    hide StartDo, CloseDo, ReplayDo, ObserveDo, PauseDo, StopDo, Begun, AnnouncedBy, Piped, ServerDone;
    longer, r := run + [s], Do(q, s);
    RunAppend(p, run, s);
  }

  lemma NextObserve(p: Session, run: seq<Step>, q: Session, s: Step) returns (longer: seq<Step>, r: Session)
    requires Ran(p, run, q) && !q.crashed && OfWorker(s) && ObserveCan(q, s)
    ensures r == ObserveDo(q, s) && longer == run + [s] && Ran(p, longer, r)
  {
    hide StartCan, CloseCan, ReplayCan, ObserveCan, PauseCan, StopCan, PipeAllowed, ServerCan, CallerReady, Broadcasts;
    hide StartDo, CloseDo, ReplayDo, ObserveDo, PauseDo, StopDo, Begun, AnnouncedBy, Piped, ServerDone;
    longer, r := run + [s], Do(q, s);
    RunAppend(p, run, s);
  }

  lemma NextStop(p: Session, run: seq<Step>, q: Session, s: Step) returns (longer: seq<Step>, r: Session)
    requires Ran(p, run, q) && !q.crashed && Stops(s) && StopCan(q, s)
    ensures r == StopDo(q, s) && longer == run + [s] && Ran(p, longer, r)
  {
    hide StartCan, CloseCan, ReplayCan, ObserveCan, PauseCan, StopCan, PipeAllowed, ServerCan, CallerReady, Broadcasts;
    hide StartDo, CloseDo, ReplayDo, ObserveDo, PauseDo, StopDo, Begun, AnnouncedBy, Piped, ServerDone;
    longer, r := run + [s], Do(q, s);
    RunAppend(p, run, s);
  }

  lemma NextPipe(p: Session, run: seq<Step>, q: Session, s: P.Step<Measurement>) returns (longer: seq<Step>, r: Session)
    requires Ran(p, run, q) && !q.crashed && PipeAllowed(q, s) && P.Can(q.pipe, s)
    ensures r == Piped(q, s) && longer == run + [Pipe(s)] && Ran(p, longer, r)
  {
    hide StartCan, CloseCan, ReplayCan, ObserveCan, PauseCan, StopCan, PipeAllowed, ServerCan, CallerReady, Broadcasts;
    hide StartDo, CloseDo, ReplayDo, ObserveDo, PauseDo, StopDo, Begun, AnnouncedBy, Piped, ServerDone;
    longer, r := run + [Pipe(s)], Do(q, Pipe(s));
    RunAppend(p, run, Pipe(s));
  }

  lemma NextBegin(p: Session, run: seq<Step>, q: Session, caller: Caller, command: Command)
    returns (longer: seq<Step>, r: Session)
    requires Ran(p, run, q) && !q.crashed && q.controller.Free? && CallerReady(q, caller)
    ensures r == Begun(q, caller, command) && longer == run + [Begin(caller, command)] && Ran(p, longer, r)
  {
    hide StartCan, CloseCan, ReplayCan, ObserveCan, PauseCan, StopCan, PipeAllowed, ServerCan, CallerReady, Broadcasts;
    hide StartDo, CloseDo, ReplayDo, ObserveDo, PauseDo, StopDo, Begun, AnnouncedBy, Piped, ServerDone;
    longer, r := run + [Begin(caller, command)], Do(q, Begin(caller, command));
    RunAppend(p, run, Begin(caller, command));
  }

  lemma NextAnnounce(p: Session, run: seq<Step>, q: Session) returns (longer: seq<Step>, r: Session)
    requires Ran(p, run, q) && !q.crashed && Broadcasts(q.controller) && !q.ipc.Holds()
    ensures r == AnnouncedBy(q) && longer == run + [Announce] && Ran(p, longer, r)
  {
    hide StartCan, CloseCan, ReplayCan, ObserveCan, PauseCan, StopCan, PipeAllowed, ServerCan, CallerReady, Broadcasts;
    hide StartDo, CloseDo, ReplayDo, ObserveDo, PauseDo, StopDo, Begun, AnnouncedBy, Piped, ServerDone;
    longer, r := run + [Announce], Do(q, Announce);
    RunAppend(p, run, Announce);
  }

  lemma NextIpc(p: Session, run: seq<Step>, q: Session, s: ServerStep) returns (longer: seq<Step>, r: Session)
    requires Ran(p, run, q) && !q.crashed && ServerCan(q.ipc, s)
    ensures r == q.(ipc := ServerDone(q.ipc, s)) && longer == run + [Ipc(s)] && Ran(p, longer, r)
  {
    hide StartCan, CloseCan, ReplayCan, ObserveCan, PauseCan, StopCan, PipeAllowed, ServerCan, CallerReady, Broadcasts;
    hide StartDo, CloseDo, ReplayDo, ObserveDo, PauseDo, StopDo, Begun, AnnouncedBy, Piped, ServerDone;
    longer, r := run + [Ipc(s)], Do(q, Ipc(s));
    RunAppend(p, run, Ipc(s));
  }

  lemma NextWs(p: Session, run: seq<Step>, q: Session, s: ServerStep) returns (longer: seq<Step>, r: Session)
    requires Ran(p, run, q) && !q.crashed && ServerCan(q.ws, s) && !s.Query?
    ensures r == q.(ws := ServerDone(q.ws, s)) && longer == run + [Ws(s)] && Ran(p, longer, r)
  {
    hide StartCan, CloseCan, ReplayCan, ObserveCan, PauseCan, StopCan, PipeAllowed, ServerCan, CallerReady, Broadcasts;
    hide StartDo, CloseDo, ReplayDo, ObserveDo, PauseDo, StopDo, Begun, AnnouncedBy, Piped, ServerDone;
    longer, r := run + [Ws(s)], Do(q, Ws(s));
    RunAppend(p, run, Ws(s));
  }

  // ---- Starting ----------------------------------------------------------------------------

  /** The statuses from which Start has something to do. */
  predicate Startable(p: Session) { p.status.Configured? || p.status.Idle? || p.status.Completed? }

  /** The replay thread was joined, no server is down without being joined, and no thread keeps the client mutex. */
  predicate StartsWell(p: Session, caller: Caller) {
    !p.joinable && !p.ws.Wedged() && !caller.IpcThread? && !p.ipc.thread.Stuck?
  }

  /** The pipeline after Start created its worker. */
  function Piping(q: P.Pipeline<Measurement>): P.Pipeline<Measurement> { q.(running := true, worker := P.Ready) }

  function Unheld(v: Server): Server { if v.thread.Serving? then v.(thread := Head) else v }

  function Asked(p: Session, caller: Caller): Server { if caller.WsThread? then Called(p.ws) else p.ws }

  /** The session when Start returns, with these servers started. */
  function Playing(p: Session, caller: Caller, ipc: bool, ws: bool): Session {
    p.(status := Running, running := true, replay := Replay.Testing, joinable := true, pipe := Piping(p.pipe),
       caller := caller, ipc := Unheld(Launched(p.ipc, ipc)), ws := Launched(p.ws, ws))
  }

  /** Before the pipeline is started. */
  function Served(p: Session, caller: Caller, ipc: bool, ws: bool): Session {
    p.(controller := StartPipe, caller := caller, ipc := Launched(p.ipc, ipc), ws := Launched(Asked(p, caller), ws))
  }

  /** Further steps, none of which replaces the pipeline or fails to open the data set. */
  predicate Adds(before: seq<Step>, run: seq<Step>) {
    before <= run && forall s | s in run :: s in before || (s != Swap && s != OpenDataset(false))
  }

  lemma OpeningRun(o: Session, before: seq<Step>, p: Session, caller: Caller, ipc: bool, ws: bool)
    returns (run: seq<Step>)
    requires Ran(o, before, Begun(p, caller, Command.Start))
    requires Sound(p) && !p.crashed && p.controller.Free? && CallerReady(p, caller)
    requires Startable(p) && StartsWell(p, caller)
    ensures Ran(o, run, Served(p, caller, ipc, ws))
    ensures Adds(before, run)
  {
    hide Ran, P.Invariant;
    var q := Begun(p, caller, Command.Start);
    run := before;
    run, q := NextStart(o, run, q, OpenDataset(true));
    run, q := NextStart(o, run, q, StartServers(ipc, ws));
  }

  /** What the invariant says of a pipeline at rest. */
  lemma AtRest(p: Session)
    requires Sound(p) && p.controller.Free? && !p.running
    ensures Gone(p.replay) && !p.joinable && p.owner.Nobody?
    ensures p.pipe.producers == [P.Away] && p.pipe.controller.Free? && !p.pipe.running && p.pipe.owner.Nobody?
    ensures p.pipe.worker.Unborn? || p.pipe.worker.Exited?
    ensures p.pipe.contents.queue == [] && p.pipe.delivered == p.pipe.accepted && p.observer.Fusing?
    ensures !p.pipe.contents.shutdown ==> p.pipe.worker.Unborn?
    ensures !p.ipc.thread.Commanding? && !p.ws.thread.Commanding?
  {
    P.RestingPipe(p.pipe);
  }

  /** After the pipeline was started. */
  function WithPipe(p: Session, caller: Caller, ipc: bool, ws: bool): Session {
    Served(p, caller, ipc, ws).(controller := StartMarking, pipe := Piping(p.pipe))
  }

  lemma PipingRun(o: Session, before: seq<Step>, p: Session, caller: Caller, ipc: bool, ws: bool)
    returns (run: seq<Step>)
    requires Ran(o, before, Begun(p, caller, Command.Start))
    requires Sound(p) && !p.crashed && p.controller.Free? && CallerReady(p, caller)
    requires Startable(p) && StartsWell(p, caller) && !p.running
    ensures Ran(o, run, WithPipe(p, caller, ipc, ws))
    ensures Adds(before, run)
  {
    run := OpeningRun(o, before, p, caller, ipc, ws);
    AtRest(p);
    hide Ran, P.Invariant, Sound, Launched, Asked;
    var q := Served(p, caller, ipc, ws);
    run, q := NextPipe(o, run, q, P.Start);
    run, q := NextPipe(o, run, q, P.Spawn);
  }

  /** Before the session sets its running flag. */
  function Announced(p: Session, caller: Caller, ipc: bool, ws: bool): Session {
    WithPipe(p, caller, ipc, ws).(status := Running, controller := StartRunning, ipc := Unheld(Launched(p.ipc, ipc)))
  }

  /** A server thread that is not inside a command gives up the client mutex. */
  lemma FreeClients(o: Session, run: seq<Step>, q: Session) returns (longer: seq<Step>, r: Session)
    requires Ran(o, run, q) && !q.crashed && !q.ipc.InCommand()
    ensures r == q.(ipc := Unheld(q.ipc)) && !r.ipc.Holds() && Ran(o, longer, r) && Adds(run, longer)
  {
    hide Ran;
    longer, r := run, q;
    if q.ipc.Holds() {
      longer, r := NextIpc(o, run, q, Leave);
    }
  }

  lemma AnnouncingRun(o: Session, before: seq<Step>, p: Session, caller: Caller, ipc: bool, ws: bool)
    returns (run: seq<Step>)
    requires Ran(o, before, Begun(p, caller, Command.Start))
    requires Sound(p) && !p.crashed && p.controller.Free? && CallerReady(p, caller)
    requires Startable(p) && StartsWell(p, caller) && !p.running
    ensures Ran(o, run, Announced(p, caller, ipc, ws))
    ensures Adds(before, run)
  {
    run := PipingRun(o, before, p, caller, ipc, ws);
    AtRest(p);
    hide Ran, Sound, Begun, CallerReady, Startable, Piping, Asked;
    var q := WithPipe(p, caller, ipc, ws);
    run, q := NextStart(o, run, q, MarkStarted);
    run, q := FreeClients(o, run, q);
    run, q := NextAnnounce(o, run, q);
  }

  lemma StartRun(o: Session, before: seq<Step>, p: Session, caller: Caller, ipc: bool, ws: bool)
    returns (run: seq<Step>)
    requires Ran(o, before, Begun(p, caller, Command.Start))
    requires Sound(p) && !p.crashed && p.controller.Free? && CallerReady(p, caller)
    requires Startable(p) && StartsWell(p, caller)
    ensures Ran(o, run, Playing(p, caller, ipc, ws))
    ensures Adds(before, run)
  {
    assert !p.running;
    run := AnnouncingRun(o, before, p, caller, ipc, ws);
    hide Ran, P.Invariant, Piping;
    var q := Announced(p, caller, ipc, ws);
    run, q := NextStart(o, run, q, SetRunning);
    run, q := NextStart(o, run, q, Spawn);
    assert q == Playing(p, caller, ipc, ws);
  }

  // ---- When Start returns ------------------------------------------------------------------

  /** A Start is under way that ends the process or waits for ever. */
  predicate Doomed(p: Session) {
    && (Opening(p.controller) || Launching(p.controller))
    && (p.controller.StartRunning? || p.controller.StartSpawning? ==> p.joinable)
    && (p.joinable || p.ws.Wedged() || p.caller.IpcThread? || p.ipc.thread.Stuck?)
  }

  lemma StartStepDoomed(p: Session, s: Step)
    requires ServersMatch(p) && Doomed(p) && Starts(s) && StartCan(p, s) && s != OpenDataset(false)
    ensures StartDo(p, s).crashed || Doomed(StartDo(p, s))
  {
  }

  lemma PipeStepDoomed(p: Session, s: P.Step<Measurement>)
    requires Doomed(p) && PipeAllowed(p, s) && P.Can(p.pipe, s)
    ensures Doomed(Piped(p, s))
  {
    hide P.Do, P.Can;
  }

  lemma AnnounceDoomed(p: Session)
    requires ServersMatch(p) && Doomed(p) && Broadcasts(p.controller) && !p.ipc.Holds()
    ensures Doomed(AnnouncedBy(p))
  {
  }

  lemma OnlyStartingSteps(p: Session, s: Step)
    requires Can(p, s) && (Opening(p.controller) || Launching(p.controller))
    ensures Starts(s) || OfReplay(s) || OfWorker(s) || s.Announce? || s.Pipe? || s.Ipc? || s.Ws?
  {
    hide ReplayCan, ObserveCan, StartCan, PipeAllowed, ServerCan, CallerReady;
  }

  lemma OthersKeepDoomed(p: Session, s: Step)
    requires Doomed(p) && Can(p, s) && (OfReplay(s) || OfWorker(s) || s.Ipc? || s.Ws?)
    ensures Doomed(Do(p, s))
  {
    hide StartDo, StartCan, PauseDo, PauseCan, StopDo, StopCan, CloseDo, CloseCan, Begun, Piped, PipeAllowed;
    hide AnnouncedBy, Broadcasts, CallerReady;
  }

  lemma DoomedStays(p: Session, s: Step)
    requires ServersMatch(p) && Doomed(p) && Can(p, s) && s != OpenDataset(false)
    ensures Do(p, s).crashed || Doomed(Do(p, s))
  {
    OnlyStartingSteps(p, s);
    hide StartDo, StartCan, ReplayDo, ReplayCan, ObserveDo, ObserveCan, PauseDo, PauseCan, StopDo, StopCan, CloseDo;
    hide CloseCan, Begun, Piped, PipeAllowed, AnnouncedBy, Broadcasts, CallerReady, ServerCan, ServerDone;
    hide ServersMatch, Doomed;
    if Starts(s) {
      StartStepDoomed(p, s);
    } else if s.Pipe? {
      PipeStepDoomed(p, s.step);
    } else if s.Announce? {
      AnnounceDoomed(p);
    } else {
      OthersKeepDoomed(p, s);
    }
  }

  lemma {:induction false} DoomedNeverReturns(p: Session, run: seq<Step>)
    requires Invariant(p) && (p.crashed || Doomed(p)) && Possible(p, run) && OpenDataset(false) !in run
    ensures After(p, run).crashed || Doomed(After(p, run))
    decreases run
  {
    if run != [] {
      assert Sound(p) && !p.crashed && run[0] in run;
      DoomedStays(p, run[0]);
      StepKeepsInvariant(p, run[0]);
      hide Do, Can, Sound, Doomed;
      DoomedNeverReturns(Do(p, run[0]), run[1..]);
    }
  }

  /**
   * A Start that finds the data set can return exactly when the replay thread was joined, the WebSocket server is not
   * left to be joined, the caller is not the server thread of the local socket and that thread is not stuck. After
   * Completed it never can: there is a replay thread to join, or a server that cannot be joined.
   */
  lemma StartReturnsExactlyWhenJoined(p: Session, caller: Caller)
    requires Sound(p) && !p.crashed && p.controller.Free? && CallerReady(p, caller) && Startable(p)
    ensures var q := Begun(p, caller, Command.Start);
            (exists run :: Possible(q, run) && OpenDataset(false) !in run && After(q, run).controller.Free?
                           && !After(q, run).crashed)
            <==> StartsWell(p, caller)
    ensures p.status.Completed? ==> !StartsWell(p, caller)
  {
    var q := Begun(p, caller, Command.Start);
    BeginKeepsInvariant(p, caller, Command.Start);
    if StartsWell(p, caller) {
      NoSteps(q);
      var run := StartRun(q, [], p, caller, false, false);
      assert OpenDataset(false) !in run;
    } else {
      forall run | Possible(q, run) && OpenDataset(false) !in run
        ensures After(q, run).crashed || !After(q, run).controller.Free?
      {
        DoomedNeverReturns(q, run);
      }
    }
  }

  // ---- What a session that is started again delivers ---------------------------------------

  /** A Stop left this behind: Idle, the replay thread joined, the servers down. */
  predicate Stopped(p: Session) {
    && !p.crashed && p.status.Idle? && p.controller.Free? && !p.running && !p.paused
    && !p.ipc.joinable && !p.ws.joinable
  }

  lemma ClosingKeepsPipe(p: Session, s: Step)
    requires Closes(s) && CloseCan(p, s) && !s.Swap?
    ensures CloseDo(p, s).pipe == p.pipe
  {
  }

  lemma StartingKeepsPipe(p: Session, s: Step)
    requires Starts(s) && StartCan(p, s)
    ensures StartDo(p, s).pipe == p.pipe
  {
  }

  lemma OthersKeepPipe(p: Session, s: Step)
    requires Can(p, s) && !s.Pipe? && !Closes(s) && !Starts(s)
    ensures Do(p, s).pipe == p.pipe
  {
    hide StartCan, ReplayCan, ObserveCan, PauseCan, StopCan, CloseCan, CallerReady, Broadcasts, ServerCan, PipeAllowed;
    hide StartDo, CloseDo, Piped, ServerDone;
  }

  lemma OnlyPipeStepsMoveIt(p: Session, s: Step)
    requires Can(p, s) && !s.Pipe? && !s.Swap?
    ensures Do(p, s).pipe == p.pipe
  {
    hide StartCan, ReplayCan, ObserveCan, PauseCan, StopCan, CloseCan, CallerReady, Broadcasts, ServerCan, PipeAllowed;
    hide StartDo, ReplayDo, ObserveDo, PauseDo, StopDo, CloseDo, Begun, AnnouncedBy, Piped, ServerDone;
    if Closes(s) {
      ClosingKeepsPipe(p, s);
    } else if Starts(s) {
      StartingKeepsPipe(p, s);
    } else {
      OthersKeepPipe(p, s);
    }
  }

  /** Nothing can be accepted any more, and everything accepted was delivered. */
  ghost predicate Drained(q: P.Pipeline<Measurement>) {
    P.Invariant(q) && !P.Open(q) && q.delivered == q.accepted
  }

  lemma DrainedStays(q: P.Pipeline<Measurement>, s: P.Step<Measurement>)
    requires Drained(q) && P.Can(q, s)
    ensures Drained(P.Do(q, s)) && !s.Deliver?
  {
    P.ClosedStaysClosed(q, s);
    P.StepKeepsInvariant(q, s);
    assert !s.Deliver?;
    hide P.Open, P.Bounded, P.Exclusive, P.NoLostWakeUp, P.Orderly;
  }

  lemma StepKeepsDrained(p: Session, s: Step)
    requires Drained(p.pipe) && Can(p, s) && !s.Swap?
    ensures Drained(Do(p, s).pipe) && s != Pipe(P.Deliver)
  {
    hide Drained;
    if s.Pipe? {
      hide P.Do, P.Can;
      DrainedStays(p.pipe, s.step);
      assert Do(p, s).pipe == P.Do(p.pipe, s.step);
    } else {
      OnlyPipeStepsMoveIt(p, s);
    }
  }

  /** From a drained pipeline nothing is delivered before the pipeline is replaced. */
  lemma {:induction false} NoDeliveryBeforeSwap(p: Session, run: seq<Step>)
    requires Drained(p.pipe) && Possible(p, run) && Swap !in run
    ensures Pipe(P.Deliver) !in run
    decreases run
  {
    hide Do, Can, Drained;
    if run != [] {
      assert run[0] in run;
      StepKeepsDrained(p, run[0]);
      NoDeliveryBeforeSwap(Do(p, run[0]), run[1..]);
      assert run == [run[0]] + run[1..];
    }
  }

  /** The session Reconfigure makes of a stopped one. */
  function Renewed(p: Session, capacity: nat): Session {
    p.(status := Configured, controller := Free, caller := Outside, pipe := P.Initial(capacity, 1), ipc := NoServer,
       ws := NoServer)
  }

  lemma ReconfigureRun(p: Session, capacity: nat) returns (run: seq<Step>)
    requires Sound(p) && Stopped(p)
    ensures Ran(p, run, Renewed(p, capacity)) && Swap in run && Sound(Renewed(p, capacity))
  {
    AtRest(p);
    NoSteps(p);
    NewPipeIsSound(capacity);
    hide Ran, P.Invariant, P.Initial;
    var q := p;
    run := [];
    run, q := NextBegin(p, run, q, Outside, Command.Reconfigure(capacity));
    run, q := NextPipe(p, run, q, P.Stop);
    run, q := NextClose(p, run, q, Swap);
    run, q := NextClose(p, run, q, CloseIpc);
    run, q := NextClose(p, run, q, CloseWs);
    run, q := NextClose(p, run, q, MarkConfigured);
  }

  /** A session whose replay thread is at the head of its loop, with a pipeline at rest that takes measurements. */
  predicate Playable(p: Session) {
    && !p.crashed && p.running && !p.paused && p.owner.Nobody? && p.replay.Testing? && p.controller.Free?
    && p.pipe.running && p.pipe.capacity > 0 && p.pipe.contents == Q.Contents([], false) && p.pipe.owner.Nobody?
    && p.pipe.producers == [P.Away] && p.pipe.worker.Ready? && p.observer.Fusing?
  }

  lemma ReadingRun(o: Session, before: seq<Step>, p: Session) returns (run: seq<Step>)
    requires Ran(o, before, p) && Playable(p)
    ensures Ran(o, run, p.(replay := Pushing(0))) && Adds(before, run)
  {
    hide Ran;
    var q := p;
    run := before;
    run, q := NextReplay(o, run, q, Test);
    run, q := NextReplay(o, run, q, LockPause);
    run, q := NextReplay(o, run, q, CheckPause);
    run, q := NextReplay(o, run, q, Retest);
    run, q := NextReplay(o, run, q, Read(Ok(0)));
  }

  /** The pipeline after a push. */
  function WithOne(q: P.Pipeline<Measurement>): P.Pipeline<Measurement> {
    q.(contents := Q.Contents([0], false), accepted := q.accepted + [0])
  }

  lemma EnteringRun(o: Session, before: seq<Step>, p: Session) returns (run: seq<Step>)
    requires Ran(o, before, p) && Playable(p)
    ensures Ran(o, run, p.(replay := InPush, pipe := p.pipe.(producers := [P.Inside(0)], owner := P.OneProducer(0))))
    ensures Adds(before, run)
  {
    run := ReadingRun(o, before, p);
    hide Ran;
    var q := p.(replay := Pushing(0));
    run, q := NextPipe(o, run, q, P.Call(0, 0));
    run, q := NextPipe(o, run, q, P.ReadRunning(0));
    run, q := NextPipe(o, run, q, P.LockToPush(0));
  }

  lemma PushingRun(o: Session, before: seq<Step>, p: Session) returns (run: seq<Step>)
    requires Ran(o, before, p) && Playable(p)
    ensures Ran(o, run, p.(pipe := WithOne(p.pipe))) && Adds(before, run)
  {
    run := EnteringRun(o, before, p);
    hide Ran;
    var q := p.(replay := InPush, pipe := p.pipe.(producers := [P.Inside(0)], owner := P.OneProducer(0)));
    run, q := NextPipe(o, run, q, P.Push(0));
    run, q := NextPipe(o, run, q, P.Notify(0));
  }

  lemma PoppingRun(o: Session, before: seq<Step>, p: Session) returns (run: seq<Step>)
    requires Ran(o, before, p) && Playable(p)
    ensures Ran(o, run, p.(pipe := WithOne(p.pipe).(contents := Q.Contents([], false), worker := P.Delivering(0))))
    ensures Adds(before, run)
  {
    run := PushingRun(o, before, p);
    hide Ran;
    var q := p.(pipe := WithOne(p.pipe));
    run, q := NextPipe(o, run, q, P.LockToPop);
    run, q := NextPipe(o, run, q, P.Check);
  }

  lemma DeliveringRun(o: Session, before: seq<Step>, p: Session) returns (run: seq<Step>)
    requires Ran(o, before, p) && Playable(p)
    ensures Possible(o, run) && Adds(before, run) && Pipe(P.Deliver) in run
  {
    run := PoppingRun(o, before, p);
    var q := p.(pipe := WithOne(p.pipe).(contents := Q.Contents([], false), worker := P.Delivering(0)));
    hide Ran, WithOne;
    run, q := NextObserve(o, run, q, Fuse(false));
    run, q := NextPipe(o, run, q, P.Deliver);
    PossibleIf(o, run, q);
  }

  lemma PlayingIsPlayable(p: Session)
    requires Sound(p) && !p.crashed && p.controller.Free? && !p.running && !p.paused
    requires p.pipe.capacity > 0 && !p.pipe.contents.shutdown
    ensures Playable(Playing(p, Outside, false, false))
  {
    AtRest(p);
    hide Sound;
  }

  /** A stopped session that is started again with room in an open pipeline goes on to deliver. */
  lemma RestartRun(o: Session, before: seq<Step>, p: Session) returns (run: seq<Step>)
    requires Ran(o, before, p) && Sound(p) && !p.crashed && p.controller.Free? && !p.running && !p.paused
    requires Startable(p) && StartsWell(p, Outside) && p.pipe.capacity > 0 && !p.pipe.contents.shutdown
    ensures Possible(o, run) && Adds(before, run) && Pipe(P.Deliver) in run
  {
    hide Ran, Sound, Playing, Playable, Begun, Startable, StartsWell;
    var q := Playing(p, Outside, false, false);
    PlayingIsPlayable(p);
    var begun;
    run, begun := NextBegin(o, before, p, Outside, Command.Start);
    run := StartRun(o, run, p, Outside, false, false);
    run := DeliveringRun(o, run, q);
  }

  /**
   * After a complete Stop some continuation delivers a measurement exactly when it replaces the pipeline, or when the
   * pipeline can hold something and was not told to shut down.
   */
  lemma RestartDeliversExactlyWhen(p: Session, reconfigured: bool)
    requires Sound(p) && Stopped(p)
    ensures (exists run :: Possible(p, run) && Pipe(P.Deliver) in run && (Swap in run <==> reconfigured))
            <==> reconfigured || (p.pipe.capacity > 0 && !p.pipe.contents.shutdown)
  {
    AtRest(p);
    if reconfigured {
      var run := ReconfigureRun(p, 1);
      var q := Renewed(p, 1);
      var longer := RestartRun(p, run, q);
      assert Swap in longer;
    } else if p.pipe.capacity > 0 && !p.pipe.contents.shutdown {
      NoSteps(p);
      var run := RestartRun(p, [], p);
      assert Swap !in run;
    } else {
      assert Drained(p.pipe);
      forall run | Possible(p, run) && Swap !in run ensures Pipe(P.Deliver) !in run {
        NoDeliveryBeforeSwap(p, run);
      }
    }
  }

  // ---- A run that starts, stops and starts again -------------------------------------------

  /** Stop has joined the replay thread. */
  function Unreplayed(p: Session): Session {
    p.(running := false, replay := Replay.Exited, joinable := false, caller := Outside,
       controller := StoppingPipe(ToStop))
  }

  lemma WakingRun(o: Session, before: seq<Step>, p: Session) returns (run: seq<Step>)
    requires Ran(o, before, p) && Playable(p)
    ensures Ran(o, run, p.(running := false, caller := Outside, controller := StopJoining)) && Adds(before, run)
  {
    hide Ran;
    var q := p;
    run := before;
    run, q := NextBegin(o, run, q, Outside, Command.Stop);
    run, q := NextStop(o, run, q, LockToStop);
    run, q := NextStop(o, run, q, Release);
    run, q := NextStop(o, run, q, WakeAll);
  }

  lemma JoiningRun(o: Session, before: seq<Step>, p: Session) returns (run: seq<Step>)
    requires Ran(o, before, p) && Playable(p)
    ensures Ran(o, run, Unreplayed(p)) && Adds(before, run)
  {
    run := WakingRun(o, before, p);
    hide Ran;
    var q := p.(running := false, caller := Outside, controller := StopJoining);
    run, q := NextReplay(o, run, q, Test);
    run, q := NextReplay(o, run, q, Finish);
    run, q := NextStop(o, run, q, Join);
  }

  /** The pipeline after its Stop. */
  function ShutDown(q: P.Pipeline<Measurement>): P.Pipeline<Measurement> {
    q.(running := false, contents := Q.Contents([], true), worker := P.Worker.Exited)
  }

  /** Stop waits for the pipeline's worker. */
  function Waiting(p: Session): Session {
    Unreplayed(p).(controller := JoiningPipe(ToStop), pipe := Told(p.pipe))
  }

  /** The pipeline with its worker told to leave. */
  function Told(q: P.Pipeline<Measurement>): P.Pipeline<Measurement> {
    q.(running := false, contents := Q.Contents([], true), controller := P.Controller.Joining)
  }

  lemma ShuttingRun(o: Session, before: seq<Step>, p: Session) returns (run: seq<Step>)
    requires Ran(o, before, p) && Playable(p) && p.pipe.controller.Free?
    ensures Ran(o, run, Waiting(p))
    ensures Adds(before, run)
  {
    run := JoiningRun(o, before, p);
    hide Ran;
    var q := Unreplayed(p);
    run, q := NextPipe(o, run, q, P.Stop);
    run, q := NextPipe(o, run, q, P.LockToShutDown);
    run, q := NextPipe(o, run, q, P.Step.ShutDown);
    run, q := NextPipe(o, run, q, P.WakeAll);
  }

  lemma DrainingRun(o: Session, before: seq<Step>, p: Session) returns (run: seq<Step>)
    requires Ran(o, before, p) && Playable(p) && p.pipe.controller.Free?
    ensures Ran(o, run, Unreplayed(p).(controller := StopAnnouncing, pipe := ShutDown(p.pipe)))
    ensures Adds(before, run)
  {
    run := ShuttingRun(o, before, p);
    hide Ran;
    var q := Waiting(p);
    run, q := NextPipe(o, run, q, P.LockToPop);
    run, q := NextPipe(o, run, q, P.Check);
    run, q := NextPipe(o, run, q, P.Join);
  }

  lemma StopRun(o: Session, before: seq<Step>, p: Session) returns (run: seq<Step>, q: Session)
    requires Ran(o, before, p) && Playable(p) && p.pipe.controller.Free? && p.ipc == p.ws == NoServer
    ensures Ran(o, run, q) && Adds(before, run) && Stopped(q) && q.pipe == ShutDown(p.pipe) && q.ws == NoServer
  {
    run := DrainingRun(o, before, p);
    hide Ran;
    q := Unreplayed(p).(controller := StopAnnouncing, pipe := ShutDown(p.pipe));
    run, q := NextAnnounce(o, run, q);
    run, q := NextClose(o, run, q, CloseIpc);
    run, q := NextClose(o, run, q, CloseWs);
    run, q := NextClose(o, run, q, MarkIdle);
  }

  /**
   * Start, Stop, Start: the session is running and its replay thread is in its loop, and still nothing is delivered
   * until the pipeline is replaced.
   */
  lemma StartStopStart(capacity: nat) returns (run: seq<Step>, p: Session)
    requires capacity > 0
    ensures Ran(Fresh(capacity), run, p) && p.status.Running? && p.running && p.replay.Testing? && p.pipe.worker.Ready?
    ensures forall more :: Possible(p, more) && Swap !in more ==> Pipe(P.Deliver) !in more
  {
    var o := Fresh(capacity);
    EverySessionIsSafe(capacity, []);
    NoSteps(o);
    run, p := NextBegin(o, [], o, Outside, Command.Start);
    run := StartRun(o, run, o, Outside, false, false);
    p := Playing(o, Outside, false, false);
    var q;
    run, q := StopRun(o, run, p);
    EverySessionIsSafe(capacity, run);
    var again;
    again, p := NextBegin(o, run, q, Outside, Command.Start);
    run := StartRun(o, again, q, Outside, false, false);
    p := Playing(q, Outside, false, false);
    EverySessionIsSafe(capacity, run);
    assert Drained(p.pipe);
    forall more | Possible(p, more) && Swap !in more ensures Pipe(P.Deliver) !in more {
      NoDeliveryBeforeSwap(p, more);
    }
  }

  // ---- Commands that server threads run ----------------------------------------------------

  /** The local socket's thread is inside a command and has its client mutex; no announcement of Start lies behind. */
  predicate Caught(p: Session) {
    || p.ipc.thread.Stuck?
    || (p.ipc.thread.Commanding? && !p.controller.Free? && !p.controller.StartRunning? && !p.controller.StartSpawning?)
  }

  lemma StartKeepsCaught(p: Session, s: Step)
    requires Sound(p) && Caught(p) && Starts(s) && StartCan(p, s)
    ensures StartDo(p, s).crashed || Caught(StartDo(p, s))
  {
    hide P.Invariant, PauseMatches, ReplayMatches;
  }

  lemma CloseKeepsCaught(p: Session, s: Step)
    requires IpcMatches(p) && Caught(p) && Closes(s) && CloseCan(p, s)
    ensures CloseDo(p, s).crashed || Caught(CloseDo(p, s))
  {
  }

  lemma PipeKeepsCaught(p: Session, s: P.Step<Measurement>)
    requires Caught(p) && PipeAllowed(p, s) && P.Can(p.pipe, s)
    ensures Caught(Piped(p, s))
  {
    hide P.Do, P.Can;
  }

  lemma PauseKeepsCaught(p: Session, s: Step)
    requires Caught(p) && Pauses(s) && PauseCan(p, s)
    ensures Caught(PauseDo(p, s))
  {
  }

  lemma BeginKeepsCaught(p: Session, caller: Caller, command: Command)
    requires Caught(p) && p.controller.Free? && CallerReady(p, caller)
    ensures Caught(Begun(p, caller, command))
  {
  }

  lemma OthersKeepCaught(p: Session, s: Step)
    requires Caught(p) && Can(p, s) && !Starts(s) && !Closes(s) && !s.Pipe? && !Pauses(s) && !s.Begin?
    ensures Caught(Do(p, s))
  {
    hide StartCan, PauseCan, CloseCan, PipeAllowed, CallerReady, ReplayCan, ObserveCan;
    hide StartDo, PauseDo, CloseDo, Begun, Piped;
  }

  lemma StartingIsCaught(p: Session, s: Step)
    requires Sound(p) && Caught(p) && Can(p, s) && Starts(s)
    ensures Do(p, s).crashed || Caught(Do(p, s))
  {
    hide Sound, Caught;
    hide StartCan, ReplayCan, ObserveCan, PauseCan, StopCan, CloseCan, CallerReady, Broadcasts, ServerCan, PipeAllowed;
    hide StartDo, ReplayDo, ObserveDo, PauseDo, StopDo, CloseDo, Begun, AnnouncedBy, Piped, ServerDone;
    StartKeepsCaught(p, s);
  }

  lemma ClosingIsCaught(p: Session, s: Step)
    requires IpcMatches(p) && Caught(p) && Can(p, s) && Closes(s)
    ensures Do(p, s).crashed || Caught(Do(p, s))
  {
    IsClose(p, s);
    CloseKeepsCaught(p, s);
    hide Do, Can, IpcMatches, Caught, CloseDo;
  }

  lemma CaughtStays(p: Session, s: Step)
    requires Sound(p) && Caught(p) && Can(p, s)
    ensures Do(p, s).crashed || Caught(Do(p, s))
  {
    assert IpcMatches(p);
    hide Sound, Caught, IpcMatches;
    hide StartCan, ReplayCan, ObserveCan, PauseCan, StopCan, CloseCan, CallerReady, Broadcasts, ServerCan, PipeAllowed;
    hide StartDo, ReplayDo, ObserveDo, PauseDo, StopDo, CloseDo, Begun, AnnouncedBy, Piped, ServerDone;
    if Starts(s) {
      StartingIsCaught(p, s);
    } else if Closes(s) {
      ClosingIsCaught(p, s);
    } else if Pauses(s) {
      PauseKeepsCaught(p, s);
    } else if s.Pipe? {
      PipeKeepsCaught(p, s.step);
    } else if s.Begin? {
      BeginKeepsCaught(p, s.caller, s.command);
    } else {
      OthersKeepCaught(p, s);
    }
  }

  lemma {:induction false} CaughtForEver(p: Session, run: seq<Step>)
    requires Invariant(p) && (p.crashed || Caught(p)) && Possible(p, run)
    ensures After(p, run).crashed || Caught(After(p, run))
    decreases run
  {
    if run != [] {
      assert Sound(p) && !p.crashed;
      CaughtStays(p, run[0]);
      StepKeepsInvariant(p, run[0]);
      hide Do, Can, Sound, Caught;
      CaughtForEver(Do(p, run[0]), run[1..]);
    }
  }

  lemma CommandIsCaught(p: Session, s: Step)
    requires Can(p, s) && (s == Ipc(Query) || (s.Begin? && s.caller.IpcThread?)) && Do(p, s).ipc.InCommand()
    ensures Caught(Do(p, s)) && !Do(p, s).crashed
  {
    hide StartCan, ReplayCan, ObserveCan, PauseCan, StopCan, CloseCan, Broadcasts, PipeAllowed;
    hide StartDo, ReplayDo, ObserveDo, PauseDo, StopDo, CloseDo, AnnouncedBy, Piped;
  }

  /** A command on the local socket that gets past its guard never gives the server thread back: it broadcasts. */
  lemma LocalSocketCommandsNeverReturn(p: Session, s: Step, run: seq<Step>)
    requires Sound(p) && Can(p, s) && (s == Ipc(Query) || (s.Begin? && s.caller.IpcThread?))
    requires Do(p, s).ipc.InCommand() && Possible(Do(p, s), run)
    ensures After(Do(p, s), run).crashed || After(Do(p, s), run).ipc.InCommand()
  {
    StepKeepsInvariant(p, s);
    CommandIsCaught(p, s);
    hide Do, Can, Sound, InStop;
    CaughtForEver(Do(p, s), run);
  }

  /** A server thread that is about to read from its clients. */
  function Reading(p: Session, caller: Caller): Session {
    match caller
    case Outside => p
    case IpcThread => p.(ipc := p.ipc.(thread := ServerThread.Serving))
    case WsThread => p.(ws := p.ws.(thread := ServerThread.Serving))
  }

  lemma Serving(o: Session, run: seq<Step>, p: Session, caller: Caller) returns (longer: seq<Step>, q: Session)
    requires Ran(o, run, p) && !p.crashed && p.ipc == p.ws == Server(Head, true, true, true)
    ensures Ran(o, longer, q) && q == Reading(p, caller)
  {
    hide Ran;
    longer, q := run, p;
    match caller
    case Outside =>
    case IpcThread =>
      longer, q := NextIpc(o, longer, q, Loop);
      longer, q := NextIpc(o, longer, q, Serve);
    case WsThread =>
      longer, q := NextWs(o, longer, q, Loop);
      longer, q := NextWs(o, longer, q, Serve);
  }

  /** A running session in which a server thread was told to stop is reachable, and no run sets Idle from it. */
  lemma ServerThreadCannotStop(capacity: nat, caller: Caller) returns (run: seq<Step>, p: Session)
    requires !caller.Outside?
    ensures Ran(Fresh(capacity), run, p) && InStop(p.controller) && p.caller == caller && !p.crashed
    ensures forall more :: Possible(p, more) ==> !Returns(p, more)
  {
    var o := Fresh(capacity);
    EverySessionIsSafe(capacity, []);
    NoSteps(o);
    run, p := NextBegin(o, [], o, Outside, Command.Start);
    run := StartRun(o, run, o, Outside, true, true);
    p := Playing(o, Outside, true, true);
    var q := p;
    run, p := Serving(o, run, q, caller);
    run, p := NextBegin(o, run, p, caller, Command.Stop);
    EverySessionIsSafe(capacity, run);
    StopReturnsExactlyWhenUnentangled(p);
  }
}
