/**
 * A replay session as an interleaving of threads: the caller of one lifecycle command at a time, the replay thread
 * that may sleep while paused, the pipeline with its worker (every step of EstimatorPipelines is a step here), and the
 * two server threads, either of which may itself be the caller. A critical section inside which a thread waits for
 * nothing else is one step.
 */
module Sessions {
  import P = EstimatorPipelines

  type Measurement = nat

  datatype Status = Configured | Running | Paused | Completed | Idle | Error

  /** Who issues the command: a thread of its own, or a server thread from within its command handler. */
  datatype Caller = Outside | IpcThread | WsThread

  datatype Command = Start | Pause | Resume | Stop | Reconfigure(capacity: nat)

  datatype Replay =
    | Unborn
    | Testing          // head of the loop
    | Locking          // before taking the pause lock
    | Checking         // holds the pause lock
    | Asleep           // gave up the lock to wait
    | Woken            // must take the lock again
    | Retesting        // after the pause
    | Reading
    | Pushing(m: Measurement)
    | InPush           // inside the pipeline's Push
    | Finishing        // after the loop
    | Completing       // found the running flag set; before writing Completed
    | Announcing       // before broadcasting completed
    | Exited

  /** Stop and Reconfigure take the pipeline and the servers down in the same way. */
  datatype Purpose = ToStop | ToReconfigure(capacity: nat)

  datatype Controller =
    | Free
    | StartOpening | StartFailing | StartServing | StartPipe | StartSpawningPipe | StartMarking | StartAnnouncing
    | StartRunning | StartSpawning
    | PauseLocking | PauseInside | PauseMarking | PauseAnnouncing
    | ResumeLocking | ResumeInside | ResumeWaking | ResumeMarking | ResumeAnnouncing
    | StopLocking | StopInside | StopWaking | StopJoining
    | StoppingPipe(purpose: Purpose) | JoiningPipe(purpose: Purpose)
    | StopAnnouncing | Swapping(capacity: nat)
    | IpcDown(purpose: Purpose) | IpcClearing(purpose: Purpose) | IpcJoining(purpose: Purpose)
    | WsDown(purpose: Purpose) | WsJoining(purpose: Purpose) | WsClearing(purpose: Purpose)
    | StopMarking | ReconfigureMarking

  /** The owner of the pause lock. */
  datatype Owner = Nobody | TheReplay | TheController

  datatype ReadResult = Ok(m: Measurement) | EndOfData | Nothing

  /** How far the worker's delivery in progress is: the estimator, then each server's broadcast. */
  datatype Observer = Fusing | ToClients | ToSockets | Done

  /**
   * A server thread: Serving, Commanding and Stuck hold the server's client mutex. Commanding runs a session command;
   * Stuck is inside a command that broadcasts on the server whose mutex the thread itself holds.
   */
  datatype ServerThread = Down | Head | Round | Serving | Commanding | Stuck

  datatype Server = Server(thread: ServerThread, up: bool, joinable: bool, clients: bool) {
    /** The client mutex is owned by the server thread. */
    predicate Holds() { thread.Serving? || thread.Commanding? || thread.Stuck? }

    predicate InCommand() { thread.Commanding? || thread.Stuck? }

    /** Told to go down by its own thread, which nothing can join any more. */
    predicate Wedged() { joinable && !up }
  }

  /** One round of a server; Query starts a client's command that only broadcasts an answer. */
  datatype ServerStep = Loop | Serve | Leave | Query

  datatype Session = Session(
    status: Status, running: bool, paused: bool, owner: Owner, replay: Replay, joinable: bool,
    controller: Controller, caller: Caller, pipe: P.Pipeline<Measurement>, observer: Observer,
    ipc: Server, ws: Server, crashed: bool)

  datatype Step =
    | Begin(caller: Caller, command: Command)
    | OpenDataset(ok: bool) | StartServers(ipc: bool, ws: bool) | MarkStarted | SetRunning | Spawn
    | LockToPause | SetPaused | MarkPaused
    | LockToResume | ClearPaused | WakeResumed | MarkResumed
    | LockToStop | Release | WakeAll | Join
    | Announce | Swap
    | CloseIpc | ClearIpc | JoinIpc | CloseWs | JoinWs | ClearWs | MarkIdle | MarkConfigured
    | Test | LockPause | CheckPause | WakeUp | LockAgain | Retest | Read(result: ReadResult)
    | Finish | Complete | AnnounceCompleted
    | Fuse(notify: bool) | NotifyClients | NotifySockets
    | Pipe(step: P.Step<Measurement>)
    | Ipc(server: ServerStep) | Ws(server: ServerStep)

  const NoServer := Server(Down, false, false, true)

  function Fresh(capacity: nat): Session {
    Session(Configured, false, false, Nobody, Unborn, false, Free, Outside, P.Initial(capacity, 1), Fusing,
            NoServer, NoServer, false)
  }

  // ---- What each thread may do -------------------------------------------------------------

  /** Which pipeline step which thread of the session takes when. */
  predicate PipeAllowed(p: Session, s: P.Step<Measurement>) {
    match s
    case Call(i, m) => i == 0 && p.replay == Pushing(m)
    case ReadRunning(_) => p.replay.InPush?
    case LockToPush(_) => p.replay.InPush?
    case Push(_) => p.replay.InPush?
    case Notify(_) => p.replay.InPush?
    case LockToPop => true
    case Check => true
    case WakeUp => true
    case LockAgain => true
    case Deliver => p.observer.Done?
    case Start => p.controller.StartPipe?
    case Spawn => p.controller.StartSpawningPipe?
    case Stop => p.controller.StoppingPipe?
    case LockToShutDown => p.controller.JoiningPipe?
    case ShutDown => p.controller.JoiningPipe?
    case WakeAll => p.controller.JoiningPipe?
    case Join => p.controller.JoiningPipe?
  }

  predicate ServerCan(v: Server, s: ServerStep) {
    match s
    case Loop => v.thread.Head?
    case Serve => v.thread.Round?
    case Leave => v.thread.Serving?
    case Query => v.thread.Serving? && v.clients
  }

  predicate CallerReady(p: Session, caller: Caller) {
    match caller
    case Outside => true
    case IpcThread => p.ipc.thread.Serving? && p.ipc.clients
    case WsThread => p.ws.thread.Serving?
  }

  predicate Broadcasts(c: Controller) {
    c.StartFailing? || c.StartAnnouncing? || c.PauseAnnouncing? || c.ResumeAnnouncing? || c.StopAnnouncing?
  }

  predicate Starts(s: Step) {
    s.OpenDataset? || s.StartServers? || s.MarkStarted? || s.SetRunning? || s.Spawn?
  }

  predicate Pauses(s: Step) {
    s.LockToPause? || s.SetPaused? || s.MarkPaused? || s.LockToResume? || s.ClearPaused? || s.WakeResumed?
    || s.MarkResumed?
  }

  predicate Stops(s: Step) {
    s.LockToStop? || s.Release? || s.WakeAll? || s.Join?
  }

  predicate Closes(s: Step) {
    s.Swap? || s.CloseIpc? || s.ClearIpc? || s.JoinIpc? || s.CloseWs? || s.JoinWs? || s.ClearWs? || s.MarkIdle?
    || s.MarkConfigured?
  }

  predicate OfReplay(s: Step) {
    s.Test? || s.LockPause? || s.CheckPause? || s.WakeUp? || s.LockAgain? || s.Retest? || s.Read? || s.Finish?
    || s.Complete? || s.AnnounceCompleted?
  }

  predicate OfWorker(s: Step) {
    s.Fuse? || s.NotifyClients? || s.NotifySockets?
  }

  predicate StartCan(p: Session, s: Step)
    requires Starts(s)
  {
    match s
    case OpenDataset(_) => p.controller.StartOpening?
    case StartServers(_, ws) => p.controller.StartServing? && (p.ws.Wedged() ==> ws)  // its port binds again
    case MarkStarted => p.controller.StartMarking?
    case SetRunning => p.controller.StartRunning?
    case Spawn => p.controller.StartSpawning?
  }

  predicate PauseCan(p: Session, s: Step)
    requires Pauses(s)
  {
    match s
    case LockToPause => p.controller.PauseLocking? && p.owner.Nobody?
    case SetPaused => p.controller.PauseInside?
    case MarkPaused => p.controller.PauseMarking?
    case LockToResume => p.controller.ResumeLocking? && p.owner.Nobody?
    case ClearPaused => p.controller.ResumeInside?
    case WakeResumed => p.controller.ResumeWaking?
    case MarkResumed => p.controller.ResumeMarking?
  }

  predicate StopCan(p: Session, s: Step)
    requires Stops(s)
  {
    match s
    case LockToStop => p.controller.StopLocking? && p.owner.Nobody?
    case Release => p.controller.StopInside?
    case WakeAll => p.controller.StopWaking?
    case Join => p.controller.StopJoining? && p.replay.Exited?
  }

  predicate CloseCan(p: Session, s: Step)
    requires Closes(s)
  {
    match s
    case Swap => p.controller.Swapping?
    case CloseIpc => p.controller.IpcDown?
    case ClearIpc => p.controller.IpcClearing? && !p.ipc.Holds()
    case JoinIpc => p.controller.IpcJoining? && p.ipc.thread.Down?
    case CloseWs => p.controller.WsDown?
    case JoinWs => p.controller.WsJoining? && (p.ws.thread.Down? || p.caller.WsThread?)
    case ClearWs => p.controller.WsClearing? && !p.ws.Holds()
    case MarkIdle => p.controller.StopMarking?
    case MarkConfigured => p.controller.ReconfigureMarking?
  }

  predicate ReplayCan(p: Session, s: Step)
    requires OfReplay(s)
  {
    match s
    case Test => p.replay.Testing?
    case LockPause => p.replay.Locking? && p.owner.Nobody?
    case CheckPause => p.replay.Checking?
    case WakeUp => p.replay.Asleep?
    case LockAgain => p.replay.Woken? && p.owner.Nobody?
    case Retest => p.replay.Retesting?
    case Read(_) => p.replay.Reading?
    case Finish => p.replay.Finishing?
    case Complete => p.replay.Completing?
    case AnnounceCompleted => p.replay.Announcing? && !p.ipc.Holds()
  }

  predicate ObserveCan(p: Session, s: Step)
    requires OfWorker(s)
  {
    match s
    case Fuse(_) => p.pipe.worker.Delivering? && p.observer.Fusing?
    case NotifyClients => p.observer.ToClients? && !p.ipc.Holds()
    case NotifySockets => p.observer.ToSockets? && !p.ws.Holds()
  }

  predicate Can(p: Session, s: Step) {
    !p.crashed &&
    if OfReplay(s) then ReplayCan(p, s)
    else if OfWorker(s) then ObserveCan(p, s)
    else if Starts(s) then StartCan(p, s)
    else if Pauses(s) then PauseCan(p, s)
    else if Stops(s) then StopCan(p, s)
    else if Closes(s) then CloseCan(p, s)
    else match s
      case Begin(caller, _) => p.controller.Free? && CallerReady(p, caller)
      case Announce => Broadcasts(p.controller) && !p.ipc.Holds()
      case Pipe(step) => PipeAllowed(p, step) && P.Can(p.pipe, step)
      case Ipc(step) => ServerCan(p.ipc, step)
      case Ws(step) => ServerCan(p.ws, step) && !step.Query?
  }

  // ---- What the steps do -------------------------------------------------------------------

  function Called(v: Server): Server { v.(thread := Commanding) }

  function Answered(v: Server): Server { if v.thread.Commanding? then v.(thread := Serving) else v }

  /** A command that has something to do goes on at c. */
  function Entered(p: Session, caller: Caller, c: Controller): Session {
    p.(controller := c, caller := caller,
       ipc := if caller.IpcThread? then Called(p.ipc) else p.ipc,
       ws := if caller.WsThread? then Called(p.ws) else p.ws)
  }

  /** The command returns to its caller. */
  function Returned(p: Session): Session { p.(controller := Free, ipc := Answered(p.ipc), ws := Answered(p.ws)) }

  /** The guards of the commands; a refused configure from the IPC thread still broadcasts. */
  function Begun(p: Session, caller: Caller, command: Command): Session {
    match command
    case Start =>
      if p.status.Running? || p.status.Paused? || p.status.Error? then p else Entered(p, caller, StartOpening)
    case Pause => if p.status.Running? then Entered(p, caller, PauseLocking) else p
    case Resume => if p.status.Paused? then Entered(p, caller, ResumeLocking) else p
    case Stop => if p.running then Entered(p.(running := false), caller, StopLocking) else p
    case Reconfigure(capacity) =>
      if !p.status.Running? && !p.status.Paused? then Entered(p, caller, StoppingPipe(ToReconfigure(capacity)))
      else if caller.IpcThread? then p.(ipc := p.ipc.(thread := Stuck)) else p
  }

  /** A server that is up stays as it is; assigning a new thread over one that was not joined ends the process. */
  function Launched(v: Server, ok: bool): Server { if v.up || !ok then v else Server(Head, true, true, true) }

  function ServersStarted(p: Session, ipc: bool, ws: bool): Session {
    p.(ipc := Launched(p.ipc, ipc), ws := Launched(p.ws, ws), controller := StartPipe,
       crashed := (ipc && p.ipc.Wedged()) || (ws && p.ws.Wedged()))
  }

  function AnnouncedBy(p: Session): Session {
    match p.controller
    case StartAnnouncing => p.(controller := StartRunning)
    case StopAnnouncing => p.(controller := IpcDown(ToStop))
    case _ => Returned(p)
  }

  function PipeDown(p: Session, purpose: Purpose): Session {
    p.(controller := match purpose case ToStop => StopAnnouncing case ToReconfigure(capacity) => Swapping(capacity))
  }

  function IpcGone(p: Session, purpose: Purpose): Session {
    p.(controller := WsDown(purpose), ipc := NoServer,
       crashed := purpose.ToReconfigure? && p.replay.Announcing?)
  }

  function WsGone(p: Session, purpose: Purpose): Session {
    p.(controller := if purpose.ToStop? then StopMarking else ReconfigureMarking, ws := NoServer)
  }

  /** Joining itself throws: Stop ends at once without setting a status, the destructor ends the process. */
  function WsJoined(p: Session, purpose: Purpose): Session {
    if !p.caller.WsThread? then p.(controller := WsClearing(purpose), ws := p.ws.(joinable := false))
    else if purpose.ToStop? then Returned(p)
    else p.(crashed := true)
  }

  function Piped(p: Session, s: P.Step<Measurement>): Session
    requires P.Can(p.pipe, s)
  {
    var q := p.(pipe := P.Do(p.pipe, s));
    match s
    case Call(_, _) => q.(replay := InPush)
    case ReadRunning(i) => if q.pipe.producers[i].Away? then q.(replay := Testing) else q
    case Push(i) => if q.pipe.producers[i].Away? then q.(replay := Testing) else q
    case Notify(i) => q.(replay := Testing)
    case Deliver => q.(observer := Fusing)
    case Start => q.(controller := if q.pipe.controller.Spawning? then StartSpawningPipe else StartMarking)
    case Spawn => q.(controller := StartMarking)
    case Stop =>
      if !p.controller.StoppingPipe? then q
      else if q.pipe.controller.Free? then PipeDown(q, p.controller.purpose)
      else q.(controller := JoiningPipe(p.controller.purpose))
    case Join => if p.controller.JoiningPipe? then PipeDown(q, p.controller.purpose) else q
    case _ => q
  }

  function ServerDone(v: Server, s: ServerStep): Server {
    match s
    case Loop => v.(thread := if v.up then Round else Down)
    case Serve => v.(thread := Serving)
    case Leave => v.(thread := Head)
    case Query => v.(thread := Stuck)
  }

  function StartDo(p: Session, s: Step): Session
    requires Starts(s) && StartCan(p, s)
  {
    match s
    case OpenDataset(ok) =>
      if ok then p.(controller := StartServing) else p.(status := Error, controller := StartFailing)
    case StartServers(ipc, ws) => ServersStarted(p, ipc, ws)
    case MarkStarted => p.(status := Running, controller := StartAnnouncing)
    case SetRunning => p.(running := true, controller := StartSpawning)
    case Spawn =>
      if p.joinable then p.(crashed := true) else Returned(p.(replay := Testing, joinable := true))
  }

  function PauseDo(p: Session, s: Step): Session
    requires Pauses(s) && PauseCan(p, s)
  {
    match s
    case LockToPause => p.(owner := TheController, controller := PauseInside)
    case SetPaused => p.(paused := true, owner := Nobody, controller := PauseMarking)
    case MarkPaused => p.(status := Paused, controller := PauseAnnouncing)
    case LockToResume => p.(owner := TheController, controller := ResumeInside)
    case ClearPaused => p.(paused := false, owner := Nobody, controller := ResumeWaking)
    case WakeResumed => p.(replay := Roused(p.replay), controller := ResumeMarking)
    case MarkResumed => p.(status := Running, controller := ResumeAnnouncing)
  }

  function StopDo(p: Session, s: Step): Session
    requires Stops(s) && StopCan(p, s)
  {
    match s
    case LockToStop => p.(owner := TheController, controller := StopInside)
    case Release => p.(paused := false, owner := Nobody, controller := StopWaking)
    case WakeAll => p.(replay := Roused(p.replay), controller := StopJoining)
    case Join => p.(joinable := false, controller := StoppingPipe(ToStop))
  }

  function CloseDo(p: Session, s: Step): Session
    requires Closes(s) && CloseCan(p, s)
  {
    match s
    case Swap =>
      var capacity := p.controller.capacity;
      p.(pipe := P.Initial(capacity, 1), controller := IpcDown(ToReconfigure(capacity)))
    case CloseIpc =>
      var purpose := p.controller.purpose;
      if !p.ipc.up then IpcGone(p, purpose)
      else p.(ipc := p.ipc.(up := false), controller := IpcClearing(purpose))
    case ClearIpc => p.(ipc := p.ipc.(clients := false), controller := IpcJoining(p.controller.purpose))
    case JoinIpc => IpcGone(p, p.controller.purpose)
    case CloseWs =>
      var purpose := p.controller.purpose;
      if p.ws.up then p.(ws := p.ws.(up := false), controller := WsJoining(purpose))
      else if purpose.ToReconfigure? && p.ws.Wedged() then p.(crashed := true)
      else WsGone(p, purpose)
    case JoinWs => WsJoined(p, p.controller.purpose)
    case ClearWs => WsGone(p, p.controller.purpose)
    case MarkIdle => Returned(p.(status := Idle))
    case MarkConfigured => Returned(p.(status := Configured))
  }

  function ReplayDo(p: Session, s: Step): Session
    requires OfReplay(s) && ReplayCan(p, s)
  {
    match s
    case Test => p.(replay := if p.running then Locking else Finishing)
    case LockPause => p.(owner := TheReplay, replay := Checking)
    case CheckPause => p.(owner := Nobody, replay := if !p.paused || !p.running then Retesting else Asleep)
    case WakeUp => p.(replay := Woken)  // condition variables may wake spuriously
    case LockAgain => p.(owner := TheReplay, replay := Checking)
    case Retest => p.(replay := if p.running then Reading else Finishing)
    case Read(result) =>
      p.(replay := match result case EndOfData => Finishing case Nothing => Testing case Ok(m) => Pushing(m))
    case Finish => p.(replay := if p.running then Completing else Exited)
    case Complete => p.(status := Completed, replay := Announcing)
    case AnnounceCompleted => p.(replay := Exited)
  }

  function ObserveDo(p: Session, s: Step): Session
    requires OfWorker(s) && ObserveCan(p, s)
  {
    match s
    case Fuse(notify) => p.(observer := if notify then ToClients else Done)
    case NotifyClients => p.(observer := ToSockets)
    case NotifySockets => p.(observer := Done)
  }

  function Do(p: Session, s: Step): Session
    requires Can(p, s)
  {
    if OfReplay(s) then ReplayDo(p, s)
    else if OfWorker(s) then ObserveDo(p, s)
    else if Starts(s) then StartDo(p, s)
    else if Pauses(s) then PauseDo(p, s)
    else if Stops(s) then StopDo(p, s)
    else if Closes(s) then CloseDo(p, s)
    else match s
      case Begin(caller, command) => Begun(p, caller, command)
      case Announce => AnnouncedBy(p)
      case Pipe(step) => Piped(p, step)
      case Ipc(step) => p.(ipc := ServerDone(p.ipc, step))
      case Ws(step) => p.(ws := ServerDone(p.ws, step))
  }

  function Roused(r: Replay): Replay { if r.Asleep? then Woken else r }

  ghost predicate Possible(p: Session, steps: seq<Step>)
    decreases steps
  {
    steps == [] || (Can(p, steps[0]) && Possible(Do(p, steps[0]), steps[1..]))
  }

  ghost function After(p: Session, steps: seq<Step>): Session
    requires Possible(p, steps)
    decreases steps
  {
    if steps == [] then p else After(Do(p, steps[0]), steps[1..])
  }

  // ---- What every interleaving keeps -------------------------------------------------------

  predicate Opening(c: Controller) {
    c.StartOpening? || c.StartServing? || c.StartPipe? || c.StartSpawningPipe? || c.StartMarking?
  }

  predicate Launching(c: Controller) { c.StartAnnouncing? || c.StartRunning? || c.StartSpawning? }

  predicate BeforeJoin(c: Controller) { c.StopLocking? || c.StopInside? || c.StopWaking? || c.StopJoining? }

  predicate For(c: Controller, stop: bool) {
    match c
    case StoppingPipe(u) => u.ToStop? == stop
    case JoiningPipe(u) => u.ToStop? == stop
    case Swapping(_) => !stop
    case IpcDown(u) => u.ToStop? == stop
    case IpcClearing(u) => u.ToStop? == stop
    case IpcJoining(u) => u.ToStop? == stop
    case WsDown(u) => u.ToStop? == stop
    case WsJoining(u) => u.ToStop? == stop
    case WsClearing(u) => u.ToStop? == stop
    case StopAnnouncing => stop
    case StopMarking => stop
    case ReconfigureMarking => !stop
    case _ => false
  }

  /** A Stop that found the running flag set is under way. */
  predicate InStop(c: Controller) { BeforeJoin(c) || For(c, true) }

  predicate InReconfigure(c: Controller) { For(c, false) }

  predicate Gone(r: Replay) { r.Unborn? || r.Exited? }

  /** The replay thread is not in its loop. */
  predicate Settled(r: Replay) { Gone(r) || r.Announcing? }

  /** The pause lock has one owner, and the replay thread sleeps only while it should or is about to be woken. */
  ghost predicate PauseMatches(p: Session) {
    && (p.replay.Checking? <==> p.owner.TheReplay?)
    && (p.controller.PauseInside? || p.controller.ResumeInside? || p.controller.StopInside? <==> p.owner.TheController?)
    && (p.replay.Asleep? && !p.paused ==> p.controller.ResumeWaking? || p.controller.StopWaking?)
    && (p.replay.Asleep? && !p.running ==>
          p.controller.StopLocking? || p.controller.StopInside? || p.controller.StopWaking?)
    && (p.controller.StopWaking? || p.controller.StopJoining? || For(p.controller, true) ==> !p.paused)
  }

  /** A replay thread lives only between Start and the join in Stop. */
  ghost predicate ReplayMatches(p: Session) {
    && (!Gone(p.replay) ==> p.joinable)
    && (p.joinable ==> !p.replay.Unborn?)
    && (p.running && !p.controller.StartSpawning? ==> p.joinable)
    && (p.controller.StartSpawning? ==> p.running)
    && (!p.running && !BeforeJoin(p.controller) ==> Gone(p.replay) && !p.joinable)
    && (InStop(p.controller) ==> !p.running && !p.replay.Unborn?)
    && (p.status.Configured? || p.status.Idle? || p.status.Completed? || p.status.Error? ==> Settled(p.replay))
    && (Opening(p.controller) ==> p.status.Configured? || p.status.Idle? || p.status.Completed?)
    && (p.controller.StartFailing? ==> p.status.Error?)
    && (Launching(p.controller) ==> p.status.Running?)
    && (Launching(p.controller) || InReconfigure(p.controller) ==> Settled(p.replay))
    && (InReconfigure(p.controller) ==> !p.status.Running? && !p.status.Paused?)
  }

  predicate PipeBusy(c: P.Controller) { c.Stopping? || c.ShuttingDown? || c.Waking? || c.Joining? }

  /** Start has the pipeline running before it sets the session's own running flag. */
  predicate NeedsPipe(c: Controller) { c.StartSpawningPipe? || c.StartMarking? || Launching(c) }

  ghost predicate PipeMatches(p: Session) {
    && P.Invariant(p.pipe) && |p.pipe.producers| == 1
    && (p.replay.InPush? <==> !p.pipe.producers[0].Away?)
    && (p.controller.StartSpawningPipe? <==> p.pipe.controller.Spawning?)
    && (p.controller.JoiningPipe? <==> PipeBusy(p.pipe.controller))
    && (!p.pipe.worker.Delivering? ==> p.observer.Fusing?)
    && (InReconfigure(p.controller) && !p.controller.StoppingPipe? ==> !p.pipe.running)
    && (!p.running && !BeforeJoin(p.controller) && !p.controller.StoppingPipe? && !NeedsPipe(p.controller) ==>
          !p.pipe.running)
  }

  ghost predicate ServerMatches(v: Server) {
    && (!v.joinable ==> v.thread.Down? && !v.up)
    && (v.up ==> !v.thread.Down?)
    && (v.InCommand() ==> v.clients)
    && (!v.joinable ==> v.clients)
  }

  predicate AfterIpc(c: Controller) {
    c.WsDown? || c.WsJoining? || c.WsClearing? || c.StopMarking? || c.ReconfigureMarking?
  }

  ghost predicate IpcMatches(p: Session) {
    && ServerMatches(p.ipc)
    && (p.ipc.thread.Commanding? <==> p.caller.IpcThread? && !p.controller.Free?)
    && (p.ipc.Wedged() <==> p.controller.IpcClearing? || p.controller.IpcJoining?)
    && (!p.ipc.clients <==> p.controller.IpcJoining?)
    && (AfterIpc(p.controller) ==> !p.ipc.joinable)
  }

  ghost predicate WsMatches(p: Session) {
    && ServerMatches(p.ws) && !p.ws.thread.Stuck? && p.ws.clients
    && (p.ws.thread.Commanding? <==> p.caller.WsThread? && !p.controller.Free?)
    && (p.controller.WsJoining? ==> p.ws.Wedged())
    && (p.ws.Wedged() && !p.controller.WsJoining? ==>
          !p.running && !InStop(p.controller) && !p.controller.StartPipe? && !NeedsPipe(p.controller))
    && (p.controller.StopMarking? || p.controller.WsClearing? || p.controller.ReconfigureMarking? ==> !p.ws.joinable)
  }

  /** A completed session still has its replay thread to join, or a WebSocket server that nothing can join. */
  ghost predicate CompletionMatches(p: Session) {
    p.status.Completed? ==> p.joinable || InStop(p.controller) || (p.ws.Wedged() && !p.controller.WsJoining?)
  }

  ghost predicate ServersMatch(p: Session) { IpcMatches(p) && WsMatches(p) && CompletionMatches(p) }

  ghost predicate Sound(p: Session) { PauseMatches(p) && ReplayMatches(p) && PipeMatches(p) && ServersMatch(p) }

  /** Nothing is claimed of a process that has ended. */
  ghost predicate Invariant(p: Session) { p.crashed || Sound(p) }

  predicate OfProducer(s: P.Step<Measurement>) { s.Call? || s.ReadRunning? || s.LockToPush? || s.Push? || s.Notify? }

  lemma ReplayKeepsInvariant(p: Session, s: Step)
    requires Sound(p) && OfReplay(s) && ReplayCan(p, s)
    ensures Sound(ReplayDo(p, s))
  {
    hide Sound, ReplayDo;
    if s.LockPause? || s.CheckPause? {
      PauseCheckKeepsInvariant(p, s);
    } else if s.WakeUp? || s.LockAgain? || s.Retest? {
      PausedReplayKeepsInvariant(p, s);
    } else if s.Complete? || s.AnnounceCompleted? {
      CompletionKeepsInvariant(p, s);
    } else {
      LoopKeepsInvariant(p, s);
    }
  }

  lemma PauseCheckKeepsInvariant(p: Session, s: Step)
    requires Sound(p) && OfReplay(s) && ReplayCan(p, s) && (s.LockPause? || s.CheckPause?)
    ensures Sound(ReplayDo(p, s))
  {
    hide P.Invariant;
  }

  lemma PausedReplayKeepsInvariant(p: Session, s: Step)
    requires Sound(p) && OfReplay(s) && ReplayCan(p, s) && (s.WakeUp? || s.LockAgain? || s.Retest?)
    ensures Sound(ReplayDo(p, s))
  {
    hide P.Invariant;
  }

  lemma LoopKeepsInvariant(p: Session, s: Step)
    requires Sound(p) && OfReplay(s) && ReplayCan(p, s) && (s.Test? || s.Read? || s.Finish?)
    ensures Sound(ReplayDo(p, s))
  {
    hide P.Invariant;
  }

  lemma CompletionKeepsInvariant(p: Session, s: Step)
    requires Sound(p) && OfReplay(s) && ReplayCan(p, s) && (s.Complete? || s.AnnounceCompleted?)
    ensures Sound(ReplayDo(p, s))
  {
    hide P.Invariant;
  }

  lemma WorkerKeepsInvariant(p: Session, s: Step)
    requires Sound(p) && OfWorker(s) && ObserveCan(p, s)
    ensures Sound(ObserveDo(p, s))
  {
    hide P.Invariant;
  }

  lemma IpcKeepsInvariant(p: Session, s: ServerStep)
    requires Sound(p) && ServerCan(p.ipc, s)
    ensures Sound(p.(ipc := ServerDone(p.ipc, s)))
  {
    hide P.Invariant;
  }

  lemma WsKeepsInvariant(p: Session, s: ServerStep)
    requires Sound(p) && ServerCan(p.ws, s) && !s.Query?
    ensures Sound(p.(ws := ServerDone(p.ws, s)))
  {
    hide P.Invariant;
  }

  lemma PipeKeepsInvariant(p: Session, s: P.Step<Measurement>)
    requires Sound(p) && PipeAllowed(p, s) && P.Can(p.pipe, s)
    ensures Sound(Piped(p, s))
  {
    hide Sound, Piped, P.Can;
    if s.Deliver? {
      DeliveryKeepsInvariant(p);
    } else if P.OfWorker(s) {
      PipeWorkerKeepsInvariant(p, s);
    } else if s.Call? || s.LockToPush? {
      PipeEnteringKeepsInvariant(p, s);
    } else if OfProducer(s) {
      PipeLeavingKeepsInvariant(p, s);
    } else if s.Start? || s.Spawn? {
      PipeStartKeepsInvariant(p, s);
    } else if s.Stop? {
      if p.pipe.running {
        PipeStopKeepsInvariant(p, p.controller.purpose);
      } else {
        PipeStoppedKeepsInvariant(p, p.controller.purpose);
      }
    } else if s.Join? {
      PipeJoinKeepsInvariant(p, p.controller.purpose);
    } else {
      PipeShutDownKeepsInvariant(p, s);
    }
  }

  lemma DeliveryKeepsInvariant(p: Session)
    requires Sound(p) && PipeAllowed(p, P.Deliver) && P.Can(p.pipe, P.Deliver)
    ensures Sound(Piped(p, P.Deliver))
  {
    P.StepKeepsInvariant(p.pipe, P.Deliver);
    PipeStep(p.pipe, P.Deliver);
    hide P.Invariant, P.Do, P.Can;
  }

  lemma PipeWorkerKeepsInvariant(p: Session, s: P.Step<Measurement>)
    requires Sound(p) && P.Can(p.pipe, s) && P.OfWorker(s) && !s.Deliver?
    ensures Sound(Piped(p, s))
  {
    P.StepKeepsInvariant(p.pipe, s);
    PipeStep(p.pipe, s);
    assert Piped(p, s) == p.(pipe := P.Do(p.pipe, s));
    hide Piped, P.Invariant, P.Do, P.Can;
  }

  lemma PipeEnteringKeepsInvariant(p: Session, s: P.Step<Measurement>)
    requires Sound(p) && PipeAllowed(p, s) && P.Can(p.pipe, s) && (s.Call? || s.LockToPush?)
    ensures Sound(Piped(p, s))
  {
    P.StepKeepsInvariant(p.pipe, s);
    PipeStep(p.pipe, s);
    hide P.Invariant, P.Do, P.Can;
  }

  lemma PipeLeavingKeepsInvariant(p: Session, s: P.Step<Measurement>)
    requires Sound(p) && PipeAllowed(p, s) && P.Can(p.pipe, s) && (s.ReadRunning? || s.Push? || s.Notify?)
    ensures Sound(Piped(p, s))
  {
    P.StepKeepsInvariant(p.pipe, s);
    PipeStep(p.pipe, s);
    hide P.Invariant, P.Do, P.Can;
  }

  lemma PipeStartKeepsInvariant(p: Session, s: P.Step<Measurement>)
    requires Sound(p) && PipeAllowed(p, s) && P.Can(p.pipe, s) && (s.Start? || s.Spawn?)
    ensures Sound(Piped(p, s))
  {
    P.StepKeepsInvariant(p.pipe, s);
    PipeStep(p.pipe, s);
    hide P.Invariant, P.Do, P.Can;
  }

  lemma PipeStopKeepsInvariant(p: Session, purpose: Purpose)
    requires Sound(p) && p.controller == StoppingPipe(purpose) && p.pipe.running && P.Can(p.pipe, P.Stop)
    ensures Sound(Piped(p, P.Stop))
  {
    P.StepKeepsInvariant(p.pipe, P.Stop);
    PipeStep(p.pipe, P.Stop);
    hide P.Invariant, P.Do, P.Can;
  }

  lemma PipeStoppedKeepsInvariant(p: Session, purpose: Purpose)
    requires Sound(p) && p.controller == StoppingPipe(purpose) && !p.pipe.running && P.Can(p.pipe, P.Stop)
    ensures Sound(Piped(p, P.Stop))
  {
    P.StepKeepsInvariant(p.pipe, P.Stop);
    PipeStep(p.pipe, P.Stop);
    hide P.Invariant, P.Do, P.Can;
  }

  lemma PipeJoinKeepsInvariant(p: Session, purpose: Purpose)
    requires Sound(p) && p.controller == JoiningPipe(purpose) && P.Can(p.pipe, P.Join)
    ensures Sound(Piped(p, P.Join))
  {
    P.StepKeepsInvariant(p.pipe, P.Join);
    PipeStep(p.pipe, P.Join);
    hide P.Invariant, P.Do, P.Can;
  }

  lemma PipeShutDownKeepsInvariant(p: Session, s: P.Step<Measurement>)
    requires Sound(p) && PipeAllowed(p, s) && P.Can(p.pipe, s) && (s.LockToShutDown? || s.ShutDown? || s.WakeAll?)
    ensures Sound(Piped(p, s))
  {
    P.StepKeepsInvariant(p.pipe, s);
    PipeStep(p.pipe, s);
    hide P.Invariant, P.Do, P.Can;
  }

  /** What a pipeline step means for the threads around it. */
  lemma PipeStep(q: P.Pipeline<Measurement>, s: P.Step<Measurement>)
    requires P.Invariant(q) && P.Can(q, s) && |q.producers| == 1
    ensures var r := P.Do(q, s);
            && |r.producers| == 1
            && (P.OfWorker(s) ==> r.producers == q.producers && r.controller == q.controller && r.running == q.running)
            && (s.Call? || s.ReadRunning? || s.LockToPush? || s.Push? || s.Notify? ==>
                  && r.controller == q.controller && r.running == q.running
                  && r.worker.Delivering? == q.worker.Delivering? && s.i == 0)
            && (s.Call? ==> !r.producers[0].Away?)
            && (s.LockToPush? ==> !r.producers[0].Away?)
            && (s.Notify? ==> r.producers[0].Away?)
            && (s.Deliver? ==> !r.worker.Delivering?)
            && (!P.OfWorker(s) ==> r.worker.Delivering? == q.worker.Delivering?)
            && (s.Start? || s.Spawn? || s.Stop? || s.LockToShutDown? || s.ShutDown? || s.WakeAll? || s.Join? ==>
                  r.producers == q.producers)
            && (s.Start? ==> r.running && (r.controller.Spawning? || r.controller.Free?))
            && (s.Spawn? ==> q.running && r.running && r.controller.Free?)
            && (s.Stop? ==> !r.running && (if q.running then r.controller.Stopping? else r.controller.Free?))
            && (s.LockToShutDown? || s.ShutDown? || s.WakeAll? ==> PipeBusy(r.controller) && !r.running)
            && (s.Join? ==> r.controller.Free? && !r.running)
  {
  }

  lemma BeginKeepsInvariant(p: Session, caller: Caller, command: Command)
    requires Sound(p) && p.controller.Free? && CallerReady(p, caller)
    ensures Sound(Begun(p, caller, command))
  {
    hide Sound, Begun, CallerReady;
    match command
    case Start => BeginStartKeepsInvariant(p, caller);
    case Pause => BeginPauseKeepsInvariant(p, caller);
    case Resume => BeginResumeKeepsInvariant(p, caller);
    case Stop => BeginStopKeepsInvariant(p, caller);
    case Reconfigure(capacity) =>
      if p.status.Running? || p.status.Paused? {
        RefusedReconfigureKeepsInvariant(p, caller, capacity);
      } else {
        BeginReconfigureKeepsInvariant(p, caller, capacity);
      }
  }

  lemma BeginStartKeepsInvariant(p: Session, caller: Caller)
    requires Sound(p) && p.controller.Free? && CallerReady(p, caller)
    ensures Sound(Begun(p, caller, Command.Start))
  {
    hide P.Invariant;
  }

  lemma BeginPauseKeepsInvariant(p: Session, caller: Caller)
    requires Sound(p) && p.controller.Free? && CallerReady(p, caller)
    ensures Sound(Begun(p, caller, Pause))
  {
    hide P.Invariant;
  }

  lemma BeginResumeKeepsInvariant(p: Session, caller: Caller)
    requires Sound(p) && p.controller.Free? && CallerReady(p, caller)
    ensures Sound(Begun(p, caller, Resume))
  {
    hide P.Invariant;
  }

  lemma BeginStopKeepsInvariant(p: Session, caller: Caller)
    requires Sound(p) && p.controller.Free? && CallerReady(p, caller)
    ensures Sound(Begun(p, caller, Command.Stop))
  {
    hide P.Invariant;
  }

  lemma RefusedReconfigureKeepsInvariant(p: Session, caller: Caller, capacity: nat)
    requires Sound(p) && p.controller.Free? && CallerReady(p, caller) && (p.status.Running? || p.status.Paused?)
    ensures Sound(Begun(p, caller, Reconfigure(capacity)))
  {
    hide P.Invariant;
  }

  lemma BeginReconfigureKeepsInvariant(p: Session, caller: Caller, capacity: nat)
    requires Sound(p) && p.controller.Free? && CallerReady(p, caller) && !p.status.Running? && !p.status.Paused?
    ensures Sound(Begun(p, caller, Reconfigure(capacity)))
  {
    hide P.Invariant;
  }

  lemma StartKeepsInvariant(p: Session, s: Step)
    requires Sound(p) && Starts(s) && StartCan(p, s)
    ensures Invariant(StartDo(p, s))
  {
    hide Sound, StartDo, StartCan;
    match s
    case OpenDataset(ok) => OpeningKeepsInvariant(p, ok);
    case StartServers(ipc, ws) => ServingKeepsInvariant(p, ipc, ws);
    case MarkStarted => LaunchingKeepsInvariant(p, s);
    case SetRunning => LaunchingKeepsInvariant(p, s);
    case Spawn => LaunchingKeepsInvariant(p, s);
  }

  lemma OpeningKeepsInvariant(p: Session, ok: bool)
    requires Sound(p) && StartCan(p, OpenDataset(ok))
    ensures Sound(StartDo(p, OpenDataset(ok)))
  {
    hide P.Invariant;
  }

  lemma ServingKeepsInvariant(p: Session, ipc: bool, ws: bool)
    requires Sound(p) && StartCan(p, StartServers(ipc, ws))
    ensures Invariant(StartDo(p, StartServers(ipc, ws)))
  {
    hide P.Invariant;
  }

  lemma LaunchingKeepsInvariant(p: Session, s: Step)
    requires Sound(p) && Starts(s) && StartCan(p, s) && (s.MarkStarted? || s.SetRunning? || s.Spawn?)
    ensures Invariant(StartDo(p, s))
  {
    hide P.Invariant;
  }

  lemma AnnounceKeepsInvariant(p: Session)
    requires Sound(p) && Broadcasts(p.controller) && !p.ipc.Holds()
    ensures Sound(AnnouncedBy(p))
  {
    hide Sound, AnnouncedBy;
    if p.controller.StartAnnouncing? || p.controller.StopAnnouncing? {
      AnnouncingKeepsInvariant(p);
    } else if p.controller.StartFailing? {
      StartFailureKeepsInvariant(p);
    } else {
      PauseAnnouncementKeepsInvariant(p);
    }
  }

  lemma AnnouncingKeepsInvariant(p: Session)
    requires Sound(p) && !p.ipc.Holds() && (p.controller.StartAnnouncing? || p.controller.StopAnnouncing?)
    ensures Sound(AnnouncedBy(p))
  {
    hide P.Invariant;
  }

  lemma StartFailureKeepsInvariant(p: Session)
    requires Sound(p) && !p.ipc.Holds() && p.controller.StartFailing?
    ensures Sound(AnnouncedBy(p))
  {
    hide P.Invariant;
  }

  lemma PauseAnnouncementKeepsInvariant(p: Session)
    requires Sound(p) && !p.ipc.Holds() && (p.controller.PauseAnnouncing? || p.controller.ResumeAnnouncing?)
    ensures Sound(AnnouncedBy(p))
  {
    hide P.Invariant;
  }

  lemma PauseKeepsInvariant(p: Session, s: Step)
    requires Sound(p) && Pauses(s) && PauseCan(p, s)
    ensures Sound(PauseDo(p, s))
  {
    hide Sound, PauseDo, PauseCan;
    if s.LockToPause? || s.SetPaused? || s.MarkPaused? {
      PausingKeepsInvariant(p, s);
    } else if s.LockToResume? || s.ClearPaused? {
      ResumingKeepsInvariant(p, s);
    } else {
      ResumedKeepsInvariant(p, s);
    }
  }

  lemma PausingKeepsInvariant(p: Session, s: Step)
    requires Sound(p) && Pauses(s) && PauseCan(p, s) && (s.LockToPause? || s.SetPaused? || s.MarkPaused?)
    ensures Sound(PauseDo(p, s))
  {
    hide P.Invariant;
  }

  lemma ResumingKeepsInvariant(p: Session, s: Step)
    requires Sound(p) && Pauses(s) && PauseCan(p, s) && (s.LockToResume? || s.ClearPaused?)
    ensures Sound(PauseDo(p, s))
  {
    hide P.Invariant;
  }

  lemma ResumedKeepsInvariant(p: Session, s: Step)
    requires Sound(p) && Pauses(s) && PauseCan(p, s) && (s.WakeResumed? || s.MarkResumed?)
    ensures Sound(PauseDo(p, s))
  {
    hide P.Invariant;
  }

  lemma StopKeepsInvariant(p: Session, s: Step)
    requires Sound(p) && Stops(s) && StopCan(p, s)
    ensures Sound(StopDo(p, s))
  {
    hide Sound, StopDo, StopCan;
    if s.LockToStop? || s.Release? {
      StoppingKeepsInvariant(p, s);
    } else {
      JoiningKeepsInvariant(p, s);
    }
  }

  lemma StoppingKeepsInvariant(p: Session, s: Step)
    requires Sound(p) && (s.LockToStop? || s.Release?) && StopCan(p, s)
    ensures Sound(StopDo(p, s))
  {
    hide P.Invariant;
  }

  lemma JoiningKeepsInvariant(p: Session, s: Step)
    requires Sound(p) && (s.WakeAll? || s.Join?) && StopCan(p, s)
    ensures Sound(StopDo(p, s))
  {
    hide P.Invariant;
  }

  lemma CloseKeepsInvariant(p: Session, s: Step)
    requires Sound(p) && Closes(s) && CloseCan(p, s)
    ensures Invariant(CloseDo(p, s))
  {
    hide Sound, CloseDo;
    match s
    case Swap => SwapKeepsInvariant(p);
    case CloseIpc =>
      if p.ipc.up {
        CloseIpcKeepsInvariant(p, p.controller.purpose);
      } else {
        NoIpcKeepsInvariant(p, p.controller.purpose);
      }
    case ClearIpc => ClearIpcKeepsInvariant(p, p.controller.purpose);
    case JoinIpc => JoinIpcKeepsInvariant(p, p.controller.purpose);
    case CloseWs =>
      if p.ws.up {
        CloseWsKeepsInvariant(p, p.controller.purpose);
      } else {
        NoWsKeepsInvariant(p, p.controller.purpose);
      }
    case JoinWs => JoinWsKeepsInvariant(p, p.controller.purpose);
    case ClearWs => ClearWsKeepsInvariant(p, p.controller.purpose);
    case MarkIdle => MarkingKeepsInvariant(p, s);
    case MarkConfigured => MarkingKeepsInvariant(p, s);
  }

  lemma SwapKeepsInvariant(p: Session)
    requires Sound(p) && CloseCan(p, Swap)
    ensures Sound(CloseDo(p, Swap))
  {
    NewPipeIsSound(p.controller.capacity);
    P.RestingPipe(p.pipe);
    hide P.Invariant, P.Initial;
  }

  lemma CloseIpcKeepsInvariant(p: Session, purpose: Purpose)
    requires Sound(p) && p.controller == IpcDown(purpose) && p.ipc.up
    ensures Invariant(CloseDo(p, CloseIpc))
  {
    hide P.Invariant;
  }

  lemma NoIpcKeepsInvariant(p: Session, purpose: Purpose)
    requires Sound(p) && p.controller == IpcDown(purpose) && !p.ipc.up
    ensures Invariant(CloseDo(p, CloseIpc))
  {
    hide P.Invariant;
  }

  lemma ClearIpcKeepsInvariant(p: Session, purpose: Purpose)
    requires Sound(p) && p.controller == IpcClearing(purpose) && CloseCan(p, ClearIpc)
    ensures Invariant(CloseDo(p, ClearIpc))
  {
    hide P.Invariant;
  }

  lemma JoinIpcKeepsInvariant(p: Session, purpose: Purpose)
    requires Sound(p) && p.controller == IpcJoining(purpose) && CloseCan(p, JoinIpc)
    ensures Invariant(CloseDo(p, JoinIpc))
  {
    hide P.Invariant;
  }

  lemma CloseWsKeepsInvariant(p: Session, purpose: Purpose)
    requires Sound(p) && p.controller == WsDown(purpose) && p.ws.up
    ensures Invariant(CloseDo(p, CloseWs))
  {
    hide P.Invariant;
  }

  lemma NoWsKeepsInvariant(p: Session, purpose: Purpose)
    requires Sound(p) && p.controller == WsDown(purpose) && !p.ws.up
    ensures Invariant(CloseDo(p, CloseWs))
  {
    hide P.Invariant;
  }

  lemma JoinWsKeepsInvariant(p: Session, purpose: Purpose)
    requires Sound(p) && p.controller == WsJoining(purpose) && CloseCan(p, JoinWs)
    ensures Invariant(CloseDo(p, JoinWs))
  {
    hide P.Invariant;
  }

  lemma ClearWsKeepsInvariant(p: Session, purpose: Purpose)
    requires Sound(p) && p.controller == WsClearing(purpose) && CloseCan(p, ClearWs)
    ensures Invariant(CloseDo(p, ClearWs))
  {
    hide P.Invariant;
  }

  lemma MarkingKeepsInvariant(p: Session, s: Step)
    requires Sound(p) && (s.MarkIdle? || s.MarkConfigured?) && CloseCan(p, s)
    ensures Invariant(CloseDo(p, s))
  {
    hide P.Invariant;
  }

  lemma StepKeepsInvariant(p: Session, s: Step)
    requires Invariant(p) && Can(p, s)
    ensures Invariant(Do(p, s))
  {
    assert Sound(p) && !p.crashed;
    hide Sound, ReplayDo, ObserveDo, StartDo, PauseDo, StopDo, CloseDo, Begun, AnnouncedBy, Piped, ServerDone;
    hide ReplayCan, ObserveCan, StartCan, PauseCan, StopCan, CloseCan, PipeAllowed, ServerCan, CallerReady, Broadcasts;
    if OfReplay(s) {
      ReplayKeepsInvariant(p, s);
    } else if OfWorker(s) {
      WorkerKeepsInvariant(p, s);
    } else if Starts(s) {
      StartKeepsInvariant(p, s);
    } else if Pauses(s) {
      PauseKeepsInvariant(p, s);
    } else if Stops(s) {
      StopKeepsInvariant(p, s);
    } else if Closes(s) {
      CloseKeepsInvariant(p, s);
    } else {
      match s
      case Begin(caller, command) => BeginKeepsInvariant(p, caller, command);
      case Announce => AnnounceKeepsInvariant(p);
      case Pipe(step) => PipeKeepsInvariant(p, step);
      case Ipc(step) => IpcKeepsInvariant(p, step);
      case Ws(step) => WsKeepsInvariant(p, step);
    }
  }

  /** Every interleaving keeps the invariant. */
  lemma {:induction false} RunKeepsInvariant(p: Session, steps: seq<Step>)
    requires Invariant(p) && Possible(p, steps)
    ensures Invariant(After(p, steps))
    decreases steps
  {
    hide Invariant, Do, Can;
    if steps != [] {
      StepKeepsInvariant(p, steps[0]);
      RunKeepsInvariant(Do(p, steps[0]), steps[1..]);
    }
  }

  lemma EverySessionIsSafe(capacity: nat, steps: seq<Step>)
    requires Possible(Fresh(capacity), steps)
    ensures Invariant(After(Fresh(capacity), steps))
  {
    hide Possible, After;
    NewPipeIsSound(capacity);
    RunKeepsInvariant(Fresh(capacity), steps);
  }

  lemma NewPipeIsSound(capacity: nat)
    ensures var q := P.Initial<Measurement>(capacity, 1);
            && P.Invariant(q) && q.producers == [P.Away] && q.controller.Free? && !q.running && q.worker.Unborn?
  {
  }

  // ---- What a Stop leaves behind -----------------------------------------------------------

  /**
   * A Stop that sets Idle found the running flag set, and returns with the replay thread gone, everything the pipeline
   * took delivered and both servers down, also when that thread was about to write Completed.
   */
  lemma StopIsComplete(p: Session)
    requires Invariant(p) && Can(p, MarkIdle)
    ensures var q := Do(p, MarkIdle);
            && q.status.Idle? && q.replay.Exited? && !q.paused && !q.running && !q.joinable
            && q.pipe.accepted == q.pipe.delivered && q.pipe.contents.queue == []
            && !q.ipc.joinable && !q.ws.joinable && q.controller.Free?
            && !p.ipc.InCommand() && !p.ws.InCommand()
  {
    P.RestingPipe(p.pipe);
    hide P.Invariant;
  }

  /** Between Stop returning and the next command nothing else moves, so the status stays Idle. */
  lemma IdleStays(p: Session, s: Step)
    requires Sound(p) && p.controller.Free? && !p.running && !p.ipc.joinable && !p.ws.joinable
    requires Can(p, s)
    ensures s.Begin?
  {
    P.RestingPipe(p.pipe);
    assert Gone(p.replay);
    if !s.Begin? {
      OnlyIdleSteps(p, s);
    }
    hide P.Invariant, Can;
  }

  lemma OnlyIdleSteps(p: Session, s: Step)
    requires Can(p, s) && p.controller.Free? && !s.Begin?
    ensures if OfReplay(s) then !Gone(p.replay)
            else if s.Ipc? then !p.ipc.thread.Down?
            else if s.Ws? then !p.ws.thread.Down?
            else if OfWorker(s) then !p.observer.Fusing? || p.pipe.worker.Delivering?
            else s.Pipe? && P.Can(p.pipe, s.step) && (P.OfWorker(s.step) || p.replay.InPush? || p.replay.Pushing?)
  {
    hide P.Can;
  }

  // ---- When Stop returns -------------------------------------------------------------------

  /** No server thread is inside a command; in particular the caller of the command under way is none. */
  predicate Unentangled(p: Session) { !p.ipc.InCommand() && !p.ws.InCommand() }

  /** No client's command starts on a server thread. */
  predicate Quiet(steps: seq<Step>) { forall s | s in steps :: s != Ipc(Query) }

  /** The Stop under way ends within these steps by setting Idle. */
  ghost predicate Returns(p: Session, steps: seq<Step>)
    requires Possible(p, steps)
    decreases steps
  {
    steps != [] &&
    (steps[0].MarkIdle? || (InStop(Do(p, steps[0]).controller) && Returns(Do(p, steps[0]), steps[1..])))
  }

  /** Steps a thread may repeat without end: the worker waking spuriously, and another round of a server that is up. */
  predicate Restless(p: Session, s: Step) {
    s == Pipe(P.WakeUp) || (s == Ipc(Loop) && p.ipc.up) || (s == Ws(Loop) && p.ws.up)
  }

  function ReplayRank(r: Replay, inside: P.Producer<Measurement>): nat {
    match r
    case Unborn => 0
    case Exited => 0
    case Announcing => 2
    case Completing => 4
    case Finishing => 6
    case Testing => 8
    case Retesting => 8
    case Checking => 10
    case Locking => 12
    case Woken => 12
    case Asleep => 14
    case InPush =>
      (match inside
       case Away => 0
       case Notifying => 18
       case Inside(_) => 40
       case Entering(_) => 42
       case Asking(_) => 44)
    case Pushing(_) => 50
    case Reading => 52
  }

  function ObserverRank(o: Observer): nat {
    match o case Fusing => 3 case ToClients => 2 case ToSockets => 1 case Done => 0
  }

  function WorkerRank(w: P.Worker<Measurement>, o: Observer): nat {
    match w
    case Unborn => 0
    case Exited => 0
    case Asleep => 3
    case Checking => 6
    case Ready => 7
    case Woken => 7
    case Delivering(_) => 8 + ObserverRank(o)
  }

  function ServerRank(v: Server): nat {
    match v.thread
    case Down => 0
    case Head => 1
    case Serving => 2
    case Commanding => 2
    case Stuck => 2
    case Round => 3
  }

  function PipeControllerRank(c: P.Controller): nat {
    match c
    case Stopping => 4
    case ShuttingDown => 3
    case Waking => 2
    case Joining => 1
    case _ => 0
  }

  function ControllerRank(c: Controller, pipe: P.Controller): nat {
    match c
    case StopLocking => 17
    case StopInside => 16
    case StopWaking => 15
    case StopJoining => 14
    case StoppingPipe(_) => 13
    case JoiningPipe(_) => 8 + PipeControllerRank(pipe)
    case StopAnnouncing => 8
    case IpcDown(_) => 7
    case IpcClearing(_) => 6
    case IpcJoining(_) => 5
    case WsDown(_) => 4
    case WsJoining(_) => 3
    case WsClearing(_) => 2
    case StopMarking => 1
    case _ => 0
  }

  /** A bound on the steps until the Stop under way returns. */
  function Rank(p: Session): nat
    requires |p.pipe.producers| == 1
  {
    20 * ControllerRank(p.controller, p.pipe.controller) + ReplayRank(p.replay, p.pipe.producers[0])
    + PipeRank(p.pipe, p.observer) + ServerRank(p.ipc) + ServerRank(p.ws)
  }

  /** A Stop is under way and no server thread is inside a command. */
  predicate Returning(p: Session) { !p.crashed && InStop(p.controller) && Unentangled(p) }

  predicate Stepping(p: Session, s: Step) { Can(p, s) && Returning(p) && !Restless(p, s) && s != Ipc(Query) }

  /** The Stop goes on from p, and is closer to its return than from a state of rank r. */
  ghost predicate Closer(p: Session, r: nat) { Returning(p) && |p.pipe.producers| == 1 && Rank(p) < r }

  lemma ReplayBringsStopCloser(p: Session, s: Step)
    requires Sound(p) && Returning(p) && OfReplay(s) && ReplayCan(p, s)
    requires s.Test? || s.Read? || s.Finish? || s.Complete? || s.AnnounceCompleted?
    ensures Closer(ReplayDo(p, s), Rank(p))
  {
    hide P.Invariant, WorkerRank, ServerRank, ControllerRank, ServersMatch, PauseMatches;
  }

  lemma PausedReplayBringsStopCloser(p: Session, s: Step)
    requires Sound(p) && Returning(p) && OfReplay(s) && ReplayCan(p, s)
    requires s.LockPause? || s.CheckPause? || s.WakeUp? || s.LockAgain? || s.Retest?
    ensures Closer(ReplayDo(p, s), Rank(p))
  {
    hide P.Invariant, WorkerRank, ServerRank, ControllerRank, ServersMatch, PauseMatches;
  }

  lemma WorkerBringsStopCloser(p: Session, s: Step)
    requires Sound(p) && Returning(p) && OfWorker(s) && ObserveCan(p, s)
    ensures Closer(ObserveDo(p, s), Rank(p))
  {
    hide P.Invariant, ReplayRank, ServerRank, ControllerRank, ReplayMatches, PauseMatches, ServersMatch;
  }

  lemma IpcBringsStopCloser(p: Session, s: ServerStep)
    requires Sound(p) && Returning(p) && ServerCan(p.ipc, s) && !s.Query? && !(s.Loop? && p.ipc.up)
    ensures Closer(p.(ipc := ServerDone(p.ipc, s)), Rank(p))
  {
    hide P.Invariant, ReplayRank, WorkerRank, ControllerRank, ReplayMatches, PauseMatches, WsMatches;
  }

  lemma WsBringsStopCloser(p: Session, s: ServerStep)
    requires Sound(p) && Returning(p) && ServerCan(p.ws, s) && !s.Query? && !(s.Loop? && p.ws.up)
    ensures Closer(p.(ws := ServerDone(p.ws, s)), Rank(p))
  {
    hide P.Invariant, ReplayRank, WorkerRank, ControllerRank, ReplayMatches, PauseMatches, IpcMatches;
  }

  function ProducerRank(r: P.Producer<Measurement>): nat {
    if r.Away? then ReplayRank(Testing, r) else ReplayRank(InPush, r)
  }

  /** What the pipeline's worker and its queue add to the rank. */
  function PipeRank(q: P.Pipeline<Measurement>, o: Observer): nat {
    16 * |q.contents.queue| + WorkerRank(q.worker, o)
  }

  lemma PipeWorkerRanks(q: P.Pipeline<Measurement>, s: P.Step<Measurement>, o: Observer)
    requires P.Invariant(q) && P.Can(q, s) && |q.producers| == 1 && P.OfWorker(s) && s != P.WakeUp
    requires if q.worker.Delivering? then s.Deliver? ==> o.Done? else o.Fusing?
    ensures var r := P.Do(q, s);
            r.producers == q.producers && r.controller == q.controller && PipeRank(r, o) < PipeRank(q, o)
  {
  }

  lemma PipeProducerRanks(q: P.Pipeline<Measurement>, s: P.Step<Measurement>, o: Observer)
    requires P.Invariant(q) && P.Can(q, s) && |q.producers| == 1 && OfProducer(s)
    requires !q.worker.Delivering? ==> o.Fusing?
    ensures var r := P.Do(q, s);
            && |r.producers| == 1 && r.controller == q.controller
            && if s.Call? then ProducerRank(r.producers[0]) + PipeRank(r, o) < 50 + PipeRank(q, o)
               else ProducerRank(r.producers[0]) + PipeRank(r, o) < ProducerRank(q.producers[0]) + PipeRank(q, o)
                    && !q.producers[0].Away?
  {
  }

  lemma PipeControllerRanks(q: P.Pipeline<Measurement>, s: P.Step<Measurement>, o: Observer)
    requires P.Invariant(q) && P.Can(q, s) && |q.producers| == 1
    requires s.Stop? || s.LockToShutDown? || s.ShutDown? || s.WakeAll? || s.Join?
    requires !q.worker.Delivering? ==> o.Fusing?
    ensures var r := P.Do(q, s);
            && r.producers == q.producers && PipeRank(r, o) <= PipeRank(q, o) + 4
            && (!s.Stop? ==> PipeControllerRank(r.controller) < PipeControllerRank(q.controller))
  {
  }

  lemma PipeWorkerBringsStopCloser(p: Session, s: P.Step<Measurement>)
    requires Sound(p) && Returning(p) && PipeAllowed(p, s) && P.Can(p.pipe, s) && P.OfWorker(s) && !s.WakeUp?
    ensures Closer(Piped(p, s), Rank(p))
  {
    PipeWorkerRanks(p.pipe, s, p.observer);
    hide P.Invariant, P.Do, P.Can, ServerRank, PauseMatches, ReplayMatches, ServersMatch;
  }

  lemma PipeProducerBringsStopCloser(p: Session, s: P.Step<Measurement>)
    requires Sound(p) && Returning(p) && PipeAllowed(p, s) && P.Can(p.pipe, s) && OfProducer(s)
    ensures Closer(Piped(p, s), Rank(p))
  {
    PipeProducerRanks(p.pipe, s, p.observer);
    PipeStep(p.pipe, s);
    hide P.Invariant, P.Do, P.Can, ServerRank, PauseMatches, ReplayMatches, ServersMatch, WorkerRank;
  }

  lemma PipeStopBringsStopCloser(p: Session)
    requires Sound(p) && Returning(p) && p.controller == StoppingPipe(ToStop) && p.pipe.running && P.Can(p.pipe, P.Stop)
    ensures Closer(Piped(p, P.Stop), Rank(p))
  {
    PipeControllerRanks(p.pipe, P.Stop, p.observer);
    PipeStep(p.pipe, P.Stop);
    assert Piped(p, P.Stop) == p.(pipe := P.Do(p.pipe, P.Stop), controller := JoiningPipe(ToStop));
    hide P.Invariant, P.Do, P.Can, Piped, Sound, PipeRank, ServerRank, ReplayRank;
  }

  lemma PipeStoppedBringsStopCloser(p: Session)
    requires Sound(p) && Returning(p) && p.controller == StoppingPipe(ToStop)
    requires !p.pipe.running && P.Can(p.pipe, P.Stop)
    ensures Closer(Piped(p, P.Stop), Rank(p))
  {
    PipeControllerRanks(p.pipe, P.Stop, p.observer);
    PipeStep(p.pipe, P.Stop);
    assert Piped(p, P.Stop) == p.(pipe := P.Do(p.pipe, P.Stop), controller := StopAnnouncing);
    hide P.Invariant, P.Do, P.Can, Piped, Sound, PipeRank, ServerRank, ReplayRank;
  }

  lemma PipeJoinBringsStopCloser(p: Session, s: P.Step<Measurement>)
    requires Sound(p) && Returning(p) && p.controller == JoiningPipe(ToStop) && P.Can(p.pipe, s)
    requires s.LockToShutDown? || s.ShutDown? || s.WakeAll? || s.Join?
    ensures Closer(Piped(p, s), Rank(p))
  {
    PipeControllerRanks(p.pipe, s, p.observer);
    PipeStep(p.pipe, s);
    hide P.Invariant, P.Do, P.Can, ServerRank, PauseMatches, ReplayMatches, ServersMatch, WorkerRank, ReplayRank;
  }

  lemma PipeBringsStopCloser(p: Session, s: P.Step<Measurement>)
    requires Sound(p) && Returning(p) && PipeAllowed(p, s) && P.Can(p.pipe, s) && !s.WakeUp?
    ensures Closer(Piped(p, s), Rank(p))
  {
    hide Sound, Piped, P.Can, Rank, Closer;
    if P.OfWorker(s) {
      PipeWorkerBringsStopCloser(p, s);
    } else if OfProducer(s) {
      PipeProducerBringsStopCloser(p, s);
    } else if s.Stop? {
      if p.pipe.running {
        PipeStopBringsStopCloser(p);
      } else {
        PipeStoppedBringsStopCloser(p);
      }
    } else {
      PipeJoinBringsStopCloser(p, s);
    }
  }

  lemma EarlyStopGetsCloser(p: Session, s: Step)
    requires Sound(p) && Returning(p) && Stops(s) && StopCan(p, s)
    ensures Closer(StopDo(p, s), Rank(p))
  {
    hide P.Invariant, WorkerRank, ServerRank, ReplayMatches, ServersMatch;
  }

  lemma AnnouncingGetsCloser(p: Session)
    requires Sound(p) && Returning(p) && p.controller.StopAnnouncing?
    ensures Closer(AnnouncedBy(p), Rank(p))
  {
    hide P.Invariant, WorkerRank, ServerRank, ReplayRank, PauseMatches, ReplayMatches, ServersMatch;
  }

  lemma CloseIpcGetsCloser(p: Session)
    requires Sound(p) && Returning(p) && p.controller == IpcDown(ToStop)
    ensures Closer(CloseDo(p, CloseIpc), Rank(p))
  {
    hide P.Invariant, WorkerRank, ReplayRank, ReplayMatches, PauseMatches, WsMatches;
  }

  lemma IpcGetsCloser(p: Session, s: Step)
    requires Sound(p) && Returning(p) && (s.ClearIpc? || s.JoinIpc?) && CloseCan(p, s)
    ensures Closer(CloseDo(p, s), Rank(p))
  {
    hide P.Invariant, WorkerRank, ReplayRank, ReplayMatches, PauseMatches, WsMatches;
  }

  lemma CloseWsGetsCloser(p: Session)
    requires Sound(p) && Returning(p) && p.controller == WsDown(ToStop)
    ensures Closer(CloseDo(p, CloseWs), Rank(p))
  {
    hide P.Invariant, WorkerRank, ReplayRank, ReplayMatches, PauseMatches, IpcMatches;
  }

  lemma WsGetsCloser(p: Session, s: Step)
    requires Sound(p) && Returning(p) && (s.JoinWs? || s.ClearWs?) && CloseCan(p, s)
    ensures Closer(CloseDo(p, s), Rank(p))
  {
    hide P.Invariant, WorkerRank, ReplayRank, ReplayMatches, PauseMatches, IpcMatches;
  }

  lemma CloseBringsStopCloser(p: Session, s: Step)
    requires Sound(p) && Returning(p) && Closes(s) && CloseCan(p, s) && !s.MarkIdle?
    ensures Closer(CloseDo(p, s), Rank(p))
  {
    hide Sound, CloseDo, Rank, Closer;
    if s.CloseIpc? {
      CloseIpcGetsCloser(p);
    } else if s.CloseWs? {
      CloseWsGetsCloser(p);
    } else if s.ClearIpc? || s.JoinIpc? {
      IpcGetsCloser(p, s);
    } else {
      WsGetsCloser(p, s);
    }
  }

  /** While Stop is under way, every step that is not restless and starts no client's command brings it closer. */
  lemma EveryStepBringsStopCloser(p: Session, s: Step)
    requires Sound(p) && Stepping(p, s) && !s.MarkIdle?
    ensures Closer(Do(p, s), Rank(p))
  {
    assert |p.pipe.producers| == 1;
    OnlyTheseSteps(p, s);
    hide Sound, ReplayDo, ObserveDo, StartDo, PauseDo, StopDo, CloseDo, AnnouncedBy, Piped, ServerDone, Closer, Rank;
    hide StartCan, PauseCan, ReplayCan, ObserveCan, CloseCan, PipeAllowed, ServerCan, CallerReady, Returning;
    if s.LockPause? || s.CheckPause? || s.WakeUp? || s.LockAgain? || s.Retest? {
      PausedReplayBringsStopCloser(p, s);
    } else if OfReplay(s) {
      ReplayBringsStopCloser(p, s);
    } else if OfWorker(s) {
      WorkerBringsStopCloser(p, s);
    } else if Stops(s) {
      EarlyStopGetsCloser(p, s);
    } else if Closes(s) {
      CloseBringsStopCloser(p, s);
    } else {
      match s
      case Announce => AnnouncingGetsCloser(p);
      case Pipe(step) => PipeBringsStopCloser(p, step);
      case Ipc(step) => IpcBringsStopCloser(p, step);
      case Ws(step) => WsBringsStopCloser(p, step);
    }
  }

  lemma OnlyTheseSteps(p: Session, s: Step)
    requires Can(p, s) && InStop(p.controller)
    ensures !Starts(s) && !Pauses(s) && !s.Begin? && (s.Announce? ==> p.controller.StopAnnouncing?)
  {
    hide ReplayCan, ObserveCan, StopCan, CloseCan, PipeAllowed, ServerCan, CallerReady;
  }

  /** The next step of a thread that holds the pipeline's lock or is to take it. */
  function PipeProgress(p: Session): Step
    requires |p.pipe.producers| == 1
  {
    match p.pipe.owner
    case TheWorker => Pipe(P.Check)
    case TheController => if p.pipe.controller.ShuttingDown? then Pipe(P.ShutDown) else Pipe(P.WakeAll)
    case OneProducer(i) => if p.pipe.producers[0].Inside? then Pipe(P.Push(0)) else Pipe(P.Notify(0))
    case Nobody =>
      if p.replay.InPush? then
        if p.pipe.producers[0].Asking? then Pipe(P.ReadRunning(0)) else Pipe(P.LockToPush(0))
      else Pipe(P.LockToShutDown)
  }

  /** The next step of the worker while it drains the queue. */
  function WorkerProgress(p: Session): Step {
    match p.pipe.worker
    case Ready => Pipe(P.LockToPop)
    case Woken => Pipe(P.LockAgain)
    case Checking => Pipe(P.Check)
    case Delivering(_) =>
      (match p.observer
       case Fusing => Fuse(true)
       case ToClients => if p.ipc.Holds() then Ipc(Leave) else NotifyClients
       case ToSockets => if p.ws.Holds() then Ws(Leave) else NotifySockets
       case Done => Pipe(P.Deliver))
    case _ => Pipe(P.Join)
  }

  function ReplayProgress(p: Session): Step
    requires |p.pipe.producers| == 1
  {
    match p.replay
    case Testing => Test
    case Locking => LockPause
    case Checking => CheckPause
    case Woken => LockAgain
    case Asleep => WakeUp
    case Retesting => Retest
    case Reading => Read(EndOfData)
    case Pushing(m) => Pipe(P.Call(0, m))
    case InPush => PipeProgress(p)
    case Finishing => Finish
    case Completing => Complete
    case Announcing => if p.ipc.Holds() then Ipc(Leave) else AnnounceCompleted
    case Unborn => Join
    case Exited => Join
  }

  function ServerProgress(v: Server): ServerStep {
    if v.thread.Round? then Serve else if v.thread.Head? then Loop else Leave
  }

  /** The next step towards the return of the Stop under way. */
  function Progress(p: Session): Step
    requires |p.pipe.producers| == 1
  {
    match p.controller
    case StopLocking => if p.owner.TheReplay? then CheckPause else LockToStop
    case StopInside => Release
    case StopWaking => WakeAll
    case StopJoining => if p.owner.TheReplay? then CheckPause else ReplayProgress(p)
    case StoppingPipe(_) => Pipe(P.Stop)
    case JoiningPipe(_) => if p.pipe.controller.Joining? then WorkerProgress(p) else PipeProgress(p)
    case StopAnnouncing => if p.ipc.Holds() then Ipc(Leave) else Announce
    case IpcDown(_) => CloseIpc
    case IpcClearing(_) => if p.ipc.Holds() then Ipc(Leave) else ClearIpc
    case IpcJoining(_) => if p.ipc.thread.Down? then JoinIpc else Ipc(ServerProgress(p.ipc))
    case WsDown(_) => CloseWs
    case WsJoining(_) => if p.ws.thread.Down? then JoinWs else Ws(ServerProgress(p.ws))
    case WsClearing(_) => ClearWs
    case _ => MarkIdle
  }

  lemma PipeCanStep(p: Session, s: P.Step<Measurement>)
    requires Returning(p) && PipeAllowed(p, s) && P.Can(p.pipe, s) && !s.WakeUp?
    ensures Stepping(p, Pipe(s))
  {
  }

  lemma PushNeverBlocks(p: Session)
    requires Sound(p) && Returning(p) && p.controller.StopJoining? && p.replay.InPush?
    ensures Stepping(p, PipeProgress(p))
  {
    PipeCanStep(p, PipeProgress(p).step);
    hide Stepping, ServersMatch, PauseMatches;
  }

  lemma ReplayNeverBlocks(p: Session)
    requires Sound(p) && Returning(p) && BeforeJoin(p.controller)
    ensures Stepping(p, Progress(p))
  {
    if p.controller.StopJoining? && p.replay.InPush? {
      PushNeverBlocks(p);
    }
    hide P.Invariant, P.Can, ServersMatch, PipeProgress;
  }

  lemma LockNeverBlocks(p: Session)
    requires Sound(p) && Returning(p) && p.controller == JoiningPipe(ToStop) && !p.pipe.controller.Joining?
    ensures Stepping(p, PipeProgress(p))
  {
    PipeCanStep(p, PipeProgress(p).step);
    hide Stepping, ServersMatch, PauseMatches;
  }

  lemma WorkerNeverBlocks(p: Session)
    requires Sound(p) && Returning(p) && p.controller == JoiningPipe(ToStop) && p.pipe.controller.Joining?
    ensures Stepping(p, WorkerProgress(p))
  {
    if WorkerProgress(p).Pipe? {
      PipeCanStep(p, WorkerProgress(p).step);
    }
    hide ServersMatch, PauseMatches;
  }

  lemma ServersNeverBlock(p: Session)
    requires Sound(p) && !p.crashed && For(p.controller, true) && !p.controller.JoiningPipe? && Unentangled(p)
    ensures Stepping(p, Progress(p))
  {
    hide P.Invariant, PauseMatches, ReplayMatches;
  }

  /** No thread that Stop waits for is blocked when no server thread is inside a command. */
  lemma StopNeverBlocks(p: Session)
    requires Sound(p) && !p.crashed && InStop(p.controller) && Unentangled(p)
    ensures Stepping(p, Progress(p))
  {
    hide Sound, Stepping, ReplayProgress, WorkerProgress, PipeProgress, ServerProgress, Unentangled;
    if BeforeJoin(p.controller) {
      ReplayNeverBlocks(p);
    } else if p.controller.JoiningPipe? {
      if p.pipe.controller.Joining? {
        WorkerNeverBlocks(p);
      } else {
        LockNeverBlocks(p);
      }
    } else {
      ServersNeverBlock(p);
    }
  }

  lemma {:induction false} StopCanReturn(p: Session) returns (steps: seq<Step>)
    requires Sound(p) && !p.crashed && InStop(p.controller) && Unentangled(p) && |p.pipe.producers| == 1
    ensures Possible(p, steps) && Quiet(steps) && Returns(p, steps)
    decreases Rank(p)
  {
    var s := Progress(p);
    StopNeverBlocks(p);
    StepKeepsInvariant(p, s);
    if s.MarkIdle? {
      hide Do;
      steps := [s];
      assert steps[1..] == [];
    } else {
      EveryStepBringsStopCloser(p, s);
      hide Can, Do, Sound, InStop, Unentangled, Restless, Rank, Progress;
      var rest := StopCanReturn(Do(p, s));
      steps := [s] + rest;
      assert steps[1..] == rest;
    }
  }

  lemma RestlessStaysReturning(p: Session, s: Step)
    requires Returning(p) && Can(p, s) && Restless(p, s)
    ensures Returning(Do(p, s))
  {
    hide StartCan, PauseCan, ReplayCan, ObserveCan, StopCan, CloseCan, PipeAllowed, CallerReady, Broadcasts, InStop;
    hide ReplayDo, ObserveDo, StartDo, PauseDo, StopDo, CloseDo, Begun, AnnouncedBy, P.Do, P.Can;
  }

  lemma StaysUnentangled(p: Session, s: Step)
    requires Sound(p) && Can(p, s) && InStop(p.controller) && Unentangled(p) && s != Ipc(Query) && !s.MarkIdle?
    ensures var q := Do(p, s); !q.crashed && Sound(q) && InStop(q.controller) && Unentangled(q)
  {
    StepKeepsInvariant(p, s);
    if Restless(p, s) {
      RestlessStaysReturning(p, s);
    } else {
      EveryStepBringsStopCloser(p, s);
    }
    hide Sound, Do, Can;
  }

  /** p can go on, without client commands, to the return of the Stop under way. */
  ghost predicate CanReturn(p: Session) { exists c :: Quiet(c) && Possible(p, c) && Returns(p, c) }

  lemma UnentangledCanReturn(p: Session)
    requires Sound(p) && !p.crashed && InStop(p.controller) && Unentangled(p)
    ensures CanReturn(p)
  {
    assert |p.pipe.producers| == 1;
    var c := StopCanReturn(p);
  }

  /** A run without client commands either contains the return of Stop or can be continued to it. */
  lemma {:induction false} QuietRunCanReturn(p: Session, run: seq<Step>)
    requires Sound(p) && !p.crashed && InStop(p.controller) && Unentangled(p) && Possible(p, run) && Quiet(run)
    ensures Returns(p, run) || CanReturn(After(p, run))
    decreases run
  {
    hide Sound, Do, Can, Unentangled, CanReturn, InStop;
    if run == [] {
      UnentangledCanReturn(p);
    } else if !run[0].MarkIdle? {
      assert run[0] in run;
      StaysUnentangled(p, run[0]);
      assert forall s :: s in run[1..] ==> s in run;
      QuietRunCanReturn(Do(p, run[0]), run[1..]);
    }
  }

  lemma NotMarkedWhileEntangled(p: Session)
    requires Sound(p) && p.controller.StopMarking?
    ensures Unentangled(p)
  {
    hide P.Invariant, PauseMatches, ReplayMatches;
  }

  /** The caller stays the same, and a stuck server thread stays stuck. */
  predicate Follows(p: Session, q: Session) {
    !q.crashed && q.caller == p.caller && (p.ipc.thread.Stuck? ==> q.ipc.thread.Stuck?)
  }

  lemma CloseFollows(p: Session, s: Step)
    requires IpcMatches(p) && !p.crashed && InStop(p.controller) && Closes(s) && CloseCan(p, s)
    ensures Follows(p, CloseDo(p, s))
  {
  }

  lemma PipeFollows(p: Session, s: P.Step<Measurement>)
    requires !p.crashed && P.Can(p.pipe, s)
    ensures Follows(p, Piped(p, s))
  {
    hide P.Do, P.Can;
  }

  lemma OthersFollow(p: Session, s: Step)
    requires InStop(p.controller) && Can(p, s) && !Closes(s) && !s.Pipe?
    ensures Follows(p, Do(p, s))
  {
    OnlyTheseSteps(p, s);
    hide InStop, StartCan, PauseCan, ReplayCan, ObserveCan, StopCan, StartDo, PauseDo, Begun, CloseDo, CloseCan;
    hide Piped, PipeAllowed, P.Do, P.Can;
  }

  lemma StopFollows(p: Session, s: Step)
    requires IpcMatches(p) && InStop(p.controller) && Can(p, s)
    ensures Follows(p, Do(p, s))
  {
    OnlyTheseSteps(p, s);
    hide IpcMatches, InStop, StartCan, PauseCan, ReplayCan, ObserveCan, StopCan, CloseCan, PipeAllowed, Follows;
    hide ReplayDo, ObserveDo, StartDo, PauseDo, StopDo, CloseDo, Begun, AnnouncedBy, Piped, ServerDone;
    if Closes(s) {
      CloseFollows(p, s);
    } else if s.Pipe? {
      PipeFollows(p, s.step);
    } else {
      OthersFollow(p, s);
    }
  }

  lemma EntangledStays(p: Session, s: Step)
    requires Sound(p) && Can(p, s) && InStop(p.controller) && !Unentangled(p) && !s.MarkIdle?
    ensures var q := Do(p, s); InStop(q.controller) ==> !q.crashed && !Unentangled(q)
  {
    StepKeepsInvariant(p, s);
    StopFollows(p, s);
    CallerIsInside(p);
    if InStop(Do(p, s).controller) {
      CallerIsInside(Do(p, s));
    }
    hide Do, Can, PauseMatches, ReplayMatches, PipeMatches, ServersMatch;
  }

  /** With a server thread inside a command, no run of any kind lets the Stop under way return by setting Idle. */
  lemma {:induction false} EntangledNeverReturns(p: Session, run: seq<Step>)
    requires Sound(p) && !p.crashed && InStop(p.controller) && !Unentangled(p) && Possible(p, run)
    ensures !Returns(p, run)
    decreases run
  {
    if run != [] {
      if run[0].MarkIdle? {
        NotMarkedWhileEntangled(p);
      }
      EntangledStays(p, run[0]);
      StepKeepsInvariant(p, run[0]);
      hide Sound, Do, Can, Unentangled;
      if InStop(Do(p, run[0]).controller) {
        EntangledNeverReturns(Do(p, run[0]), run[1..]);
      }
    }
  }

  /** However the threads are scheduled, as long as no client command starts, the Stop under way can return. */
  ghost predicate EveryScheduleReturns(p: Session) {
    forall run | Possible(p, run) && Quiet(run) :: Returns(p, run) || CanReturn(After(p, run))
  }

  /**
   * Every schedule lets a Stop under way return with status Idle exactly when its caller is not a server thread and no
   * server thread is inside a command; otherwise none does.
   */
  lemma StopReturnsExactlyWhenUnentangled(p: Session)
    requires Sound(p) && !p.crashed && InStop(p.controller)
    ensures EveryScheduleReturns(p) <==> Unentangled(p)
    ensures Unentangled(p) <==> p.caller.Outside? && !p.ipc.thread.Stuck?
    ensures !Unentangled(p) ==> forall run | Possible(p, run) :: !Returns(p, run)
  {
    CallerIsInside(p);
    hide Sound, Unentangled;
    if Unentangled(p) {
      forall run | Possible(p, run) && Quiet(run)
        ensures Returns(p, run) || CanReturn(After(p, run))
      {
        QuietRunCanReturn(p, run);
      }
    } else {
      forall run | Possible(p, run) ensures !Returns(p, run) {
        EntangledNeverReturns(p, run);
      }
      assert Possible(p, []) && Quiet([]) && !Returns(p, []) && After(p, []) == p;
    }
  }

  lemma CallerIsInside(p: Session)
    requires Sound(p) && InStop(p.controller)
    ensures Unentangled(p) <==> p.caller.Outside? && !p.ipc.thread.Stuck?
  {
    hide P.Invariant;
  }

  /** A client's command on the local socket during a Stop from outside keeps it from ever returning. */
  lemma QueryBlocksStop(p: Session, run: seq<Step>)
    requires Sound(p) && InStop(p.controller) && Can(p, Ipc(Query)) && Possible(Do(p, Ipc(Query)), run)
    ensures !Returns(Do(p, Ipc(Query)), run)
  {
    StepKeepsInvariant(p, Ipc(Query));
    hide P.Invariant;
    EntangledNeverReturns(Do(p, Ipc(Query)), run);
  }

  /** No step of the run is restless. */
  ghost predicate Restful(p: Session, run: seq<Step>)
    requires Possible(p, run)
    decreases run
  {
    run == [] || (!Restless(p, run[0]) && Restful(Do(p, run[0]), run[1..]))
  }

  /** Such a run of as many steps as the rank contains the return: only restless steps can postpone it further. */
  lemma {:induction false} StopReturns(p: Session, run: seq<Step>)
    requires Sound(p) && !p.crashed && InStop(p.controller) && Unentangled(p) && |p.pipe.producers| == 1
    requires Possible(p, run) && Quiet(run) && Restful(p, run) && |run| >= Rank(p)
    ensures Returns(p, run)
    decreases run
  {
    RankIsPositive(p);
    if !run[0].MarkIdle? {
      assert run[0] in run;
      EveryStepBringsStopCloser(p, run[0]);
      StepKeepsInvariant(p, run[0]);
      hide Sound, Do, Can, Unentangled, Rank, Restless;
      assert forall s :: s in run[1..] ==> s in run;
      StopReturns(Do(p, run[0]), run[1..]);
    }
  }

  lemma RankIsPositive(p: Session)
    requires Sound(p) && InStop(p.controller) && |p.pipe.producers| == 1
    ensures Rank(p) > 0
  {
  }
}
