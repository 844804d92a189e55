/** The start handshake of the HTTP server (cHTTPServer.cpp): who resolves the outcome of a start, and
    who waits for it, over the lifecycle protocol.

    The library's start() calls the listening callback and returns or throws at will; its stop()
    returns.  A resolution is one locked step; its notify_all comes later, as a step of its own. */
module StartHandshake {
  import opened Wrappers
  import L = Lifecycle

  type ThreadId = L.ThreadId

  /** The guarded start fields; `notifies` counts resolutions whose notify_all is still to come. */
  datatype Start = Start(resolved: bool, succeeded: bool, port: nat, notifies: nat)

  const Unresolved := Start(false, false, 0, 0)

  function Reset(d: Start): Start {
    d.(resolved := false, succeeded := false, port := 0)
  }

  function Resolve(d: Start, success: bool, port: nat): Start {
    if d.resolved then d else Start(true, success, if success then port else 0, d.notifies + 1)
  }

  /** The start fields as the object holds them. */
  class StartState {
    var startResolved: bool
    var startSucceeded: bool
    var listeningPort: nat
    var notifies: nat

    ghost function Fields(): Start
      reads this
    {
      Start(startResolved, startSucceeded, listeningPort, notifies)
    }

    constructor ()
      ensures Fields() == Unresolved
    {
      startResolved, startSucceeded, listeningPort, notifies := false, false, 0, 0;
    }

    method ResetStartState()
      modifies this
      ensures Fields() == Reset(old(Fields()))
    {
      startResolved := false;
      startSucceeded := false;
      listeningPort := 0;
    }

    method ResolveStartIfPending(success: bool, port: nat)
      modifies this
      ensures Fields() == Resolve(old(Fields()), success, port)
      ensures startResolved
    {
      if startResolved {
        return;
      }
      startResolved := true;
      startSucceeded := success;
      listeningPort := if success then port else 0;
      notifies := notifies + 1;
    }
  }

  // ----- Program counters

  /** Inside cHTTPServer::startThread; `answer` is what the last call returned. */
  datatype StarterPc = NotStarting(answer: Option<bool>) | Resetting(zero: bool) | Base(zero: bool) | Waiting | Asleep

  /** Inside preRun() and then run(). */
  datatype Progress =
    | PreBuild
    | PreResolve                 // preRun() caught an exception
    | PreReset
    | PreDone(ok: bool)          // also: run() about to look at the server
    | RunNull                    // run() found no server
    | Serving                    // inside the library's start()
    | RunAfter(threw: bool)      // start() returned or threw
    | RunReset
    | RunDone(threw: bool)

  /** Inside stopTriggered(). */
  datatype HookPc = HookStop | HookResolve | HookDone

  /** `armed` is history: the thread spawned since the last reset, if any. */
  datatype State = State(
    life: L.State,
    start: Start,
    starters: map<L.Agent, StarterPc>,
    progress: map<ThreadId, Progress>,
    hooks: map<L.Agent, HookPc>,
    armed: Option<ThreadId>)

  const Init := State(L.Init, Unresolved, map[], map[], map[], None)

  function Starter(s: State, a: L.Agent): StarterPc { if a in s.starters then s.starters[a] else NotStarting(None) }
  function At(s: State, t: ThreadId): Progress { if t in s.progress then s.progress[t] else PreBuild }
  function Hook(s: State, a: L.Agent): HookPc { if a in s.hooks then s.hooks[a] else HookStop }

  predicate Stopping(s: State) { s.life.core.stopRequested }

  predicate WorkerAt(s: State, t: ThreadId, pc: L.WorkerPc) {
    t in s.life.workers && s.life.workers[t] == pc
  }

  // ----- Steps

  datatype Action =
    | Life(x: L.Action)
    | CallStart(a: L.Agent, zero: bool)
    | StartMove(a: L.Agent)
    | WaitTimeout(a: L.Agent)
    | WaitWakes(a: L.Agent)                    // spuriously
    | NotifyStart
    | PreMove(t: ThreadId, ok: bool)
    | RunMove(t: ThreadId, found: bool)
    | Listens(t: ThreadId, port: nat)          // the listening callback
    | ServeEnds(t: ThreadId, threw: bool)
    | HookMove(a: L.Agent)

  predicate LifeAllowed(s: State, x: L.Action) {
    match x
    case CallStart(_, _) => false
    case CallStop(a, _) => Starter(s, a).NotStarting?
    case Move(a) => L.Pc(s.life, a).StopHook? ==> Hook(s, a) == HookDone
    case PreRunEnds(t, o) => o.Returns? && At(s, t) == PreDone(o.ok)
    case RunEnds(t, threw) => At(s, t) == RunDone(threw)
    case _ => true
  }

  predicate Enabled(s: State, x: Action) {
    match x
    case Life(y) => L.Enabled(s.life, y) && LifeAllowed(s, y)
    case CallStart(a, _) => Starter(s, a).NotStarting? && L.Pc(s.life, a).Idle?
    case StartMove(a) =>
      Starter(s, a).Resetting? || Starter(s, a).Waiting?
      || (Starter(s, a).Base? && L.Pc(s.life, a).Idle?)
    case WaitTimeout(a) => Starter(s, a) == Asleep
    case WaitWakes(a) => Starter(s, a) == Asleep
    case NotifyStart => s.start.notifies > 0
    case PreMove(t, _) => WorkerAt(s, t, L.PreRun) && (At(s, t).PreBuild? || At(s, t).PreResolve? || At(s, t).PreReset?)
    case RunMove(t, _) =>
      WorkerAt(s, t, L.InRun) && (At(s, t).PreDone? || At(s, t).RunNull? || At(s, t).RunAfter? || At(s, t).RunReset?)
    case Listens(t, _) => WorkerAt(s, t, L.InRun) && At(s, t) == Serving
    case ServeEnds(t, _) => WorkerAt(s, t, L.InRun) && At(s, t) == Serving
    case HookMove(a) => L.Pc(s.life, a).StopHook? && Hook(s, a) != HookDone
  }

  function SetStarter(s: State, a: L.Agent, pc: StarterPc): State {
    s.(starters := s.starters[a := pc])
  }

  function SetProgress(s: State, t: ThreadId, pc: Progress): State {
    s.(progress := s.progress[t := pc])
  }

  function Resolved(s: State, success: bool, port: nat): State {
    s.(start := Resolve(s.start, success, port))
  }

  /** A spawn arms the handshake. */
  function ApplyLife(s: State, x: L.Action): State
    requires L.Enabled(s.life, x)
  {
    s.(life := L.Apply(s.life, x),
       hooks := if x.Move? && L.Pc(s.life, x.a).StopHook? then s.hooks - {x.a} else s.hooks,
       armed := if x.Spawn? then Some(x.t) else s.armed)
  }

  function ApplyStart(s: State, a: L.Agent): State
    requires Enabled(s, StartMove(a))
  {
    match Starter(s, a)
    case Resetting(zero) =>
      SetStarter(s, a, Base(zero)).(
        start := Reset(s.start), armed := None, life := L.SetPc(s.life, a, L.StartTake(true)))
    case Base(zero) =>
      SetStarter(s, a, if L.Pc(s.life, a).last != L.StartReturned(true) then NotStarting(Some(false))
                       else if zero then NotStarting(Some(true)) else Waiting)
    case Waiting => SetStarter(s, a, if s.start.resolved then NotStarting(Some(s.start.succeeded)) else Asleep)
  }

  function ApplyPre(s: State, t: ThreadId, ok: bool): State
    requires Enabled(s, PreMove(t, ok))
  {
    match At(s, t)
    case PreBuild => SetProgress(s, t, if ok then PreDone(true) else PreResolve)
    case PreResolve => SetProgress(Resolved(s, false, 0), t, PreReset)
    case PreReset => SetProgress(s, t, PreDone(false))
  }

  function ApplyRun(s: State, t: ThreadId, found: bool): State
    requires Enabled(s, RunMove(t, found))
  {
    match At(s, t)
    case PreDone(_) => SetProgress(s, t, if found then Serving else RunNull)
    case RunNull => SetProgress(Resolved(s, false, 0), t, RunDone(false))
    case RunAfter(threw) => SetProgress(Resolved(s, false, 0), t, if threw then RunDone(true) else RunReset)
    case RunReset => SetProgress(s, t, RunDone(false))
  }

  function WakeStarters(s: State): State {
    s.(starters := map a | a in s.starters :: if s.starters[a] == Asleep then Waiting else s.starters[a])
  }

  function Apply(s: State, x: Action): State
    requires Enabled(s, x)
  {
    match x
    case Life(y) => ApplyLife(s, y)
    case CallStart(a, zero) => SetStarter(s, a, Resetting(zero))
    case StartMove(a) => ApplyStart(s, a)
    case WaitTimeout(a) => SetStarter(s, a, NotStarting(Some(s.start.resolved && s.start.succeeded)))
    case WaitWakes(a) => SetStarter(s, a, Waiting)
    case NotifyStart => WakeStarters(s).(start := s.start.(notifies := s.start.notifies - 1))
    case PreMove(t, ok) => ApplyPre(s, t, ok)
    case RunMove(t, found) => ApplyRun(s, t, found)
    case Listens(t, port) => Resolved(s, true, port)
    case ServeEnds(t, threw) => SetProgress(s, t, RunAfter(threw))
    case HookMove(a) =>
      if Hook(s, a) == HookStop then s.(hooks := s.hooks[a := HookResolve])
      else Resolved(s, false, 0).(hooks := s.hooks[a := HookDone])
  }

  ghost predicate IsRun(states: seq<State>, actions: seq<Action>) {
    && |states| == |actions| + 1
    && states[0] == Init
    && forall i {:trigger actions[i]} :: 0 <= i < |actions| ==>
         Enabled(states[i], actions[i]) && states[i + 1] == Apply(states[i], actions[i])
  }
}
