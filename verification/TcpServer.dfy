/** The TCP server's client sessions (cTCPServer_V2.h): the accepting run() of each worker thread, the
    handler thread of each client, and the stop hook, over the lifecycle protocol.

    Descriptors are unique tokens.  Whether accept() delivers a descriptor, is interrupted, fails or
    finds the listening socket gone is up to the environment, and so is the moment a handler's
    receive loop ends. */
module TcpServer {
  import opened Wrappers
  import L = Lifecycle

  type ThreadId = L.ThreadId
  type Descriptor = nat

  /** Where the record of an accepted descriptor lives. */
  datatype Place =
    | Local(t: ThreadId)                        // only in run()'s variable
    | Listed(t: ThreadId)                       // a node of m_clients
    | Taken(t: ThreadId)                        // a node of run()'s own list
    | Destroyed                                 // the node is gone
    | Rejected(t: ThreadId, noThread: bool)     // no session: the node, or its thread, could not be made
    | Refused(noThread: bool)                   // ... and run() has closed the descriptor

  /** Inside handleClient(); a handler that has stored `completed` has still to return from its thread. */
  datatype HandlerPc = NotStarted | Receiving | Completing | Completed | Exited

  predicate HasCompleted(pc: HandlerPc) {
    pc == Completed || pc == Exited
  }

  /** `open`: the session's atomic socket still holds the descriptor.  `closes` and `joins` count. */
  datatype Client = Client(place: Place, handler: HandlerPc, open: bool, closes: nat, joins: nat)

  /** Inside run(). */
  datatype RunPc =
    | Top
    | ReapLock
    | ReapScan(i: nat, taken: seq<Descriptor>)                      // holding the mutex
    | Drain(list: seq<Descriptor>, j: nat, closed: bool, last: bool)
    | Accept
    | FailStop                                                      // inside requestStop()
    | StartLock(c: Descriptor)
    | SpawnHandler(c: Descriptor)                                   // holding the mutex
    | RefuseClose(c: Descriptor)
    | FinalLock
    | Done

  /** Inside stopTriggered(), after it closed the listening socket. */
  datatype HookPc = HookLock | HookScan(i: nat) | HookDone

  datatype Owner = Runner(t: ThreadId) | Hooker(a: L.Agent)

  /** `clients` is m_clients, `mutex` the owner of m_clientsMutex. */
  datatype Server = Server(clients: seq<Descriptor>, mutex: Option<Owner>)

  datatype State = State(
    life: L.State,
    server: Server,
    runs: map<ThreadId, RunPc>,
    hooks: map<L.Agent, HookPc>,
    all: map<Descriptor, Client>)

  const Init := State(L.Init, Server([], None), map[], map[], map[])

  function Run(s: State, t: ThreadId): RunPc { if t in s.runs then s.runs[t] else Top }
  function Hook(s: State, a: L.Agent): HookPc { if a in s.hooks then s.hooks[a] else HookLock }

  predicate WorkerAt(s: State, t: ThreadId, pc: L.WorkerPc) {
    t in s.life.workers && s.life.workers[t] == pc
  }

  function RunAgent(t: ThreadId): L.Agent { L.Inner(t, 0) }

  predicate AgentFree(s: State, a: L.Agent) {
    L.Pc(s.life, a).Idle?
  }

  /** closeSocket(session.socket): only the first exchange finds the descriptor and closes it. */
  function CloseOnce(c: Client): Client {
    if c.open then c.(open := false, closes := c.closes + 1) else c
  }

  // ----- Steps

  /** accept() was interrupted, or failed, or run() found the listening socket gone. */
  datatype AcceptEnd = Interrupted | Failed | NoSocket

  datatype Action =
    | Life(x: L.Action)
    | RunMove(t: ThreadId)
    | Accepts(t: ThreadId, c: Descriptor)
    | AcceptEnds(t: ThreadId, why: AcceptEnd)
    | NodeFails(t: ThreadId)                       // emplace_back throws
    | SpawnFails(t: ThreadId)                      // std::thread throws
    | HookMove(a: L.Agent)
    | HandlerMove(c: Descriptor)

  predicate LifeAllowed(s: State, x: L.Action) {
    match x
    case CallStart(a, _) => a.Controller?
    case CallStop(a, _) => a.Controller?
    case Move(a) => L.Pc(s.life, a).StopHook? ==> Hook(s, a) == HookDone
    case RunEnds(t, threw) => !threw && Run(s, t) == Done
    case _ => true
  }

  predicate RunEnabled(s: State, t: ThreadId) {
    WorkerAt(s, t, L.InRun) &&
    match Run(s, t)
    case ReapLock => s.server.mutex.None?
    case ReapScan(i, _) => i < |s.server.clients| ==> s.server.clients[i] in s.all
    case Drain(list, j, closed, _) =>
      j < |list| ==> list[j] in s.all && (closed ==> s.all[list[j]].handler == Exited)
    case Accept => false
    case FailStop => AgentFree(s, RunAgent(t))
    case StartLock(c) => s.server.mutex.None? && c in s.all
    case SpawnHandler(c) => c in s.all
    case RefuseClose(c) => c in s.all
    case FinalLock => s.server.mutex.None?
    case Done => false
    case _ => true
  }

  predicate HookEnabled(s: State, a: L.Agent) {
    L.Pc(s.life, a).StopHook? &&
    match Hook(s, a)
    case HookLock => s.server.mutex.None?
    case HookScan(i) => i < |s.server.clients| ==> s.server.clients[i] in s.all
    case HookDone => false
  }

  predicate Enabled(s: State, x: Action) {
    match x
    case Life(y) => L.Enabled(s.life, y) && LifeAllowed(s, y)
    case RunMove(t) => RunEnabled(s, t)
    case Accepts(t, c) => WorkerAt(s, t, L.InRun) && Run(s, t) == Accept && c !in s.all
    case AcceptEnds(t, _) => WorkerAt(s, t, L.InRun) && Run(s, t) == Accept && AgentFree(s, RunAgent(t))
    case NodeFails(t) =>
      WorkerAt(s, t, L.InRun) && Run(s, t).StartLock? && s.server.mutex.None? && Run(s, t).c in s.all
    case SpawnFails(t) =>
      WorkerAt(s, t, L.InRun) && Run(s, t).SpawnHandler? && Run(s, t).c in s.all && s.server.clients != []
    case HookMove(a) => HookEnabled(s, a)
    case HandlerMove(c) => c in s.all && s.all[c].handler != NotStarted && s.all[c].handler != Exited
  }

  function SetRun(s: State, t: ThreadId, pc: RunPc): State {
    s.(runs := s.runs[t := pc])
  }

  function SetClient(s: State, c: Descriptor, v: Client): State {
    s.(all := s.all[c := v])
  }

  function WithoutAt(list: seq<Descriptor>, i: nat): seq<Descriptor>
    requires i < |list|
  {
    list[..i] + list[i + 1..]
  }

  function Relocated(s: State, list: seq<Descriptor>, place: Place): map<Descriptor, Client> {
    map c | c in s.all :: if c in list then s.all[c].(place := place) else s.all[c]
  }

  function ApplyScan(s: State, t: ThreadId, i: nat, taken: seq<Descriptor>): State
    requires i < |s.server.clients| ==> s.server.clients[i] in s.all
  {
    if i < |s.server.clients| then
      var c := s.server.clients[i];
      if HasCompleted(s.all[c].handler) then
        SetClient(SetRun(s, t, ReapScan(i, taken + [c])), c, s.all[c].(place := Taken(t))).(
          server := s.server.(clients := WithoutAt(s.server.clients, i)))
      else
        SetRun(s, t, ReapScan(i + 1, taken))
    else
      SetRun(s, t, Drain(taken, 0, false, false)).(server := s.server.(mutex := None))
  }

  function ApplyDrain(s: State, t: ThreadId, pc: RunPc): State
    requires pc.Drain? && (pc.j < |pc.list| ==> pc.list[pc.j] in s.all)
  {
    if pc.j < |pc.list| then
      var c := pc.list[pc.j];
      if pc.closed then
        SetClient(SetRun(s, t, pc.(j := pc.j + 1, closed := false)), c, s.all[c].(joins := s.all[c].joins + 1))
      else
        SetClient(SetRun(s, t, pc.(closed := true)), c, CloseOnce(s.all[c]))
    else
      SetRun(s, t, if pc.last then Done else Accept).(all := Relocated(s, pc.list, Destroyed))
  }

  function ApplyRun(s: State, t: ThreadId): State
    requires RunEnabled(s, t)
  {
    match Run(s, t)
    case Top => SetRun(s, t, if s.life.core.stopRequested then FinalLock else ReapLock)
    case ReapLock => SetRun(s, t, ReapScan(0, [])).(server := s.server.(mutex := Some(Runner(t))))
    case ReapScan(i, taken) => ApplyScan(s, t, i, taken)
    case Drain(_, _, _, _) => ApplyDrain(s, t, Run(s, t))
    case FailStop => SetRun(s, t, FinalLock)
    case StartLock(c) =>
      SetClient(SetRun(s, t, SpawnHandler(c)), c, s.all[c].(place := Listed(t))).(
        server := Server(s.server.clients + [c], Some(Runner(t))))
    case SpawnHandler(c) =>
      SetClient(SetRun(s, t, Top), c, s.all[c].(handler := Receiving)).(server := s.server.(mutex := None))
    case RefuseClose(c) =>
      var v := s.all[c];
      SetClient(SetRun(s, t, Top), c,
                v.(closes := v.closes + 1, place := Refused(v.place.Rejected? && v.place.noThread)))
    case FinalLock =>
      SetRun(s, t, Drain(s.server.clients, 0, false, true)).(
        server := s.server.(clients := []), all := Relocated(s, s.server.clients, Taken(t)))
  }

  function ApplyAcceptEnds(s: State, t: ThreadId, why: AcceptEnd): State {
    var stop := s.life.core.stopRequested;
    if why == Interrupted && !stop then SetRun(s, t, Top)
    else if why == NoSocket || stop then SetRun(s, t, FinalLock)
    else SetRun(s.(life := L.SetPc(s.life, RunAgent(t), L.StopLock(L.RequestOnly))), t, FailStop)
  }

  function ApplySpawnFails(s: State, t: ThreadId): State
    requires Enabled(s, SpawnFails(t))
  {
    var c := Run(s, t).c;
    SetClient(SetRun(s, t, RefuseClose(c)), c, CloseOnce(s.all[c]).(place := Rejected(t, true))).(
      server := Server(s.server.clients[..|s.server.clients| - 1], None))
  }

  function ApplyHook(s: State, a: L.Agent): State
    requires HookEnabled(s, a)
  {
    match Hook(s, a)
    case HookLock => s.(hooks := s.hooks[a := HookScan(0)], server := s.server.(mutex := Some(Hooker(a))))
    case HookScan(i) =>
      if i < |s.server.clients| then
        var c := s.server.clients[i];
        SetClient(s, c, CloseOnce(s.all[c])).(hooks := s.hooks[a := HookScan(i + 1)])
      else
        s.(hooks := s.hooks[a := HookDone], server := s.server.(mutex := None))
  }

  function ApplyHandler(s: State, c: Descriptor): State
    requires Enabled(s, HandlerMove(c))
  {
    match s.all[c].handler
    case Receiving => SetClient(s, c, CloseOnce(s.all[c]).(handler := Completing))
    case Completing => SetClient(s, c, s.all[c].(handler := Completed))
    case Completed => SetClient(s, c, s.all[c].(handler := Exited))
  }

  function ApplyLife(s: State, x: L.Action): State
    requires L.Enabled(s.life, x)
  {
    s.(life := L.Apply(s.life, x),
       hooks := if x.Move? && L.Pc(s.life, x.a).StopHook? then s.hooks - {x.a} else s.hooks)
  }

  function Apply(s: State, x: Action): State
    requires Enabled(s, x)
  {
    match x
    case Life(y) => ApplyLife(s, y)
    case RunMove(t) => ApplyRun(s, t)
    case Accepts(t, c) => SetClient(SetRun(s, t, StartLock(c)), c, Client(Local(t), NotStarted, true, 0, 0))
    case AcceptEnds(t, why) => ApplyAcceptEnds(s, t, why)
    case NodeFails(t) =>
      var c := Run(s, t).c;
      SetClient(SetRun(s, t, RefuseClose(c)), c, s.all[c].(place := Rejected(t, false)))
    case SpawnFails(t) => ApplySpawnFails(s, t)
    case HookMove(a) => ApplyHook(s, a)
    case HandlerMove(c) => ApplyHandler(s, c)
  }

  ghost predicate IsRun(states: seq<State>, actions: seq<Action>) {
    && |states| == |actions| + 1
    && states[0] == Init
    && forall i {:trigger actions[i]} :: 0 <= i < |actions| ==>
         Enabled(states[i], actions[i]) && states[i + 1] == Apply(states[i], actions[i])
  }
}
