/** The asynchronous TCP client (cTCPClient_V2.h): senders, a writer thread and a reader thread of
    each session, and the stop hook, over the lifecycle protocol.

    The writer holds `m_outboundMutex` across several steps, because it reads the stop flag, which is
    not stored under that mutex; everybody else's critical section is one step that needs the mutex
    free.  A connection is a fresh token for each successful socket call, and a `send` on it may
    take any number of bytes, be interrupted, or fail, at will. */
module TcpClient {
  import opened Wrappers
  import L = Lifecycle

  type Byte = bv8
  type Buffer = seq<Byte>
  type Connection = nat
  type ThreadId = L.ThreadId

  // ----- Program counters

  /** Inside stopTriggered(). */
  datatype HookPc = HookClose | HookClear | HookNotify | HookDone

  /** Inside preRun(). */
  datatype PrePc = PreClear | PreOpen | PreConnect | PreDone(ok: bool)

  /** Inside run(). */
  datatype RunPc = RunReader | RunWriter | RunJoinReader | RunStop | RunNotify | RunJoinWriter | RunDone

  /** Inside writeLoop(). */
  datatype WriterPc =
    | Unborn
    | Top
    | Acquire                                   // about to lock the mutex (also when woken)
    | ReadStop                                  // locked: the wait predicate reads the flag
    | ReadQueue                                 // locked: ... and then the queue
    | Sleep                                     // locked: the predicate was false
    | Asleep
    | Recheck                                   // locked: the predicate was true
    | Pop                                       // locked: the flag was clear
    | Load(payload: Buffer, sent: nat)          // sendAll: about to load m_socket
    | Send(payload: Buffer, sent: nat, to: Connection)
    | Stop                                      // inside requestStop()
    | Exit

  /** Inside readLoop(). */
  datatype ReaderPc = ReadUnborn | ReadTop | ReadLoad | ReadRecv | ReadStopping | ReadExit

  /** Inside send(); `answer` is what the last call returned. */
  datatype SenderPc = NotSending(answer: Option<bool>) | SendCheck(data: Buffer) | SendPush(data: Buffer) | SendNotify

  predicate HoldsMutex(pc: WriterPc) {
    pc == ReadStop || pc == ReadQueue || pc == Sleep || pc == Recheck || pc == Pop
  }

  predicate Alive(pc: WriterPc) {
    pc != Unborn && pc != Exit
  }

  // ----- State

  datatype Session = Session(pre: PrePc, run: RunPc, writer: WriterPc, reader: ReaderPc)

  datatype Shared = Shared(queue: seq<Buffer>, mutex: Option<ThreadId>, socket: Option<Connection>)

  /** History: the bytes each connection was given; since preRun's clear, the buffers enqueued and
      popped, and the connection opened. */
  datatype Log = Log(
    wire: map<Connection, seq<Byte>>,
    enqueued: seq<Buffer>,
    popped: seq<Buffer>,
    connection: Option<Connection>)

  datatype State = State(
    life: L.State,
    shared: Shared,
    sessions: map<ThreadId, Session>,
    hooks: map<L.Agent, HookPc>,
    senders: map<nat, SenderPc>,
    log: Log)

  const Init := State(L.Init, Shared([], None, None), map[], map[], map[], Log(map[], [], [], None))

  const NewSession := Session(PreClear, RunReader, Unborn, ReadUnborn)

  function Of(s: State, t: ThreadId): Session { if t in s.sessions then s.sessions[t] else NewSession }
  function Hook(s: State, a: L.Agent): HookPc { if a in s.hooks then s.hooks[a] else HookClose }
  function Sender(s: State, i: nat): SenderPc { if i in s.senders then s.senders[i] else NotSending(None) }

  predicate Stopping(s: State) { s.life.core.stopRequested }

  predicate WorkerAt(s: State, t: ThreadId, pc: L.WorkerPc) {
    t in s.life.workers && s.life.workers[t] == pc
  }

  /** The threads of session t call requestStop() as agents of their own. */
  function RunAgent(t: ThreadId): L.Agent { L.Inner(t, 0) }
  function WriterAgent(t: ThreadId): L.Agent { L.Inner(t, 1) }
  function ReaderAgent(t: ThreadId): L.Agent { L.Inner(t, 2) }

  // ----- Steps

  datatype Received = Data | Interrupted | ClosedOrFailed

  datatype Action =
    | Life(x: L.Action)
    | HookMove(a: L.Agent)
    | PreMove(t: ThreadId, ok: bool, conn: Connection)   // `ok`: the socket call of this step succeeds
    | RunMove(t: ThreadId)
    | WriterMove(t: ThreadId)
    | WriterSent(t: ThreadId, count: nat)                // 0 stands for an interrupted call
    | WriterFailed(t: ThreadId)
    | WriterWakes(t: ThreadId)                           // spuriously
    | ReaderMove(t: ThreadId)
    | ReaderReceived(t: ThreadId, what: Received)
    | SendCall(i: nat, data: Buffer)
    | SendMove(i: nat)
    | SendNotifies(i: nat, woken: Option<ThreadId>)      // notify_one

  /** What a lifecycle step must wait for. */
  predicate LifeAllowed(s: State, x: L.Action) {
    match x
    case CallStart(a, _) => a.Controller?
    case CallStop(a, _) => a.Controller?
    case Move(a) => L.Pc(s.life, a).StopHook? ==> Hook(s, a) == HookDone
    case PreRunEnds(t, o) => o.Returns? && Of(s, t).pre == PreDone(o.ok)
    case RunEnds(t, threw) => !threw && Of(s, t).run == RunDone
    case _ => true
  }

  predicate AgentFree(s: State, a: L.Agent) {
    L.Pc(s.life, a).Idle?
  }

  predicate HookEnabled(s: State, a: L.Agent) {
    L.Pc(s.life, a).StopHook? && Hook(s, a) != HookDone && (Hook(s, a) == HookClear ==> s.shared.mutex.None?)
  }

  predicate PreEnabled(s: State, t: ThreadId, conn: Connection) {
    WorkerAt(s, t, L.PreRun) && !Of(s, t).pre.PreDone? && conn !in s.log.wire
    && (Of(s, t).pre == PreClear ==> s.shared.mutex.None?)
  }

  predicate RunEnabled(s: State, t: ThreadId) {
    WorkerAt(s, t, L.InRun) &&
    match Of(s, t).run
    case RunJoinReader => Of(s, t).reader == ReadExit && AgentFree(s, RunAgent(t))
    case RunStop => AgentFree(s, RunAgent(t))
    case RunJoinWriter => Of(s, t).writer == Exit
    case RunDone => false
    case _ => true
  }

  predicate WriterEnabled(s: State, t: ThreadId) {
    match Of(s, t).writer
    case Unborn => false
    case Acquire => s.shared.mutex.None?
    case Asleep => false
    case Pop => s.shared.queue != []
    case Load(_, _) => AgentFree(s, WriterAgent(t))
    case Send(_, _, _) => false
    case Stop => AgentFree(s, WriterAgent(t))
    case Exit => false
    case _ => true
  }

  predicate SentEnabled(s: State, t: ThreadId, count: nat) {
    var w := Of(s, t).writer;
    w.Send? && w.sent + count <= |w.payload| && w.to in s.log.wire
  }

  predicate ReaderEnabled(s: State, t: ThreadId) {
    var r := Of(s, t).reader;
    r == ReadTop || r == ReadLoad || (r == ReadStopping && AgentFree(s, ReaderAgent(t)))
  }

  predicate SendEnabled(s: State, i: nat) {
    Sender(s, i).SendCheck? || (Sender(s, i).SendPush? && s.shared.mutex.None?)
  }

  predicate Enabled(s: State, x: Action) {
    match x
    case Life(y) => L.Enabled(s.life, y) && LifeAllowed(s, y)
    case HookMove(a) => HookEnabled(s, a)
    case PreMove(t, ok, conn) => PreEnabled(s, t, conn)
    case RunMove(t) => RunEnabled(s, t)
    case WriterMove(t) => WriterEnabled(s, t)
    case WriterSent(t, count) => SentEnabled(s, t, count)
    case WriterFailed(t) => Of(s, t).writer.Send? && AgentFree(s, WriterAgent(t))
    case WriterWakes(t) => Of(s, t).writer == Asleep
    case ReaderMove(t) => ReaderEnabled(s, t)
    case ReaderReceived(t, what) => Of(s, t).reader == ReadRecv && AgentFree(s, ReaderAgent(t))
    case SendCall(i, data) => Sender(s, i).NotSending?
    case SendMove(i) => SendEnabled(s, i)
    case SendNotifies(i, woken) =>
      Sender(s, i) == SendNotify &&
      (if woken.Some? then Of(s, woken.value).writer == Asleep else forall t :: t in s.sessions ==> s.sessions[t].writer != Asleep)
  }

  function SetSession(s: State, t: ThreadId, v: Session): State {
    s.(sessions := s.sessions[t := v])
  }

  function SetWriter(s: State, t: ThreadId, pc: WriterPc): State {
    SetSession(s, t, Of(s, t).(writer := pc))
  }

  /** The call of requestStop() by a thread of a session begins: the lifecycle's CallStop step. */
  function CallRequestStop(s: State, a: L.Agent): State {
    s.(life := L.SetPc(s.life, a, L.StopLock(L.RequestOnly)))
  }

  /** notify_all on m_outboundCondition. */
  function WakeWriters(s: State): State {
    s.(sessions := map t | t in s.sessions ::
         if s.sessions[t].writer == Asleep then s.sessions[t].(writer := Acquire) else s.sessions[t])
  }

  function ApplyLife(s: State, x: L.Action): State
    requires L.Enabled(s.life, x)
  {
    s.(life := L.Apply(s.life, x),
       hooks := if x.Move? && L.Pc(s.life, x.a).StopHook? then s.hooks - {x.a} else s.hooks)
  }

  function ApplyHook(s: State, a: L.Agent): State
    requires HookEnabled(s, a)
  {
    match Hook(s, a)
    case HookClose => s.(shared := s.shared.(socket := None), hooks := s.hooks[a := HookClear])
    case HookClear =>
      s.(shared := s.shared.(queue := []), hooks := s.hooks[a := HookNotify])
    case HookNotify => WakeWriters(s).(hooks := s.hooks[a := HookDone])
  }

  function ApplyPre(s: State, t: ThreadId, ok: bool, conn: Connection): State
    requires PreEnabled(s, t, conn)
  {
    var v := Of(s, t);
    match v.pre
    case PreClear =>
      SetSession(s, t, v.(pre := PreOpen)).(
        shared := s.shared.(queue := []), log := Log(s.log.wire, [], [], None))
    case PreOpen =>
      if ok then
        SetSession(s, t, v.(pre := PreConnect)).(
          shared := s.shared.(socket := Some(conn)),
          log := s.log.(connection := Some(conn), wire := s.log.wire[conn := []]))
      else
        SetSession(s, t, v.(pre := PreDone(false)))
    case PreConnect =>
      SetSession(s, t, v.(pre := PreDone(ok))).(shared := if ok then s.shared else s.shared.(socket := None))
  }

  function ApplyRun(s: State, t: ThreadId): State
    requires RunEnabled(s, t)
  {
    var v := Of(s, t);
    match v.run
    case RunReader => SetSession(s, t, v.(reader := ReadTop, run := RunWriter))
    case RunWriter => SetSession(s, t, v.(writer := Top, run := RunJoinReader))
    case RunJoinReader => SetSession(CallRequestStop(s, RunAgent(t)), t, v.(run := RunStop))
    case RunStop => SetSession(s, t, v.(run := RunNotify))
    case RunNotify =>
      var w := WakeWriters(s);
      SetSession(w, t, Of(w, t).(run := RunJoinWriter))
    case RunJoinWriter => SetSession(s, t, v.(run := RunDone))
  }

  function ApplyWriter(s: State, t: ThreadId): State
    requires WriterEnabled(s, t)
  {
    match Of(s, t).writer
    case Top => SetWriter(s, t, if Stopping(s) then Exit else Acquire)
    case Acquire => SetWriter(s, t, ReadStop).(shared := s.shared.(mutex := Some(t)))
    case ReadStop => SetWriter(s, t, if Stopping(s) then Recheck else ReadQueue)
    case ReadQueue => SetWriter(s, t, if s.shared.queue != [] then Recheck else Sleep)
    case Sleep => SetWriter(s, t, Asleep).(shared := s.shared.(mutex := None))
    case Recheck =>
      if Stopping(s) then SetWriter(s, t, Exit).(shared := s.shared.(mutex := None)) else SetWriter(s, t, Pop)
    case Pop =>
      var front := s.shared.queue[0];
      SetWriter(s, t, Load(front, 0)).(
        shared := s.shared.(queue := s.shared.queue[1..], mutex := None),
        log := s.log.(popped := s.log.popped + [front]))
    case Load(payload, sent) =>
      if sent >= |payload| then SetWriter(s, t, Top)
      else if s.shared.socket.Some? then SetWriter(s, t, Send(payload, sent, s.shared.socket.value))
      else SetWriter(CallRequestStop(s, WriterAgent(t)), t, Stop)
    case Stop => SetWriter(s, t, Exit)
  }

  function ApplySent(s: State, t: ThreadId, count: nat): State
    requires SentEnabled(s, t, count)
  {
    var w := Of(s, t).writer;
    SetWriter(s, t, Load(w.payload, w.sent + count)).(
      log := s.log.(wire := s.log.wire[w.to := s.log.wire[w.to] + w.payload[w.sent..w.sent + count]]))
  }

  function ApplyReader(s: State, t: ThreadId): State
    requires ReaderEnabled(s, t)
  {
    var v := Of(s, t);
    match v.reader
    case ReadTop => SetSession(s, t, v.(reader := if Stopping(s) then ReadExit else ReadLoad))
    case ReadLoad => SetSession(s, t, v.(reader := if s.shared.socket.Some? then ReadRecv else ReadExit))
    case ReadStopping => SetSession(s, t, v.(reader := ReadExit))
  }

  function ApplyReceived(s: State, t: ThreadId, what: Received): State {
    if what.ClosedOrFailed?
    then SetSession(CallRequestStop(s, ReaderAgent(t)), t, Of(s, t).(reader := ReadStopping))
    else SetSession(s, t, Of(s, t).(reader := ReadTop))
  }

  function ApplySend(s: State, i: nat): State
    requires SendEnabled(s, i)
  {
    match Sender(s, i)
    case SendCheck(data) =>
      var running := s.life.core.state == L.Starting || s.life.core.state == L.Running;
      s.(senders := s.senders[i := if data != [] && running then SendPush(data) else NotSending(Some(false))])
    case SendPush(data) =>
      s.(shared := s.shared.(queue := s.shared.queue + [data]),
         log := s.log.(enqueued := s.log.enqueued + [data]),
         senders := s.senders[i := SendNotify])
  }

  function ApplyNotifyOne(s: State, i: nat, woken: Option<ThreadId>): State {
    (if woken.Some? then SetWriter(s, woken.value, Acquire) else s).(senders := s.senders[i := NotSending(Some(true))])
  }

  function Apply(s: State, x: Action): State
    requires Enabled(s, x)
  {
    match x
    case Life(y) => ApplyLife(s, y)
    case HookMove(a) => ApplyHook(s, a)
    case PreMove(t, ok, conn) => ApplyPre(s, t, ok, conn)
    case RunMove(t) => ApplyRun(s, t)
    case WriterMove(t) => ApplyWriter(s, t)
    case WriterSent(t, count) => ApplySent(s, t, count)
    case WriterFailed(t) => SetWriter(CallRequestStop(s, WriterAgent(t)), t, Stop)
    case WriterWakes(t) => SetWriter(s, t, Acquire)
    case ReaderMove(t) => ApplyReader(s, t)
    case ReaderReceived(t, what) => ApplyReceived(s, t, what)
    case SendCall(i, data) => s.(senders := s.senders[i := SendCheck(data)])
    case SendMove(i) => ApplySend(s, i)
    case SendNotifies(i, woken) => ApplyNotifyOne(s, i, woken)
  }

  ghost predicate IsRun(states: seq<State>, actions: seq<Action>) {
    && |states| == |actions| + 1
    && states[0] == Init
    && forall i {:trigger actions[i]} :: 0 <= i < |actions| ==>
         Enabled(states[i], actions[i]) && states[i + 1] == Apply(states[i], actions[i])
  }
}
