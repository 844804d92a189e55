/** The asynchronous gRPC engine (cGenericGrpcWorker.h): `CallData` objects, the completion queue and
    the event loop of run(), over the lifecycle protocol.

    The queue delivers each posted operation once, and reports SHUTDOWN only when it was shut down and
    is drained; the operation of a listener fails only once the server was shut down.  An iteration
    of the event loop is one step: it reads the stop flag at most once, and nobody else touches the
    objects.  A tag stands for one object and is never reused. */
module GrpcEngine {
  import opened Wrappers
  import L = Lifecycle

  type ThreadId = L.ThreadId
  type Tag = nat

  datatype CallStatus = Create | Process | Finish | Deleted

  /** How the client was answered: with the handler's status, or INTERNAL because it threw. */
  datatype Reply = NoReply | FromHandler | Internal

  /** A CallData object, with counts of what happened to it. */
  datatype Call = Call(status: CallStatus, handled: nat, finishes: nat, deletes: nat, reply: Reply)

  const NewCall := Call(Create, 0, 0, 0, NoReply)

  /** What Proceed() does to the object, besides arming the next listener. */
  function Proceeded(c: Call, throws: bool): Call {
    match c.status
    case Create => c.(status := Process)
    case Process =>
      c.(status := Finish, handled := c.handled + 1, finishes := c.finishes + 1, reply := if throws then Internal else FromHandler)
    case _ => Discarded(c)
  }

  function Discarded(c: Call): Call {
    c.(status := Deleted, deletes := c.deletes + 1)
  }

  /** The object itself; `posted` says whether Proceed() posted an operation with this object as tag. */
  class CallData {
    var status: CallStatus
    var handled: nat
    var finishes: nat
    var deletes: nat
    var reply: Reply

    ghost function Fields(): Call
      reads this
    {
      Call(status, handled, finishes, deletes, reply)
    }

    /** The constructor arms the listener by calling Proceed(). */
    constructor ()
      ensures Fields() == Proceeded(NewCall, false)
    {
      status, handled, finishes, deletes, reply := Create, 0, 0, 0, NoReply;
      new;
      var posted, armNext := Proceed(false, false);
    }

    method Proceed(continueRunning: bool, throws: bool) returns (posted: bool, armNext: bool)
      modifies this
      ensures Fields() == Proceeded(old(Fields()), throws)
      ensures posted <==> old(status) == Create || old(status) == Process
      ensures armNext <==> old(status) == Process && continueRunning
    {
      posted, armNext := false, false;
      if status == Create {
        status := Process;
        posted := true;
      } else if status == Process {
        armNext := continueRunning;
        handled := handled + 1;
        reply := if throws then Internal else FromHandler;
        status := Finish;
        finishes := finishes + 1;
        posted := true;
      } else {
        status := Deleted;
        deletes := deletes + 1;
      }
    }
  }

  // ----- State

  /** `fault`: an event was delivered for an object that does not exist any more. */
  datatype Engine = Engine(all: map<Tag, Call>, outstanding: multiset<Tag>, listener: Option<Tag>, fault: bool)

  /** How far session t has come: its server and queue built, its loop entered, its queue drained. */
  datatype Progress = Building | Built | Looping | Drained

  /** Inside stopTriggered(). */
  datatype HookPc = HookServer | HookQueue | HookDone

  datatype State = State(
    life: L.State,
    engine: Engine,
    serverShut: bool,
    queueShut: bool,
    progress: map<ThreadId, Progress>,
    hooks: map<L.Agent, HookPc>)

  const Init := State(L.Init, Engine(map[], multiset{}, None, false), false, false, map[], map[])

  function Hook(s: State, a: L.Agent): HookPc { if a in s.hooks then s.hooks[a] else HookServer }
  function At(s: State, t: ThreadId): Progress { if t in s.progress then s.progress[t] else Building }

  predicate Stopping(s: State) { s.life.core.stopRequested }

  predicate WorkerAt(s: State, t: ThreadId, pc: L.WorkerPc) {
    t in s.life.workers && s.life.workers[t] == pc
  }

  // ----- Steps

  datatype Action =
    | Life(x: L.Action)
    | HookMove(a: L.Agent)
    | Build(t: ThreadId)                                   // preRun() makes a new server and queue
    | Arm(t: ThreadId, tag: Tag)                           // run() arms the first listener
    | Deliver(t: ThreadId, tag: Tag, ok: bool, next: Tag, throws: bool)
    | SeesShutdown(t: ThreadId)

  predicate LifeAllowed(s: State, x: L.Action) {
    match x
    case Move(a) => L.Pc(s.life, a).StopHook? ==> Hook(s, a) == HookDone
    case PreRunEnds(t, o) => o.Returns? && (o.ok ==> At(s, t) == Built)
    case RunEnds(t, threw) => !threw && At(s, t) == Drained
    case _ => true
  }

  /** The queue's promise about an event. */
  predicate Deliverable(s: State, tag: Tag, ok: bool) {
    && tag in s.engine.outstanding
    && (s.engine.listener == Some(tag) && !ok ==> s.serverShut)
  }

  predicate Enabled(s: State, x: Action) {
    match x
    case Life(y) => L.Enabled(s.life, y) && LifeAllowed(s, y)
    case HookMove(a) => L.Pc(s.life, a).StopHook? && Hook(s, a) != HookDone
    case Build(t) => WorkerAt(s, t, L.PreRun) && At(s, t) == Building
    case Arm(t, tag) => WorkerAt(s, t, L.InRun) && At(s, t) == Built && tag !in s.engine.all
    case Deliver(t, tag, ok, next, _) =>
      WorkerAt(s, t, L.InRun) && At(s, t) == Looping && Deliverable(s, tag, ok) && next !in s.engine.all
    case SeesShutdown(t) =>
      WorkerAt(s, t, L.InRun) && At(s, t) == Looping && s.queueShut && s.engine.outstanding == multiset{}
  }

  /** new CallData(...): the constructor posts the request operation. */
  function Armed(e: Engine, tag: Tag): Engine {
    Engine(e.all[tag := Proceeded(NewCall, false)], e.outstanding + multiset{tag}, Some(tag), e.fault)
  }

  /** One event of the loop; `running` is what continueRunning() returns. */
  function Handle(e: Engine, tag: Tag, ok: bool, running: bool, next: Tag, throws: bool): Engine {
    var taken := e.(outstanding := e.outstanding - multiset{tag}, listener := if e.listener == Some(tag) then None else e.listener);
    if tag !in e.all || e.all[tag].status == Deleted then taken.(fault := true)
    else if !ok then taken.(all := e.all[tag := Discarded(e.all[tag])])
    else if e.all[tag].status == Process then
      var armed := if running then Armed(taken, next) else taken;
      armed.(all := armed.all[tag := Proceeded(e.all[tag], throws)], outstanding := armed.outstanding + multiset{tag})
    else taken.(all := e.all[tag := Proceeded(e.all[tag], throws)])
  }

  function ApplyLife(s: State, x: L.Action): State
    requires L.Enabled(s.life, x)
  {
    s.(life := L.Apply(s.life, x),
       hooks := if x.Move? && L.Pc(s.life, x.a).StopHook? then s.hooks - {x.a} else s.hooks)
  }

  function Apply(s: State, x: Action): State
    requires Enabled(s, x)
  {
    match x
    case Life(y) => ApplyLife(s, y)
    case HookMove(a) =>
      if Hook(s, a) == HookServer then s.(serverShut := true, hooks := s.hooks[a := HookQueue])
      else s.(queueShut := true, hooks := s.hooks[a := HookDone])
    case Build(t) => s.(serverShut := false, queueShut := false, progress := s.progress[t := Built])
    case Arm(t, tag) => s.(engine := Armed(s.engine, tag), progress := s.progress[t := Looping])
    case Deliver(t, tag, ok, next, throws) => s.(engine := Handle(s.engine, tag, ok, !Stopping(s), next, throws))
    case SeesShutdown(t) => s.(progress := s.progress[t := Drained])
  }

  ghost predicate IsRun(states: seq<State>, actions: seq<Action>) {
    && |states| == |actions| + 1
    && states[0] == Init
    && forall i {:trigger actions[i]} :: 0 <= i < |actions| ==>
         Enabled(states[i], actions[i]) && states[i + 1] == Apply(states[i], actions[i])
  }
}
