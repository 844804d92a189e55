/** The lifecycle protocol of a background worker (cBaseWorker_V2.h).

    Any number of agents (controller threads, and threads that belong to a session and call
    back into the worker) start, stop, join and wait, against the worker threads they spawn.
    Every critical section of `m_stateMutex`, every atomic access, notification, sleep and join
    is one step.  `m_stopRequested` is a sequentially consistent flag, and a timed wait may time
    out at any moment. */
module Lifecycle {
  import opened Wrappers

  type ThreadId = nat

  /** A thread that calls into the worker: an outside controller, or a part of a session. */
  datatype Agent = Controller(id: nat) | Inner(session: ThreadId, part: nat)

  datatype WorkerState = Unknown | Starting | Running | Stopping | Stopped

  // ----- The fields guarded by the state mutex, and what each critical section does to them

  /** `thread` is the joinable handle stored in `m_thread`, if any. */
  datatype Core = Core(state: WorkerState, stopRequested: bool, thread: Option<ThreadId>, exceptionStored: bool)

  const InitialCore := Core(Stopped, false, None, false)

  predicate CanStart(c: Core) {
    c.state == Stopped && c.thread.None?
  }

  /** The locked part of startThread; `spawned` is None when std::thread throws. */
  function AfterStart(c: Core, spawned: Option<ThreadId>): Core {
    Core(Starting, false, spawned, false)
  }

  predicate TriggersHook(c: Core) {
    c.state == Starting || c.state == Running || c.state == Stopping
  }

  function AfterStopRequest(c: Core): Core {
    c.(stopRequested := true,
       state := if c.state == Starting || c.state == Running then Stopping else c.state)
  }

  /** The handle that joinFinishedThread moves out of `m_thread`. */
  function FinishedHandle(c: Core): Option<ThreadId> {
    if c.state == Stopped then c.thread else None
  }

  function WithoutFinished(c: Core): Core {
    if c.state == Stopped then c.(thread := None) else c
  }

  /** The worker object: one method for each critical section. */
  class Worker {
    var state: WorkerState
    var stopRequested: bool
    var thread: Option<ThreadId>
    var exceptionStored: bool

    ghost function Fields(): Core
      reads this
    {
      Core(state, stopRequested, thread, exceptionStored)
    }

    constructor ()
      ensures Fields() == InitialCore
    {
      state, stopRequested, thread, exceptionStored := Stopped, false, None, false;
    }

    /** `spawn` is the handle std::thread returns, None when it throws. */
    method StartLocked(spawn: Option<ThreadId>) returns (accepted: bool)
      modifies this
      ensures accepted == CanStart(old(Fields()))
      ensures Fields() == if accepted then AfterStart(old(Fields()), spawn) else old(Fields())
    {
      if state != Stopped || thread.Some? {
        return false;
      }
      stopRequested := false;
      exceptionStored := false;
      state := Starting;
      if spawn.Some? {
        thread := spawn;
      }
      return true;
    }

    method RequestStopLocked() returns (shouldTriggerStop: bool)
      modifies this
      ensures shouldTriggerStop == TriggersHook(old(Fields()))
      ensures Fields() == AfterStopRequest(old(Fields()))
    {
      shouldTriggerStop := false;
      stopRequested := true;
      if state == Starting || state == Running {
        state := Stopping;
        shouldTriggerStop := true;
      } else if state == Stopping {
        shouldTriggerStop := true;
      }
    }

    method SetState(newState: WorkerState)
      modifies this`state
      ensures Fields() == old(Fields()).(state := newState)
    {
      state := newState;
    }

    method TakeFinishedThread() returns (finished: Option<ThreadId>)
      modifies this`thread
      ensures finished == FinishedHandle(old(Fields()))
      ensures Fields() == WithoutFinished(old(Fields()))
    {
      finished := None;
      if state == Stopped && thread.Some? {
        finished, thread := thread, None;
      }
    }

    method TakeThread() returns (owned: Option<ThreadId>)
      modifies this`thread
      ensures owned == old(thread)
      ensures Fields() == old(Fields()).(thread := None)
    {
      owned := None;
      if thread.Some? {
        owned, thread := thread, None;
      }
    }
  }

  // ----- Program counters

  /** Where a worker thread stands in threadRunner. */
  datatype WorkerPc =
    | PreRun            // inside preRun()
    | CheckStop         // about to read the stop flag
    | SetRunning        // about to write Running
    | NotifyRunning     // wrote Running, owes notify_all
    | InRun             // inside run()
    | StoreException    // in the catch block
    | SetStopped        // about to write Stopped
    | NotifyStopped     // wrote Stopped, owes notify_all
    | Exited

  /** A worker thread is live until it has made its final write of Stopped. */
  predicate Live(pc: WorkerPc) {
    pc != NotifyStopped && pc != Exited
  }

  datatype StopKind =
    | RequestOnly                    // requestStop, retire
    | StopThread(zero: bool)         // stopThread, with or without a zero timeout
    | StopAndJoin(zero: bool)        // stopThreadAndJoin
    | Destroy                        // the destructor: requestStop, joinThread

  datatype Last = Fresh | StartReturned(ok: bool) | StopReturned(kind: StopKind, ok: bool)

  datatype AgentPc =
    | Idle(last: Last)
    | StartTake(zero: bool)                    // startThread: joinFinishedThread's locked part
    | StartJoin(zero: bool, t: ThreadId)       // ... joining the finished thread
    | StartLock(zero: bool)                    // ... the locked part
    | StartFail                                // ... the handler of a failed spawn
    | StartFailNotify
    | StartNotify(zero: bool)
    | StartCheck                               // waitForStart, about to evaluate its predicate
    | StartAsleep
    | StopLock(kind: StopKind)                 // requestStop's locked part
    | StopNotify(kind: StopKind, trigger: bool)
    | StopHook(kind: StopKind)                 // inside stopTriggered()
    | StopCheck(kind: StopKind)                // waitForStopped, about to evaluate its predicate
    | StopAsleep(kind: StopKind)
    | StopTake(kind: StopKind)                 // joinFinishedThread's locked part
    | StopJoin(kind: StopKind, t: ThreadId)
    | JoinTake(kind: StopKind)                 // joinThread's locked part
    | JoinWait(kind: StopKind, t: ThreadId)

  /** The handle an agent's local variable owns. */
  function Held(pc: AgentPc): Option<ThreadId> {
    if pc.StartJoin? || pc.StopJoin? || pc.JoinWait? then Some(pc.t) else None
  }

  /** ... when it was obtained through joinFinishedThread. */
  function HeldFinished(pc: AgentPc): Option<ThreadId> {
    if pc.StartJoin? || pc.StopJoin? then Some(pc.t) else None
  }

  predicate HookPending(pc: AgentPc) {
    (pc.StopNotify? && pc.trigger) || pc.StopHook?
  }

  // ----- The protocol state

  datatype Handle = Stored | HeldBy(a: Agent) | Joined

  /** Who keeps the worker out of Stopped. */
  datatype Session = NoSession | Serving(t: ThreadId) | Failing(a: Agent)

  /** `handles` and `session` are history: they record what the steps did and guard nothing. */
  datatype State = State(
    core: Core,
    workers: map<ThreadId, WorkerPc>,
    agents: map<Agent, AgentPc>,
    handles: map<ThreadId, Handle>,
    session: Session)

  /** An agent that never called is idle. */
  function Pc(s: State, a: Agent): AgentPc {
    if a in s.agents then s.agents[a] else Idle(Fresh)
  }

  const Init := State(InitialCore, map[], map[], map[], NoSession)

  predicate StartReady(c: Core) {
    c.state == Running || c.state == Stopped
  }

  /** What notify_all on m_stateChanged does to one agent. */
  function Woken(pc: AgentPc): AgentPc {
    match pc
    case StartAsleep => StartCheck
    case StopAsleep(k) => StopCheck(k)
    case _ => pc
  }

  function NotifyAll(s: State): State {
    s.(agents := map a | a in s.agents :: Woken(s.agents[a]))
  }

  function SetPc(s: State, a: Agent, pc: AgentPc): State {
    s.(agents := s.agents[a := pc])
  }

  function SetWorker(s: State, t: ThreadId, pc: WorkerPc): State {
    s.(workers := s.workers[t := pc])
  }

  // ----- Steps

  datatype Outcome = Returns(ok: bool) | Throws

  datatype Action =
    | CallStart(a: Agent, zero: bool)
    | CallStop(a: Agent, kind: StopKind)
    | Spawn(a: Agent, t: ThreadId)         // startThread accepted, thread t created
    | SpawnFails(a: Agent)                 // startThread accepted, std::thread threw
    | Move(a: Agent)                       // the next step of a's call
    | Timeout(a: Agent)                    // a timed wait gives up
    | Wake(a: Agent)                       // a spurious wakeup
    | PreRunEnds(t: ThreadId, outcome: Outcome)
    | RunEnds(t: ThreadId, threw: bool)
    | Advance(t: ThreadId)                 // the next step of threadRunner

  predicate Finished(s: State, t: ThreadId) {
    t in s.workers && s.workers[t] == Exited
  }

  predicate MoveEnabled(s: State, pc: AgentPc) {
    match pc
    case Idle(_) => false
    case StartAsleep => false
    case StopAsleep(_) => false
    case StartLock(_) => !CanStart(s.core)
    case StartJoin(_, t) => Finished(s, t)
    case StopJoin(_, t) => Finished(s, t)
    case JoinWait(_, t) => Finished(s, t)
    case _ => true
  }

  predicate Enabled(s: State, x: Action) {
    match x
    case CallStart(a, _) => Pc(s, a).Idle?
    case CallStop(a, _) => Pc(s, a).Idle?
    case Spawn(a, t) => Pc(s, a).StartLock? && CanStart(s.core) && t !in s.workers
    case SpawnFails(a) => Pc(s, a).StartLock? && CanStart(s.core)
    case Move(a) => MoveEnabled(s, Pc(s, a))
    case Timeout(a) => Pc(s, a).StartAsleep? || Pc(s, a).StopAsleep?
    case Wake(a) => Pc(s, a).StartAsleep? || Pc(s, a).StopAsleep?
    case PreRunEnds(t, _) => t in s.workers && s.workers[t] == PreRun
    case RunEnds(t, _) => t in s.workers && s.workers[t] == InRun
    case Advance(t) =>
      t in s.workers && s.workers[t] != PreRun && s.workers[t] != InRun && s.workers[t] != Exited
  }

  /** Where a call that requested a stop goes next. */
  function AfterRequest(k: StopKind): AgentPc {
    match k
    case RequestOnly => Idle(StopReturned(k, true))
    case StopThread(zero) => if zero then StopTake(k) else StopCheck(k)
    case StopAndJoin(zero) => if zero then StopTake(k) else StopCheck(k)
    case Destroy => JoinTake(k)
  }

  function ApplyJoin(s: State, a: Agent, t: ThreadId, next: AgentPc): State {
    SetPc(s, a, next).(handles := s.handles[t := Joined])
  }

  function ApplyTake(s: State, a: Agent, taken: Option<ThreadId>, core: Core, next: AgentPc): State {
    SetPc(s, a, next).(
      core := core,
      handles := if taken.Some? then s.handles[taken.value := HeldBy(a)] else s.handles)
  }

  function ApplyMove(s: State, a: Agent): State
    requires MoveEnabled(s, Pc(s, a))
  {
    match Pc(s, a)
    case StartTake(z) =>
      var h := FinishedHandle(s.core);
      ApplyTake(s, a, h, WithoutFinished(s.core), if h.Some? then StartJoin(z, h.value) else StartLock(z))
    case StartJoin(z, t) => ApplyJoin(s, a, t, StartLock(z))
    case StartLock(z) => SetPc(s, a, Idle(StartReturned(false)))
    case StartFail =>
      SetPc(s, a, StartFailNotify).(core := s.core.(state := Stopped), session := NoSession)
    case StartFailNotify => SetPc(NotifyAll(s), a, Idle(StartReturned(false)))
    case StartNotify(z) => SetPc(NotifyAll(s), a, if z then Idle(StartReturned(true)) else StartCheck)
    case StartCheck =>
      SetPc(s, a, if StartReady(s.core) then Idle(StartReturned(s.core.state == Running)) else StartAsleep)
    case StopLock(k) => SetPc(s, a, StopNotify(k, TriggersHook(s.core))).(core := AfterStopRequest(s.core))
    case StopNotify(k, trigger) => SetPc(NotifyAll(s), a, if trigger then StopHook(k) else AfterRequest(k))
    case StopHook(k) => SetPc(s, a, AfterRequest(k))
    case StopCheck(k) => SetPc(s, a, if s.core.state == Stopped then StopTake(k) else StopAsleep(k))
    case StopTake(k) =>
      var h := FinishedHandle(s.core);
      ApplyTake(s, a, h, WithoutFinished(s.core),
                if h.Some? then StopJoin(k, h.value) else Idle(StopReturned(k, true)))
    case StopJoin(k, t) => ApplyJoin(s, a, t, Idle(StopReturned(k, true)))
    case JoinTake(k) =>
      var h := s.core.thread;
      ApplyTake(s, a, h, s.core.(thread := None),
                if h.Some? then JoinWait(k, h.value) else Idle(StopReturned(k, true)))
    case JoinWait(k, t) => ApplyJoin(s, a, t, Idle(StopReturned(k, true)))
  }

  function ApplyTimeout(s: State, a: Agent): State
    requires Pc(s, a).StartAsleep? || Pc(s, a).StopAsleep?
  {
    match Pc(s, a)
    case StartAsleep => SetPc(s, a, Idle(StartReturned(s.core.state == Running)))
    case StopAsleep(k) =>
      SetPc(s, a, if s.core.state == Stopped then StopTake(k)
                  else if k.StopAndJoin? then JoinTake(k)
                  else Idle(StopReturned(k, false)))
  }

  function ApplyAdvance(s: State, t: ThreadId): State
    requires Enabled(s, Advance(t))
  {
    match s.workers[t]
    case CheckStop => SetWorker(s, t, if s.core.stopRequested then SetStopped else SetRunning)
    case SetRunning => SetWorker(s, t, NotifyRunning).(core := s.core.(state := Running))
    case NotifyRunning => SetWorker(NotifyAll(s), t, InRun)
    case StoreException => SetWorker(s, t, SetStopped).(core := s.core.(exceptionStored := true))
    case SetStopped =>
      SetWorker(s, t, NotifyStopped).(core := s.core.(state := Stopped), session := NoSession)
    case NotifyStopped => SetWorker(NotifyAll(s), t, Exited)
  }

  function Apply(s: State, x: Action): State
    requires Enabled(s, x)
  {
    match x
    case CallStart(a, zero) => SetPc(s, a, StartTake(zero))
    case CallStop(a, k) => SetPc(s, a, StopLock(k))
    case Spawn(a, t) =>
      State(AfterStart(s.core, Some(t)), s.workers[t := PreRun],
            s.agents[a := StartNotify(Pc(s, a).zero)], s.handles[t := Stored], Serving(t))
    case SpawnFails(a) => SetPc(s, a, StartFail).(core := AfterStart(s.core, None), session := Failing(a))
    case Move(a) => ApplyMove(s, a)
    case Timeout(a) => ApplyTimeout(s, a)
    case Wake(a) => SetPc(s, a, Woken(Pc(s, a)))
    case PreRunEnds(t, o) =>
      SetWorker(s, t, if o.Throws? then StoreException else if o.ok then CheckStop else SetStopped)
    case RunEnds(t, threw) => SetWorker(s, t, if threw then StoreException else SetStopped)
    case Advance(t) => ApplyAdvance(s, t)
  }

  /** A run: states[i + 1] follows from states[i] by actions[i]. */
  ghost predicate IsRun(states: seq<State>, actions: seq<Action>) {
    && |states| == |actions| + 1
    && states[0] == Init
    && forall i {:trigger actions[i]} :: 0 <= i < |actions| ==>
         Enabled(states[i], actions[i]) && states[i + 1] == Apply(states[i], actions[i])
  }

  // ----- The inductive invariant

  /** The state is out of Stopped exactly while one owner keeps it there. */
  ghost predicate SessionInv(s: State) {
    && (s.core.state == Stopped <==> s.session == NoSession)
    && s.core.state != Unknown
    && (s.session.Serving? ==> s.session.t in s.workers)
    && (forall t :: t in s.workers ==> (Live(s.workers[t]) <==> s.session == Serving(t)))
    && (forall a :: Pc(s, a) == StartFail <==> s.session == Failing(a))
  }

  /** Every spawned handle has one owner. */
  ghost predicate HandleInv(s: State) {
    && s.handles.Keys == s.workers.Keys
    && (s.core.thread.Some? ==> s.core.thread.value in s.handles)
    && (forall t :: t in s.handles ==> (s.handles[t] == Stored <==> s.core.thread == Some(t)))
    && (forall t :: t in s.handles && s.handles[t] == Joined ==> s.workers[t] == Exited)
    && (forall a :: Held(Pc(s, a)).Some? ==>
          Held(Pc(s, a)).value in s.handles && s.handles[Held(Pc(s, a)).value] == HeldBy(a))
    && (forall t :: t in s.handles && s.handles[t].HeldBy? ==> Held(Pc(s, s.handles[t].a)) == Some(t))
    && (forall a :: HeldFinished(Pc(s, a)).Some? ==>
          HeldFinished(Pc(s, a)).value in s.workers && !Live(s.workers[HeldFinished(Pc(s, a)).value]))
  }

  ghost predicate AgentOwesNotify(s: State, a: Agent) {
    Pc(s, a).StartNotify? || Pc(s, a).StartFailNotify? || Pc(s, a).StopNotify?
  }

  ghost predicate WorkerOwesNotify(s: State, t: ThreadId) {
    t in s.workers && (s.workers[t] == NotifyRunning || s.workers[t] == NotifyStopped)
  }

  ghost predicate NotifyOwed(s: State) {
    (exists a :: AgentOwesNotify(s, a)) || (exists t :: WorkerOwesNotify(s, t))
  }

  /** An agent asleep in waitForStart or waitForStopped although its predicate holds. */
  ghost predicate OversleepsIn(s: State, a: Agent) {
    || (Pc(s, a).StartAsleep? && (s.core.state == Running || s.core.state == Stopped))
    || (Pc(s, a).StopAsleep? && s.core.state == Stopped)
  }

  ghost predicate WakeupInv(s: State) {
    (exists a :: OversleepsIn(s, a)) ==> NotifyOwed(s)
  }

  /** Before it writes Running, a live worker is Stopping exactly when the flag is set. */
  ghost predicate EarlyStateInv(s: State) {
    forall t :: t in s.workers && (s.workers[t] == PreRun || s.workers[t] == CheckStop || s.workers[t] == SetRunning)
      ==> s.core.state == if s.core.stopRequested then Stopping else Starting
  }

  ghost predicate Inv(s: State) {
    SessionInv(s) && HandleInv(s) && WakeupInv(s) && EarlyStateInv(s)
  }

  lemma NotifyAllPc(s: State, a: Agent)
    ensures Pc(NotifyAll(s), a) == Woken(Pc(s, a))
  {
  }

  lemma InvInit()
    ensures Inv(Init)
  {
  }

  // ----- Every step keeps the invariant: first what the building blocks of Apply keep

  /** Session, handles and early states: everything but the wakeups. */
  ghost predicate OwnerInv(s: State) {
    SessionInv(s) && HandleInv(s) && EarlyStateInv(s)
  }

  predicate Plain(pc: AgentPc) {
    pc != StartFail && Held(pc).None?
  }

  /** s' differs from s, as far as program counters go, only at a, which is now at pc. */
  ghost predicate OnlyPc(s: State, s': State, a: Agent, pc: AgentPc) {
    forall b :: Pc(s', b) == if b == a then pc else Pc(s, b)
  }

  /** An agent moves between program points that own nothing. */
  lemma PlainPc(s: State, a: Agent, pc: AgentPc)
    requires OwnerInv(s) && Plain(Pc(s, a)) && Plain(pc)
    ensures OwnerInv(SetPc(s, a, pc))
  {
    var s' := SetPc(s, a, pc);
    assert OnlyPc(s, s', a, pc);
  }

  /** Waking an agent moves nothing it owns. */
  lemma WokenOwns(s: State, a: Agent)
    ensures var pc, pc' := Pc(s, a), Pc(NotifyAll(s), a);
            && Held(pc') == Held(pc) && HeldFinished(pc') == HeldFinished(pc) && (pc' == StartFail <==> pc == StartFail)
            && !pc'.StartAsleep? && !pc'.StopAsleep?
  {
    NotifyAllPc(s, a);
  }

  lemma SameOwners(s: State, s': State)
    requires OwnerInv(s)
    requires s'.core == s.core && s'.workers == s.workers && s'.handles == s.handles && s'.session == s.session
    requires forall a :: Held(Pc(s', a)) == Held(Pc(s, a))
    requires forall a :: HeldFinished(Pc(s', a)) == HeldFinished(Pc(s, a))
    requires forall a :: Pc(s', a) == StartFail <==> Pc(s, a) == StartFail
    ensures OwnerInv(s')
  {
    assert SessionInv(s') && EarlyStateInv(s');
  }

  lemma NotifyKeeps(s: State)
    requires OwnerInv(s)
    ensures OwnerInv(NotifyAll(s))
    ensures forall b :: !Pc(NotifyAll(s), b).StartAsleep? && !Pc(NotifyAll(s), b).StopAsleep?
  {
    forall b
      ensures var pc, pc' := Pc(s, b), Pc(NotifyAll(s), b);
              && Held(pc') == Held(pc) && HeldFinished(pc') == HeldFinished(pc) && (pc' == StartFail <==> pc == StartFail)
              && !pc'.StartAsleep? && !pc'.StopAsleep?
    {
      WokenOwns(s, b);
    }
    SameOwners(s, NotifyAll(s));
  }

  lemma TakeHandles(s: State, a: Agent, t: ThreadId, next: AgentPc)
    requires HandleInv(s) && Plain(Pc(s, a)) && Held(next) == Some(t) && s.core.thread == Some(t)
    requires HeldFinished(next).Some? ==> t in s.workers && !Live(s.workers[t])
    ensures HandleInv(ApplyTake(s, a, Some(t), s.core.(thread := None), next))
  {
    var s' := ApplyTake(s, a, Some(t), s.core.(thread := None), next);
    assert OnlyPc(s, s', a, next);
    assert s.handles[t] == Stored;
  }

  lemma TakeKeeps(s: State, a: Agent, t: ThreadId, next: AgentPc)
    requires OwnerInv(s) && Plain(Pc(s, a)) && Held(next) == Some(t) && s.core.thread == Some(t)
    requires HeldFinished(next).Some? ==> s.core.state == Stopped
    ensures OwnerInv(ApplyTake(s, a, Some(t), s.core.(thread := None), next))
  {
    var s' := ApplyTake(s, a, Some(t), s.core.(thread := None), next);
    assert OnlyPc(s, s', a, next);
    assert SessionInv(s');
    TakeHandles(s, a, t, next);
  }

  lemma JoinHandles(s: State, a: Agent, t: ThreadId, next: AgentPc)
    requires HandleInv(s) && Held(Pc(s, a)) == Some(t) && Finished(s, t) && Plain(next)
    ensures HandleInv(ApplyJoin(s, a, t, next))
  {
    assert OnlyPc(s, ApplyJoin(s, a, t, next), a, next);
    assert s.handles[t] == HeldBy(a);
  }

  lemma JoinKeeps(s: State, a: Agent, t: ThreadId, next: AgentPc)
    requires OwnerInv(s) && Held(Pc(s, a)) == Some(t) && Finished(s, t) && Plain(next)
    ensures OwnerInv(ApplyJoin(s, a, t, next))
  {
    var s' := ApplyJoin(s, a, t, next);
    assert OnlyPc(s, s', a, next);
    assert SessionInv(s');
    JoinHandles(s, a, t, next);
  }

  lemma StopRequestKeeps(s: State)
    requires OwnerInv(s)
    ensures OwnerInv(s.(core := AfterStopRequest(s.core)))
  {
    var s' := s.(core := AfterStopRequest(s.core));
    assert forall b :: Pc(s', b) == Pc(s, b);
  }

  lemma SpawnKeeps(s: State, a: Agent, t: ThreadId)
    requires OwnerInv(s) && Enabled(s, Spawn(a, t))
    ensures OwnerInv(Apply(s, Spawn(a, t)))
  {
    var s' := Apply(s, Spawn(a, t));
    assert OnlyPc(s, s', a, StartNotify(Pc(s, a).zero));
    assert SessionInv(s');
    SpawnHandles(s, a, t);
  }

  lemma SpawnHandles(s: State, a: Agent, t: ThreadId)
    requires HandleInv(s) && Enabled(s, Spawn(a, t))
    ensures HandleInv(Apply(s, Spawn(a, t)))
  {
    assert OnlyPc(s, Apply(s, Spawn(a, t)), a, StartNotify(Pc(s, a).zero));
    assert t !in s.handles;
  }

  lemma SpawnFailsKeeps(s: State, a: Agent)
    requires OwnerInv(s) && Enabled(s, SpawnFails(a))
    ensures OwnerInv(Apply(s, SpawnFails(a)))
  {
    assert OnlyPc(s, Apply(s, SpawnFails(a)), a, StartFail);
  }

  lemma StartFailKeeps(s: State, a: Agent)
    requires OwnerInv(s) && Pc(s, a) == StartFail
    ensures OwnerInv(ApplyMove(s, a))
  {
    var s' := ApplyMove(s, a);
    assert OnlyPc(s, s', a, StartFailNotify);
    assert SessionInv(s');
  }

  /** A worker thread moves while it stays live. */
  lemma WorkerKeeps(s: State, t: ThreadId, pc: WorkerPc)
    requires OwnerInv(s) && t in s.workers && Live(s.workers[t]) && Live(pc)
    requires pc == PreRun || pc == CheckStop || pc == SetRunning ==>
               s.core.state == if s.core.stopRequested then Stopping else Starting
    ensures OwnerInv(SetWorker(s, t, pc))
  {
    var s' := SetWorker(s, t, pc);
    assert forall b :: Pc(s', b) == Pc(s, b);
    assert SessionInv(s');
  }

  /** The worker thread of the session writes the state, and stays live. */
  lemma WorkerWriteKeeps(s: State, t: ThreadId, pc: WorkerPc, core: Core)
    requires OwnerInv(s) && t in s.workers && Live(s.workers[t]) && Live(pc)
    requires pc != PreRun && pc != CheckStop && pc != SetRunning
    requires core.thread == s.core.thread && core.state != Stopped && core.state != Unknown
    ensures OwnerInv(SetWorker(s, t, pc).(core := core))
  {
    var s' := SetWorker(s, t, pc).(core := core);
    assert forall b :: Pc(s', b) == Pc(s, b);
    assert SessionInv(s');
  }

  lemma SetStoppedKeeps(s: State, t: ThreadId)
    requires OwnerInv(s) && t in s.workers && s.workers[t] == SetStopped
    ensures OwnerInv(ApplyAdvance(s, t))
  {
    var s' := ApplyAdvance(s, t);
    assert forall b :: Pc(s', b) == Pc(s, b);
    assert SessionInv(s');
  }

  lemma ExitKeeps(s: State, t: ThreadId)
    requires OwnerInv(s) && t in s.workers && s.workers[t] == NotifyStopped
    ensures OwnerInv(SetWorker(s, t, Exited))
  {
    var s' := SetWorker(s, t, Exited);
    assert forall b :: Pc(s', b) == Pc(s, b);
    assert SessionInv(s');
  }

  lemma AdvanceKeeps(s: State, t: ThreadId)
    requires OwnerInv(s) && Enabled(s, Advance(t))
    ensures OwnerInv(ApplyAdvance(s, t))
  {
    match s.workers[t]
    case CheckStop => WorkerKeeps(s, t, if s.core.stopRequested then SetStopped else SetRunning);
    case SetRunning => WorkerWriteKeeps(s, t, NotifyRunning, s.core.(state := Running));
    case NotifyRunning => NotifyKeeps(s); WorkerKeeps(NotifyAll(s), t, InRun);
    case StoreException => WorkerWriteKeeps(s, t, SetStopped, s.core.(exceptionStored := true));
    case SetStopped => SetStoppedKeeps(s, t);
    case NotifyStopped => NotifyKeeps(s); ExitKeeps(NotifyAll(s), t);
  }

  /** joinFinishedThread's locked part, from startThread or stopThread. */
  lemma TakeFinishedKeeps(s: State, a: Agent, found: AgentPc, none: AgentPc)
    requires OwnerInv(s) && Plain(Pc(s, a)) && Plain(none)
    requires FinishedHandle(s.core).Some? ==> Held(found) == FinishedHandle(s.core)
    ensures var h := FinishedHandle(s.core);
            OwnerInv(ApplyTake(s, a, h, WithoutFinished(s.core), if h.Some? then found else none))
  {
    var h := FinishedHandle(s.core);
    if h.Some? {
      TakeKeeps(s, a, h.value, found);
    } else {
      PlainPc(s, a, none);
      assert ApplyTake(s, a, h, WithoutFinished(s.core), none) == SetPc(s, a, none);
    }
  }

  lemma JoinTakeKeeps(s: State, a: Agent, k: StopKind)
    requires OwnerInv(s) && Pc(s, a) == JoinTake(k)
    ensures OwnerInv(ApplyMove(s, a))
  {
    if s.core.thread.Some? {
      TakeKeeps(s, a, s.core.thread.value, JoinWait(k, s.core.thread.value));
    } else {
      PlainPc(s, a, Idle(StopReturned(k, true)));
      assert ApplyMove(s, a) == SetPc(s, a, Idle(StopReturned(k, true)));
    }
  }

  lemma NotifyAndMoveKeeps(s: State, a: Agent, pc: AgentPc)
    requires OwnerInv(s) && Plain(Pc(s, a)) && Plain(pc)
    ensures OwnerInv(SetPc(NotifyAll(s), a, pc))
  {
    NotifyKeeps(s);
    NotifyAllPc(s, a);
    PlainPc(NotifyAll(s), a, pc);
  }

  predicate InStart(pc: AgentPc) {
    pc.StartTake? || pc.StartJoin? || pc.StartLock? || pc.StartFail? || pc.StartFailNotify? || pc.StartNotify? || pc.StartCheck?
  }

  lemma StartMoveKeeps(s: State, a: Agent)
    requires OwnerInv(s) && Enabled(s, Move(a)) && InStart(Pc(s, a))
    ensures OwnerInv(ApplyMove(s, a))
  {
    match Pc(s, a)
    case StartTake(z) =>
      TakeFinishedKeeps(s, a, StartJoin(z, if s.core.thread.Some? then s.core.thread.value else 0), StartLock(z));
    case StartJoin(z, t) => JoinKeeps(s, a, t, StartLock(z));
    case StartLock(_) => PlainPc(s, a, Idle(StartReturned(false)));
    case StartFail => StartFailKeeps(s, a);
    case StartFailNotify => NotifyAndMoveKeeps(s, a, Idle(StartReturned(false)));
    case StartNotify(z) => NotifyAndMoveKeeps(s, a, if z then Idle(StartReturned(true)) else StartCheck);
    case StartCheck => PlainPc(s, a, Pc(ApplyMove(s, a), a));
  }

  lemma StopLockKeeps(s: State, a: Agent)
    requires OwnerInv(s) && Pc(s, a).StopLock?
    ensures OwnerInv(ApplyMove(s, a))
  {
    var pc := StopNotify(Pc(s, a).kind, TriggersHook(s.core));
    PlainPc(s, a, pc);
    StopRequestKeeps(SetPc(s, a, pc));
  }

  lemma StopMoveKeeps(s: State, a: Agent)
    requires OwnerInv(s) && Enabled(s, Move(a)) && !InStart(Pc(s, a))
    ensures OwnerInv(ApplyMove(s, a))
  {
    match Pc(s, a)
    case StopLock(_) => StopLockKeeps(s, a);
    case StopNotify(k, trigger) => NotifyAndMoveKeeps(s, a, if trigger then StopHook(k) else AfterRequest(k));
    case StopHook(k) => PlainPc(s, a, AfterRequest(k));
    case StopCheck(k) => PlainPc(s, a, if s.core.state == Stopped then StopTake(k) else StopAsleep(k));
    case StopTake(k) =>
      TakeFinishedKeeps(s, a, StopJoin(k, if s.core.thread.Some? then s.core.thread.value else 0), Idle(StopReturned(k, true)));
    case StopJoin(k, t) => JoinKeeps(s, a, t, Idle(StopReturned(k, true)));
    case JoinTake(k) => JoinTakeKeeps(s, a, k);
    case JoinWait(k, t) => JoinKeeps(s, a, t, Idle(StopReturned(k, true)));
  }

  lemma StepKeepsOwners(s: State, x: Action)
    requires OwnerInv(s) && Enabled(s, x)
    ensures OwnerInv(Apply(s, x))
  {
    match x
    case CallStart(a, zero) => PlainPc(s, a, StartTake(zero));
    case CallStop(a, k) => PlainPc(s, a, StopLock(k));
    case Spawn(a, t) => SpawnKeeps(s, a, t);
    case SpawnFails(a) => SpawnFailsKeeps(s, a);
    case Move(a) =>
      if InStart(Pc(s, a)) {
        StartMoveKeeps(s, a);
      } else {
        StopMoveKeeps(s, a);
      }
    case Timeout(a) => PlainPc(s, a, Pc(ApplyTimeout(s, a), a));
    case Wake(a) => PlainPc(s, a, Woken(Pc(s, a)));
    case PreRunEnds(t, o) => WorkerKeeps(s, t, Apply(s, x).workers[t]);
    case RunEnds(t, threw) => WorkerKeeps(s, t, Apply(s, x).workers[t]);
    case Advance(t) => AdvanceKeeps(s, t);
  }

  // ----- Wakeups

  /** A step of agent a that neither writes the state nor gives up an owed notification. */
  lemma WakeupFrame(s: State, s': State, a: Agent)
    requires WakeupInv(s)
    requires s'.core.state == s.core.state
    requires forall b :: b != a ==> Pc(s', b) == Pc(s, b)
    requires !OversleepsIn(s', a) && !AgentOwesNotify(s, a)
    requires forall t :: WorkerOwesNotify(s, t) ==> WorkerOwesNotify(s', t)
    ensures WakeupInv(s')
  {
    if b :| OversleepsIn(s', b) {
      assert OversleepsIn(s, b);
      if c :| AgentOwesNotify(s, c) {
        assert AgentOwesNotify(s', c);
      }
    }
  }

  /** The same for a step of a worker thread. */
  lemma WakeupWorkerFrame(s: State, s': State)
    requires WakeupInv(s)
    requires s'.core.state == s.core.state && s'.agents == s.agents
    requires forall t :: WorkerOwesNotify(s, t) ==> WorkerOwesNotify(s', t)
    ensures WakeupInv(s')
  {
    if b :| OversleepsIn(s', b) {
      assert OversleepsIn(s, b);
      if c :| AgentOwesNotify(s, c) {
        assert AgentOwesNotify(s', c);
      }
    }
  }

  lemma WakeupNotify(s: State, a: Agent, pc: AgentPc)
    requires !pc.StartAsleep? && !pc.StopAsleep?
    ensures WakeupInv(SetPc(NotifyAll(s), a, pc))
  {
    var s' := SetPc(NotifyAll(s), a, pc);
    forall b
      ensures !OversleepsIn(s', b)
    {
      NotifyAllPc(s, b);
    }
  }

  lemma WakeupMove(s: State, a: Agent)
    requires WakeupInv(s) && Enabled(s, Move(a))
    ensures WakeupInv(ApplyMove(s, a))
  {
    var s' := ApplyMove(s, a);
    match Pc(s, a)
    case StartFail => assert AgentOwesNotify(s', a);
    case StopLock(k) => assert AgentOwesNotify(s', a);
    case StartFailNotify => WakeupNotify(s, a, Pc(s', a));
    case StartNotify(z) => WakeupNotify(s, a, Pc(s', a));
    case StopNotify(k, trigger) => WakeupNotify(s, a, Pc(s', a));
    case _ => WakeupFrame(s, s', a);
  }

  lemma WakeupWorkerNotify(s: State, t: ThreadId, pc: WorkerPc)
    ensures WakeupInv(SetWorker(NotifyAll(s), t, pc))
  {
    var s' := SetWorker(NotifyAll(s), t, pc);
    forall b
      ensures !OversleepsIn(s', b)
    {
      NotifyAllPc(s, b);
    }
  }

  lemma WakeupAdvance(s: State, t: ThreadId)
    requires WakeupInv(s) && Enabled(s, Advance(t))
    ensures WakeupInv(ApplyAdvance(s, t))
  {
    var s' := ApplyAdvance(s, t);
    match s.workers[t]
    case SetRunning => assert WorkerOwesNotify(s', t);
    case SetStopped => assert WorkerOwesNotify(s', t);
    case NotifyRunning => WakeupWorkerNotify(s, t, InRun);
    case NotifyStopped => WakeupWorkerNotify(s, t, Exited);
    case _ => WakeupWorkerFrame(s, s');
  }

  lemma WakeupStep(s: State, x: Action)
    requires WakeupInv(s) && Enabled(s, x)
    ensures WakeupInv(Apply(s, x))
  {
    var s' := Apply(s, x);
    match x
    case CallStart(a, _) => WakeupFrame(s, s', a);
    case CallStop(a, _) => WakeupFrame(s, s', a);
    case Spawn(a, _) => assert AgentOwesNotify(s', a);
    case SpawnFails(_) => assert !StartReady(s'.core) && s'.core.state != Stopped;
    case Move(a) => WakeupMove(s, a);
    case Timeout(a) => WakeupFrame(s, s', a);
    case Wake(a) => WakeupFrame(s, s', a);
    case PreRunEnds(_, _) => WakeupWorkerFrame(s, s');
    case RunEnds(_, _) => WakeupWorkerFrame(s, s');
    case Advance(t) => WakeupAdvance(s, t);
  }

  lemma InvStep(s: State, x: Action)
    requires Inv(s) && Enabled(s, x)
    ensures Inv(Apply(s, x))
  {
    StepKeepsOwners(s, x);
    WakeupStep(s, x);
  }

  lemma {:induction false} InvRun(states: seq<State>, actions: seq<Action>, i: nat)
    requires IsRun(states, actions) && i < |states|
    ensures Inv(states[i])
  {
    if i == 0 {
      InvInit();
    } else {
      InvRun(states, actions, i - 1);
      InvStep(states[i - 1], actions[i - 1]);
    }
  }
}
