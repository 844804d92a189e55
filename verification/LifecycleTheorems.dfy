/** What the lifecycle protocol guarantees in every run of any number of agents. */
module LifecycleTheorems {
  import opened Wrappers
  import opened Lifecycle

  // ----- Session exclusion

  ghost function LiveWorkers(s: State): set<ThreadId> {
    set t | t in s.workers && Live(s.workers[t])
  }

  ghost function FailingStarters(s: State): set<Agent> {
    set a | a in s.agents && Pc(s, a) == StartFail
  }

  /** Thread t is executing the derived class's preRun() or run(). */
  predicate Executing(s: State, t: ThreadId) {
    t in s.workers && (s.workers[t] == PreRun || s.workers[t] == InRun)
  }

  lemma InvExclusion(s: State)
    requires Inv(s)
    ensures |LiveWorkers(s)| + |FailingStarters(s)| == if s.core.state == Stopped then 0 else 1
  {
    match s.session
    case NoSession =>
      assert LiveWorkers(s) == {};
      assert forall a :: Pc(s, a) != StartFail;
      assert FailingStarters(s) == {};
    case Serving(t) =>
      assert LiveWorkers(s) == {t};
      assert forall a :: Pc(s, a) != StartFail;
      assert FailingStarters(s) == {};
    case Failing(a) =>
      assert LiveWorkers(s) == {};
      assert Pc(s, a) == StartFail;
      assert forall b :: Pc(s, b) == StartFail ==> b == a;
      assert FailingStarters(s) == {a};
  }

  /** The state is out of Stopped exactly while one worker thread has not made its final write, or
      one starter is in its failed-spawn handler; so two sessions never execute at once. */
  lemma SessionExclusion(states: seq<State>, actions: seq<Action>, i: nat)
    requires IsRun(states, actions) && i < |states|
    ensures |LiveWorkers(states[i])| + |FailingStarters(states[i])|
         == if states[i].core.state == Stopped then 0 else 1
    ensures forall t, u :: Executing(states[i], t) && Executing(states[i], u) ==> t == u
    ensures forall t :: Executing(states[i], t) ==> states[i].core.state != Stopped
  {
    InvRun(states, actions, i);
    InvExclusion(states[i]);
  }

  /** Running overwrites Stopping exactly when a stop was requested after the check of the flag;
      the state does not only move forward. */
  lemma RunningOverwritesStopping(states: seq<State>, actions: seq<Action>, i: nat, t: ThreadId)
    requires IsRun(states, actions) && i < |actions|
    requires actions[i] == Advance(t) && states[i].workers[t] == SetRunning
    ensures states[i + 1].core.state == Running
    ensures states[i].core.state == Stopping <==> states[i].core.stopRequested
    ensures states[i + 1].core.stopRequested == states[i].core.stopRequested
    ensures states[i].core.state == Starting <==> !states[i].core.stopRequested
  {
    InvRun(states, actions, i);
  }

  /** The overwriting is always possible: wherever a worker has passed its check of the flag, a
      request by any idle agent followed by the worker's own step goes from Stopping to Running. */
  lemma OverwriteFollows(states: seq<State>, actions: seq<Action>, i: nat, t: ThreadId, d: Agent)
    requires IsRun(states, actions) && i < |states|
    requires t in states[i].workers && states[i].workers[t] == SetRunning && Pc(states[i], d).Idle?
    ensures Enabled(states[i], CallStop(d, RequestOnly))
    ensures var s1 := Apply(states[i], CallStop(d, RequestOnly));
            Enabled(s1, Move(d)) &&
            var s2 := Apply(s1, Move(d));
            Enabled(s2, Advance(t)) && s2.core.state == Stopping && Apply(s2, Advance(t)).core.state == Running
  {
    InvRun(states, actions, i);
    var s1 := Apply(states[i], CallStop(d, RequestOnly));
    assert Pc(s1, d) == StopLock(RequestOnly);
  }

  // ----- Thread handles

  ghost function Holders(s: State, t: ThreadId): set<Agent> {
    set a | a in s.agents && Held(s.agents[a]) == Some(t)
  }

  lemma InvHolders(s: State, t: ThreadId)
    requires Inv(s) && t in s.workers
    ensures Holders(s, t) == if s.handles[t].HeldBy? then {s.handles[t].a} else {}
  {
    forall a
      ensures Held(Pc(s, a)) == Some(t) <==> s.handles[t] == HeldBy(a)
    {
    }
    assert forall a :: a in Holders(s, t) <==> Held(Pc(s, a)) == Some(t);
  }

  /** Each spawned handle has exactly one owner: m_thread, one joiner's local variable, or nobody
      because it was joined; and a handle is only joined away from a thread that has exited. */
  lemma HandleConservation(states: seq<State>, actions: seq<Action>, i: nat, t: ThreadId)
    requires IsRun(states, actions) && i < |states| && t in states[i].workers
    ensures t in states[i].handles
    ensures (if states[i].core.thread == Some(t) then 1 else 0)
          + |Holders(states[i], t)|
          + (if states[i].handles[t] == Joined then 1 else 0) == 1
    ensures states[i].handles[t] == Joined ==> states[i].workers[t] == Exited
  {
    InvRun(states, actions, i);
    InvHolders(states[i], t);
  }

  /** m_thread is never assigned while it is joinable, which would terminate the process. */
  lemma NeverOverwritten(s: State, x: Action)
    requires Enabled(s, x) && s.core.thread.Some? && Apply(s, x).core.thread.Some?
    ensures Apply(s, x).core.thread == s.core.thread
  {
  }

  /** joinFinishedThread only joins a thread past its last state write; so a thread that can still
      call anything, being inside preRun() or run(), is not joined that way by anyone. */
  lemma FinishedJoinsAreLate(states: seq<State>, actions: seq<Action>, i: nat, a: Agent)
    requires IsRun(states, actions) && i < |states| && HeldFinished(Pc(states[i], a)).Some?
    ensures HeldFinished(Pc(states[i], a)).value in states[i].workers
    ensures !Live(states[i].workers[HeldFinished(Pc(states[i], a)).value])
    ensures !Executing(states[i], HeldFinished(Pc(states[i], a)).value)
  {
    InvRun(states, actions, i);
  }

  /** Agent x.a completes a join of thread t. */
  predicate JoinsThread(s: State, x: Action, t: ThreadId) {
    x.Move? && Held(Pc(s, x.a)) == Some(t)
  }

  /** A joined handle is neither stored nor held. */
  lemma JoinedIsGone(s: State, t: ThreadId)
    requires HandleInv(s) && t in s.handles && s.handles[t] == Joined
    ensures s.core.thread != Some(t)
    ensures forall a :: Held(Pc(s, a)) != Some(t)
  {
  }

  lemma JoinedStays(s: State, x: Action, t: ThreadId)
    requires Enabled(s, x) && t in s.handles && s.handles[t] == Joined && t in s.workers && s.core.thread != Some(t)
    ensures t in Apply(s, x).handles && Apply(s, x).handles[t] == Joined
  {
  }

  lemma JoinLeavesJoined(s: State, x: Action, t: ThreadId)
    requires Enabled(s, x) && JoinsThread(s, x, t)
    ensures t in Apply(s, x).handles && Apply(s, x).handles[t] == Joined
  {
  }

  lemma JoinLeavesJoinedAt(states: seq<State>, actions: seq<Action>, i: nat, t: ThreadId)
    requires IsRun(states, actions) && i < |actions| && JoinsThread(states[i], actions[i], t)
    ensures t in states[i + 1].handles && states[i + 1].handles[t] == Joined
  {
    JoinLeavesJoined(states[i], actions[i], t);
  }

  lemma {:induction false} JoinedForever(states: seq<State>, actions: seq<Action>, i: nat, j: nat, t: ThreadId)
    requires IsRun(states, actions) && i <= j < |states|
    requires t in states[i].handles && states[i].handles[t] == Joined
    ensures t in states[j].handles && states[j].handles[t] == Joined
  {
    if i < j {
      JoinedForever(states, actions, i, j - 1, t);
      InvRun(states, actions, j - 1);
      JoinedIsGone(states[j - 1], t);
      JoinedStays(states[j - 1], actions[j - 1], t);
    }
  }

  /** No thread is joined twice. */
  lemma JoinedOnce(states: seq<State>, actions: seq<Action>, i: nat, j: nat, t: ThreadId)
    requires IsRun(states, actions) && i <= j < |actions|
    requires JoinsThread(states[i], actions[i], t) && JoinsThread(states[j], actions[j], t)
    ensures i == j
  {
    if i < j {
      JoinLeavesJoinedAt(states, actions, i, t);
      JoinedForever(states, actions, i + 1, j, t);
      InvRun(states, actions, j);
      JoinedIsGone(states[j], t);
    }
  }

  // ----- Wakeups

  /** No lost wakeup: an agent asleep although its predicate holds is owed a notify_all. */
  lemma NoLostWakeup(states: seq<State>, actions: seq<Action>, i: nat, a: Agent)
    requires IsRun(states, actions) && i < |states| && OversleepsIn(states[i], a)
    ensures NotifyOwed(states[i])
  {
    InvRun(states, actions, i);
  }

  // ----- The stop flag

  predicate LiveAt(s: State, t: ThreadId) {
    t in s.workers && Live(s.workers[t])
  }

  /** Thread ids are fresh: a thread that is live after a step that did not create it was live before. */
  lemma LiveBefore(s: State, x: Action, t: ThreadId)
    requires Enabled(s, x) && t in s.workers && LiveAt(Apply(s, x), t)
    ensures LiveAt(s, t)
  {
  }

  lemma StopSticksStep(s: State, x: Action, t: ThreadId)
    requires SessionInv(s) && Enabled(s, x) && LiveAt(s, t) && s.core.stopRequested
    ensures Apply(s, x).core.stopRequested
  {
    assert !CanStart(s.core);
  }

  lemma {:induction false} StaysKnown(states: seq<State>, actions: seq<Action>, i: nat, j: nat, t: ThreadId)
    requires IsRun(states, actions) && i <= j < |states| && t in states[i].workers
    ensures t in states[j].workers
  {
    if i < j {
      StaysKnown(states, actions, i, j - 1, t);
      assert Enabled(states[j - 1], actions[j - 1]);
    }
  }

  lemma {:induction false} LiveBetween(states: seq<State>, actions: seq<Action>, i: nat, k: nat, j: nat, t: ThreadId)
    requires IsRun(states, actions) && i <= k <= j < |states| && LiveAt(states[i], t) && LiveAt(states[j], t)
    ensures LiveAt(states[k], t)
  {
    if k < j {
      StaysKnown(states, actions, i, j - 1, t);
      LiveBefore(states[j - 1], actions[j - 1], t);
      LiveBetween(states, actions, i, k, j - 1, t);
    }
  }

  /** Stop is sticky: once the flag is set during a session, it stays set in that session. */
  lemma {:induction false} StopSticks(states: seq<State>, actions: seq<Action>, i: nat, j: nat, t: ThreadId)
    requires IsRun(states, actions) && i <= j < |states|
    requires LiveAt(states[i], t) && states[i].core.stopRequested && LiveAt(states[j], t)
    ensures states[j].core.stopRequested
  {
    if i < j {
      LiveBetween(states, actions, i, j - 1, j, t);
      StopSticks(states, actions, i, j - 1, t);
      StopSticksAt(states, actions, j - 1, t);
    }
  }

  lemma StopSticksAt(states: seq<State>, actions: seq<Action>, k: nat, t: ThreadId)
    requires IsRun(states, actions) && k < |actions| && LiveAt(states[k], t) && states[k].core.stopRequested
    ensures states[k + 1].core.stopRequested
  {
    InvRun(states, actions, k);
    StopSticksStep(states[k], actions[k], t);
  }

  /** Once requestStop has taken the lock during t's session, t never gets past its check of the
      flag into run(), and its continueRunning() is false until t has written Stopped. */
  lemma RequestedStopHolds(states: seq<State>, actions: seq<Action>, i: nat, j: nat, a: Agent, t: ThreadId)
    requires IsRun(states, actions) && i < j < |states|
    requires actions[i] == Move(a) && Pc(states[i], a).StopLock? && LiveAt(states[i], t)
    requires LiveAt(states[j], t)
    ensures states[j].core.stopRequested
    ensures j < |actions| && actions[j] == Advance(t) && states[j].workers[t] == CheckStop
            ==> states[j + 1].workers[t] == SetStopped
  {
    StopSticks(states, actions, i + 1, j, t);
  }

  // ----- One controller

  /** Only agent c starts, joins and destroys; the others may request stops. */
  ghost predicate OneController(actions: seq<Action>, c: Agent) {
    forall i :: 0 <= i < |actions| ==>
      (actions[i].CallStart? ==> actions[i].a == c)
      && (actions[i].CallStop? && actions[i].a != c ==> actions[i].kind == RequestOnly)
  }

  predicate Requesting(pc: AgentPc) {
    pc.Idle? || ((pc.StopLock? || pc.StopNotify? || pc.StopHook?) && pc.kind == RequestOnly)
  }

  predicate JoinsAlways(k: StopKind) {
    k == StopAndJoin(false) || k == Destroy
  }

  ghost predicate CycleInv(s: State, c: Agent) {
    && (forall b :: b != c ==> Requesting(Pc(s, b)))
    && (Pc(s, c) == StopTake(StopAndJoin(false)) ==> s.core.state == Stopped)
    && (Pc(s, c).StopTake? || Pc(s, c).StopCheck? || Pc(s, c).StopAsleep? || Pc(s, c).StopJoin? ==> Pc(s, c).kind != Destroy)
    && (Pc(s, c).StopJoin? || Pc(s, c).JoinWait? ==> s.core.thread.None?)
    && (Pc(s, c).Idle? && Pc(s, c).last.StopReturned? && JoinsAlways(Pc(s, c).last.kind) ==>
          Pc(s, c).last.ok && s.core.thread.None?)
  }

  /** A step of another agent: it only requests stops. */
  lemma CycleOther(s: State, s': State, c: Agent)
    requires CycleInv(s, c)
    requires forall b :: b != c ==> Requesting(Pc(s', b))
    requires Pc(s', c) == Pc(s, c) || Pc(s', c) == Woken(Pc(s, c))
    requires s'.core.thread == s.core.thread && (s.core.state == Stopped ==> s'.core.state == Stopped)
    ensures CycleInv(s', c)
  {
  }

  lemma CycleMove(s: State, a: Agent, c: Agent)
    requires CycleInv(s, c) && Enabled(s, Move(a)) && a != c
    ensures CycleInv(ApplyMove(s, a), c)
  {
    var s' := ApplyMove(s, a);
    forall b
      ensures b == a || Pc(s', b) == Pc(s, b) || Pc(s', b) == Woken(Pc(s, b))
    {
      NotifyAllPc(s, b);
    }
    assert Requesting(Pc(s, a));
    CycleOther(s, s', c);
  }

  lemma CycleOwnMove(s: State, c: Agent)
    requires CycleInv(s, c) && Enabled(s, Move(c))
    ensures CycleInv(ApplyMove(s, c), c)
  {
    OthersRequest(s, c);
    if InStart(Pc(s, c)) {
      CycleOwnStart(s, c);
    } else {
      CycleOwnStop(s, c);
    }
  }

  lemma OthersRequest(s: State, c: Agent)
    requires CycleInv(s, c) && Enabled(s, Move(c))
    ensures forall b :: b != c ==> Requesting(Pc(ApplyMove(s, c), b))
  {
    forall b | b != c
      ensures Requesting(Pc(ApplyMove(s, c), b))
    {
      NotifyAllPc(s, b);
      assert Requesting(Pc(s, b));
    }
  }

  lemma CycleOwnStart(s: State, c: Agent)
    requires CycleInv(s, c) && Enabled(s, Move(c)) && InStart(Pc(s, c))
    requires forall b :: b != c ==> Requesting(Pc(ApplyMove(s, c), b))
    ensures CycleInv(ApplyMove(s, c), c)
  {
  }

  lemma CycleOwnStop(s: State, c: Agent)
    requires CycleInv(s, c) && Enabled(s, Move(c)) && !InStart(Pc(s, c))
    requires forall b :: b != c ==> Requesting(Pc(ApplyMove(s, c), b))
    ensures CycleInv(ApplyMove(s, c), c)
  {
  }

  lemma CycleWorker(s: State, x: Action, c: Agent)
    requires SessionInv(s) && CycleInv(s, c) && Enabled(s, x)
    requires x.PreRunEnds? || x.RunEnds? || x.Advance?
    ensures CycleInv(Apply(s, x), c)
  {
    var s' := Apply(s, x);
    forall b
      ensures Pc(s', b) == Pc(s, b) || Pc(s', b) == Woken(Pc(s, b))
    {
      NotifyAllPc(s, b);
    }
    assert forall b :: b != c ==> Requesting(Pc(s, b));
    CycleOther(s, s', c);
  }

  lemma CycleStep(s: State, x: Action, c: Agent)
    requires SessionInv(s) && CycleInv(s, c) && Enabled(s, x)
    requires x.CallStart? ==> x.a == c
    requires x.CallStop? && x.a != c ==> x.kind == RequestOnly
    ensures CycleInv(Apply(s, x), c)
  {
    if x.PreRunEnds? || x.RunEnds? || x.Advance? {
      CycleWorker(s, x, c);
    } else if x.Move? {
      if x.a == c {
        CycleOwnMove(s, c);
      } else {
        CycleMove(s, x.a, c);
      }
    } else {
      assert x.a != c ==> Requesting(Pc(s, x.a));
      assert forall b :: b != x.a ==> Pc(Apply(s, x), b) == Pc(s, b);
    }
  }

  lemma {:induction false} CycleRun(states: seq<State>, actions: seq<Action>, c: Agent, i: nat)
    requires IsRun(states, actions) && OneController(actions, c) && i < |states|
    ensures CycleInv(states[i], c)
  {
    if i > 0 {
      CycleRun(states, actions, c, i - 1);
      InvRun(states, actions, i - 1);
      CycleStep(states[i - 1], actions[i - 1], c);
    }
  }

  lemma NothingLeft(s: State, c: Agent)
    requires Inv(s) && CycleInv(s, c) && Pc(s, c).Idle? && s.core.thread.None?
    ensures s.core.state == Stopped
    ensures forall t :: t in s.workers ==> s.workers[t] == Exited && s.handles[t] == Joined
  {
    forall t | t in s.workers
      ensures s.handles[t] == Joined
    {
      assert s.handles[t].HeldBy? ==> s.handles[t].a == c || Requesting(Pc(s, s.handles[t].a));
    }
    assert forall a :: Pc(s, a) != StartFail by {
      assert forall b :: b != c ==> Requesting(Pc(s, b));
    }
  }

  /** With one controller, stopThreadAndJoin with a non-zero timeout, like the destructor, always
      comes back with the worker Stopped and every thread ever spawned exited and joined. */
  lemma StopAndJoinLeavesNothing(states: seq<State>, actions: seq<Action>, c: Agent, i: nat)
    requires IsRun(states, actions) && OneController(actions, c) && i < |states|
    requires Pc(states[i], c).Idle? && Pc(states[i], c).last.StopReturned? && JoinsAlways(Pc(states[i], c).last.kind)
    ensures Pc(states[i], c).last.ok
    ensures states[i].core.state == Stopped && states[i].core.thread.None?
    ensures forall t :: t in states[i].workers ==>
              t in states[i].handles && states[i].workers[t] == Exited && states[i].handles[t] == Joined
  {
    InvRun(states, actions, i);
    CycleRun(states, actions, c, i);
    NothingLeft(states[i], c);
  }

  // ----- What one step can do, for the protocols built on top

  /** run() is only left when it ends. */
  lemma InRunStays(s: State, x: Action, t: ThreadId)
    requires Enabled(s, x) && t in s.workers && s.workers[t] == InRun && !(x.RunEnds? && x.t == t)
    ensures t in Apply(s, x).workers && Apply(s, x).workers[t] == InRun
  {
  }

  /** While a thread is inside run(), whoever raises the flag is bound to run the stop hook. */
  lemma RaisedWithHook(s: State, x: Action, t: ThreadId)
    requires SessionInv(s) && Enabled(s, x) && LiveAt(s, t)
    requires !s.core.stopRequested && Apply(s, x).core.stopRequested
    ensures x.Move? && Pc(Apply(s, x), x.a).StopNotify? && Pc(Apply(s, x), x.a).trigger
  {
    assert TriggersHook(s.core);
  }

  /** A pending hook stays pending until it returns. */
  lemma HookStays(s: State, x: Action, a: Agent)
    requires Enabled(s, x) && HookPending(Pc(s, a)) && !(x == Move(a) && Pc(s, a).StopHook?)
    ensures HookPending(Pc(Apply(s, x), a))
    ensures Pc(s, a).StopHook? ==> Pc(Apply(s, x), a) == Pc(s, a)
  {
    NotifyAllPc(s, a);
  }

  /** A request about to take the lock waits, or raises the flag. */
  lemma RequestAdvances(s: State, y: Action, a: Agent)
    requires Enabled(s, y) && Pc(s, a) == StopLock(RequestOnly)
    ensures Apply(s, y).core.stopRequested || Pc(Apply(s, y), a) == StopLock(RequestOnly)
  {
    NotifyAllPc(s, a);
  }
}
