/** The first outcome of a start is final until the next reset, waiters are not forgotten, and a session
    that ended is resolved or will be. */
module HandshakeTheorems {
  import opened Wrappers
  import opened StartHandshake
  import L = Lifecycle
  import LT = LifecycleTheorems

  // ----- The first outcome wins

  /** This step resets the outcome: the first thing cHTTPServer::startThread does. */
  predicate Resets(s: State, x: Action) {
    x.StartMove? && Starter(s, x.a).Resetting?
  }

  lemma OutcomeStep(s: State, x: Action)
    requires Enabled(s, x) && s.start.resolved && !Resets(s, x)
    ensures Apply(s, x).start.resolved
    ensures Apply(s, x).start.succeeded == s.start.succeeded && Apply(s, x).start.port == s.start.port
  {
  }

  lemma OutcomeAt(states: seq<State>, actions: seq<Action>, k: nat)
    requires IsRun(states, actions) && k < |actions| && states[k].start.resolved && !Resets(states[k], actions[k])
    ensures states[k + 1].start.resolved
    ensures states[k + 1].start.succeeded == states[k].start.succeeded && states[k + 1].start.port == states[k].start.port
  {
    OutcomeStep(states[k], actions[k]);
  }

  /** Between resets, the first outcome fixes success and port. */
  lemma {:induction false} FirstOutcomeIsFinal(states: seq<State>, actions: seq<Action>, i: nat, j: nat)
    requires IsRun(states, actions) && i <= j < |states| && states[i].start.resolved
    requires forall k {:trigger Resets(states[k], actions[k])} :: i <= k < j ==> !Resets(states[k], actions[k])
    ensures states[j].start.resolved
    ensures states[j].start.succeeded == states[i].start.succeeded && states[j].start.port == states[i].start.port
  {
    if i < j {
      FirstOutcomeIsFinal(states, actions, i, j - 1);
      OutcomeAt(states, actions, j - 1);
    }
  }

  // ----- No waiter sleeps through the outcome

  /** A non-zero port means success; an outcome nobody has announced yet is still to be announced. */
  ghost predicate StartInv(s: State) {
    && (s.start.port != 0 ==> s.start.succeeded)
    && (s.start.succeeded ==> s.start.resolved)
    && (forall a :: Starter(s, a) == Asleep && s.start.resolved ==> s.start.notifies > 0)
  }

  lemma StartStep(s: State, x: Action)
    requires StartInv(s) && Enabled(s, x)
    ensures StartInv(Apply(s, x))
  {
    var s' := Apply(s, x);
    forall a
      ensures Starter(s', a) == Asleep ==> Starter(s, a) == Asleep || !s.start.resolved
    {
    }
  }

  lemma {:induction false} PortMeansSuccess(states: seq<State>, actions: seq<Action>, i: nat)
    requires IsRun(states, actions) && i < |states|
    ensures states[i].start.port != 0 ==> states[i].start.resolved && states[i].start.succeeded
    ensures forall a :: Starter(states[i], a) == Asleep && states[i].start.resolved ==> states[i].start.notifies > 0
    ensures StartInv(states[i])
  {
    if i > 0 {
      PortMeansSuccess(states, actions, i - 1);
      StartStep(states[i - 1], actions[i - 1]);
    }
  }

  // ----- With one starter: a session that ended is resolved, or a stop hook will resolve it

  /** Only agent h calls startThread. */
  ghost predicate OneStarter(actions: seq<Action>, h: L.Agent) {
    forall i {:trigger actions[i]} :: 0 <= i < |actions| ==> (actions[i].CallStart? ==> actions[i].a == h)
  }

  /** Agent a is on its way to resolve the outcome in the stop hook. */
  predicate HookAhead(s: State, a: L.Agent) {
    var pc := L.Pc(s.life, a);
    (pc.StopNotify? && pc.trigger) || (pc.StopHook? && Hook(s, a) != HookDone)
  }

  ghost predicate Settled(s: State) {
    s.start.resolved || exists a :: HookAhead(s, a)
  }

  predicate InStart(pc: L.AgentPc) {
    L.InStart(pc) || pc.StartAsleep?
  }

  /** The HTTP server always starts its base with a zero timeout. */
  predicate WithoutWait(pc: L.AgentPc) {
    && (pc.StartTake? || pc.StartJoin? || pc.StartLock? || pc.StartNotify? ==> pc.zero)
    && !pc.StartCheck? && !pc.StartAsleep?
  }

  /** The base class has created the thread. */
  predicate Spawned(pc: L.AgentPc) {
    pc.StartNotify? || pc == L.Idle(L.StartReturned(true))
  }

  ghost predicate StarterInv(s: State, h: L.Agent) {
    && (forall a :: a != h ==> Starter(s, a).NotStarting?)
    && (forall a :: InStart(L.Pc(s.life, a)) ==> Starter(s, a).Base?)
    && (Starter(s, h).Base? ==> InStart(L.Pc(s.life, h)) || L.Pc(s.life, h).Idle?)
    && WithoutWait(L.Pc(s.life, h))
    && (Starter(s, h).Base? && Spawned(L.Pc(s.life, h)) ==> s.armed.Some?)
    && (Starter(s, h) == Waiting || Starter(s, h) == Asleep ==> s.armed.Some?)
  }

  ghost predicate PartsInv(s: State) {
    && (forall a :: a in s.hooks ==> L.Pc(s.life, a).StopHook?)
    && (forall t: ThreadId :: t in s.progress ==> t in s.life.workers)
  }

  /** Nothing of session t will resolve the outcome any more, because it has or because it never got to run. */
  predicate Over(s: State, t: ThreadId) {
    || (t in s.life.workers && (s.life.workers[t] == L.StoreException || s.life.workers[t] == L.SetStopped
                                || !L.Live(s.life.workers[t])))
    || At(s, t) == PreReset || At(s, t) == PreDone(false) || At(s, t) == RunReset || At(s, t).RunDone?
  }

  ghost predicate ArmedInv(s: State) {
    s.armed.Some? ==>
      && s.armed.value in s.life.workers
      && (Over(s, s.armed.value) || (Stopping(s) && LT.LiveAt(s.life, s.armed.value)) ==> Settled(s))
  }

  lemma PartsLife(s: State, y: L.Action)
    requires PartsInv(s) && Enabled(s, Life(y))
    ensures PartsInv(ApplyLife(s, y))
  {
    var s' := ApplyLife(s, y);
    forall a | a in s'.hooks
      ensures L.Pc(s'.life, a).StopHook?
    {
      LT.HookStays(s.life, y, a);
    }
    assert s.life.workers.Keys <= s'.life.workers.Keys;
  }

  /** An agent about to reset is not in the middle of another call. */
  ghost predicate FreeInv(s: State) {
    forall a :: Starter(s, a).Resetting? ==> L.Pc(s.life, a).Idle?
  }

  lemma PartsStep(s: State, x: Action)
    requires PartsInv(s) && FreeInv(s) && Enabled(s, x)
    ensures PartsInv(Apply(s, x))
  {
    match x
    case Life(y) => PartsLife(s, y);
    case StartMove(a) => assert Starter(s, a).Resetting? ==> a !in s.hooks;
    case _ =>
  }

  // ----- The starter

  lemma StarterMove(s: State, a: L.Agent, h: L.Agent)
    requires StarterInv(s, h) && Enabled(s, Life(L.Move(a)))
    ensures StarterInv(ApplyLife(s, L.Move(a)), h)
  {
    var s' := ApplyLife(s, L.Move(a));
    forall b
      ensures b == a || L.Pc(s'.life, b) == L.Pc(s.life, b) || L.Pc(s'.life, b) == L.Woken(L.Pc(s.life, b))
      ensures InStart(L.Pc(s'.life, b)) ==> InStart(L.Pc(s.life, b))
    {
      MovePc(s.life, a, b);
    }
    assert forall b :: Starter(s', b) == Starter(s, b);
  }

  /** A step of a's call moves a, and at most wakes the others. */
  lemma MovePc(s: L.State, a: L.Agent, b: L.Agent)
    requires L.Enabled(s, L.Move(a))
    ensures b == a || L.Pc(L.ApplyMove(s, a), b) == L.Pc(s, b) || L.Pc(L.ApplyMove(s, a), b) == L.Woken(L.Pc(s, b))
    ensures InStart(L.Pc(L.ApplyMove(s, a), b)) ==> InStart(L.Pc(s, b))
  {
    L.NotifyAllPc(s, b);
  }

  lemma StarterWorker(s: State, y: L.Action, h: L.Agent)
    requires StarterInv(s, h) && Enabled(s, Life(y)) && (y.PreRunEnds? || y.RunEnds? || y.Advance?)
    ensures StarterInv(ApplyLife(s, y), h)
  {
    var s' := ApplyLife(s, y);
    forall b
      ensures L.Pc(s'.life, b) == L.Pc(s.life, b) || L.Pc(s'.life, b) == L.Woken(L.Pc(s.life, b))
      ensures InStart(L.Pc(s'.life, b)) ==> InStart(L.Pc(s.life, b))
    {
      L.NotifyAllPc(s.life, b);
    }
    assert forall b :: Starter(s', b) == Starter(s, b);
  }

  lemma StarterLife(s: State, y: L.Action, h: L.Agent)
    requires StarterInv(s, h) && Enabled(s, Life(y))
    ensures StarterInv(ApplyLife(s, y), h)
  {
    if y.Move? {
      StarterMove(s, y.a, h);
    } else if y.PreRunEnds? || y.RunEnds? || y.Advance? {
      StarterWorker(s, y, h);
    } else {
      var s' := ApplyLife(s, y);
      assert forall b :: Starter(s', b) == Starter(s, b);
      assert forall b :: b != y.a ==> L.Pc(s'.life, b) == L.Pc(s.life, b);
    }
  }

  lemma StarterOwn(s: State, x: Action, h: L.Agent)
    requires StarterInv(s, h) && Enabled(s, x) && (x.CallStart? || x.StartMove? || x.WaitTimeout? || x.WaitWakes?)
    requires x.CallStart? ==> x.a == h
    ensures StarterInv(Apply(s, x), h)
  {
    var s' := Apply(s, x);
    assert x.a == h;
    assert forall b :: b != h ==> Starter(s', b) == Starter(s, b) && L.Pc(s'.life, b) == L.Pc(s.life, b);
  }

  lemma StarterStep(s: State, x: Action, h: L.Agent)
    requires StarterInv(s, h) && Enabled(s, x) && (x.CallStart? ==> x.a == h)
    ensures StarterInv(Apply(s, x), h)
  {
    match x
    case Life(y) => StarterLife(s, y, h);
    case CallStart(_, _) => StarterOwn(s, x, h);
    case StartMove(_) => StarterOwn(s, x, h);
    case WaitTimeout(_) => StarterOwn(s, x, h);
    case WaitWakes(_) => StarterOwn(s, x, h);
    case NotifyStart => StarterWoken(s, h); StarterSame(WakeStarters(s), Apply(s, x), h);
    case _ => StarterSame(s, Apply(s, x), h);
  }

  lemma StarterWoken(s: State, h: L.Agent)
    requires StarterInv(s, h)
    ensures StarterInv(WakeStarters(s), h)
  {
    assert forall b :: Starter(WakeStarters(s), b) == if Starter(s, b) == Asleep then Waiting else Starter(s, b);
  }

  lemma StarterSame(s: State, s': State, h: L.Agent)
    requires StarterInv(s, h) && s'.life == s.life && s'.starters == s.starters && s'.armed == s.armed
    ensures StarterInv(s', h)
  {
    assert forall b :: Starter(s', b) == Starter(s, b);
  }

  // ----- The session

  lemma AheadStays(s: State, y: L.Action, a: L.Agent)
    requires PartsInv(s) && Enabled(s, Life(y)) && HookAhead(s, a)
    ensures HookAhead(ApplyLife(s, y), a)
  {
    LT.HookStays(s.life, y, a);
    assert L.Pc(s.life, a).StopNotify? ==> a !in s.hooks;
  }

  lemma SettledLife(s: State, y: L.Action)
    requires PartsInv(s) && Enabled(s, Life(y)) && Settled(s)
    ensures Settled(ApplyLife(s, y))
  {
    if a :| HookAhead(s, a) {
      AheadStays(s, y, a);
    }
  }

  /** A session is only over, or live under a stop, if it already was, or a stop was just requested. */
  lemma OverBefore(s: State, y: L.Action, t: ThreadId)
    requires Enabled(s, Life(y)) && t in s.life.workers && Over(ApplyLife(s, y), t)
    ensures Over(s, t) || (Stopping(s) && LT.LiveAt(s.life, t))
  {
  }

  lemma ArmedLife(s: State, y: L.Action)
    requires L.SessionInv(s.life) && PartsInv(s) && ArmedInv(s) && Enabled(s, Life(y)) && !y.Spawn?
    ensures ArmedInv(ApplyLife(s, y))
  {
    var s' := ApplyLife(s, y);
    if s.armed.Some? {
      var t := s.armed.value;
      if Settled(s) {
        SettledLife(s, y);
      } else {
        if Over(s', t) {
          OverBefore(s, y, t);
        }
        if Stopping(s') && LT.LiveAt(s'.life, t) {
          LT.LiveBefore(s.life, y, t);
          LT.RaisedWithHook(s.life, y, t);
          assert HookAhead(s', y.a);
        }
      }
    }
  }

  lemma ArmedSpawn(s: State, y: L.Action)
    requires PartsInv(s) && Enabled(s, Life(y)) && y.Spawn?
    ensures ArmedInv(ApplyLife(s, y))
  {
    assert At(s, y.t) == PreBuild;
  }

  lemma SettledHere(s: State, s': State)
    requires s'.life == s.life && s'.hooks == s.hooks && (s.start.resolved ==> s'.start.resolved)
    ensures Settled(s) ==> Settled(s')
  {
    if a :| HookAhead(s, a) {
      assert HookAhead(s', a);
    }
  }

  lemma ArmedHook(s: State, a: L.Agent)
    requires ArmedInv(s) && Enabled(s, HookMove(a))
    ensures ArmedInv(Apply(s, HookMove(a)))
  {
    var s' := Apply(s, HookMove(a));
    assert Hook(s, a) == HookStop ==> HookAhead(s', a);
    assert Settled(s');
  }

  lemma ArmedStart(s: State, a: L.Agent)
    requires ArmedInv(s) && Enabled(s, StartMove(a))
    ensures ArmedInv(ApplyStart(s, a))
  {
    if !Starter(s, a).Resetting? {
      SettledHere(s, ApplyStart(s, a));
    }
  }

  lemma ArmedPre(s: State, t: ThreadId, ok: bool)
    requires ArmedInv(s) && Enabled(s, PreMove(t, ok))
    ensures ArmedInv(ApplyPre(s, t, ok))
  {
    SettledHere(s, ApplyPre(s, t, ok));
  }

  lemma ArmedRun(s: State, t: ThreadId, found: bool)
    requires ArmedInv(s) && Enabled(s, RunMove(t, found))
    ensures ArmedInv(ApplyRun(s, t, found))
  {
    SettledHere(s, ApplyRun(s, t, found));
  }

  /** Sessions stay where they are. */
  lemma ArmedSame(s: State, s': State)
    requires ArmedInv(s) && s'.life == s.life && s'.hooks == s.hooks && s'.armed == s.armed
    requires s.start.resolved ==> s'.start.resolved
    requires forall t: ThreadId :: Over(s', t) ==> Over(s, t)
    ensures ArmedInv(s')
  {
    SettledHere(s, s');
  }

  lemma ArmedStep(s: State, x: Action)
    requires L.SessionInv(s.life) && PartsInv(s) && ArmedInv(s) && Enabled(s, x)
    ensures ArmedInv(Apply(s, x))
  {
    match x
    case Life(y) =>
      if y.Spawn? {
        ArmedSpawn(s, y);
      } else {
        ArmedLife(s, y);
      }
    case HookMove(a) => ArmedHook(s, a);
    case StartMove(a) => ArmedStart(s, a);
    case PreMove(t, ok) => ArmedPre(s, t, ok);
    case RunMove(t, found) => ArmedRun(s, t, found);
    case _ => ArmedSame(s, Apply(s, x));
  }

  // ----- Over whole runs

  lemma LifeKept(s: State, x: Action)
    requires L.Inv(s.life) && Enabled(s, x)
    requires x.StartMove? && Starter(s, x.a).Resetting? ==> L.Pc(s.life, x.a).Idle?
    ensures L.Inv(Apply(s, x).life)
  {
    if x.Life? {
      L.InvStep(s.life, x.x);
    } else if Resets(s, x) {
      var y := L.CallStart(x.a, true);
      assert Apply(s, x).life == L.Apply(s.life, y);
      L.InvStep(s.life, y);
    } else {
      assert Apply(s, x).life == s.life;
    }
  }

  lemma FreeLife(s: State, y: L.Action)
    requires FreeInv(s) && Enabled(s, Life(y))
    ensures FreeInv(ApplyLife(s, y))
  {
    var s' := ApplyLife(s, y);
    forall a | Starter(s', a).Resetting?
      ensures L.Pc(s'.life, a).Idle?
    {
      assert Starter(s, a).Resetting?;
      L.NotifyAllPc(s.life, a);
    }
  }

  lemma FreeStart(s: State, a: L.Agent)
    requires FreeInv(s) && Enabled(s, StartMove(a))
    ensures FreeInv(ApplyStart(s, a))
  {
    assert forall b :: b != a ==> Starter(ApplyStart(s, a), b) == Starter(s, b) && L.Pc(ApplyStart(s, a).life, b) == L.Pc(s.life, b);
  }

  lemma FreeStep(s: State, x: Action)
    requires FreeInv(s) && Enabled(s, x)
    ensures FreeInv(Apply(s, x))
  {
    match x
    case Life(y) => FreeLife(s, y);
    case NotifyStart => assert forall a :: Starter(Apply(s, x), a).Resetting? ==> Starter(s, a).Resetting?;
    case CallStart(a, _) => assert forall b :: b != a ==> Starter(Apply(s, x), b) == Starter(s, b);
    case StartMove(a) => FreeStart(s, a);
    case WaitTimeout(a) => assert forall b :: b != a ==> Starter(Apply(s, x), b) == Starter(s, b);
    case WaitWakes(a) => assert forall b :: b != a ==> Starter(Apply(s, x), b) == Starter(s, b);
    case _ => assert forall b :: Starter(Apply(s, x), b) == Starter(s, b);
  }

  lemma {:induction false} BaseRun(states: seq<State>, actions: seq<Action>, i: nat)
    requires IsRun(states, actions) && i < |states|
    ensures L.Inv(states[i].life) && PartsInv(states[i]) && FreeInv(states[i]) && ArmedInv(states[i])
  {
    if i == 0 {
      L.InvInit();
    } else {
      var s, x := states[i - 1], actions[i - 1];
      BaseRun(states, actions, i - 1);
      LifeKept(s, x);
      PartsStep(s, x);
      FreeStep(s, x);
      ArmedStep(s, x);
    }
  }

  lemma {:induction false} StarterRun(states: seq<State>, actions: seq<Action>, h: L.Agent, i: nat)
    requires IsRun(states, actions) && OneStarter(actions, h) && i < |states|
    ensures StarterInv(states[i], h)
  {
    if i > 0 {
      StarterRun(states, actions, h, i - 1);
      StarterStep(states[i - 1], actions[i - 1], h);
    }
  }

  /** While the only starter waits, a session that has reached Stopped is resolved, or some thread
      inside the stop hook will still resolve it; the starter does not wait for nobody. */
  lemma StoppedIsSettled(states: seq<State>, actions: seq<Action>, h: L.Agent, i: nat)
    requires IsRun(states, actions) && OneStarter(actions, h) && i < |states|
    requires Starter(states[i], h) == Waiting || Starter(states[i], h) == Asleep
    requires states[i].life.core.state == L.Stopped
    ensures states[i].start.resolved || exists a :: HookAhead(states[i], a)
  {
    var s := states[i];
    BaseRun(states, actions, i);
    StarterRun(states, actions, h, i);
    assert Over(s, s.armed.value);
  }
}
