/** A stop reaches the gRPC engine: its server and its queue are shut down, so that the loop can end. */
module GrpcStops {
  import opened Wrappers
  import opened GrpcEngine
  import opened GrpcTheorems
  import L = Lifecycle
  import LT = LifecycleTheorems

  /** Agent a has still to shut the server, or the queue, down. */
  predicate OwesServer(s: State, a: L.Agent) {
    var pc := L.Pc(s.life, a);
    (pc.StopNotify? && pc.trigger) || (pc.StopHook? && Hook(s, a) == HookServer)
  }

  predicate OwesQueue(s: State, a: L.Agent) {
    var pc := L.Pc(s.life, a);
    (pc.StopNotify? && pc.trigger) || (pc.StopHook? && Hook(s, a) != HookDone)
  }

  ghost predicate ServerSeen(s: State) {
    s.serverShut || exists a :: OwesServer(s, a)
  }

  ghost predicate QueueSeen(s: State) {
    s.queueShut || exists a :: OwesQueue(s, a)
  }

  /** Session t is past its check of the flag. */
  predicate PastCheck(s: State, t: ThreadId) {
    WorkerAt(s, t, L.SetRunning) || WorkerAt(s, t, L.NotifyRunning) || WorkerAt(s, t, L.InRun)
  }

  ghost predicate SeenInv(s: State) {
    forall t: ThreadId :: PastCheck(s, t) && Stopping(s) ==> ServerSeen(s) && QueueSeen(s)
  }

  lemma SeenCarry(s: State, s': State)
    requires s.serverShut ==> s'.serverShut
    requires s.queueShut ==> s'.queueShut
    requires forall a :: OwesServer(s, a) ==> OwesServer(s', a) || s'.serverShut
    requires forall a :: OwesQueue(s, a) ==> OwesQueue(s', a) || s'.queueShut
    ensures ServerSeen(s) ==> ServerSeen(s')
    ensures QueueSeen(s) ==> QueueSeen(s')
  {
    if a :| OwesServer(s, a) {
      assert OwesServer(s', a) || s'.serverShut;
    }
    if a :| OwesQueue(s, a) {
      assert OwesQueue(s', a) || s'.queueShut;
    }
  }

  lemma OwesLife(s: State, y: L.Action, a: L.Agent)
    requires LoopInv(s) && Enabled(s, Life(y))
    ensures OwesServer(s, a) ==> OwesServer(ApplyLife(s, y), a)
    ensures OwesQueue(s, a) ==> OwesQueue(ApplyLife(s, y), a)
  {
    if OwesQueue(s, a) {
      LT.HookStays(s.life, y, a);
      assert L.Pc(s.life, a).StopNotify? ==> a !in s.hooks;
    }
  }

  /** A session gets past its check with the flag clear. */
  lemma PastCheckBefore(s: State, y: L.Action, t: ThreadId)
    requires Enabled(s, Life(y)) && PastCheck(ApplyLife(s, y), t)
    ensures PastCheck(s, t) || !Stopping(ApplyLife(s, y))
  {
  }

  lemma SeenLife(s: State, y: L.Action)
    requires L.SessionInv(s.life) && LoopInv(s) && SeenInv(s) && Enabled(s, Life(y))
    ensures SeenInv(ApplyLife(s, y))
  {
    var s' := ApplyLife(s, y);
    forall t: ThreadId | PastCheck(s', t) && Stopping(s')
      ensures ServerSeen(s') && QueueSeen(s')
    {
      PastCheckBefore(s, y, t);
      if Stopping(s) {
        forall a ensures (OwesServer(s, a) ==> OwesServer(s', a)) && (OwesQueue(s, a) ==> OwesQueue(s', a)) {
          OwesLife(s, y, a);
        }
        SeenCarry(s, s');
      } else {
        LT.RaisedWithHook(s.life, y, t);
        assert OwesServer(s', y.a) && OwesQueue(s', y.a);
      }
    }
  }

  lemma SeenHook(s: State, a: L.Agent)
    requires SeenInv(s) && Enabled(s, HookMove(a))
    ensures SeenInv(Apply(s, HookMove(a)))
  {
    var s' := Apply(s, HookMove(a));
    assert forall b :: b != a ==> Hook(s', b) == Hook(s, b);
    assert forall b :: OwesServer(s, b) ==> OwesServer(s', b) || s'.serverShut;
    assert forall b :: OwesQueue(s, b) ==> OwesQueue(s', b) || s'.queueShut;
    SeenCarry(s, s');
    assert forall t: ThreadId :: PastCheck(s', t) == PastCheck(s, t);
  }

  lemma SeenBuild(s: State, t: ThreadId)
    requires L.SessionInv(s.life) && Enabled(s, Build(t))
    ensures SeenInv(Apply(s, Build(t)))
  {
    assert s.life.session == L.Serving(t);
    assert forall u: ThreadId :: PastCheck(s, u) ==> s.life.session == L.Serving(u);
    assert forall u: ThreadId :: PastCheck(Apply(s, Build(t)), u) == PastCheck(s, u);
  }

  lemma SeenOther(s: State, x: Action)
    requires SeenInv(s) && Enabled(s, x) && (x.Arm? || x.Deliver? || x.SeesShutdown?)
    ensures SeenInv(Apply(s, x))
  {
    var s' := Apply(s, x);
    assert s'.life == s.life && s'.hooks == s.hooks && s'.serverShut == s.serverShut && s'.queueShut == s.queueShut;
    assert forall a :: OwesServer(s, a) ==> OwesServer(s', a);
    assert forall a :: OwesQueue(s, a) ==> OwesQueue(s', a);
    SeenCarry(s, s');
    assert forall t: ThreadId :: PastCheck(s', t) == PastCheck(s, t);
  }

  lemma SeenStep(s: State, x: Action)
    requires L.SessionInv(s.life) && LoopInv(s) && SeenInv(s) && Enabled(s, x)
    ensures SeenInv(Apply(s, x))
  {
    match x
    case Life(y) => SeenLife(s, y);
    case HookMove(a) => SeenHook(s, a);
    case Build(t) => SeenBuild(s, t);
    case _ => SeenOther(s, x);
  }

  lemma SeenNext(states: seq<State>, actions: seq<Action>, k: nat)
    requires IsRun(states, actions) && k < |actions| && SeenInv(states[k])
    ensures SeenInv(states[k + 1])
  {
    InvRun(states, actions, k);
    SeenStep(states[k], actions[k]);
  }

  lemma {:induction false} SeenRun(states: seq<State>, actions: seq<Action>, i: nat)
    requires IsRun(states, actions) && i < |states|
    ensures SeenInv(states[i])
  {
    if i > 0 {
      SeenRun(states, actions, i - 1);
      SeenNext(states, actions, i - 1);
    }
  }

  /** While the loop runs with a stop requested, the server is shut down or some thread is on its way to do
      it, and so is the queue; and once no such thread is left and no operation is outstanding, the loop can
      see SHUTDOWN. */
  lemma StopReachesEngine(states: seq<State>, actions: seq<Action>, i: nat, t: ThreadId)
    requires IsRun(states, actions) && i < |states| && At(states[i], t) == Looping && Stopping(states[i])
    ensures states[i].serverShut || exists a :: OwesServer(states[i], a)
    ensures states[i].queueShut || exists a :: OwesQueue(states[i], a)
    ensures !(exists a :: OwesQueue(states[i], a)) && states[i].engine.outstanding == multiset{} ==> Enabled(states[i], SeesShutdown(t))
  {
    InvRun(states, actions, i);
    SeenRun(states, actions, i);
    assert PastCheck(states[i], t);
  }
}
