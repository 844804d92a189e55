/** Every delivered tag is live, every object is deleted once, every accepted request is handled and
    finished once, there is one listener until a stop, and draining is bounded. */
module GrpcTheorems {
  import opened Wrappers
  import opened GrpcEngine
  import L = Lifecycle
  import LT = LifecycleTheorems

  // ----- One outstanding operation for each live object

  predicate Living(c: Call) {
    c.status != Deleted
  }

  /** An object was handled as often as it was finished, at most once, and was deleted once or not yet. */
  predicate CallOk(c: Call) {
    && c.status != Create
    && c.handled == c.finishes <= 1
    && (c.reply == NoReply <==> c.handled == 0)
    && (c.status == Process ==> c.handled == 0)
    && (c.status == Finish ==> c.handled == 1)
    && c.deletes == (if c.status == Deleted then 1 else 0)
  }

  ghost predicate EngineInv(e: Engine) {
    && !e.fault
    && (forall tag: Tag :: e.outstanding[tag] == if tag in e.all && Living(e.all[tag]) then 1 else 0)
    && (forall tag :: tag in e.all ==> CallOk(e.all[tag]))
    && (forall tag :: tag in e.all && e.all[tag].status == Process ==> e.listener == Some(tag))
    && (e.listener.Some? ==> e.listener.value in e.all && e.all[e.listener.value].status == Process)
  }

  /** Arming needs the previous listener to be gone. */
  lemma ArmKeeps(e: Engine, tag: Tag)
    requires EngineInv(e) && tag !in e.all && e.listener.None?
    ensures EngineInv(Armed(e, tag))
  {
  }

  lemma HandleKeeps(e: Engine, tag: Tag, ok: bool, running: bool, next: Tag, throws: bool)
    requires EngineInv(e) && tag in e.outstanding && next !in e.all
    ensures EngineInv(Handle(e, tag, ok, running, next, throws))
  {
    assert e.outstanding[tag] == 1;
    if ok && e.all[tag].status == Process {
      ServeKeeps(e, tag, running, next, throws);
    } else {
      DeleteKeeps(e, tag, ok, running, next, throws);
    }
  }

  /** A request is served: perhaps a new listener, and the object waits for its Finish. */
  lemma ServeKeeps(e: Engine, tag: Tag, running: bool, next: Tag, throws: bool)
    requires EngineInv(e) && tag in e.outstanding && next !in e.all && tag in e.all && e.all[tag].status == Process
    ensures EngineInv(Handle(e, tag, true, running, next, throws))
  {
    assert e.outstanding[tag] == 1;
    assert next != tag;
  }

  /** The object of a failed or finished operation is deleted. */
  lemma DeleteKeeps(e: Engine, tag: Tag, ok: bool, running: bool, next: Tag, throws: bool)
    requires EngineInv(e) && tag in e.outstanding && tag in e.all && !(ok && e.all[tag].status == Process)
    ensures EngineInv(Handle(e, tag, ok, running, next, throws))
  {
    assert e.outstanding[tag] == 1;
    assert CallOk(e.all[tag]);
  }

  // ----- With the lifecycle

  ghost predicate Idle(e: Engine) {
    e.listener.None? && e.outstanding == multiset{}
  }

  /** Between loops nothing is outstanding. */
  ghost predicate LoopInv(s: State) {
    && (forall t: ThreadId :: At(s, t) == Looping ==> WorkerAt(s, t, L.InRun))
    && (forall t: ThreadId :: t in s.progress ==> t in s.life.workers)
    && (!(s.life.session.Serving? && At(s, s.life.session.t) == Looping) ==> Idle(s.engine))
    && (forall a :: a in s.hooks ==> L.Pc(s.life, a).StopHook?)
  }

  ghost predicate Inv(s: State) {
    L.Inv(s.life) && EngineInv(s.engine) && LoopInv(s)
  }

  lemma LoopLife(s: State, y: L.Action)
    requires L.SessionInv(s.life) && LoopInv(s) && Enabled(s, Life(y)) && L.SessionInv(L.Apply(s.life, y))
    ensures LoopInv(ApplyLife(s, y))
  {
    var s' := ApplyLife(s, y);
    forall t: ThreadId | At(s, t) == Looping
      ensures WorkerAt(s', t, L.InRun)
    {
      LT.InRunStays(s.life, y, t);
    }
    LifeHooks(s, y);
    assert forall t: ThreadId :: At(s', t) == At(s, t);
  }

  lemma LifeHooks(s: State, y: L.Action)
    requires LoopInv(s) && Enabled(s, Life(y))
    ensures s.life.workers.Keys <= ApplyLife(s, y).life.workers.Keys
    ensures forall a :: a in ApplyLife(s, y).hooks ==> L.Pc(ApplyLife(s, y).life, a).StopHook?
  {
    forall a | a in ApplyLife(s, y).hooks
      ensures L.Pc(ApplyLife(s, y).life, a).StopHook?
    {
      LT.HookStays(s.life, y, a);
    }
  }

  lemma DrainedIsIdle(e: Engine)
    requires EngineInv(e) && e.outstanding == multiset{}
    ensures Idle(e)
  {
    assert e.listener.Some? ==> e.outstanding[e.listener.value] == 1;
  }

  /** The session under way advances. */
  lemma StepProgress(s: State, s': State, t: ThreadId)
    requires L.SessionInv(s.life) && LoopInv(s) && LT.LiveAt(s.life, t)
    requires s'.life == s.life && s'.hooks == s.hooks
    requires t in s'.progress && s'.progress == s.progress[t := s'.progress[t]]
    requires At(s', t) == Looping ==> WorkerAt(s, t, L.InRun)
    requires At(s', t) != Looping && Idle(s.engine) ==> Idle(s'.engine)
    requires At(s, t) == Looping && At(s', t) != Looping ==> Idle(s'.engine)
    ensures LoopInv(s')
    ensures At(s, t) != Looping ==> Idle(s.engine)
  {
    assert s.life.session == L.Serving(t);
    assert forall u: ThreadId :: u != t ==> At(s', u) == At(s, u);
  }

  lemma LifeStepKeeps(s: State, y: L.Action)
    requires Inv(s) && Enabled(s, Life(y))
    ensures Inv(ApplyLife(s, y))
  {
    L.InvStep(s.life, y);
    LoopLife(s, y);
  }

  lemma EngineStep(s: State, x: Action)
    requires EngineInv(s.engine) && Enabled(s, x) && (x.Arm? ==> Idle(s.engine))
    ensures EngineInv(Apply(s, x).engine)
  {
    match x
    case Arm(_, tag) => ArmKeeps(s.engine, tag);
    case Deliver(_, tag, ok, next, throws) => HandleKeeps(s.engine, tag, ok, !Stopping(s), next, throws);
    case _ => assert Apply(s, x).engine == s.engine;
  }

  /** No session advances; the engine may work while a loop runs. */
  lemma LoopSame(s: State, s': State)
    requires LoopInv(s) && s'.life == s.life && s'.progress == s.progress
    requires s'.engine == s.engine || (s.life.session.Serving? && At(s, s.life.session.t) == Looping)
    requires forall a :: a in s'.hooks ==> L.Pc(s'.life, a).StopHook?
    ensures LoopInv(s')
  {
    assert forall t: ThreadId :: At(s', t) == At(s, t) && (WorkerAt(s', t, L.InRun) <==> WorkerAt(s, t, L.InRun));
  }

  lemma LoopStep(s: State, x: Action)
    requires L.SessionInv(s.life) && EngineInv(s.engine) && LoopInv(s) && Enabled(s, x) && !x.Life?
    ensures LoopInv(Apply(s, x)) && (x.Arm? ==> Idle(s.engine))
  {
    match x
    case HookMove(a) => LoopSame(s, Apply(s, x));
    case Deliver(t, _, _, _, _) => LoopSame(s, Apply(s, x));
    case Build(t) => StepProgress(s, Apply(s, x), t);
    case Arm(t, _) => StepProgress(s, Apply(s, x), t);
    case SeesShutdown(t) => DrainedIsIdle(s.engine); StepProgress(s, Apply(s, x), t);
  }

  lemma InvStep(s: State, x: Action)
    requires Inv(s) && Enabled(s, x)
    ensures Inv(Apply(s, x))
  {
    if x.Life? {
      LifeStepKeeps(s, x.x);
    } else {
      LoopStep(s, x);
      EngineStep(s, x);
      assert Apply(s, x).life == s.life;
    }
  }

  lemma {:induction false} InvRun(states: seq<State>, actions: seq<Action>, i: nat)
    requires IsRun(states, actions) && i < |states|
    ensures Inv(states[i])
  {
    if i == 0 {
      L.InvInit();
    } else {
      InvRun(states, actions, i - 1);
      InvStep(states[i - 1], actions[i - 1]);
    }
  }

  /** Tag ownership: the outstanding operations are exactly the live objects, once each, and no event
      ever found its object gone. */
  lemma TagOwnership(states: seq<State>, actions: seq<Action>, i: nat)
    requires IsRun(states, actions) && i < |states|
    ensures states[i].engine.outstanding == multiset(set tag | tag in states[i].engine.all && Living(states[i].engine.all[tag]))
    ensures !states[i].engine.fault
  {
    InvRun(states, actions, i);
  }

  /** Each object is deleted at most once, and handled and finished equally often, at most once; an
      object whose request was delivered has had its handler called and its Finish posted, also
      when the handler threw. */
  lemma ServedOnce(states: seq<State>, actions: seq<Action>, i: nat, tag: Tag)
    requires IsRun(states, actions) && i < |states| && tag in states[i].engine.all
    ensures CallOk(states[i].engine.all[tag])
    ensures i < |actions| && actions[i].Deliver? && actions[i].tag == tag && actions[i].ok && states[i].engine.all[tag].status == Process
            ==> var c := states[i + 1].engine.all[tag];
                c.handled == 1 && c.finishes == 1 && c.reply == if actions[i].throws then Internal else FromHandler
  {
    InvRun(states, actions, i);
    if i < |actions| && actions[i].Deliver? && actions[i].tag == tag {
      assert states[i + 1] == Apply(states[i], actions[i]);
    }
  }

  /** When the loop sees SHUTDOWN no object is left alive. */
  lemma NothingAliveAfterShutdown(states: seq<State>, actions: seq<Action>, i: nat, t: ThreadId, tag: Tag)
    requires IsRun(states, actions) && i < |actions| && actions[i] == SeesShutdown(t)
    requires tag in states[i].engine.all
    ensures states[i].engine.all[tag].status == Deleted && states[i].engine.all[tag].deletes == 1
  {
    InvRun(states, actions, i);
    assert Enabled(states[i], actions[i]);
    assert states[i].engine.outstanding[tag] == 0;
  }

  // ----- One listener until a stop

  ghost function Listeners(e: Engine): set<Tag> {
    set tag | tag in e.all && e.all[tag].status == Process
  }

  ghost function Finishing(e: Engine): set<Tag> {
    set tag | tag in e.all && e.all[tag].status == Finish
  }

  lemma ListenerSet(e: Engine)
    requires EngineInv(e)
    ensures Listeners(e) == if e.listener.Some? then {e.listener.value} else {}
  {
  }

  /** The armed listener's request operation fails. */
  predicate FailsListener(s: State, x: Action) {
    x.Deliver? && !x.ok && s.engine.listener == Some(x.tag)
  }

  predicate FailedAfter(s: State, x: Action, failed: bool) {
    !x.Arm? && (failed || FailsListener(s, x))
  }

  /** While the loop runs: a failed listener is not replaced, and its server is down; without a failure
      and without a stop request, a listener is armed. */
  ghost predicate ListenInv(s: State, failed: bool) {
    forall t: ThreadId :: At(s, t) == Looping ==>
      (failed ==> s.engine.listener.None? && s.serverShut) && (!failed && !Stopping(s) ==> s.engine.listener.Some?)
  }

  lemma ListenLife(s: State, y: L.Action, failed: bool)
    requires L.SessionInv(s.life) && LoopInv(s) && ListenInv(s, failed) && Enabled(s, Life(y))
    ensures ListenInv(ApplyLife(s, y), failed)
  {
    var s' := ApplyLife(s, y);
    forall t: ThreadId | At(s', t) == Looping
      ensures At(s, t) == Looping && (Stopping(s) ==> Stopping(s'))
    {
      assert At(s, t) == Looping;
      if Stopping(s) {
        LT.StopSticksStep(s.life, y, t);
      }
    }
  }

  lemma ListenDeliver(s: State, x: Action, failed: bool)
    requires EngineInv(s.engine) && ListenInv(s, failed) && x.Deliver? && Enabled(s, x)
    ensures ListenInv(Apply(s, x), FailedAfter(s, x, failed))
  {
    assert forall u: ThreadId :: At(Apply(s, x), u) == At(s, u);
  }

  lemma ListenProgress(s: State, x: Action, failed: bool)
    requires L.SessionInv(s.life) && LoopInv(s) && ListenInv(s, failed) && Enabled(s, x) && (x.Build? || x.Arm? || x.SeesShutdown?)
    ensures ListenInv(Apply(s, x), FailedAfter(s, x, failed))
  {
    assert forall u: ThreadId :: u != x.t ==> At(Apply(s, x), u) == At(s, u);
    assert LT.LiveAt(s.life, x.t) && s.life.session == L.Serving(x.t);
  }

  lemma ListenStep(s: State, x: Action, failed: bool)
    requires Inv(s) && ListenInv(s, failed) && Enabled(s, x)
    ensures ListenInv(Apply(s, x), FailedAfter(s, x, failed))
  {
    match x
    case Life(y) => ListenLife(s, y, failed);
    case Deliver(_, _, _, _, _) => ListenDeliver(s, x, failed);
    case HookMove(a) => assert forall u: ThreadId :: At(Apply(s, x), u) == At(s, u);
    case _ => ListenProgress(s, x, failed);
  }

  /** Since the loop armed its first listener, one has failed. */
  ghost predicate Failed(states: seq<State>, actions: seq<Action>, i: nat)
    requires i < |states| == |actions| + 1
  {
    i > 0 && FailedAfter(states[i - 1], actions[i - 1], Failed(states, actions, i - 1))
  }

  lemma ListenStepAt(states: seq<State>, actions: seq<Action>, k: nat, failed: bool)
    requires IsRun(states, actions) && k < |actions| && ListenInv(states[k], failed)
    ensures ListenInv(states[k + 1], FailedAfter(states[k], actions[k], failed))
  {
    InvRun(states, actions, k);
    ListenStep(states[k], actions[k], failed);
  }

  lemma {:induction false} ListenRun(states: seq<State>, actions: seq<Action>, i: nat)
    requires IsRun(states, actions) && i < |states|
    ensures ListenInv(states[i], Failed(states, actions, i))
  {
    if i > 0 {
      ListenRun(states, actions, i - 1);
      ListenStepAt(states, actions, i - 1, Failed(states, actions, i - 1));
    }
  }

  /** In every run there is never more than one armed listener.  While the loop runs and no stop was
      requested there is exactly one if and only if none has failed since the first was armed; and none
      has failed as long as the loop's server is up. */
  lemma OneListener(states: seq<State>, actions: seq<Action>, i: nat, t: ThreadId)
    requires IsRun(states, actions) && i < |states|
    ensures |Listeners(states[i].engine)| <= 1
    ensures At(states[i], t) == Looping && !Stopping(states[i]) ==>
              (|Listeners(states[i].engine)| == 1 <==> !Failed(states, actions, i))
    ensures At(states[i], t) == Looping && !states[i].serverShut ==> !Failed(states, actions, i)
  {
    InvRun(states, actions, i);
    ListenRun(states, actions, i);
    ListenerSet(states[i].engine);
  }

  /** As soon as the server is shut down, by whichever session's hook, the listener may fail; and then
      none is armed although the loop goes on with the flag clear. */
  lemma ShutServerLosesListener(states: seq<State>, actions: seq<Action>, i: nat, t: ThreadId, tag: Tag, next: Tag)
    requires IsRun(states, actions) && i < |states|
    requires At(states[i], t) == Looping && !Stopping(states[i]) && states[i].serverShut
    requires states[i].engine.listener == Some(tag) && next !in states[i].engine.all
    ensures Enabled(states[i], Deliver(t, tag, false, next, false))
    ensures var s := Apply(states[i], Deliver(t, tag, false, next, false));
            At(s, t) == Looping && !Stopping(s) && Listeners(s.engine) == {}
  {
    InvRun(states, actions, i);
    assert states[i].engine.outstanding[tag] == 1;
    HandleKeeps(states[i].engine, tag, false, true, next, false);
    ListenerSet(Apply(states[i], Deliver(t, tag, false, next, false)).engine);
  }

  // ----- Draining is bounded

  ghost function Work(e: Engine): nat {
    2 * |Listeners(e)| + |Finishing(e)|
  }

  lemma ListenerDrains(e: Engine, tag: Tag, ok: bool, next: Tag, throws: bool)
    requires EngineInv(e) && tag in e.all && e.all[tag].status == Process
    ensures Work(Handle(e, tag, ok, false, next, throws)) < Work(e)
  {
    var e' := Handle(e, tag, ok, false, next, throws);
    assert Listeners(e') == Listeners(e) - {tag};
    assert Finishing(e') == if ok then Finishing(e) + {tag} else Finishing(e);
  }

  lemma FinishDrains(e: Engine, tag: Tag, ok: bool, next: Tag, throws: bool)
    requires EngineInv(e) && tag in e.all && e.all[tag].status == Finish
    ensures Work(Handle(e, tag, ok, false, next, throws)) < Work(e)
  {
    var e' := Handle(e, tag, ok, false, next, throws);
    assert Listeners(e') == Listeners(e);
    assert Finishing(e') == Finishing(e) - {tag};
  }

  /** Once the flag is set, every event leaves strictly less work. */
  lemma HandleDrains(e: Engine, tag: Tag, ok: bool, next: Tag, throws: bool)
    requires EngineInv(e) && tag in e.outstanding
    ensures Work(Handle(e, tag, ok, false, next, throws)) < Work(e)
  {
    assert e.outstanding[tag] == 1 && CallOk(e.all[tag]);
    if e.all[tag].status == Process {
      ListenerDrains(e, tag, ok, next, throws);
    } else {
      FinishDrains(e, tag, ok, next, throws);
    }
  }

  function Deliveries(actions: seq<Action>): nat {
    if actions == [] then 0
    else Deliveries(actions[..|actions| - 1]) + if actions[|actions| - 1].Deliver? then 1 else 0
  }

  lemma DeliveriesSnoc(actions: seq<Action>, i: nat, j: nat)
    requires i < j <= |actions|
    ensures Deliveries(actions[i..j]) == Deliveries(actions[i..j - 1]) + if actions[j - 1].Deliver? then 1 else 0
  {
    assert actions[i..j][..j - 1 - i] == actions[i..j - 1];
  }

  lemma LoopOrDrained(s: State, x: Action, t: ThreadId)
    requires Enabled(s, x) && (At(s, t) == Looping || At(s, t) == Drained)
    requires forall u: ThreadId :: At(s, u) == Looping ==> WorkerAt(s, u, L.InRun)
    ensures At(Apply(s, x), t) == Looping || At(Apply(s, x), t) == Drained
    ensures At(s, t) == Drained ==> At(Apply(s, x), t) == Drained
  {
  }

  lemma LoopOrDrainedAt(states: seq<State>, actions: seq<Action>, k: nat, t: ThreadId)
    requires IsRun(states, actions) && k < |actions| && (At(states[k], t) == Looping || At(states[k], t) == Drained)
    ensures At(states[k + 1], t) == Looping || At(states[k + 1], t) == Drained
    ensures At(states[k], t) == Drained ==> At(states[k + 1], t) == Drained
  {
    InvRun(states, actions, k);
    LoopOrDrained(states[k], actions[k], t);
  }

  lemma {:induction false} StillLooping(states: seq<State>, actions: seq<Action>, i: nat, j: nat, t: ThreadId)
    requires IsRun(states, actions) && i <= j < |states| && At(states[i], t) == Looping
    ensures At(states[j], t) == Looping || At(states[j], t) == Drained
  {
    if i < j {
      StillLooping(states, actions, i, j - 1, t);
      LoopOrDrainedAt(states, actions, j - 1, t);
    }
  }

  lemma StepDrains(s: State, x: Action, t: ThreadId)
    requires Inv(s) && Enabled(s, x) && At(s, t) == Looping && Stopping(s)
    ensures Stopping(Apply(s, x))
    ensures Work(Apply(s, x).engine) + (if x.Deliver? then 1 else 0) <= Work(s.engine)
  {
    assert s.life.session == L.Serving(t);
    match x
    case Life(y) => LT.StopSticksStep(s.life, y, t);
    case Deliver(_, tag, ok, next, throws) => HandleDrains(s.engine, tag, ok, next, throws);
    case _ =>
  }

  lemma LoopingBefore(states: seq<State>, actions: seq<Action>, i: nat, k: nat, t: ThreadId)
    requires IsRun(states, actions) && i <= k < |actions|
    requires At(states[i], t) == Looping && At(states[k + 1], t) == Looping
    ensures At(states[k], t) == Looping
  {
    StillLooping(states, actions, i, k, t);
    LoopOrDrainedAt(states, actions, k, t);
  }

  lemma DrainsAt(states: seq<State>, actions: seq<Action>, k: nat, t: ThreadId)
    requires IsRun(states, actions) && k < |actions| && At(states[k], t) == Looping && Stopping(states[k])
    ensures Stopping(states[k + 1])
    ensures Work(states[k + 1].engine) + (if actions[k].Deliver? then 1 else 0) <= Work(states[k].engine)
  {
    InvRun(states, actions, k);
    StepDrains(states[k], actions[k], t);
  }

  /** Draining is bounded: from the moment the flag is set, as long as the loop runs, the number of
      delivered events is at most the work there was, two for a listener and one for each Finish. */
  lemma {:induction false} DrainBounded(states: seq<State>, actions: seq<Action>, i: nat, j: nat, t: ThreadId)
    requires IsRun(states, actions) && i <= j < |states|
    requires At(states[i], t) == Looping && At(states[j], t) == Looping && Stopping(states[i])
    ensures Deliveries(actions[i..j]) + Work(states[j].engine) <= Work(states[i].engine)
    ensures Stopping(states[j])
  {
    if i == j {
      assert actions[i..j] == [];
    } else {
      LoopingBefore(states, actions, i, j - 1, t);
      DrainBounded(states, actions, i, j - 1, t);
      DrainsAt(states, actions, j - 1, t);
      DeliveriesSnoc(actions, i, j);
    }
  }
}
