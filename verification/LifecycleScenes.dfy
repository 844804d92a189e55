/** Single runs of the lifecycle protocol, for the protocols built on top to take part in.  One controller
    starts, another requests a stop. */
module LifecycleScenes {
  import opened Wrappers
  import opened Lifecycle
  import R = Runs

  const starter := Controller(0)
  const stopper := Controller(1)

  /** A step that the protocols on top leave to the lifecycle: no end of preRun() or run(), no return of a
      stop hook. */
  predicate Unshared(s: State, x: Action) {
    match x
    case CallStart(a, _) => a.Controller?
    case CallStop(a, _) => a.Controller?
    case Move(a) => !Pc(s, a).StopHook?
    case PreRunEnds(_, _) => false
    case RunEnds(_, _) => false
    case _ => true
  }

  predicate Alone(s: State, x: Action, s': State) {
    Enabled(s, x) && Unshared(s, x) && s' == Apply(s, x)
  }

  ghost predicate Goes(s: State, s': State) {
    R.Reaches(s, Alone, s')
  }

  lemma GoStep(from: State, s: State, x: Action) returns (s': State)
    requires Goes(from, s) && Enabled(s, x) && Unshared(s, x)
    ensures s' == Apply(s, x) && Goes(from, s')
  {
    s' := Apply(s, x);
    R.ReachesOn(from, Alone, s, x, s');
  }

  /** No thread of a session is inside a call. */
  ghost predicate InnerIdle(s: State) {
    forall a: Agent :: a.Inner? ==> Pc(s, a).Idle?
  }

  /** What the state looks like; only the two controllers call. */
  ghost predicate Looks(s: State, core: Core, workers: map<ThreadId, WorkerPc>, a: AgentPc, b: AgentPc) {
    s.core == core && s.workers == workers && Pc(s, starter) == a && Pc(s, stopper) == b && InnerIdle(s)
  }

  lemma NotifyLooks(s: State, core: Core, workers: map<ThreadId, WorkerPc>, a: AgentPc, b: AgentPc)
    requires Looks(s, core, workers, a, b)
    ensures Looks(NotifyAll(s), core, workers, Woken(a), Woken(b))
  {
    forall c: Agent ensures Pc(NotifyAll(s), c) == Woken(Pc(s, c)) {
      NotifyAllPc(s, c);
    }
  }

  const Started := Idle(StartReturned(true))
  const InHook := StopHook(RequestOnly)

  /** The starter creates thread t. */
  lemma Spawns(from: State, s: State, t: ThreadId, core: Core, workers: map<ThreadId, WorkerPc>, b: AgentPc) returns (s': State)
    requires Goes(from, s) && Looks(s, core, workers, StartLock(true), b) && CanStart(core) && t !in workers && Woken(b) == b
    ensures Goes(from, s') && Looks(s', Core(Starting, false, Some(t), false), workers[t := PreRun], Started, b)
  {
    var s1 := GoStep(from, s, Spawn(starter, t));
    NotifyLooks(s1, s1.core, s1.workers, StartNotify(true), b);
    s' := GoStep(from, s1, Move(starter));
  }

  /** Thread 0 is in its preRun(), and a stop request is about to take the lock. */
  lemma FirstStart() returns (s: State)
    ensures Goes(Init, s) && Looks(s, Core(Starting, false, Some(0), false), map[0 := PreRun], Started, StopLock(RequestOnly))
  {
    R.ReachesSelf(Init, Alone);
    s := GoStep(Init, Init, CallStop(stopper, RequestOnly));
    s := GoStep(Init, s, CallStart(starter, true));
    s := GoStep(Init, s, Move(starter));
    s := Spawns(Init, s, 0, InitialCore, map[], StopLock(RequestOnly));
  }

  /** The stop request goes as far as the hook. */
  lemma StopAsked(s: State, t: ThreadId, workers: map<ThreadId, WorkerPc>) returns (s': State)
    requires Looks(s, Core(Starting, false, Some(t), false), workers, Started, StopLock(RequestOnly))
    ensures Goes(s, s') && Looks(s', Core(Stopping, true, Some(t), false), workers, Started, InHook)
  {
    R.ReachesSelf(s, Alone);
    var s1 := GoStep(s, s, Move(stopper));
    NotifyLooks(s1, s1.core, workers, Started, StopNotify(RequestOnly, true));
    s' := GoStep(s, s1, Move(stopper));
  }

  lemma PreRunLooks(s: State, t: ThreadId, ok: bool, core: Core, workers: map<ThreadId, WorkerPc>, a: AgentPc, b: AgentPc)
    requires Looks(s, core, workers, a, b) && t in workers && workers[t] == PreRun
    ensures Enabled(s, PreRunEnds(t, Returns(ok)))
    ensures Looks(Apply(s, PreRunEnds(t, Returns(ok))), core, workers[t := if ok then CheckStop else SetStopped], a, b)
  {
  }

  lemma Exits(s: State) returns (s': State)
    requires Looks(s, Core(Stopping, true, Some(0), false), map[0 := SetStopped], Started, InHook)
    ensures Goes(s, s') && Looks(s', Core(Stopped, true, Some(0), false), map[0 := Exited], Started, InHook)
  {
    R.ReachesSelf(s, Alone);
    var s1 := GoStep(s, s, Advance(0));
    NotifyLooks(s1, s1.core, s1.workers, Started, InHook);
    s' := GoStep(s, s1, Advance(0));
  }

  /** Thread 0 ends, the starter joins it and creates thread 1, and the hook is still where it was. */
  lemma Restarts(s: State) returns (s': State)
    requires Looks(s, Core(Stopping, true, Some(0), false), map[0 := SetStopped], Started, InHook)
    ensures Goes(s, s') && Looks(s', Core(Starting, false, Some(1), false), map[0 := Exited, 1 := PreRun], Started, InHook)
  {
    s' := Exits(s);
    s' := GoStep(s, s', CallStart(starter, true));
    s' := GoStep(s, s', Move(starter));
    s' := GoStep(s, s', Move(starter));
    s' := Spawns(s, s', 1, s'.core, s'.workers, InHook);
  }

  /** From a successful preRun() into run(). */
  lemma Enters(s: State, t: ThreadId, workers: map<ThreadId, WorkerPc>, b: AgentPc) returns (s': State)
    requires Looks(s, Core(Starting, false, Some(t), false), workers, Started, b) && t in workers && workers[t] == CheckStop
    requires Woken(b) == b
    ensures Goes(s, s') && Looks(s', Core(Running, false, Some(t), false), workers[t := InRun], Started, b)
  {
    R.ReachesSelf(s, Alone);
    var s1 := GoStep(s, s, Advance(t));
    var s2 := GoStep(s, s1, Advance(t));
    NotifyLooks(s2, s2.core, s2.workers, Started, b);
    s' := GoStep(s, s2, Advance(t));
  }

  // ----- Running overwrites Stopping

  predicate Next(s: State, x: Action, s': State) {
    Enabled(s, x) && s' == Apply(s, x)
  }

  ghost predicate StepsBack(states: seq<State>) {
    exists i: nat :: i + 1 < |states| && states[i].core.state == Stopping && states[i + 1].core.state == Running
  }

  /** The state goes from Stopping to Running in some run. */
  lemma StoppingIsOverwritten()
    ensures exists states, actions :: IsRun(states, actions) && StepsBack(states)
  {
    var s := FirstStart();
    R.Carried(Init, Alone, s, Init, Next, (k: State) => k, (y: Action) => y) by {
      R.ReachesSelf(Init, Next);
    }
    PreRunLooks(s, 0, true, s.core, s.workers, Started, StopLock(RequestOnly));
    var s1 := Apply(s, PreRunEnds(0, Returns(true)));
    R.ReachesOn(Init, Next, s, PreRunEnds(0, Returns(true)), s1);
    var s2 := Apply(s1, Advance(0));
    R.ReachesOn(Init, Next, s1, Advance(0), s2);
    var s3 := Apply(s2, Move(stopper));
    R.ReachesOn(Init, Next, s2, Move(stopper), s3);
    LastStep(s3, Advance(0));
  }

  lemma LastStep(s: State, x: Action)
    requires R.Reaches(Init, Next, s) && Enabled(s, x) && s.core.state == Stopping && Apply(s, x).core.state == Running
    ensures exists states, actions :: IsRun(states, actions) && StepsBack(states)
  {
    var states, actions :| R.Leads(Init, Next, states, actions, s);
    var states', actions' := states + [Apply(s, x)], actions + [x];
    assert IsRun(states', actions') by {
      forall i {:trigger actions'[i]} | 0 <= i < |actions'|
        ensures Enabled(states'[i], actions'[i]) && states'[i + 1] == Apply(states'[i], actions'[i])
      {
        assert i < |actions| ==> actions'[i] == actions[i];
      }
    }
    assert states'[|actions|] == s && states'[|actions| + 1] == Apply(s, x);
  }
}
