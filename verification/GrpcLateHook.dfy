/** A run in which the stop hook of one session, delayed, shuts down the server of the next, whose loop
    then goes on without a listener although nobody asked it to stop. */
module GrpcLateHook {
  import opened Wrappers
  import opened GrpcEngine
  import opened GrpcTheorems
  import L = Lifecycle
  import S = LifecycleScenes
  import R = Runs

  ghost predicate Next(s: State, x: Action, s': State) {
    Enabled(s, x) && s' == Apply(s, x)
  }

  ghost predicate Reachable(s: State) {
    R.Reaches(Init, Next, s)
  }

  /** What is reachable is the end of a run. */
  lemma ReachedByRun(s: State) returns (states: seq<State>, actions: seq<Action>)
    requires Reachable(s)
    ensures IsRun(states, actions) && states[|actions|] == s
  {
    states, actions :| R.Leads(Init, Next, states, actions, s);
  }

  lemma Step(s: State, x: Action) returns (s': State)
    requires Reachable(s) && Enabled(s, x)
    ensures s' == Apply(s, x) && Reachable(s')
  {
    s' := Apply(s, x);
    R.ReachesOn(Init, Next, s, x, s');
  }

  /** A scene of the lifecycle, the rest standing still. */
  lemma Play(s: State, l: L.State) returns (s': State)
    requires Reachable(s) && S.Goes(s.life, l)
    ensures s' == s.(life := l) && Reachable(s')
  {
    s' := s.(life := l);
    assert s.(life := s.life) == s;
    R.Carried(s.life, S.Alone, l, Init, Next, (k: L.State) => s.(life := k), (y: L.Action) => Life(y));
  }

  lemma HookLeftBehind() returns (s: State)
    ensures Reachable(s) && s == Init.(life := s.life)
    ensures S.Looks(s.life, L.Core(L.Starting, false, Some(1), false), map[0 := L.Exited, 1 := L.PreRun], S.Started, S.InHook)
  {
    R.ReachesSelf(Init, Next);
    var l := S.FirstStart();
    s := Play(Init, l);
    l := S.StopAsked(l, 0, map[0 := L.PreRun]);
    s := Play(s, l);
    S.PreRunLooks(s.life, 0, false, s.life.core, map[0 := L.PreRun], S.Started, S.InHook);
    s := Step(s, Life(L.PreRunEnds(0, L.Returns(false))));
    assert map[0 := L.PreRun][0 := L.SetStopped] == map[0 := L.SetStopped];
    l := S.Restarts(s.life);
    s := Play(s, l);
  }

  lemma SecondLoops() returns (s: State)
    ensures Reachable(s) && s.engine == Armed(Init.engine, 0) && At(s, 1) == Looping && !s.serverShut
    ensures !Stopping(s) && WorkerAt(s, 1, L.InRun) && L.Pc(s.life, S.stopper) == S.InHook && s.hooks == map[]
  {
    s := HookLeftBehind();
    s := Step(s, Build(1));
    S.PreRunLooks(s.life, 1, true, s.life.core, s.life.workers, S.Started, S.InHook);
    s := Step(s, Life(L.PreRunEnds(1, L.Returns(true))));
    var l := S.Enters(s.life, 1, s.life.workers, S.InHook);
    s := Play(s, l);
    s := Step(s, Arm(1, 0));
  }

  ghost predicate Deaf(s: State) {
    exists t: ThreadId :: At(s, t) == Looping && !Stopping(s) && Listeners(s.engine) == {}
  }

  /** The loop can be left without a listener with the flag clear. */
  lemma LateHookLeavesNoListener()
    ensures exists states: seq<State>, actions: seq<Action> :: IsRun(states, actions) && Deaf(states[|actions|])
  {
    var s := SecondLoops();
    s := Step(s, HookMove(S.stopper));
    s := Step(s, Deliver(1, 0, false, 1, false));
    assert At(s, 1) == Looping;
    var states, actions := ReachedByRun(s);
  }
}
