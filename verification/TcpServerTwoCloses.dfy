/** A run in which a descriptor is closed twice: its session's thread could not be created. */
module TcpServerTwoCloses {
  import opened Wrappers
  import opened TcpServer
  import L = Lifecycle
  import S = LifecycleScenes
  import R = Runs

  ghost predicate Next(s: State, x: Action, s': State) {
    Enabled(s, x) && s' == Apply(s, x)
  }

  ghost predicate Reachable(s: State) {
    R.Reaches(Init, Next, s)
  }

  /** What is reachable is the end of a run. */
  lemma ReachedByRun(s: State) returns (states: seq<State>, actions: seq<Action>)
    requires Reachable(s)
    ensures IsRun(states, actions) && states[|actions|] == s
  {
    states, actions :| R.Leads(Init, Next, states, actions, s);
  }

  lemma Step(s: State, x: Action) returns (s': State)
    requires Reachable(s) && Enabled(s, x)
    ensures s' == Apply(s, x) && Reachable(s')
  {
    s' := Apply(s, x);
    R.ReachesOn(Init, Next, s, x, s');
  }

  /** A scene of the lifecycle, the rest standing still. */
  lemma Play(s: State, l: L.State) returns (s': State)
    requires Reachable(s) && S.Goes(s.life, l)
    ensures s' == s.(life := l) && Reachable(s')
  {
    s' := s.(life := l);
    assert s.(life := s.life) == s;
    R.Carried(s.life, S.Alone, l, Init, Next, (k: L.State) => s.(life := k), (y: L.Action) => Life(y));
  }

  lemma EntersRun() returns (s: State)
    ensures Reachable(s) && s == Init.(life := s.life) && WorkerAt(s, 0, L.InRun) && !s.life.core.stopRequested
  {
    R.ReachesSelf(Init, Next);
    var l := S.FirstStart();
    s := Play(Init, l);
    S.PreRunLooks(l, 0, true, l.core, l.workers, S.Started, L.StopLock(L.RequestOnly));
    s := Step(s, Life(L.PreRunEnds(0, L.Returns(true))));
    l := S.Enters(s.life, 0, s.life.workers, L.StopLock(L.RequestOnly));
    s := Play(s, l);
  }

  /** The first turn of the accept loop: there is nothing to reap. */
  lemma Reaps(s: State) returns (s': State)
    requires Reachable(s) && s == Init.(life := s.life) && WorkerAt(s, 0, L.InRun) && !s.life.core.stopRequested
    ensures Reachable(s') && s' == s.(runs := map[0 := Accept])
  {
    s' := Step(s, RunMove(0));
    s' := Step(s', RunMove(0));
    s' := Step(s', RunMove(0));
    s' := Step(s', RunMove(0));
  }

  ghost predicate ClosedTwice(s: State) {
    exists c :: c in s.all && s.all[c].closes == 2
  }

  lemma DescriptorClosedTwice()
    ensures exists states: seq<State>, actions: seq<Action> :: IsRun(states, actions) && ClosedTwice(states[|actions|])
  {
    var s := EntersRun();
    s := Reaps(s);
    s := Step(s, Accepts(0, 0));
    s := Step(s, RunMove(0));
    s := Step(s, SpawnFails(0));
    s := Step(s, RunMove(0));
    assert 0 in s.all && s.all[0].closes == 2;
    var states, actions := ReachedByRun(s);
  }
}
