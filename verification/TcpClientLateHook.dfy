/** Why the wire-prefix theorem has a condition: a run in which the stop hook of one session, delayed
    between closing the socket and clearing the queue, clears the queue of the next. */
module TcpClientLateHook {
  import opened Wrappers
  import opened TcpClient
  import opened TcpClientWire
  import L = Lifecycle
  import S = LifecycleScenes
  import R = Runs

  ghost predicate Next(s: State, x: Action, s': State) {
    Enabled(s, x) && s' == Apply(s, x)
  }

  ghost predicate Reachable(s: State) {
    R.Reaches(Init, Next, s)
  }

  /** What is reachable is the end of a run. */
  lemma ReachedByRun(s: State) returns (states: seq<State>, actions: seq<Action>)
    requires Reachable(s)
    ensures IsRun(states, actions) && states[|actions|] == s
  {
    states, actions :| R.Leads(Init, Next, states, actions, s);
  }

  lemma Step(s: State, x: Action) returns (s': State)
    requires Reachable(s) && Enabled(s, x)
    ensures s' == Apply(s, x) && Reachable(s')
  {
    s' := Apply(s, x);
    R.ReachesOn(Init, Next, s, x, s');
  }

  /** A scene of the lifecycle, the rest standing still. */
  lemma Play(s: State, l: L.State) returns (s': State)
    requires Reachable(s) && S.Goes(s.life, l)
    ensures s' == s.(life := l) && Reachable(s')
  {
    s' := s.(life := l);
    assert s.(life := s.life) == s;
    R.Carried(s.life, S.Alone, l, Init, Next, (k: L.State) => s.(life := k), (y: L.Action) => Life(y));
  }

  // ----- The first session is asked to stop, and its hook stays behind

  /** Between sessions: nothing queued, nothing written, the hook still to clear the queue. */
  ghost predicate Quiet(s: State) {
    && s.shared == Shared([], None, None) && s.hooks == map[S.stopper := HookClear] && s.senders == map[]
    && s.log.wire == map[] && (forall t: ThreadId :: Of(s, t).writer == Unborn)
  }

  lemma FirstIsAsked() returns (s: State)
    ensures Reachable(s) && Quiet(s) && s.sessions == map[]
    ensures S.Looks(s.life, L.Core(L.Stopping, true, Some(0), false), map[0 := L.PreRun], S.Started, S.InHook)
  {
    R.ReachesSelf(Init, Next);
    var l := S.FirstStart();
    s := Play(Init, l);
    l := S.StopAsked(l, 0, map[0 := L.PreRun]);
    s := Play(s, l);
    s := Step(s, HookMove(S.stopper));
  }

  lemma PreRunFails(s: State) returns (s': State)
    requires Reachable(s) && Quiet(s) && s.sessions == map[] && WorkerAt(s, 0, L.PreRun)
    ensures Reachable(s') && Quiet(s') && s'.life == s.life && s'.sessions.Keys == {0} && Of(s', 0).pre == PreDone(false)
  {
    s' := Step(s, PreMove(0, true, 0));
    s' := Step(s', PreMove(0, false, 0));
  }

  lemma HookLeftBehind() returns (s: State)
    ensures Reachable(s) && Quiet(s) && s.sessions.Keys == {0}
    ensures S.Looks(s.life, L.Core(L.Starting, false, Some(1), false), map[0 := L.Exited, 1 := L.PreRun], S.Started, S.InHook)
  {
    s := FirstIsAsked();
    s := PreRunFails(s);
    S.PreRunLooks(s.life, 0, false, s.life.core, map[0 := L.PreRun], S.Started, S.InHook);
    s := Step(s, Life(L.PreRunEnds(0, L.Returns(false))));
    assert map[0 := L.PreRun][0 := L.SetStopped] == map[0 := L.SetStopped];
    var l := S.Restarts(s.life);
    s := Play(s, l);
  }

  // ----- The second session

  lemma Connects(s: State) returns (s': State)
    requires Reachable(s) && Quiet(s) && Of(s, 1) == NewSession && WorkerAt(s, 1, L.PreRun)
    ensures Reachable(s') && s'.life == s.life && s'.hooks == s.hooks && s'.senders == map[]
    ensures s'.shared == Shared([], None, Some(0)) && s'.log == Log(map[0 := []], [], [], Some(0))
    ensures s'.sessions == s.sessions[1 := NewSession.(pre := PreDone(true))]
  {
    s' := Step(s, PreMove(1, true, 0));
    s' := Step(s', PreMove(1, true, 0));
    s' := Step(s', PreMove(1, true, 1));
  }

  lemma EntersRun(s: State) returns (s': State)
    requires Reachable(s) && Of(s, 1).pre == PreDone(true)
    requires S.Looks(s.life, L.Core(L.Starting, false, Some(1), false), map[0 := L.Exited, 1 := L.PreRun], S.Started, S.InHook)
    ensures Reachable(s') && s' == s.(life := s'.life)
    ensures s'.life.core == L.Core(L.Running, false, Some(1), false) && WorkerAt(s', 1, L.InRun)
    ensures L.Pc(s'.life, S.stopper) == S.InHook && S.InnerIdle(s'.life)
  {
    S.PreRunLooks(s.life, 1, true, s.life.core, s.life.workers, S.Started, S.InHook);
    s' := Step(s, Life(L.PreRunEnds(1, L.Returns(true))));
    var l := S.Enters(s'.life, 1, s'.life.workers, S.InHook);
    s' := Play(s', l);
  }

  lemma SpawnsThreads(s: State) returns (s': State)
    requires Reachable(s) && WorkerAt(s, 1, L.InRun) && Of(s, 1) == NewSession.(pre := PreDone(true))
    ensures Reachable(s') && s' == s.(sessions := s.sessions[1 := Session(PreDone(true), RunJoinReader, Top, ReadTop)])
  {
    s' := Step(s, RunMove(1));
    s' := Step(s', RunMove(1));
  }

  /** One call of send() from beginning to end. */
  lemma Sends(s: State, data: Buffer) returns (s': State)
    requires Reachable(s) && s.life.core.state == L.Running && Sender(s, 0).NotSending? && s.shared.mutex.None? && data != []
    requires forall t :: t in s.sessions ==> s.sessions[t].writer != Asleep
    ensures Reachable(s') && s'.life == s.life && s'.sessions == s.sessions && s'.hooks == s.hooks && Sender(s', 0).NotSending?
    ensures s'.shared == s.shared.(queue := s.shared.queue + [data])
    ensures s'.log == s.log.(enqueued := s.log.enqueued + [data])
  {
    s' := Step(s, SendCall(0, data));
    s' := Step(s', SendMove(0));
    s' := Step(s', SendMove(0));
    s' := Step(s', SendNotifies(0, None));
  }

  lemma HookClears(s: State) returns (s': State)
    requires Reachable(s) && L.Pc(s.life, S.stopper) == S.InHook && Hook(s, S.stopper) == HookClear && s.shared.mutex.None?
    ensures Reachable(s') && s'.life == s.life && s'.sessions == s.sessions && s'.senders == s.senders
    ensures s'.shared == s.shared.(queue := []) && s'.log == s.log
  {
    s' := Step(s, HookMove(S.stopper));
  }

  lemma WriterLocks(s: State) returns (s': State)
    requires Reachable(s) && Of(s, 1).writer == Top && !Stopping(s) && s.shared.mutex.None?
    ensures Reachable(s') && Of(s', 1).writer == ReadQueue && s'.life == s.life && s'.log == s.log
    ensures s'.shared == s.shared.(mutex := Some(1))
  {
    s' := Step(s, WriterMove(1));
    s' := Step(s', WriterMove(1));
    s' := Step(s', WriterMove(1));
  }

  lemma WriterPops(s: State, data: Buffer) returns (s': State)
    requires Reachable(s) && Of(s, 1).writer == ReadQueue && !Stopping(s) && s.shared.queue == [data]
    ensures Reachable(s') && Of(s', 1).writer == Load(data, 0) && s'.life == s.life && s'.shared.socket == s.shared.socket
    ensures s'.log == s.log.(popped := s.log.popped + [data])
  {
    s' := Step(s, WriterMove(1));
    s' := Step(s', WriterMove(1));
    s' := Step(s', WriterMove(1));
  }

  lemma WriterSends(s: State, data: Buffer) returns (s': State)
    requires Reachable(s) && Of(s, 1).writer == Load(data, 0) && data != [] && s.shared.socket == Some(0)
    requires 0 in s.log.wire && s.log.wire[0] == [] && S.InnerIdle(s.life)
    ensures Reachable(s') && s'.log == s.log.(wire := s.log.wire[0 := data])
  {
    s' := Step(s, WriterMove(1));
    s' := Step(s', WriterSent(1, |data|));
    assert [] + data[0..|data|] == data;
  }

  // ----- The whole run

  lemma SecondRuns() returns (s: State)
    ensures Reachable(s) && s.life.core == L.Core(L.Running, false, Some(1), false)
    ensures L.Pc(s.life, S.stopper) == S.InHook && S.InnerIdle(s.life)
    ensures s.hooks == map[S.stopper := HookClear] && s.senders == map[] && s.shared == Shared([], None, Some(0))
    ensures s.log == Log(map[0 := []], [], [], Some(0))
    ensures Of(s, 1).writer == Top && forall t :: t in s.sessions ==> s.sessions[t].writer != Asleep
  {
    s := HookLeftBehind();
    ghost var before := s;
    s := Connects(s);
    s := EntersRun(s);
    s := SpawnsThreads(s);
    assert forall t :: t in before.sessions ==> before.sessions[t] == Of(before, t);
  }

  ghost predicate HasGap(log: Log) {
    log.connection.Some? && log.connection.value in log.wire && !(log.wire[log.connection.value] <= Flatten(log.enqueued))
  }

  /** The wire can skip a buffer: the second one enqueued goes out, the first is gone. */
  lemma LateHookLeavesAGap()
    ensures exists states: seq<State>, actions: seq<Action> :: IsRun(states, actions) && HasGap(states[|actions|].log)
  {
    var s := SecondRuns();
    s := Sends(s, [1]);
    s := HookClears(s);
    s := Sends(s, [2]);
    s := WriterLocks(s);
    s := WriterPops(s, [2]);
    s := WriterSends(s, [2]);
    assert s.log.enqueued == [[1], [2]] && s.log.wire[0] == [2];
    FlattenSnoc([[1]], [2]);
    FlattenSnoc([], [1]);
    assert Flatten(s.log.enqueued)[0] == 1;
    var states, actions := ReachedByRun(s);
  }
}
