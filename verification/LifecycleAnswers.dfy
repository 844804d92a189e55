/** What the calls into a worker answer, and what a worker thread records, in terms of the steps of the run
    they took part in. */
module LifecycleAnswers {
  import opened Wrappers
  import opened Lifecycle
  import opened LifecycleTheorems

  // ----- What happened in a stretch of a run

  ghost predicate SpawnedIn(actions: seq<Action>, c: nat, i: nat, a: Agent) {
    exists k: nat :: c < k < i && k < |actions| && actions[k].Spawn? && actions[k].a == a
  }

  ghost predicate SpawnFailedIn(actions: seq<Action>, c: nat, i: nat, a: Agent) {
    exists k: nat :: c < k < i && k < |actions| && actions[k] == SpawnFails(a)
  }

  /** Agent a has been inside one call from just after step c on. */
  ghost predicate CallSince(states: seq<State>, a: Agent, c: nat, i: nat) {
    && c < i < |states|
    && forall j: nat :: c < j <= i ==> !Pc(states[j], a).Idle?
  }

  // ----- One step, seen from one agent

  /** x is a step of agent a. */
  predicate IsStepOf(x: Action, a: Agent) {
    (x.CallStart? || x.CallStop? || x.Spawn? || x.SpawnFails? || x.Move? || x.Timeout? || x.Wake?) && x.a == a
  }

  /** The steps of others at most wake an agent. */
  lemma OthersOnlyWake(s: State, x: Action, a: Agent)
    requires Enabled(s, x) && !IsStepOf(x, a)
    ensures Pc(Apply(s, x), a) == Pc(s, a) || Pc(Apply(s, x), a) == Woken(Pc(s, a))
  {
    NotifyAllPc(s, a);
  }

  // ----- startThread

  predicate Beginning(pc: AgentPc, zero: bool) {
    (pc.StartTake? || pc.StartJoin? || pc.StartLock?) && pc.zero == zero
  }

  predicate SpawnFailed(pc: AgentPc) {
    pc == StartFail || pc == StartFailNotify
  }

  predicate Created(pc: AgentPc, zero: bool) {
    (pc.StartNotify? && pc.zero == zero) || ((pc == StartCheck || pc == StartAsleep) && !zero)
  }

  predicate InStartCall(pc: AgentPc, zero: bool) {
    Beginning(pc, zero) || SpawnFailed(pc) || Created(pc, zero)
  }

  /** While a starter's call goes on, its place tells whether it created a thread or failed to. */
  lemma StarterStays(s: State, x: Action, a: Agent, zero: bool)
    requires Enabled(s, x) && InStartCall(Pc(s, a), zero) && !Pc(Apply(s, x), a).Idle?
    ensures var pc, pc' := Pc(s, a), Pc(Apply(s, x), a);
            && InStartCall(pc', zero)
            && (Created(pc', zero) <==> Created(pc, zero) || (x.Spawn? && x.a == a))
            && (SpawnFailed(pc') <==> SpawnFailed(pc) || x == SpawnFails(a))
  {
    if !IsStepOf(x, a) {
      OthersOnlyWake(s, x, a);
    }
  }

  /** How it ends. */
  lemma StarterReturns(s: State, x: Action, a: Agent, zero: bool, ok: bool)
    requires Enabled(s, x) && InStartCall(Pc(s, a), zero) && Pc(Apply(s, x), a) == Idle(StartReturned(ok))
    ensures var pc := Pc(s, a);
            || (Beginning(pc, zero) && x == Move(a) && !CanStart(s.core) && !ok)
            || (SpawnFailed(pc) && !ok)
            || (Created(pc, zero) && zero && ok)
            || (Created(pc, zero) && !zero && (ok <==> s.core.state == Running) && (s.core.state == Running || s.core.state == Stopped || x == Timeout(a)))
  {
    if !IsStepOf(x, a) {
      OthersOnlyWake(s, x, a);
    }
  }

  /** What the place of a starter says about its call so far. */
  ghost predicate Traced(states: seq<State>, actions: seq<Action>, c: nat, i: nat, a: Agent, zero: bool)
    requires i < |states|
  {
    var pc := Pc(states[i], a);
    && InStartCall(pc, zero)
    && (SpawnedIn(actions, c, i, a) <==> Created(pc, zero))
    && (SpawnFailedIn(actions, c, i, a) <==> SpawnFailed(pc))
  }

  /** One more step in the stretch. */
  lemma Longer(actions: seq<Action>, c: nat, i: nat, a: Agent)
    requires c < i < |actions|
    ensures SpawnedIn(actions, c, i + 1, a) <==> SpawnedIn(actions, c, i, a) || (actions[i].Spawn? && actions[i].a == a)
    ensures SpawnFailedIn(actions, c, i + 1, a) <==> SpawnFailedIn(actions, c, i, a) || actions[i] == SpawnFails(a)
  {
  }

  lemma TracedOn(states: seq<State>, actions: seq<Action>, c: nat, k: nat, a: Agent, zero: bool)
    requires IsRun(states, actions) && c < k < |actions| && Traced(states, actions, c, k, a, zero) && !Pc(states[k + 1], a).Idle?
    ensures Traced(states, actions, c, k + 1, a, zero)
  {
    StarterStays(states[k], actions[k], a, zero);
    Longer(actions, c, k, a);
  }

  lemma {:induction false} StartTraced(states: seq<State>, actions: seq<Action>, c: nat, i: nat, a: Agent, zero: bool)
    requires IsRun(states, actions) && CallSince(states, a, c, i) && actions[c] == CallStart(a, zero)
    ensures Traced(states, actions, c, i, a, zero)
  {
    if i == c + 1 {
      assert Pc(states[i], a) == StartTake(zero);
    } else {
      StartTraced(states, actions, c, i - 1, a, zero);
      TracedOn(states, actions, c, i - 1, a, zero);
    }
  }

  /** Some thread writes Running in the stretch. */
  ghost predicate RunningWritten(states: seq<State>, actions: seq<Action>, c: nat, i: nat)
    requires |states| == |actions| + 1
  {
    exists m: nat, t: ThreadId :: c < m < i && i <= |actions| && actions[m] == Advance(t)
                                  && t in states[m].workers && states[m].workers[t] == SetRunning
  }

  lemma OnlySetRunning(s: State, x: Action)
    requires Enabled(s, x) && s.core.state != Running && Apply(s, x).core.state == Running
    ensures x.Advance? && s.workers[x.t] == SetRunning
  {
  }

  lemma {:induction false} RunningSince(states: seq<State>, actions: seq<Action>, k: nat, i: nat)
    requires IsRun(states, actions) && k < i < |states|
    requires states[k + 1].core.state != Running && states[i].core.state == Running
    ensures RunningWritten(states, actions, k, i)
  {
    if states[i - 1].core.state == Running {
      RunningSince(states, actions, k, i - 1);
    } else {
      OnlySetRunning(states[i - 1], actions[i - 1]);
      assert actions[i - 1] == Advance(actions[i - 1].t);
    }
  }

  /** The call that began with step c returns `ok` in step i.  It says true exactly if it created a thread
      and, when it waits, finds the worker Running as it returns; and that worker was put there since. */
  lemma StartAnswer(states: seq<State>, actions: seq<Action>, c: nat, i: nat, a: Agent, zero: bool, ok: bool)
    requires IsRun(states, actions) && CallSince(states, a, c, i) && actions[c] == CallStart(a, zero)
    requires i < |actions| && Pc(states[i + 1], a) == Idle(StartReturned(ok))
    ensures ok <==> SpawnedIn(actions, c, i, a) && (zero || states[i].core.state == Running)
    ensures ok && !zero ==> exists k: nat :: c < k < i && actions[k].Spawn? && actions[k].a == a && RunningWritten(states, actions, k, i)
    ensures !ok && SpawnedIn(actions, c, i, a) ==> states[i].core.state == Stopped || actions[i] == Timeout(a)
    ensures SpawnedIn(actions, c, i, a) || SpawnFailedIn(actions, c, i, a)
            || (actions[i] == Move(a) && (states[i].core.state != Stopped || states[i].core.thread.Some?))
  {
    StartTraced(states, actions, c, i, a, zero);
    StarterReturns(states[i], actions[i], a, zero, ok);
    if ok && !zero {
      var k: nat :| c < k < i && actions[k].Spawn? && actions[k].a == a;
      SpawnNotRunning(states[k], actions[k]);
      RunningSince(states, actions, k, i);
    }
  }

  lemma SpawnNotRunning(s: State, x: Action)
    requires Enabled(s, x) && x.Spawn?
    ensures Apply(s, x).core.state == Starting
  {
  }

  // ----- The calls that request a stop

  /** The calls that wait for Stopped, and those that join whatever happens. */
  predicate Awaits(kind: StopKind) {
    kind == StopThread(false) || kind == StopAndJoin(false)
  }

  predicate JoinsAny(kind: StopKind) {
    kind == StopAndJoin(false) || kind == Destroy
  }

  predicate JoinsFinished(kind: StopKind) {
    kind.StopThread? || kind.StopAndJoin?
  }

  predicate AwaitingStop(pc: AgentPc, kind: StopKind) {
    (pc.StopCheck? || pc.StopAsleep?) && pc.kind == kind && Awaits(kind)
  }

  /** Past the wait, or past the hook when there is none. */
  predicate JoiningStopped(pc: AgentPc, kind: StopKind) {
    (pc.StopTake? || pc.StopJoin?) && pc.kind == kind && JoinsFinished(kind)
  }

  predicate JoiningAny(pc: AgentPc, kind: StopKind) {
    (pc.JoinTake? || pc.JoinWait?) && pc.kind == kind && JoinsAny(kind)
  }

  predicate Notifying(pc: AgentPc, kind: StopKind, trigger: bool) {
    pc == StopNotify(kind, trigger)
  }

  predicate PastHook(pc: AgentPc, kind: StopKind) {
    AwaitingStop(pc, kind) || JoiningStopped(pc, kind) || JoiningAny(pc, kind)
  }

  /** The request: the flag is raised, whatever is running is told to stop, and the hook is due exactly if
      something is running. */
  lemma RequestStep(s: State, x: Action, a: Agent, kind: StopKind)
    requires SessionInv(s) && Enabled(s, x) && Pc(s, a) == StopLock(kind)
    ensures x != Move(a) ==> Pc(Apply(s, x), a) == StopLock(kind)
    ensures x == Move(a) ==>
              var s' := Apply(s, x);
              Notifying(Pc(s', a), kind, s.core.state != Stopped) && s'.core.stopRequested
              && s'.core.state == if s.core.state == Stopped then Stopped else Stopping
  {
    if x != Move(a) {
      OthersOnlyWake(s, x, a);
    }
  }

  lemma NotifyStep(s: State, x: Action, a: Agent, kind: StopKind, trigger: bool)
    requires Enabled(s, x) && Notifying(Pc(s, a), kind, trigger)
    ensures var pc' := Pc(Apply(s, x), a);
            || pc' == StopNotify(kind, trigger) || (trigger && pc' == StopHook(kind))
            || (!trigger && kind == RequestOnly && pc' == Idle(StopReturned(kind, true)))
            || (!trigger && PastHook(pc', kind))
    ensures Awaits(kind) ==> !JoiningStopped(Pc(Apply(s, x), a), kind)
  {
    if x != Move(a) {
      OthersOnlyWake(s, x, a);
    }
  }

  lemma HookStep(s: State, x: Action, a: Agent, kind: StopKind)
    requires Enabled(s, x) && Pc(s, a) == StopHook(kind)
    ensures var pc' := Pc(Apply(s, x), a);
            pc' == StopHook(kind) || (kind == RequestOnly && pc' == Idle(StopReturned(kind, true))) || PastHook(pc', kind)
    ensures Awaits(kind) ==> !JoiningStopped(Pc(Apply(s, x), a), kind)
  {
    if x != Move(a) {
      OthersOnlyWake(s, x, a);
    }
  }

  /** The wait ends in the join of a finished thread only if it saw Stopped. */
  lemma AwaitStep(s: State, x: Action, a: Agent, kind: StopKind)
    requires Enabled(s, x) && AwaitingStop(Pc(s, a), kind)
    ensures var pc' := Pc(Apply(s, x), a);
            || AwaitingStop(pc', kind)
            || (JoiningStopped(pc', kind) && s.core.state == Stopped && (x == Move(a) || x == Timeout(a)))
            || (kind.StopAndJoin? && JoiningAny(pc', kind) && s.core.state != Stopped && x == Timeout(a))
            || (kind.StopThread? && pc' == Idle(StopReturned(kind, false)) && s.core.state != Stopped && x == Timeout(a))
  {
    if !IsStepOf(x, a) {
      OthersOnlyWake(s, x, a);
    }
  }

  lemma JoinStep(s: State, x: Action, a: Agent, kind: StopKind)
    requires Enabled(s, x) && (JoiningStopped(Pc(s, a), kind) || JoiningAny(Pc(s, a), kind))
    ensures var pc, pc' := Pc(s, a), Pc(Apply(s, x), a);
            || (JoiningStopped(pc, kind) && JoiningStopped(pc', kind)) || (JoiningAny(pc, kind) && JoiningAny(pc', kind))
            || pc' == Idle(StopReturned(kind, true))
  {
    if !IsStepOf(x, a) {
      OthersOnlyWake(s, x, a);
    }
  }

  // ----- ... over whole calls

  /** Agent a, waiting for the stop, looks at the state and finds it Stopped. */
  ghost predicate Sees(states: seq<State>, actions: seq<Action>, j: nat, a: Agent)
    requires |states| == |actions| + 1
  {
    && j < |actions| && (actions[j] == Move(a) || actions[j] == Timeout(a))
    && (Pc(states[j], a).StopCheck? || Pc(states[j], a).StopAsleep?) && states[j].core.state == Stopped
  }

  ghost predicate SeenStopped(states: seq<State>, actions: seq<Action>, c: nat, i: nat, a: Agent)
    requires |states| == |actions| + 1
  {
    exists j: nat :: c < j < i && Sees(states, actions, j, a)
  }

  ghost predicate InHookSince(states: seq<State>, a: Agent, c: nat, i: nat) {
    exists j: nat :: c < j <= i && j < |states| && Pc(states[j], a).StopHook?
  }

  /** Step r of the call is its request: the flag is raised, and what is running is told to stop. */
  ghost predicate RequestsAt(states: seq<State>, actions: seq<Action>, r: nat, a: Agent)
    requires |states| == |actions| + 1
  {
    && r < |actions| && actions[r] == Move(a) && Pc(states[r], a).StopLock?
    && states[r + 1].core.stopRequested
    && states[r + 1].core.state == if states[r].core.state == Stopped then Stopped else Stopping
  }

  /** What the place of the caller says about its call so far; r is the request, once made. */
  ghost predicate StopTraced(states: seq<State>, actions: seq<Action>, c: nat, i: nat, r: nat, a: Agent, kind: StopKind)
    requires i < |states| == |actions| + 1
  {
    var pc := Pc(states[i], a);
    if pc == StopLock(kind) then !InHookSince(states, a, c, i)
    else
      && c < r < i && RequestsAt(states, actions, r, a)
      && (var live := states[r].core.state != Stopped;
          || (Notifying(pc, kind, live) && !InHookSince(states, a, c, i))
          || (pc == StopHook(kind) && live && InHookSince(states, a, c, i))
          || (PastHook(pc, kind) && (live <==> InHookSince(states, a, c, i))))
      && (JoiningStopped(pc, kind) && Awaits(kind) ==> SeenStopped(states, actions, c, i, a))
  }

  lemma HookSinceOn(states: seq<State>, a: Agent, c: nat, i: nat)
    requires c < i && i + 1 < |states|
    ensures InHookSince(states, a, c, i + 1) <==> InHookSince(states, a, c, i) || Pc(states[i + 1], a).StopHook?
  {
  }

  lemma SeenOn(states: seq<State>, actions: seq<Action>, c: nat, i: nat, a: Agent)
    requires |states| == |actions| + 1 && c < i < |actions|
    ensures SeenStopped(states, actions, c, i + 1, a) <==> SeenStopped(states, actions, c, i, a) || Sees(states, actions, i, a)
  {
  }

  lemma StopTracedOn(states: seq<State>, actions: seq<Action>, c: nat, k: nat, r: nat, a: Agent, kind: StopKind) returns (r': nat)
    requires IsRun(states, actions) && c < k < |actions| && StopTraced(states, actions, c, k, r, a, kind)
    requires !Pc(states[k + 1], a).Idle?
    ensures StopTraced(states, actions, c, k + 1, r', a, kind)
  {
    var s, x, pc := states[k], actions[k], Pc(states[k], a);
    HookSinceOn(states, a, c, k);
    SeenOn(states, actions, c, k, a);
    r' := r;
    if pc == StopLock(kind) {
      RequestAt(states, actions, k, a, kind);
      r' := k;
    } else if pc.StopNotify? {
      NotifyStep(s, x, a, kind, states[r].core.state != Stopped);
    } else if pc.StopHook? {
      HookStep(s, x, a, kind);
    } else {
      StopTracedPastHook(states, actions, c, k, r, a, kind);
    }
  }

  lemma StopTracedPastHook(states: seq<State>, actions: seq<Action>, c: nat, k: nat, r: nat, a: Agent, kind: StopKind)
    requires IsRun(states, actions) && c < k < |actions| && StopTraced(states, actions, c, k, r, a, kind)
    requires PastHook(Pc(states[k], a), kind) && !Pc(states[k + 1], a).Idle?
    ensures StopTraced(states, actions, c, k + 1, r, a, kind)
  {
    HookSinceOn(states, a, c, k);
    SeenOn(states, actions, c, k, a);
    if AwaitingStop(Pc(states[k], a), kind) {
      AwaitStep(states[k], actions[k], a, kind);
    } else {
      JoinStep(states[k], actions[k], a, kind);
    }
  }

  lemma StopCallBegins(states: seq<State>, actions: seq<Action>, c: nat, a: Agent, kind: StopKind)
    requires IsRun(states, actions) && c < |actions| && actions[c] == CallStop(a, kind)
    ensures StopTraced(states, actions, c, c + 1, 0, a, kind)
  {
    assert Pc(states[c + 1], a) == StopLock(kind);
  }

  lemma RequestAt(states: seq<State>, actions: seq<Action>, k: nat, a: Agent, kind: StopKind)
    requires IsRun(states, actions) && k < |actions| && Pc(states[k], a) == StopLock(kind)
    ensures if actions[k] == Move(a)
            then RequestsAt(states, actions, k, a) && Notifying(Pc(states[k + 1], a), kind, states[k].core.state != Stopped)
            else Pc(states[k + 1], a) == StopLock(kind)
  {
    InvRun(states, actions, k);
    RequestStep(states[k], actions[k], a, kind);
  }

  ghost predicate StopTracedBySome(states: seq<State>, actions: seq<Action>, c: nat, i: nat, a: Agent, kind: StopKind)
    requires i < |states| == |actions| + 1
  {
    exists r: nat :: StopTraced(states, actions, c, i, r, a, kind)
  }

  lemma StopTracedNext(states: seq<State>, actions: seq<Action>, c: nat, k: nat, a: Agent, kind: StopKind)
    requires IsRun(states, actions) && c < k < |actions| && StopTracedBySome(states, actions, c, k, a, kind)
    requires !Pc(states[k + 1], a).Idle?
    ensures StopTracedBySome(states, actions, c, k + 1, a, kind)
  {
    var r: nat :| StopTraced(states, actions, c, k, r, a, kind);
    r := StopTracedOn(states, actions, c, k, r, a, kind);
  }

  lemma StopCallTraced(states: seq<State>, actions: seq<Action>, c: nat, i: nat, a: Agent, kind: StopKind)
    requires IsRun(states, actions) && CallSince(states, a, c, i) && actions[c] == CallStop(a, kind)
    ensures StopTracedBySome(states, actions, c, i, a, kind)
  {
    StopCallBegins(states, actions, c, a, kind);
    var k := c + 1;
    while k < i
      invariant c < k <= i && StopTracedBySome(states, actions, c, k, a, kind)
    {
      StopTracedNext(states, actions, c, k, a, kind);
      k := k + 1;
    }
  }

  /** The call that began with step c returns in step i.  Its request r raised the flag and told whatever
      was running to stop, and it went through the stop hook exactly if something was running.  stopThread
      with a timeout answers true only if its wait saw the worker Stopped, and false only if the wait timed
      out with the worker in another state; the others always answer true, stopThreadAndJoin and the
      destructor being calls without an answer. */
  lemma StopAnswer(states: seq<State>, actions: seq<Action>, c: nat, i: nat, a: Agent, kind: StopKind, kind': StopKind, ok: bool) returns (r: nat)
    requires IsRun(states, actions) && CallSince(states, a, c, i) && actions[c] == CallStop(a, kind)
    requires i < |actions| && Pc(states[i + 1], a) == Idle(StopReturned(kind', ok))
    ensures kind' == kind && c < r < i && RequestsAt(states, actions, r, a)
    ensures InHookSince(states, a, c, i) <==> states[r].core.state != Stopped
    ensures kind == StopThread(false) ==>
              (ok ==> SeenStopped(states, actions, c, i, a)) && (!ok ==> actions[i] == Timeout(a) && states[i].core.state != Stopped)
    ensures kind != StopThread(false) ==> ok
  {
    StopCallTraced(states, actions, c, i, a, kind);
    r :| StopTraced(states, actions, c, i, r, a, kind);
    var s, x, pc := states[i], actions[i], Pc(states[i], a);
    if pc == StopLock(kind) {
      RequestAt(states, actions, i, a, kind);
    } else if pc.StopNotify? {
      NotifyStep(s, x, a, kind, states[r].core.state != Stopped);
    } else if pc.StopHook? {
      HookStep(s, x, a, kind);
    } else if AwaitingStop(pc, kind) {
      AwaitStep(s, x, a, kind);
    } else {
      JoinStep(s, x, a, kind);
    }
  }

  // ----- What a worker thread did

  datatype Deeds = Deeds(preRunOk: bool, foundClear: bool, foundSet: bool, ranToEnd: bool, threw: bool)

  const NoDeeds := Deeds(false, false, false, false, false)

  /** What step x adds to what thread t has done: preRun() returned true; the check of the flag found it
      clear, or set; run() ended; one of the two threw. */
  function Adds(s: State, x: Action, t: ThreadId, d: Deeds): Deeds {
    if x == PreRunEnds(t, Returns(true)) then d.(preRunOk := true)
    else if x == PreRunEnds(t, Throws) then d.(threw := true)
    else if x.RunEnds? && x.t == t then d.(ranToEnd := true, threw := x.threw)
    else if x == Advance(t) && t in s.workers && s.workers[t] == CheckStop
    then if s.core.stopRequested then d.(foundSet := true) else d.(foundClear := true)
    else d
  }

  ghost function DeedsOf(states: seq<State>, actions: seq<Action>, i: nat, t: ThreadId): Deeds
    requires i < |states| == |actions| + 1
  {
    if i == 0 then NoDeeds else Adds(states[i - 1], actions[i - 1], t, DeedsOf(states, actions, i - 1, t))
  }

  /** What the place of a thread says about its deeds. */
  predicate DeedsFit(s: State, t: ThreadId, d: Deeds) {
    if t !in s.workers then d == NoDeeds
    else
      && (match s.workers[t]
          case PreRun => d == NoDeeds
          case CheckStop => d == NoDeeds.(preRunOk := true)
          case SetRunning => d == NoDeeds.(preRunOk := true, foundClear := true)
          case NotifyRunning => d == NoDeeds.(preRunOk := true, foundClear := true)
          case InRun => d == NoDeeds.(preRunOk := true, foundClear := true)
          case StoreException => d.threw && Whole(d)
          case _ => Whole(d))
      && (Live(s.workers[t]) && s.workers[t] != StoreException ==> s.core.exceptionStored == d.threw)
  }

  /** A finished thread ran run() exactly if it found the flag clear, and checked the flag exactly if its
      preRun() returned true. */
  predicate Whole(d: Deeds) {
    && (d.ranToEnd <==> d.foundClear)
    && (d.preRunOk <==> d.foundClear || d.foundSet)
    && !(d.foundClear && d.foundSet)
  }

  lemma DeedsStep(s: State, x: Action, t: ThreadId, d: Deeds)
    requires SessionInv(s) && Enabled(s, x) && DeedsFit(s, t, d)
    ensures DeedsFit(Apply(s, x), t, Adds(s, x, t, d))
  {
    if (x.Advance? || x.PreRunEnds? || x.RunEnds?) && x.t == t {
      DeedsOwnStep(s, x, t, d);
    } else {
      DeedsOtherStep(s, x, t, d);
    }
  }

  lemma DeedsOwnStep(s: State, x: Action, t: ThreadId, d: Deeds)
    requires Enabled(s, x) && DeedsFit(s, t, d) && (x.Advance? || x.PreRunEnds? || x.RunEnds?) && x.t == t
    ensures DeedsFit(Apply(s, x), t, Adds(s, x, t, d))
  {
  }

  lemma DeedsOtherStep(s: State, x: Action, t: ThreadId, d: Deeds)
    requires SessionInv(s) && Enabled(s, x) && DeedsFit(s, t, d) && !((x.Advance? || x.PreRunEnds? || x.RunEnds?) && x.t == t)
    ensures DeedsFit(Apply(s, x), t, d)
  {
    assert LiveAt(s, t) ==> s.core.state != Stopped && s.session == Serving(t);
  }

  lemma {:induction false} DeedsRun(states: seq<State>, actions: seq<Action>, i: nat, t: ThreadId)
    requires IsRun(states, actions) && i < |states|
    ensures DeedsFit(states[i], t, DeedsOf(states, actions, i, t))
  {
    if i > 0 {
      DeedsRun(states, actions, i - 1, t);
      InvRun(states, actions, i - 1);
      DeedsStep(states[i - 1], actions[i - 1], t, DeedsOf(states, actions, i - 1, t));
    }
  }

  /** When a thread writes Stopped for good: the stored exception tells whether preRun() or run() threw;
      run() was executed exactly if the flag was found clear; and the flag was looked at exactly if
      preRun() had returned true. */
  lemma ThreadRecord(states: seq<State>, actions: seq<Action>, i: nat, t: ThreadId)
    requires IsRun(states, actions) && i < |actions|
    requires actions[i] == Advance(t) && states[i].workers[t] == SetStopped
    ensures var d := DeedsOf(states, actions, i, t);
            && states[i + 1].core.state == Stopped && states[i + 1].core.exceptionStored == d.threw
            && (d.ranToEnd <==> d.foundClear) && (d.preRunOk <==> d.foundClear || d.foundSet)
  {
    DeedsRun(states, actions, i, t);
    assert Enabled(states[i], actions[i]);
  }

  /** run() is only executed after a preRun() that returned true and a look at the flag that found it clear. */
  lemma RunIsEarned(states: seq<State>, actions: seq<Action>, i: nat, t: ThreadId)
    requires IsRun(states, actions) && i < |states| && t in states[i].workers && states[i].workers[t] == InRun
    ensures var d := DeedsOf(states, actions, i, t); d.preRunOk && d.foundClear && !d.foundSet && !d.threw
  {
    DeedsRun(states, actions, i, t);
  }
}
