/** What a start of the HTTP server records and answers, in terms of the steps of the run. */
module HandshakeAnswers {
  import opened Wrappers
  import opened StartHandshake
  import opened HandshakeTheorems
  import L = Lifecycle
  import LA = LifecycleAnswers

  // ----- The recorded outcome

  /** How a start turned out: the library listens on a port, or something ended the start without that. */
  datatype Outcome = Open | Listening(port: nat) | Failed

  /** Steps that end a start without a port: preRun() caught an exception, run() found no server, the
      library's start() returned or threw, or the stop hook got to its end. */
  predicate Fails(s: State, x: Action) {
    || (x.PreMove? && At(s, x.t) == PreResolve)
    || (x.RunMove? && (At(s, x.t) == RunNull || At(s, x.t).RunAfter?))
    || (x.HookMove? && Hook(s, x.a) == HookResolve)
  }

  /** Only the first outcome since the last reset counts. */
  function OutcomeAfter(s: State, x: Action, before: Outcome): Outcome {
    if Resets(s, x) then Open
    else if before != Open then before
    else if x.Listens? then Listening(x.port)
    else if Fails(s, x) then Failed
    else Open
  }

  ghost function OutcomeOf(states: seq<State>, actions: seq<Action>, i: nat): Outcome
    requires i < |states| == |actions| + 1
  {
    if i == 0 then Open else OutcomeAfter(states[i - 1], actions[i - 1], OutcomeOf(states, actions, i - 1))
  }

  predicate Records(d: Start, o: Outcome) {
    && (d.resolved <==> o != Open)
    && (d.succeeded <==> o.Listening?)
    && d.port == if o.Listening? then o.port else 0
  }

  lemma RecordsStep(s: State, x: Action, o: Outcome)
    requires Enabled(s, x) && Records(s.start, o)
    ensures Records(Apply(s, x).start, OutcomeAfter(s, x, o))
  {
  }

  /** In every run the object says that the start succeeded exactly if the first outcome since the last
      reset was the library listening, and then it holds that port. */
  lemma {:induction false} OutcomeIsRecorded(states: seq<State>, actions: seq<Action>, i: nat)
    requires IsRun(states, actions) && i < |states|
    ensures Records(states[i].start, OutcomeOf(states, actions, i))
  {
    if i > 0 {
      OutcomeIsRecorded(states, actions, i - 1);
      RecordsStep(states[i - 1], actions[i - 1], OutcomeOf(states, actions, i - 1));
    }
  }

  // ----- The answer

  ghost predicate CallSince(states: seq<State>, a: L.Agent, c: nat, i: nat) {
    && c < i < |states|
    && forall j: nat :: c < j <= i ==> !Starter(states[j], a).NotStarting?
  }

  /** The worker accepted the start, and created its thread. */
  ghost predicate SpawnedIn(actions: seq<Action>, c: nat, i: nat, a: L.Agent) {
    exists k: nat :: c < k < i && k < |actions| && Spawns(actions[k], a)
  }

  predicate Spawns(x: Action, a: L.Agent) {
    x.Life? && x.x.Spawn? && x.x.a == a
  }

  predicate Fits(s: State, a: L.Agent, zero: bool, spawned: bool) {
    var pc := L.Pc(s.life, a);
    match Starter(s, a)
    case NotStarting(_) => false
    case Resetting(z) => z == zero && pc.Idle? && !spawned
    case Base(z) =>
      && z == zero
      && if pc.Idle? then pc.last == L.StartReturned(spawned) else LA.InStartCall(pc, true) && (spawned <==> LA.Created(pc, true))
    case Waiting => spawned && !zero
    case Asleep => spawned && !zero
  }

  /** The worker's own startThread, called without a wait. */
  lemma BaseStep(s: L.State, y: L.Action, a: L.Agent, spawned: bool)
    requires L.Enabled(s, y) && LA.InStartCall(L.Pc(s, a), true) && (spawned <==> LA.Created(L.Pc(s, a), true))
    ensures var pc', spawned' := L.Pc(L.Apply(s, y), a), spawned || (y.Spawn? && y.a == a);
            if pc'.Idle? then pc'.last == L.StartReturned(spawned') else LA.InStartCall(pc', true) && (spawned' <==> LA.Created(pc', true))
  {
    var pc' := L.Pc(L.Apply(s, y), a);
    if !pc'.Idle? {
      LA.StarterStays(s, y, a, true);
    } else {
      StarterEnds(s, y, a);
      LA.StarterReturns(s, y, a, true, pc'.last.ok);
    }
  }

  lemma StarterEnds(s: L.State, y: L.Action, a: L.Agent)
    requires L.Enabled(s, y) && LA.InStartCall(L.Pc(s, a), true) && L.Pc(L.Apply(s, y), a).Idle?
    ensures L.Pc(L.Apply(s, y), a).last.StartReturned? && !(y.Spawn? && y.a == a)
  {
    if !LA.IsStepOf(y, a) {
      LA.OthersOnlyWake(s, y, a);
    }
  }

  lemma FitsLife(s: State, y: L.Action, a: L.Agent, zero: bool, spawned: bool)
    requires Enabled(s, Life(y)) && Fits(s, a, zero, spawned)
    ensures Fits(ApplyLife(s, y), a, zero, spawned || (y.Spawn? && y.a == a))
  {
    var pc := L.Pc(s.life, a);
    assert Starter(ApplyLife(s, y), a) == Starter(s, a);
    if Starter(s, a).Base? && !pc.Idle? {
      BaseStep(s.life, y, a, spawned);
    } else if pc.Idle? {
      IdleStays(s, y, a);
    }
  }

  /** A starter's agent is in no other call. */
  lemma IdleStays(s: State, y: L.Action, a: L.Agent)
    requires Enabled(s, Life(y)) && L.Pc(s.life, a).Idle? && !Starter(s, a).NotStarting?
    ensures L.Pc(L.Apply(s.life, y), a) == L.Pc(s.life, a) && !(y.Spawn? && y.a == a)
  {
    if !LA.IsStepOf(y, a) {
      LA.OthersOnlyWake(s.life, y, a);
    }
  }

  lemma FitsOther(s: State, x: Action, a: L.Agent, zero: bool, spawned: bool)
    requires Enabled(s, x) && !x.Life? && Fits(s, a, zero, spawned) && !Starter(Apply(s, x), a).NotStarting?
    ensures Fits(Apply(s, x), a, zero, spawned)
  {
    if x.StartMove? && x.a == a && Starter(s, a).Resetting? {
      assert L.Pc(Apply(s, x).life, a) == L.StartTake(true);
    } else {
      assert L.Pc(Apply(s, x).life, a) == L.Pc(s.life, a);
    }
  }

  lemma FitsNext(states: seq<State>, actions: seq<Action>, c: nat, k: nat, a: L.Agent, zero: bool)
    requires IsRun(states, actions) && c < k < |actions| && Fits(states[k], a, zero, SpawnedIn(actions, c, k, a))
    requires !Starter(states[k + 1], a).NotStarting?
    ensures Fits(states[k + 1], a, zero, SpawnedIn(actions, c, k + 1, a))
  {
    var s, x := states[k], actions[k];
    assert SpawnedIn(actions, c, k + 1, a) <==> SpawnedIn(actions, c, k, a) || Spawns(x, a);
    if x.Life? {
      FitsLife(s, x.x, a, zero, SpawnedIn(actions, c, k, a));
    } else {
      FitsOther(s, x, a, zero, SpawnedIn(actions, c, k, a));
    }
  }

  lemma {:induction false} FitsRun(states: seq<State>, actions: seq<Action>, c: nat, i: nat, a: L.Agent, zero: bool)
    requires IsRun(states, actions) && CallSince(states, a, c, i) && actions[c] == CallStart(a, zero)
    ensures Fits(states[i], a, zero, SpawnedIn(actions, c, i, a))
  {
    if i == c + 1 {
      assert Enabled(states[c], actions[c]);
    } else {
      FitsRun(states, actions, c, i - 1, a, zero);
      FitsNext(states, actions, c, i - 1, a, zero);
    }
  }

  lemma AnswerStep(s: State, x: Action, a: L.Agent, zero: bool, spawned: bool, ok: bool)
    requires Enabled(s, x) && Fits(s, a, zero, spawned) && Starter(Apply(s, x), a) == NotStarting(Some(ok))
    ensures ok <==> spawned && (zero || (s.start.resolved && s.start.succeeded))
    ensures spawned && !zero && !s.start.resolved ==> x == WaitTimeout(a)
  {
  }

  /** startThread, called in step c, answers `ok` in step i: true exactly if the worker accepted the start
      and, unless the call does not wait, the library has come to listen since the last reset.  A start
      that was accepted and has no outcome yet is only given up by a timeout. */
  lemma HttpStartAnswer(states: seq<State>, actions: seq<Action>, c: nat, i: nat, a: L.Agent, zero: bool, ok: bool)
    requires IsRun(states, actions) && CallSince(states, a, c, i) && actions[c] == CallStart(a, zero)
    requires i < |actions| && Starter(states[i + 1], a) == NotStarting(Some(ok))
    ensures ok <==> SpawnedIn(actions, c, i, a) && (zero || OutcomeOf(states, actions, i).Listening?)
    ensures SpawnedIn(actions, c, i, a) && !zero && OutcomeOf(states, actions, i) == Open ==> actions[i] == WaitTimeout(a)
  {
    FitsRun(states, actions, c, i, a, zero);
    AnswerStep(states[i], actions[i], a, zero, SpawnedIn(actions, c, i, a), ok);
    OutcomeIsRecorded(states, actions, i);
  }

  // ----- What preRun() and run() answer

  /** What thread t has met: whether its server could be built, and whether the library's start() threw. */
  datatype Met = Met(built: Option<bool>, threw: bool)

  ghost function MetBy(states: seq<State>, actions: seq<Action>, i: nat, t: ThreadId): Met
    requires i < |states| == |actions| + 1
  {
    if i == 0 then Met(None, false) else MetAfter(states[i - 1], actions[i - 1], t, MetBy(states, actions, i - 1, t))
  }

  function MetAfter(s: State, x: Action, t: ThreadId, m: Met): Met {
    if x.PreMove? && x.t == t && At(s, t) == PreBuild then m.(built := Some(x.ok))
    else if x.ServeEnds? && x.t == t then m.(threw := x.threw)
    else m
  }

  predicate MetFits(pc: Progress, m: Met) {
    match pc
    case PreBuild => m == Met(None, false)
    case PreResolve => m == Met(Some(false), false)
    case PreReset => m == Met(Some(false), false)
    case PreDone(ok) => m == Met(Some(ok), false)
    case RunNull => !m.threw
    case Serving => !m.threw
    case RunAfter(threw) => m.threw == threw
    case RunReset => !m.threw
    case RunDone(threw) => m.threw == threw
  }

  lemma MetStep(s: State, x: Action, t: ThreadId, m: Met)
    requires Enabled(s, x) && MetFits(At(s, t), m)
    ensures MetFits(At(Apply(s, x), t), MetAfter(s, x, t, m))
  {
  }

  lemma {:induction false} MetRun(states: seq<State>, actions: seq<Action>, i: nat, t: ThreadId)
    requires IsRun(states, actions) && i < |states|
    ensures MetFits(At(states[i], t), MetBy(states, actions, i, t))
  {
    if i > 0 {
      MetRun(states, actions, i - 1, t);
      MetStep(states[i - 1], actions[i - 1], t, MetBy(states, actions, i - 1, t));
    }
  }

  /** preRun() answers true exactly if the server could be built, and run() throws exactly if the library's
      start() did. */
  lemma HttpThreadAnswers(states: seq<State>, actions: seq<Action>, i: nat, t: ThreadId, o: L.Outcome, threw: bool)
    requires IsRun(states, actions) && i < |actions|
    ensures actions[i] == Life(L.PreRunEnds(t, o)) ==> o.Returns? && MetBy(states, actions, i, t).built == Some(o.ok)
    ensures actions[i] == Life(L.RunEnds(t, threw)) ==> MetBy(states, actions, i, t).threw == threw
  {
    MetRun(states, actions, i, t);
    assert Enabled(states[i], actions[i]);
  }
}
