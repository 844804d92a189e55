/** The respond-once handle of the HTTP server (cHTTPServer.cpp).  Handles share one state by reference
    count; any number of threads copy, move, write through and destroy them.  Each access to the shared
    flag, the count or the writer is a step of its own, so a destruction takes up to five. */
module RespondOnce {
  import R = Runs

  type HandleId = nat

  /** The handle that the route wrapper owns and passes to the handler. */
  const ROOT: HandleId := 0

  /** Who asked for an answer: the user, the wrapper after an exception, or the last destructor. */
  datatype Origin = User(code: nat) | Error | Default

  function Code(o: Origin): nat {
    match o
    case User(code) => code
    case Error => 500
    case Default => 204
  }

  /** Where a handle is.  A destructor has found no answer yet (Checking), is the last one and will
      answer (Defaulting), has won the flag (Answering), or has only its reference to drop (Leaving). */
  datatype Phase = Live | Moved | Checking | Defaulting | Answering | Leaving

  datatype Pending = Pending(handle: HandleId, origin: Origin)

  datatype Handler = Running | Threw | Returned | Caught(held: bool)

  datatype State = State(
    handles: map<HandleId, Phase>,
    responded: bool,
    attempts: seq<Origin>,     // history: the exchanges of the flag, in order
    pending: seq<Pending>,     // writes that won the flag and have not called the writer
    written: seq<nat>,         // history: the codes the writer was called with
    handler: Handler)

  datatype Action =
    | Copy(h: HandleId, other: HandleId)
    | Move(h: HandleId, other: HandleId)
    | Write(h: HandleId, code: nat)
    | CallWriter(i: nat)
    | LoadFlag(h: HandleId)
    | LoadCount(h: HandleId)
    | WriteDefault(h: HandleId)
    | Release(h: HandleId)
    | HandlerReturns
    | HandlerThrows
    | WriteError

  ghost predicate Holds(s: State, h: HandleId) {
    h in s.handles && s.handles[h] != Moved
  }

  ghost function Holders(s: State): set<HandleId> {
    set h | h in s.handles && s.handles[h] != Moved
  }

  ghost function UseCount(s: State): nat {
    |Holders(s)|
  }

  predicate Usable(p: Phase) {
    p == Live || p == Moved
  }

  ghost predicate Idle(s: State, h: HandleId) {
    forall i :: 0 <= i < |s.pending| ==> s.pending[i].handle != h
  }

  ghost predicate Enabled(s: State, a: Action) {
    match a
    case Copy(h, other) => h in s.handles && Usable(s.handles[h]) && other !in s.handles && other != ROOT
    case Move(h, other) => h in s.handles && Usable(s.handles[h]) && other !in s.handles && other != ROOT && Idle(s, h)
    case Write(h, code) => h in s.handles && Usable(s.handles[h])
    case CallWriter(i) => i < |s.pending|
    case LoadFlag(h) => h in s.handles && Usable(s.handles[h]) && Idle(s, h) && (h == ROOT ==> s.handler.Returned? || s.handler.Caught?)
    case LoadCount(h) => h in s.handles && s.handles[h] == Checking
    case WriteDefault(h) => h in s.handles && s.handles[h] == Defaulting
    case Release(h) => h in s.handles && s.handles[h] == Leaving
    case HandlerReturns => s.handler == Running
    case HandlerThrows => s.handler == Running
    case WriteError => s.handler == Threw && ROOT in s.handles
  }

  function At(s: State, h: HandleId, p: Phase): State {
    s.(handles := s.handles[h := p])
  }

  /** The exchange in write, on a handle that holds the state. */
  function Exchange(s: State, h: HandleId, o: Origin): State {
    var t := s.(responded := true, attempts := s.attempts + [o]);
    if s.responded then t else t.(pending := t.pending + [Pending(h, o)])
  }

  ghost function Apply(s: State, a: Action): State
    requires Enabled(s, a)
  {
    match a
    case Copy(h, other) => At(s, other, s.handles[h])
    case Move(h, other) => At(At(s, other, s.handles[h]), h, Moved)
    case Write(h, code) => if s.handles[h] == Moved then s else Exchange(s, h, User(code))
    case CallWriter(i) =>
      var p := s.pending[i];
      var t := s.(pending := s.pending[..i] + s.pending[i + 1..], written := s.written + [Code(p.origin)]);
      if p.handle in s.handles && s.handles[p.handle] == Answering then At(t, p.handle, Leaving) else t
    case LoadFlag(h) =>
      if s.handles[h] == Moved then s.(handles := s.handles - {h})
      else At(s, h, if s.responded then Leaving else Checking)
    case LoadCount(h) => At(s, h, if UseCount(s) == 1 then Defaulting else Leaving)
    case WriteDefault(h) => Exchange(At(s, h, if s.responded then Leaving else Answering), h, Default)
    case Release(h) => s.(handles := s.handles - {h})
    case HandlerReturns => s.(handler := Returned)
    case HandlerThrows => s.(handler := Threw)
    case WriteError =>
      var held := s.handles[ROOT] != Moved;
      var t := s.(handler := Caught(held));
      if held then Exchange(t, ROOT, Error) else t
  }

  ghost function Init(): State {
    State(map[ROOT := Live], false, [], [], [], Running)
  }

  ghost predicate IsRun(states: seq<State>, actions: seq<Action>) {
    && |states| == |actions| + 1
    && states[0] == Init()
    && forall i {:trigger actions[i]} :: 0 <= i < |actions| ==> Enabled(states[i], actions[i]) && states[i + 1] == Apply(states[i], actions[i])
  }

  // ----- The writer runs at most once

  /** The flag, the log of exchanges and the writer's calls agree. */
  ghost predicate LogInv(s: State) {
    && (s.responded <==> s.attempts != [])
    && |s.written| + |s.pending| == (if s.responded then 1 else 0)
    && (s.written != [] ==> s.attempts != [] && s.written[0] == Code(s.attempts[0]))
    && (s.pending != [] ==> s.attempts != [] && s.pending[0].origin == s.attempts[0])
  }

  ghost predicate Sole(s: State, h: HandleId) {
    forall g: HandleId :: Holds(s, g) ==> g == h
  }

  ghost predicate Over(s: State) {
    forall g: HandleId :: Holds(s, g) ==> s.handles[g] == Answering || s.handles[g] == Leaving
  }

  /** The handle of a write in progress is still there. */
  ghost predicate PendingOk(s: State, p: Pending) {
    p.handle in s.handles && s.handles[p.handle] == if p.origin == Default then Answering else Live
  }

  ghost predicate HandleInv(s: State) {
    && (forall i :: 0 <= i < |s.pending| ==> PendingOk(s, s.pending[i]))
    && (forall h: HandleId :: h in s.handles && s.handles[h] == Answering ==> |s.pending| == 1 && s.pending[0] == Pending(h, Default))
    && (forall h: HandleId :: h in s.handles && (s.handles[h] == Defaulting || s.handles[h] == Answering) ==> Sole(s, h))
    && (s.handler == Running || s.handler == Threw ==> ROOT in s.handles && Usable(s.handles[ROOT]))
  }

  /** A default answer is the last thing tried, and the wrapper's answer was tried exactly if the handler
      threw and the wrapper's handle had not been moved from. */
  ghost predicate AttemptInv(s: State) {
    && (Default in s.attempts ==> Over(s))
    && (forall i :: 0 <= i < |s.attempts| - 1 ==> s.attempts[i] != Default)
    && (Error in s.attempts <==> s.handler == Caught(true))
  }

  ghost predicate Inv(s: State) {
    LogInv(s) && HandleInv(s) && AttemptInv(s)
  }

  lemma UseCountIsOne(s: State, h: HandleId)
    requires Holds(s, h)
    ensures UseCount(s) == 1 <==> Sole(s, h)
  {
    var all := Holders(s);
    assert h in all;
    assert all == {h} + (all - {h});
    assert forall g: HandleId :: Holds(s, g) <==> g in all;
    if |all| == 1 {
      assert |all - {h}| == 0;
      assert all == {h};
    }
    if Sole(s, h) {
      assert all == {h};
    }
  }

  lemma LogStep(s: State, a: Action)
    requires LogInv(s) && Enabled(s, a)
    ensures LogInv(Apply(s, a))
  {
  }

  lemma HandleStepUse(s: State, a: Action)
    requires LogInv(s) && HandleInv(s) && Enabled(s, a)
    requires a.Copy? || a.Move?
    ensures HandleInv(Apply(s, a))
  {
    assert Holds(s, a.h) ==> forall h: HandleId :: h in s.handles ==> s.handles[h] != Defaulting && s.handles[h] != Answering;
    assert forall h: HandleId :: Holds(Apply(s, a), h) ==> if h == a.other then Holds(s, a.h) else Holds(s, h);
  }

  lemma HandleStepWrite(s: State, a: Action)
    requires LogInv(s) && HandleInv(s) && Enabled(s, a)
    requires a.Write? || a.HandlerReturns? || a.HandlerThrows? || a.WriteError?
    ensures HandleInv(Apply(s, a))
  {
    var s' := Apply(s, a);
    assert s'.handles == s.handles;
    assert forall h: HandleId :: Holds(s', h) <==> Holds(s, h);
    assert a.Write? && s.handles[a.h] != Moved ==> Holds(s, a.h);
    assert s.handler == Threw && s.handles[ROOT] != Moved ==> Holds(s, ROOT);
  }

  lemma HandleStepCall(s: State, a: Action)
    requires LogInv(s) && HandleInv(s) && Enabled(s, a) && a.CallWriter?
    ensures HandleInv(Apply(s, a))
  {
    var s' := Apply(s, a);
    assert PendingOk(s, s.pending[a.i]);
    assert s'.pending == [];
    assert forall h: HandleId :: Holds(s', h) <==> Holds(s, h);
  }

  lemma HandleStepLeave(s: State, a: Action)
    requires LogInv(s) && HandleInv(s) && Enabled(s, a)
    requires a.LoadFlag? || a.Release?
    ensures HandleInv(Apply(s, a))
  {
    assert forall h: HandleId :: Holds(Apply(s, a), h) ==> Holds(s, h);
  }

  lemma HandleStepLast(s: State, a: Action)
    requires LogInv(s) && HandleInv(s) && Enabled(s, a)
    requires a.LoadCount? || a.WriteDefault?
    ensures HandleInv(Apply(s, a))
  {
    assert forall h: HandleId :: Holds(Apply(s, a), h) ==> Holds(s, h);
    UseCountIsOne(s, a.h);
  }

  lemma HandleStep(s: State, a: Action)
    requires LogInv(s) && HandleInv(s) && Enabled(s, a)
    ensures HandleInv(Apply(s, a))
  {
    match a
    case Copy(_, _) => HandleStepUse(s, a);
    case Move(_, _) => HandleStepUse(s, a);
    case CallWriter(_) => HandleStepCall(s, a);
    case LoadFlag(_) => HandleStepLeave(s, a);
    case LoadCount(_) => HandleStepLast(s, a);
    case WriteDefault(_) => HandleStepLast(s, a);
    case Release(_) => HandleStepLeave(s, a);
    case _ => HandleStepWrite(s, a);
  }

  /** The handles a step leaves active were so before, or came of ones that were. */
  lemma OverStep(s: State, a: Action)
    requires HandleInv(s) && Enabled(s, a) && Over(s)
    ensures Over(Apply(s, a)) && (Apply(s, a).attempts == s.attempts)
  {
    if (a.Copy? || a.Move? || a.Write?) {
      assert s.handles[a.h] == Moved by {
        assert s.handles[a.h] != Moved ==> Holds(s, a.h);
      }
    }
  }

  lemma AttemptStep(s: State, a: Action)
    requires HandleInv(s) && AttemptInv(s) && Enabled(s, a)
    ensures AttemptInv(Apply(s, a))
  {
    var s' := Apply(s, a);
    if Default in s.attempts {
      OverStep(s, a);
    } else if a.WriteDefault? {
      assert forall g: HandleId :: Holds(s', g) ==> Holds(s, g);
      assert Over(s');
    } else {
      assert s'.attempts == s.attempts || (s'.attempts == s.attempts + [s'.attempts[|s.attempts|]] && s'.attempts[|s.attempts|] != Default);
    }
  }

  lemma {:induction false} InvRun(states: seq<State>, actions: seq<Action>, i: nat)
    requires IsRun(states, actions) && i < |states|
    ensures Inv(states[i])
  {
    if i > 0 {
      InvRun(states, actions, i - 1);
      LogStep(states[i - 1], actions[i - 1]);
      HandleStep(states[i - 1], actions[i - 1]);
      AttemptStep(states[i - 1], actions[i - 1]);
    }
  }

  /** Over every interleaving the writer runs at most once, with the code of the first write to take the
      flag. */
  lemma AtMostOnce(states: seq<State>, actions: seq<Action>, i: nat)
    requires IsRun(states, actions) && i < |states|
    ensures |states[i].written| <= 1
    ensures states[i].written != [] ==> states[i].attempts != [] && states[i].written == [Code(states[i].attempts[0])]
  {
    InvRun(states, actions, i);
  }

  // ----- What is written is what the first writer said

  lemma AttemptsStay(s: State, x: Action)
    requires Enabled(s, x)
    ensures s.attempts <= Apply(s, x).attempts
  {
  }

  lemma {:induction false} AttemptsGrow(states: seq<State>, actions: seq<Action>, i: nat, j: nat)
    requires IsRun(states, actions) && i <= j < |states|
    ensures states[i].attempts <= states[j].attempts
  {
    if i < j {
      AttemptsGrow(states, actions, i, j - 1);
      AttemptsStay(states[j - 1], actions[j - 1]);
    }
  }

  /** The code that step x would answer with: the caller's, or 500 after an exception, or 204 by default. */
  predicate AnswersWith(x: Action, code: nat) {
    || (x.Write? && code == x.code)
    || (x == WriteError && code == 500)
    || (x.WriteDefault? && code == 204)
  }

  lemma TakesFlag(s: State, x: Action)
    requires LogInv(s) && Enabled(s, x) && !s.responded && Apply(s, x).responded
    ensures |Apply(s, x).attempts| == 1 && AnswersWith(x, Code(Apply(s, x).attempts[0]))
  {
  }

  /** If step k takes the flag, the writer is only ever called with the code of that step. */
  lemma WrittenByFirst(states: seq<State>, actions: seq<Action>, k: nat, i: nat)
    requires IsRun(states, actions) && k < i < |states|
    requires !states[k].responded && states[k + 1].responded && states[i].written != []
    ensures |states[i].written| == 1 && AnswersWith(actions[k], states[i].written[0])
  {
    InvRun(states, actions, k);
    TakesFlag(states[k], actions[k]);
    AttemptsGrow(states, actions, k + 1, i);
    InvRun(states, actions, i);
  }

  // ----- Exactly once

  ghost predicate Leaves(s: State, h: HandleId) {
    h in s.handles && s.handles[h] == Leaving
  }

  /** Two destructors are past their look at the count together. */
  ghost predicate TwoLeave(s: State) {
    exists g: HandleId, h: HandleId :: Leaves(s, g) && Leaves(s, h) && g != h
  }

  ghost predicate Stays(s: State, h: HandleId) {
    Holds(s, h) && !Leaves(s, h)
  }

  ghost predicate Awaited(s: State) {
    s.responded || exists h: HandleId :: Stays(s, h)
  }

  /** Each of the last handles, two or more, took another for the one that would answer. */
  ghost predicate Abandoned(s: State) {
    !Awaited(s) && TwoLeave(s)
  }

  lemma AwaitedStep(s: State, a: Action)
    requires LogInv(s) && Awaited(s) && Enabled(s, a)
    ensures Awaited(Apply(s, a)) || Abandoned(Apply(s, a))
  {
    var s' := Apply(s, a);
    if !s.responded {
      var h: HandleId :| Stays(s, h);
      if a.LoadCount? {
        UseCountIsOne(s, a.h);
        if UseCount(s) != 1 {
          var g: HandleId :| Holds(s, g) && g != a.h;
          assert Stays(s', g) || Leaves(s', g);
          assert Leaves(s', a.h);
        } else {
          assert Stays(s', a.h);
        }
      } else if a.Move? && h == a.h {
        assert Stays(s', a.other);
      } else {
        assert !s'.responded ==> Stays(s', h);
      }
    }
  }

  /** Nobody comes back once all are leaving. */
  lemma UnawaitedStep(s: State, a: Action)
    requires HandleInv(s) && !Awaited(s) && Enabled(s, a)
    ensures !Awaited(Apply(s, a))
  {
    var s' := Apply(s, a);
    forall h: HandleId | Holds(s', h) ensures Leaves(s', h) {
      assert (a.Copy? || a.Move?) && h == a.other ==> Holds(s, a.h) ==> Stays(s, a.h);
      assert Holds(s, h) ==> !Stays(s, h);
    }
    assert a.Write? && Holds(s, a.h) ==> Stays(s, a.h);
    assert a.WriteDefault? ==> Stays(s, a.h);
    assert a.WriteError? && Holds(s, ROOT) ==> Stays(s, ROOT);
  }

  lemma {:induction false} UnawaitedRun(states: seq<State>, actions: seq<Action>, i: nat, j: nat)
    requires IsRun(states, actions) && i <= j < |states| && !Awaited(states[i])
    ensures !Awaited(states[j])
    decreases j
  {
    if i < j {
      UnawaitedRun(states, actions, i, j - 1);
      InvRun(states, actions, j - 1);
      UnawaitedStep(states[j - 1], actions[j - 1]);
    }
  }

  lemma {:induction false} AwaitedRun(states: seq<State>, actions: seq<Action>, i: nat)
    requires IsRun(states, actions) && i < |states|
    ensures Awaited(states[i]) || exists j: nat :: j <= i && Abandoned(states[j])
  {
    if i == 0 {
      assert Stays(states[0], ROOT);
    } else {
      AwaitedRun(states, actions, i - 1);
      if Awaited(states[i - 1]) {
        InvRun(states, actions, i - 1);
        AwaitedStep(states[i - 1], actions[i - 1]);
      }
    }
  }

  ghost predicate AllGone(s: State) {
    forall h: HandleId :: !Holds(s, h)
  }

  ghost predicate OnlyBy(attempts: seq<Origin>, o: Origin) {
    forall i :: 0 <= i < |attempts| ==> attempts[i] == o
  }

  /** Once the last handle is gone the writer has run, unless at some point all the handles left, two or
      more of them, had looked at the count and none had dropped its reference. */
  lemma AnsweredUnlessAbandoned(states: seq<State>, actions: seq<Action>, i: nat)
    requires IsRun(states, actions) && i < |states| && AllGone(states[i])
    ensures |states[i].written| == 1 <==> !(exists j: nat :: j <= i && Abandoned(states[j]))
  {
    InvRun(states, actions, i);
    AwaitedRun(states, actions, i);
    var s := states[i];
    assert |s.pending| > 0 ==> PendingOk(s, s.pending[0]) ==> Holds(s, s.pending[0].handle);
    assert Awaited(s) <==> |s.written| == 1;
    if j: nat :| j <= i && Abandoned(states[j]) {
      UnawaitedRun(states, actions, j, i);
    }
  }

  /** Unless it was abandoned, a request is answered exactly once, with the code of the first to try.  The
      last destructor is the first to try exactly if nobody else tried; and if the user did not try, the
      answer is 500 exactly if the handler threw while the wrapper's handle still held the state, and 204
      exactly otherwise. */
  lemma ExactlyOnce(states: seq<State>, actions: seq<Action>, i: nat)
    requires IsRun(states, actions) && i < |states| && AllGone(states[i])
    requires !exists j: nat :: j <= i && Abandoned(states[j])
    ensures var s := states[i];
            && s.attempts != [] && s.written == [Code(s.attempts[0])]
            && (s.attempts[0] == Default <==> OnlyBy(s.attempts, Default))
            && ((forall k :: 0 <= k < |s.attempts| ==> !s.attempts[k].User?) ==>
                  (s.written == [500] <==> s.handler == Caught(true)) && (s.written == [204] <==> s.handler != Caught(true)))
  {
    InvRun(states, actions, i);
    AnsweredUnlessAbandoned(states, actions, i);
    var s := states[i];
    if s.handler == Caught(true) {
      var k :| 0 <= k < |s.attempts| && s.attempts[k] == Error;
      assert k > 0 ==> s.attempts[0] != Default;
    }
  }

  // ----- Two runs worth knowing

  ghost predicate Next(s: State, x: Action, s': State) {
    Enabled(s, x) && s' == Apply(s, x)
  }

  ghost predicate Reachable(s: State) {
    R.Reaches(Init(), Next, s)
  }

  /** What is reachable is the end of a run. */
  lemma ReachedByRun(s: State) returns (states: seq<State>, actions: seq<Action>)
    requires Reachable(s)
    ensures IsRun(states, actions) && states[|actions|] == s
  {
    states, actions :| R.Leads(Init(), Next, states, actions, s);
  }

  lemma ReachStep(s: State, x: Action) returns (s': State)
    requires Reachable(s) && Enabled(s, x)
    ensures s' == Apply(s, x) && Reachable(s')
  {
    s' := Apply(s, x);
    R.ReachesOn(Init(), Next, s, x, s');
  }

  ghost predicate Unanswered(s: State) {
    AllGone(s) && s.written == []
  }

  ghost predicate ThrownButDefault(s: State) {
    AllGone(s) && s.handler.Caught? && s.written == [204]
  }

  /** Two handles destroyed at the same time can leave the request unanswered. */
  lemma OverlapLosesTheAnswer()
    ensures exists states, actions :: IsRun(states, actions) && Unanswered(states[|actions|])
  {
    R.ReachesSelf(Init(), Next);
    var s := ReachStep(Init(), Copy(ROOT, 1));
    s := ReachStep(s, HandlerReturns);
    s := ReachStep(s, LoadFlag(ROOT));
    s := ReachStep(s, LoadFlag(1));
    UseCountIsOne(s, 1);
    assert Holds(s, ROOT);
    s := ReachStep(s, LoadCount(ROOT));
    UseCountIsOne(s, 1);
    assert Holds(s, ROOT);
    s := ReachStep(s, LoadCount(1));
    s := ReachStep(s, Release(ROOT));
    s := ReachStep(s, Release(1));
    var states, actions := ReachedByRun(s);
  }

  lemma MovedAndThrown() returns (s: State)
    ensures s == State(map[ROOT := Moved, 1 := Live], false, [], [], [], Caught(false)) && Reachable(s)
  {
    R.ReachesSelf(Init(), Next);
    s := ReachStep(Init(), Move(ROOT, 1));
    s := ReachStep(s, HandlerThrows);
    s := ReachStep(s, WriteError);
  }

  lemma LastDestroyed(s: State) returns (s': State)
    requires s == State(map[ROOT := Moved, 1 := Live], false, [], [], [], Caught(false)) && Reachable(s)
    ensures s' == State(map[ROOT := Moved, 1 := Answering], true, [Default], [Pending(1, Default)], [], Caught(false)) && Reachable(s')
  {
    s' := ReachStep(s, LoadFlag(1));
    UseCountIsOne(s', 1);
    s' := ReachStep(s', LoadCount(1));
    s' := ReachStep(s', WriteDefault(1));
  }

  /** A handler that moves the response out and then throws is answered with 204: the wrapper's 500 goes
      to an empty handle. */
  lemma MovedResponseGets204()
    ensures exists states, actions :: IsRun(states, actions) && ThrownButDefault(states[|actions|])
  {
    var s := MovedAndThrown();
    s := LastDestroyed(s);
    s := ReachStep(s, CallWriter(0));
    s := ReachStep(s, Release(1));
    var states, actions := ReachedByRun(s);
  }
}
