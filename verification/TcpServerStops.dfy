/** What the TCP server's scans and its accept loop achieve: a reap takes every handler that had completed, a
    stop hook closes every listed client, and the loop ends soon after a stop and not without a reason. */
module TcpServerStops {
  import opened Wrappers
  import opened TcpServer
  import opened TcpServerTheorems
  import L = Lifecycle
  import LT = LifecycleTheorems

  // ----- Under the mutex

  predicate IsStepOf(x: Action, o: Owner) {
    match o
    case Runner(t) => (x.RunMove? || x.SpawnFails?) && x.t == t
    case Hooker(a) => x == HookMove(a)
  }

  /** Only the owner of the mutex changes m_clients. */
  lemma ServerHeld(s: State, x: Action, o: Owner)
    requires MutexInv(s) && Enabled(s, x) && s.server.mutex == Some(o) && !IsStepOf(x, o)
    ensures Apply(s, x).server == s.server
  {
    if x.RunMove? {
      assert !RunnerHolds(Run(s, x.t));
    } else if x.SpawnFails? {
      assert RunnerHolds(Run(s, x.t));
    }
  }

  /** Sockets only close, and what has completed stays so. */
  lemma ClientsAdvance(s: State, x: Action, c: Descriptor)
    requires PlaceInv(s) && SlotInv(s) && Enabled(s, x) && c in s.all
    ensures c in Apply(s, x).all
    ensures Apply(s, x).all[c].open ==> s.all[c].open
    ensures HasCompleted(s.all[c].handler) ==> HasCompleted(Apply(s, x).all[c].handler)
  {
    if x.RunMove? {
      RunAdvances(s, x.t, c);
    }
  }

  lemma RunAdvances(s: State, t: ThreadId, c: Descriptor)
    requires PlaceInv(s) && SlotInv(s) && RunEnabled(s, t) && c in s.all
    ensures c in ApplyRun(s, t).all
    ensures ApplyRun(s, t).all[c].open ==> s.all[c].open
    ensures HasCompleted(s.all[c].handler) ==> HasCompleted(ApplyRun(s, t).all[c].handler)
  {
    if Run(s, t).SpawnHandler? {
      assert SlotOk(s, t, s.runs[t]) && ClientOk(s, Run(s, t).c, s.all[Run(s, t).c]);
    }
  }

  /** x is a step of run() of t. */
  predicate IsRunStepOf(x: Action, t: ThreadId) {
    (x.RunMove? || x.Accepts? || x.AcceptEnds? || x.NodeFails? || x.SpawnFails?) && x.t == t
  }

  lemma RunKept(s: State, x: Action, t: ThreadId)
    requires Enabled(s, x) && !IsRunStepOf(x, t)
    ensures Run(Apply(s, x), t) == Run(s, t) && (t in s.runs ==> t in Apply(s, x).runs)
  {
  }

  // ----- The reap

  /** In the middle of a reap: what had completed by its start is taken, or still to be looked at. */
  ghost predicate Reaping(s: State, t: ThreadId, c: Descriptor) {
    var pc := Run(s, t);
    && pc.ReapScan? && c in s.all && HasCompleted(s.all[c].handler)
    && (c in pc.taken || exists k: nat :: pc.i <= k < |s.server.clients| && s.server.clients[k] == c)
  }

  lemma ReapOwnStep(s: State, t: ThreadId, c: Descriptor)
    requires RunEnabled(s, t) && Reaping(s, t, c)
    ensures var s' := ApplyRun(s, t);
            if Run(s', t).ReapScan? then Reaping(s', t, c) else Run(s', t).Drain? && c in Run(s', t).list
  {
    var pc, clients := Run(s, t), s.server.clients;
    if c !in pc.taken && pc.i < |clients| {
      var k: nat :| pc.i <= k < |clients| && clients[k] == c;
      var s' := ApplyRun(s, t);
      if HasCompleted(s.all[clients[pc.i]].handler) && k > pc.i {
        assert s'.server.clients[k - 1] == c;
      }
      assert !HasCompleted(s.all[clients[pc.i]].handler) ==> k > pc.i && s'.server.clients[k] == c;
    }
  }

  lemma ReapOtherStep(s: State, x: Action, t: ThreadId, c: Descriptor)
    requires MutexInv(s) && PlaceInv(s) && SlotInv(s) && Enabled(s, x) && Reaping(s, t, c) && x != RunMove(t)
    ensures Reaping(Apply(s, x), t, c)
  {
    assert RunnerHolds(Run(s, t));
    RunKept(s, x, t);
    ServerHeld(s, x, Runner(t));
    ClientsAdvance(s, x, c);
  }

  lemma ReapNext(states: seq<State>, actions: seq<Action>, k: nat, t: ThreadId, c: Descriptor)
    requires IsRun(states, actions) && k < |actions| && Reaping(states[k], t, c) && Run(states[k + 1], t).ReapScan?
    ensures Reaping(states[k + 1], t, c)
  {
    InvRun(states, actions, k);
    if actions[k] == RunMove(t) {
      ReapOwnStep(states[k], t, c);
    } else {
      ReapOtherStep(states[k], actions[k], t, c);
    }
  }

  lemma ReapBegins(s: State, t: ThreadId, c: Descriptor)
    requires RunEnabled(s, t) && Run(s, t) == ReapLock && c in s.server.clients && c in s.all && HasCompleted(s.all[c].handler)
    ensures Reaping(ApplyRun(s, t), t, c)
  {
    var k: nat :| k < |s.server.clients| && s.server.clients[k] == c;
    assert ApplyRun(s, t).server.clients[k] == c;
  }

  ghost predicate ReapingSince(states: seq<State>, b: nat, e: nat, t: ThreadId) {
    b < e < |states| && forall j: nat :: b < j <= e ==> Run(states[j], t).ReapScan?
  }

  lemma {:induction false} ReapRun(states: seq<State>, actions: seq<Action>, b: nat, e: nat, t: ThreadId, c: Descriptor)
    requires IsRun(states, actions) && ReapingSince(states, b, e, t) && Reaping(states[b + 1], t, c)
    ensures Reaping(states[e], t, c)
  {
    if e > b + 1 {
      ReapRun(states, actions, b, e - 1, t, c);
      ReapNext(states, actions, e - 1, t, c);
    }
  }

  lemma ReapEnds(s: State, x: Action, t: ThreadId, c: Descriptor)
    requires Enabled(s, x) && Reaping(s, t, c) && Run(Apply(s, x), t).Drain?
    ensures c in Run(Apply(s, x), t).list
  {
    if x == RunMove(t) {
      ReapOwnStep(s, t, c);
    } else {
      RunKept(s, x, t);
    }
  }

  lemma TakenIsUnlisted(s: State, t: ThreadId, c: Descriptor)
    requires StoreInv(s) && Run(s, t).Drain? && c in Run(s, t).list
    ensures c !in s.server.clients
  {
    OwnListPlaces(s, t, s.runs[t]);
  }

  lemma ReapBeginsAt(states: seq<State>, actions: seq<Action>, b: nat, t: ThreadId, c: Descriptor)
    requires IsRun(states, actions) && b < |actions| && actions[b] == RunMove(t) && Run(states[b], t) == ReapLock
    requires c in states[b].server.clients && c in states[b].all && HasCompleted(states[b].all[c].handler)
    ensures Reaping(states[b + 1], t, c)
  {
    ReapBegins(states[b], t, c);
  }

  lemma ReapEndsAt(states: seq<State>, actions: seq<Action>, e: nat, t: ThreadId, c: Descriptor)
    requires IsRun(states, actions) && e < |actions| && Reaping(states[e], t, c) && Run(states[e + 1], t).Drain?
    ensures c in Run(states[e + 1], t).list && c !in states[e + 1].server.clients
  {
    ReapEnds(states[e], actions[e], t, c);
    InvRun(states, actions, e + 1);
    TakenIsUnlisted(states[e + 1], t, c);
  }

  /** A reap that begins in step b and ends in step e has taken every session that had completed when it
      began: it is on run()'s own list, to be joined, and not in m_clients any more. */
  lemma ReapTakesCompleted(states: seq<State>, actions: seq<Action>, b: nat, e: nat, t: ThreadId, c: Descriptor)
    requires IsRun(states, actions) && e < |actions| && ReapingSince(states, b, e, t)
    requires actions[b] == RunMove(t) && Run(states[b], t) == ReapLock && Run(states[e + 1], t).Drain?
    requires c in states[b].server.clients && c in states[b].all && HasCompleted(states[b].all[c].handler)
    ensures c in Run(states[e + 1], t).list && c !in states[e + 1].server.clients
  {
    ReapBeginsAt(states, actions, b, t, c);
    ReapRun(states, actions, b, e, t, c);
    ReapEndsAt(states, actions, e, t, c);
  }

  // ----- The stop hook

  /** A stop hook in the middle of its scan has closed what it has passed. */
  ghost predicate ScanInv(s: State) {
    forall a :: Hook(s, a).HookScan? ==> Scanned(s, Hook(s, a).i)
  }

  ghost predicate Scanned(s: State, i: nat) {
    && i <= |s.server.clients|
    && forall k: nat :: k < i ==> Shut(s, s.server.clients[k])
  }

  predicate Shut(s: State, c: Descriptor) {
    c in s.all && !s.all[c].open
  }

  ghost predicate AllShut(s: State) {
    forall c :: c in s.server.clients ==> Shut(s, c)
  }

  lemma ScanKept(s: State, x: Action, a: L.Agent)
    requires Inv(s) && ScanInv(s) && Enabled(s, x) && x != HookMove(a) && Hook(s, a).HookScan?
    ensures Scanned(Apply(s, x), Hook(s, a).i)
  {
    ServerHeld(s, x, Hooker(a));
    forall k: nat | k < Hook(s, a).i
      ensures Shut(Apply(s, x), s.server.clients[k])
    {
      assert Shut(s, s.server.clients[k]);
      ClientsAdvance(s, x, s.server.clients[k]);
    }
  }

  lemma ScanOwn(s: State, a: L.Agent)
    requires ScanInv(s) && HookEnabled(s, a)
    ensures Hook(ApplyHook(s, a), a).HookScan? ==> Scanned(ApplyHook(s, a), Hook(ApplyHook(s, a), a).i)
  {
    if Hook(s, a).HookScan? {
      var i := Hook(s, a).i;
      assert Scanned(s, i);
      forall k: nat | k < i
        ensures Shut(ApplyHook(s, a), s.server.clients[k])
      {
        assert Shut(s, s.server.clients[k]);
      }
    }
  }

  lemma HookBefore(s: State, x: Action, a: L.Agent)
    requires RunInv(s) && Enabled(s, x) && x != HookMove(a) && Hook(Apply(s, x), a).HookScan?
    ensures Hook(s, a) == Hook(Apply(s, x), a)
  {
  }

  lemma ScanStep(s: State, x: Action)
    requires Inv(s) && ScanInv(s) && Enabled(s, x)
    ensures ScanInv(Apply(s, x))
  {
    forall a | Hook(Apply(s, x), a).HookScan?
      ensures Scanned(Apply(s, x), Hook(Apply(s, x), a).i)
    {
      if x == HookMove(a) {
        ScanOwn(s, a);
      } else {
        HookBefore(s, x, a);
        ScanKept(s, x, a);
      }
    }
  }

  lemma {:induction false} ScanRun(states: seq<State>, actions: seq<Action>, i: nat)
    requires IsRun(states, actions) && i < |states|
    ensures ScanInv(states[i])
  {
    if i > 0 {
      ScanRun(states, actions, i - 1);
      InvRun(states, actions, i - 1);
      ScanStep(states[i - 1], actions[i - 1]);
    }
  }

  /** When a stop hook finishes, no listed session has an open socket. */
  lemma HookClosesListed(states: seq<State>, actions: seq<Action>, k: nat, a: L.Agent)
    requires IsRun(states, actions) && k < |actions| && actions[k] == HookMove(a)
    requires Hook(states[k], a) != HookDone && Hook(states[k + 1], a) == HookDone
    ensures AllShut(states[k + 1])
  {
    ScanRun(states, actions, k);
    var s := states[k];
    assert Scanned(s, Hook(s, a).i) && Hook(s, a).i == |s.server.clients|;
    forall c | c in s.server.clients
      ensures Shut(s, c)
    {
      var j: nat :| j < |s.server.clients| && s.server.clients[j] == c;
      assert Shut(s, s.server.clients[j]);
    }
  }

  // ----- The end of the accept loop

  /** On the way from accept() back to the check of the flag, or past it. */
  predicate PastAccept(pc: RunPc) {
    pc.StartLock? || pc.SpawnHandler? || pc.RefuseClose? || pc == Top || pc == FinalLock || (pc.Drain? && pc.last) || pc == Done
  }

  /** The flag is set and run() of t will not accept again. */
  predicate Closing(s: State, t: ThreadId) {
    PastAccept(Run(s, t)) && t in s.runs && (Run(s, t) != Done ==> s.life.core.stopRequested)
  }

  lemma ClosingLife(s: State, y: L.Action, t: ThreadId)
    requires L.SessionInv(s.life) && RunInv(s) && Enabled(s, Life(y)) && Closing(s, t)
    ensures Closing(ApplyLife(s, y), t)
  {
    if Run(s, t) != Done {
      LT.StopSticksStep(s.life, y, t);
    }
  }

  lemma ClosingOwn(s: State, x: Action, t: ThreadId)
    requires Enabled(s, x) && Closing(s, t) && IsRunStepOf(x, t)
    ensures PastAccept(Run(Apply(s, x), t)) && t in Apply(s, x).runs && Run(s, t) != Done
  {
  }

  lemma ClosingStep(s: State, x: Action, t: ThreadId)
    requires L.SessionInv(s.life) && RunInv(s) && Enabled(s, x) && Closing(s, t)
    ensures Closing(Apply(s, x), t)
  {
    if x.Life? {
      ClosingLife(s, x.x, t);
    } else {
      FlagAlone(s, x);
      if IsRunStepOf(x, t) {
        ClosingOwn(s, x, t);
      } else {
        RunKept(s, x, t);
      }
    }
  }

  lemma FlagAlone(s: State, x: Action)
    requires Enabled(s, x) && !x.Life?
    ensures Apply(s, x).life.core == s.life.core
  {
  }

  lemma {:induction false} ClosingRun(states: seq<State>, actions: seq<Action>, i: nat, j: nat, t: ThreadId)
    requires IsRun(states, actions) && i <= j < |states| && Closing(states[i], t)
    ensures Closing(states[j], t)
  {
    if i < j {
      ClosingRun(states, actions, i, j - 1, t);
      InvRun(states, actions, j - 1);
      ClosingStep(states[j - 1], actions[j - 1], t);
    }
  }

  /** Of the clients a run() accepts, only the last one can have been accepted after a stop was requested. */
  lemma OneAcceptAfterStop(states: seq<State>, actions: seq<Action>, i: nat, j: nat, t: ThreadId)
    requires IsRun(states, actions) && i < j < |actions|
    requires actions[i].Accepts? && actions[i].t == t && actions[j].Accepts? && actions[j].t == t
    ensures !states[i].life.core.stopRequested
  {
    if states[i].life.core.stopRequested {
      assert Closing(states[i + 1], t);
      ClosingRun(states, actions, i + 1, j, t);
    }
  }

  /** run() of t found the listening socket gone. */
  ghost predicate LostSocket(actions: seq<Action>, i: nat, t: ThreadId) {
    exists k: nat :: k < i && k < |actions| && actions[k] == AcceptEnds(t, NoSocket)
  }

  /** Why a run() is past its loop, or about to be. */
  ghost predicate ReasonInv(s: State, t: ThreadId, lost: bool) {
    && (Run(s, t) == FailStop ==> s.life.core.stopRequested || L.Pc(s.life, RunAgent(t)) == L.StopLock(L.RequestOnly))
    && (Run(s, t) == FinalLock || (Run(s, t).Drain? && Run(s, t).last) ==> s.life.core.stopRequested || lost)
  }

  lemma ReasonLife(s: State, y: L.Action, t: ThreadId, lost: bool)
    requires Inv(s) && Enabled(s, Life(y)) && ReasonInv(s, t, lost)
    ensures ReasonInv(ApplyLife(s, y), t, lost)
  {
    var pc := Run(s, t);
    assert Run(ApplyLife(s, y), t) == pc;
    if pc == FailStop || pc == FinalLock || (pc.Drain? && pc.last) {
      assert t in s.runs && LT.LiveAt(s.life, t);
      if s.life.core.stopRequested {
        LT.StopSticksStep(s.life, y, t);
      } else if pc == FailStop {
        LT.RequestAdvances(s.life, y, RunAgent(t));
      }
    }
  }

  lemma ReasonOwn(s: State, x: Action, t: ThreadId, lost: bool)
    requires Enabled(s, x) && ReasonInv(s, t, lost) && IsRunStepOf(x, t)
    ensures ReasonInv(Apply(s, x), t, lost || x == AcceptEnds(t, NoSocket))
  {
    FlagAlone(s, x);
    if x.AcceptEnds? && Run(Apply(s, x), t) == FailStop {
      assert L.Pc(Apply(s, x).life, RunAgent(t)) == L.StopLock(L.RequestOnly);
    }
  }

  lemma AgentAlone(s: State, x: Action, t: ThreadId)
    requires Enabled(s, x) && !x.Life? && !IsRunStepOf(x, t)
    ensures L.Pc(Apply(s, x).life, RunAgent(t)) == L.Pc(s.life, RunAgent(t))
  {
  }

  lemma ReasonOther(s: State, x: Action, t: ThreadId, lost: bool)
    requires Enabled(s, x) && !x.Life? && ReasonInv(s, t, lost)
    ensures ReasonInv(Apply(s, x), t, lost || x == AcceptEnds(t, NoSocket))
  {
    if IsRunStepOf(x, t) {
      ReasonOwn(s, x, t, lost);
    } else {
      FlagAlone(s, x);
      RunKept(s, x, t);
      AgentAlone(s, x, t);
    }
  }

  lemma {:induction false} ReasonRun(states: seq<State>, actions: seq<Action>, i: nat, t: ThreadId)
    requires IsRun(states, actions) && i < |states|
    ensures ReasonInv(states[i], t, LostSocket(actions, i, t))
  {
    if i > 0 {
      ReasonRun(states, actions, i - 1, t);
      ReasonNext(states, actions, i - 1, t);
    }
  }

  lemma ReasonNext(states: seq<State>, actions: seq<Action>, k: nat, t: ThreadId)
    requires IsRun(states, actions) && k < |actions| && ReasonInv(states[k], t, LostSocket(actions, k, t))
    ensures ReasonInv(states[k + 1], t, LostSocket(actions, k + 1, t))
  {
    assert LostSocket(actions, k + 1, t) <==> LostSocket(actions, k, t) || actions[k] == AcceptEnds(t, NoSocket);
    if actions[k].Life? {
      InvRun(states, actions, k);
      ReasonLife(states[k], actions[k].x, t, LostSocket(actions, k, t));
    } else {
      ReasonOther(states[k], actions[k], t, LostSocket(actions, k, t));
    }
  }

  /** The accept loop is only left when a stop was requested, if need be by run() itself, or when the
      listening socket was found gone. */
  lemma LoopEndsForAReason(states: seq<State>, actions: seq<Action>, i: nat, t: ThreadId)
    requires IsRun(states, actions) && i < |states|
    requires Run(states[i], t) == FinalLock || (Run(states[i], t).Drain? && Run(states[i], t).last)
    ensures states[i].life.core.stopRequested || LostSocket(actions, i, t)
  {
    ReasonRun(states, actions, i, t);
  }

  // ----- Who gets no session

  /** Client c was turned away; `noThread` tells at which point. */
  predicate TurnedAway(v: Client, noThread: bool) {
    (v.place.Rejected? && v.place.noThread == noThread) || v.place == Refused(noThread)
  }

  /** The step in which c's node, or its thread, could not be made. */
  predicate FailsFor(s: State, x: Action, c: Descriptor, noThread: bool) {
    if noThread then x.SpawnFails? && Run(s, x.t) == SpawnHandler(c) else x.NodeFails? && Run(s, x.t) == StartLock(c)
  }

  lemma AwayRun(s: State, t: ThreadId, c: Descriptor, noThread: bool)
    requires SlotInv(s) && RunEnabled(s, t) && c in ApplyRun(s, t).all && TurnedAway(ApplyRun(s, t).all[c], noThread)
    ensures c in s.all && TurnedAway(s.all[c], noThread)
  {
    assert Run(s, t).RefuseClose? ==> SlotOk(s, t, s.runs[t]);
  }

  lemma AwayStep(s: State, x: Action, c: Descriptor, noThread: bool)
    requires SlotInv(s) && Enabled(s, x) && c in Apply(s, x).all && TurnedAway(Apply(s, x).all[c], noThread)
    ensures (c in s.all && TurnedAway(s.all[c], noThread)) || FailsFor(s, x, c, noThread)
  {
    if x.RunMove? {
      AwayRun(s, x.t, c, noThread);
    }
  }

  ghost predicate FailedFor(states: seq<State>, actions: seq<Action>, i: nat, c: Descriptor, noThread: bool)
    requires |states| == |actions| + 1
  {
    exists k: nat {:trigger actions[k]} :: k < i && k < |actions| && FailsFor(states[k], actions[k], c, noThread)
  }

  /** An accepted client is only refused a session when its node or its thread could not be made. */
  lemma {:induction false} RefusedForAReason(states: seq<State>, actions: seq<Action>, i: nat, c: Descriptor, noThread: bool)
    requires IsRun(states, actions) && i < |states| && c in states[i].all && TurnedAway(states[i].all[c], noThread)
    ensures FailedFor(states, actions, i, c, noThread)
  {
    if i > 0 {
      InvRun(states, actions, i - 1);
      AwayStep(states[i - 1], actions[i - 1], c, noThread);
      if c in states[i - 1].all && TurnedAway(states[i - 1].all[c], noThread) {
        RefusedForAReason(states, actions, i - 1, c, noThread);
      }
    }
  }
}
