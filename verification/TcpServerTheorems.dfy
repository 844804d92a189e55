/** Every session of the TCP server is joined once, before its node goes away, and its descriptor is
    closed once; when run() returns nothing is left. */
module TcpServerTheorems {
  import opened Wrappers
  import opened TcpServer
  import L = Lifecycle
  import LT = LifecycleTheorems

  // ----- run() and the hooks belong to the lifecycle

  ghost predicate RunInv(s: State) {
    && (forall t :: t in s.runs && s.runs[t] != Done ==> WorkerAt(s, t, L.InRun))
    && (forall a :: a in s.hooks ==> L.Pc(s.life, a).StopHook?)
  }

  lemma RunInvLife(s: State, y: L.Action)
    requires RunInv(s) && Enabled(s, Life(y))
    ensures RunInv(ApplyLife(s, y))
  {
    var s' := ApplyLife(s, y);
    forall t | t in s.runs && s.runs[t] != Done
      ensures WorkerAt(s', t, L.InRun)
    {
      LT.InRunStays(s.life, y, t);
    }
    forall a | a in s'.hooks
      ensures L.Pc(s'.life, a).StopHook?
    {
      LT.HookStays(s.life, y, a);
    }
  }

  lemma RunInvRun(s: State, t: ThreadId)
    requires RunInv(s) && RunEnabled(s, t)
    ensures RunInv(ApplyRun(s, t))
  {
    assert ApplyRun(s, t).runs == s.runs[t := ApplyRun(s, t).runs[t]];
  }

  lemma RunInvAcceptEnds(s: State, t: ThreadId, why: AcceptEnd)
    requires RunInv(s) && WorkerAt(s, t, L.InRun) && AgentFree(s, RunAgent(t))
    ensures RunInv(ApplyAcceptEnds(s, t, why))
  {
  }

  lemma RunInvStep(s: State, x: Action)
    requires RunInv(s) && Enabled(s, x)
    ensures RunInv(Apply(s, x))
  {
    match x
    case Life(y) => RunInvLife(s, y);
    case RunMove(t) => RunInvRun(s, t);
    case AcceptEnds(t, why) => RunInvAcceptEnds(s, t, why);
    case _ =>
  }

  /** Beginning a call of requestStop() is the lifecycle's own step. */
  lemma RequestKeepsLife(s: L.State, a: L.Agent)
    requires L.Inv(s) && L.Pc(s, a).Idle?
    ensures L.Inv(L.SetPc(s, a, L.StopLock(L.RequestOnly)))
  {
    L.InvStep(s, L.CallStop(a, L.RequestOnly));
  }

  lemma LifeAlone(s: State, x: Action)
    requires Enabled(s, x) && !x.Life? && !x.AcceptEnds?
    ensures Apply(s, x).life == s.life
  {
  }

  lemma LifeKept(s: State, x: Action)
    requires L.Inv(s.life) && Enabled(s, x)
    ensures L.Inv(Apply(s, x).life)
  {
    if x.Life? {
      L.InvStep(s.life, x.x);
    } else if x.AcceptEnds? {
      RequestKeepsLife(s.life, RunAgent(x.t));
    } else {
      LifeAlone(s, x);
    }
  }

  /** By session exclusion, at most one run() is under way. */
  lemma OthersDone(s: State, t: ThreadId)
    requires L.SessionInv(s.life) && RunInv(s) && WorkerAt(s, t, L.InRun)
    ensures forall u :: u in s.runs && u != t ==> s.runs[u] == Done
  {
    assert forall u :: WorkerAt(s, u, L.InRun) ==> s.life.session == L.Serving(u);
  }

  // ----- The mutex

  predicate RunnerHolds(pc: RunPc) {
    pc.ReapScan? || pc.SpawnHandler?
  }

  ghost predicate MutexInv(s: State) {
    && (forall t: ThreadId :: RunnerHolds(Run(s, t)) ==> s.server.mutex == Some(Runner(t)))
    && (forall a :: Hook(s, a).HookScan? ==> s.server.mutex == Some(Hooker(a)))
    && (forall t: ThreadId :: s.server.mutex == Some(Runner(t)) ==> RunnerHolds(Run(s, t)))
    && (forall a :: s.server.mutex == Some(Hooker(a)) ==> Hook(s, a).HookScan?)
  }

  lemma MutexLife(s: State, y: L.Action)
    requires RunInv(s) && MutexInv(s) && Enabled(s, Life(y))
    ensures MutexInv(ApplyLife(s, y))
  {
    var s' := ApplyLife(s, y);
    assert forall t: ThreadId :: Run(s', t) == Run(s, t);
    assert forall a :: Hook(s', a) == Hook(s, a) || (Hook(s, a) == HookDone && Hook(s', a) == HookLock);
  }

  lemma MutexRun(s: State, t: ThreadId)
    requires MutexInv(s) && RunEnabled(s, t)
    ensures MutexInv(ApplyRun(s, t))
  {
    var s' := ApplyRun(s, t);
    assert forall u: ThreadId :: u != t ==> Run(s', u) == Run(s, u);
    assert forall a :: Hook(s', a) == Hook(s, a);
  }

  lemma MutexHook(s: State, a: L.Agent)
    requires MutexInv(s) && HookEnabled(s, a)
    ensures MutexInv(ApplyHook(s, a))
  {
    var s' := ApplyHook(s, a);
    assert forall u: ThreadId :: Run(s', u) == Run(s, u);
    assert forall b :: b != a ==> Hook(s', b) == Hook(s, b);
  }

  /** run() of t moves between places without the mutex. */
  lemma MutexFree(s: State, s': State, t: ThreadId)
    requires MutexInv(s) && s'.server.mutex == s.server.mutex && s'.hooks == s.hooks
    requires forall u: ThreadId :: u != t ==> Run(s', u) == Run(s, u)
    requires RunnerHolds(Run(s', t)) == RunnerHolds(Run(s, t))
    ensures MutexInv(s')
  {
    assert forall b :: Hook(s', b) == Hook(s, b);
  }

  lemma MutexSpawnFails(s: State, t: ThreadId)
    requires MutexInv(s) && Enabled(s, SpawnFails(t))
    ensures MutexInv(ApplySpawnFails(s, t))
  {
    var s' := ApplySpawnFails(s, t);
    assert forall u: ThreadId :: u != t ==> Run(s', u) == Run(s, u);
    assert forall b :: Hook(s', b) == Hook(s, b);
  }

  lemma MutexStep(s: State, x: Action)
    requires RunInv(s) && MutexInv(s) && Enabled(s, x)
    ensures MutexInv(Apply(s, x))
  {
    match x
    case Life(y) => MutexLife(s, y);
    case RunMove(t) => MutexRun(s, t);
    case HookMove(a) => MutexHook(s, a);
    case HandlerMove(c) => MutexFree(s, Apply(s, x), 0);
    case Accepts(t, _) => MutexFree(s, Apply(s, x), t);
    case AcceptEnds(t, _) => MutexFree(s, Apply(s, x), t);
    case NodeFails(t) => MutexFree(s, Apply(s, x), t);
    case SpawnFails(t) => MutexSpawnFails(s, t);
  }

  // ----- Where every accepted descriptor is

  ghost predicate Distinct(list: seq<Descriptor>) {
    forall i, j :: 0 <= i < j < |list| ==> list[i] != list[j]
  }

  ghost predicate ListInv(s: State) {
    && Distinct(s.server.clients)
    && (forall c :: c in s.server.clients ==> c in s.all && s.all[c].place.Listed?)
    && (forall c :: c in s.all && s.all[c].place.Listed? ==> c in s.server.clients)
  }

  /** run() may still add to m_clients and take from it. */
  predicate Collecting(pc: RunPc) {
    pc != Done && !(pc.Drain? && pc.last)
  }

  function OwnList(pc: RunPc): seq<Descriptor> {
    match pc
    case ReapScan(_, taken) => taken
    case Drain(list, _, _, _) => list
    case _ => []
  }

  /** A started session: its socket was closed once or is still open, and a handler that left its
      loop has closed it. */
  predicate SessionOk(v: Client) {
    && v.closes == (if v.open then 0 else 1)
    && (v.handler == Completing || HasCompleted(v.handler) ==> !v.open)
  }

  ghost predicate ClientOk(s: State, c: Descriptor, v: Client) {
    match v.place
    case Local(t) => Run(s, t) == StartLock(c) && v == Client(Local(t), NotStarted, true, 0, 0)
    case Listed(t) =>
      && t in s.runs && Collecting(s.runs[t]) && SessionOk(v) && v.joins == 0
      && (v.handler == NotStarted <==> s.runs[t] == SpawnHandler(c))
    case Taken(t) => t in s.runs && c in OwnList(s.runs[t]) && SessionOk(v) && v.handler != NotStarted
    case Destroyed => v.joins == 1 && v.closes == 1 && v.handler == Exited
    case Rejected(t, noThread) =>
      Run(s, t) == RefuseClose(c) && v.joins == 0 && v.handler == NotStarted && v.closes == (if noThread then 1 else 0)
    case Refused(noThread) => v.joins == 0 && v.handler == NotStarted && v.closes == (if noThread then 2 else 1)
  }

  ghost predicate PlaceInv(s: State) {
    forall c :: c in s.all ==> ClientOk(s, c, s.all[c])
  }

  /** The k-th node of run()'s own list: joined exactly when the drain has passed it. */
  ghost predicate NodeOk(s: State, t: ThreadId, pc: RunPc, k: nat)
    requires k < |OwnList(pc)|
  {
    var c := OwnList(pc)[k];
    && c in s.all && s.all[c].place == Taken(t)
    && s.all[c].joins == (if pc.Drain? && k < pc.j then 1 else 0)
    && (pc.Drain? && (k < pc.j || (k == pc.j && pc.closed)) ==> !s.all[c].open)
    && (pc.ReapScan? ==> HasCompleted(s.all[c].handler))
    && (pc.Drain? && k < pc.j ==> s.all[c].handler == Exited)
  }

  ghost predicate OwnListOk(s: State, t: ThreadId, pc: RunPc) {
    && Distinct(OwnList(pc))
    && (pc.Drain? ==> pc.j <= |pc.list|)
    && (forall k: nat :: k < |OwnList(pc)| ==> NodeOk(s, t, pc, k))
  }

  ghost predicate TakenInv(s: State) {
    forall t :: t in s.runs ==> OwnListOk(s, t, s.runs[t])
  }

  ghost predicate StoreInv(s: State) {
    ListInv(s) && PlaceInv(s) && TakenInv(s)
  }

  /** Another run()'s own list is not touched. */
  lemma OwnListKept(s: State, s': State, u: ThreadId, pc: RunPc)
    requires OwnListOk(s, u, pc)
    requires forall c :: c in OwnList(pc) && c in s.all ==>
               && c in s'.all && s'.all[c].place == s.all[c].place && s'.all[c].joins == s.all[c].joins
               && (s'.all[c].open ==> s.all[c].open) && (s.all[c].handler == Exited ==> s'.all[c].handler == Exited)
               && (HasCompleted(s.all[c].handler) ==> HasCompleted(s'.all[c].handler))
    ensures OwnListOk(s', u, pc)
  {
    forall k: nat | k < |OwnList(pc)|
      ensures NodeOk(s', u, pc, k)
    {
      assert NodeOk(s, u, pc, k);
    }
  }

  lemma OwnListPlaces(s: State, u: ThreadId, pc: RunPc)
    requires OwnListOk(s, u, pc)
    ensures forall c :: c in OwnList(pc) ==> c in s.all && s.all[c].place == Taken(u)
  {
    forall c | c in OwnList(pc)
      ensures c in s.all && s.all[c].place == Taken(u)
    {
      var k: nat :| k < |OwnList(pc)| && OwnList(pc)[k] == c;
      assert NodeOk(s, u, pc, k);
    }
  }

  /** A session record changes without moving: sockets only close, handlers only advance. */
  lemma StoreClient(s: State, c: Descriptor, v: Client)
    requires StoreInv(s) && c in s.all && ClientOk(s, c, v)
    requires v.place == s.all[c].place && v.joins == s.all[c].joins
    requires v.open ==> s.all[c].open
    requires (s.all[c].handler == Exited ==> v.handler == Exited) && (HasCompleted(s.all[c].handler) ==> HasCompleted(v.handler))
    ensures StoreInv(SetClient(s, c, v))
  {
    var s' := SetClient(s, c, v);
    assert ListInv(s');
    forall d | d in s'.all
      ensures ClientOk(s', d, s'.all[d])
    {
      assert ClientOk(s, d, s.all[d]);
    }
    forall t | t in s'.runs
      ensures OwnListOk(s', t, s'.runs[t])
    {
      OwnListKept(s, s', t, s.runs[t]);
    }
  }

  /** The place concerns descriptor c, or none in particular. */
  predicate About(pc: RunPc, c: Descriptor) {
    (pc.StartLock? || pc.SpawnHandler? || pc.RefuseClose?) ==> pc.c == c
  }

  /** run() of t moves from and to places about c, and only c's record changes. */
  lemma StoreMove(s: State, s': State, t: ThreadId, c: Descriptor)
    requires StoreInv(s) && t in s'.runs && s'.runs == s.runs[t := s'.runs[t]]
    requires About(Run(s, t), c) && About(s'.runs[t], c)
    requires Collecting(Run(s, t)) ==> Collecting(s'.runs[t])
    requires forall d :: d in OwnList(Run(s, t)) ==> d in OwnList(s'.runs[t])
    requires s.all.Keys <= s'.all.Keys <= s.all.Keys + {c}
    requires forall d :: d in s.all && d != c ==> s'.all[d] == s.all[d]
    requires c in s.all && s.all[c].place.Taken? ==> s.all[c].place.t == t
    requires ListInv(s') && OwnListOk(s', t, s'.runs[t])
    requires c in s'.all ==> ClientOk(s', c, s'.all[c])
    ensures StoreInv(s')
  {
    forall d | d in s'.all && d != c
      ensures ClientOk(s', d, s'.all[d])
    {
      assert ClientOk(s, d, s.all[d]);
    }
    forall u | u in s'.runs && u != t
      ensures OwnListOk(s', u, s'.runs[u])
    {
      assert OwnListOk(s, u, s.runs[u]);
      OwnListPlaces(s, u, s.runs[u]);
      OwnListKept(s, s', u, s.runs[u]);
    }
  }

  /** run() moves between places that hold nothing. */
  lemma StoreRun(s: State, t: ThreadId, pc: RunPc)
    requires StoreInv(s) && OwnList(pc) == [] == OwnList(Run(s, t))
    requires (Collecting(Run(s, t)) ==> Collecting(pc)) && (pc.Drain? ==> pc.j == 0)
    requires About(Run(s, t), 0) && About(Run(s, t), 1) && About(pc, 0) && About(pc, 1)
    ensures StoreInv(SetRun(s, t, pc))
  {
    var s' := SetRun(s, t, pc);
    forall d | d in s'.all
      ensures ClientOk(s', d, s'.all[d])
    {
      assert ClientOk(s, d, s.all[d]);
    }
    forall u | u in s'.runs && u != t
      ensures OwnListOk(s', u, s'.runs[u])
    {
      OwnListKept(s, s', u, s.runs[u]);
    }
  }

  lemma StoreServer(s: State, mutex: Option<Owner>)
    requires StoreInv(s)
    ensures StoreInv(s.(server := s.server.(mutex := mutex)))
  {
    var s' := s.(server := s.server.(mutex := mutex));
    forall d | d in s'.all
      ensures ClientOk(s', d, s'.all[d])
    {
      assert ClientOk(s, d, s.all[d]);
    }
    forall u | u in s'.runs
      ensures OwnListOk(s', u, s'.runs[u])
    {
      OwnListKept(s, s', u, s.runs[u]);
    }
  }

  // ----- Reaping

  lemma ScanTakes(s: State, t: ThreadId, i: nat, taken: seq<Descriptor>)
    requires StoreInv(s) && t in s.runs && s.runs[t] == ReapScan(i, taken) && i < |s.server.clients|
    requires HasCompleted(s.all[s.server.clients[i]].handler)
    ensures StoreInv(ApplyScan(s, t, i, taken))
  {
    var s' := ApplyScan(s, t, i, taken);
    var c := s.server.clients[i];
    var pc := ReapScan(i, taken + [c]);
    assert ClientOk(s, c, s.all[c]);
    WithoutListed(s, s', i);
    assert OwnListOk(s, t, s.runs[t]);
    forall k: nat | k < |taken| + 1
      ensures NodeOk(s', t, pc, k)
    {
      if k < |taken| {
        assert NodeOk(s, t, s.runs[t], k);
      }
    }
    assert Distinct(taken + [c]) by {
      forall k: nat | k < |taken|
        ensures taken[k] != c
      {
        assert NodeOk(s, t, s.runs[t], k);
      }
    }
    StoreMove(s, s', t, c);
  }

  lemma WithoutListed(s: State, s': State, i: nat)
    requires ListInv(s) && i < |s.server.clients|
    requires s'.server.clients == WithoutAt(s.server.clients, i)
    requires s.server.clients[i] in s'.all && s'.all == s.all[s.server.clients[i] := s'.all[s.server.clients[i]]]
    requires !s'.all[s.server.clients[i]].place.Listed?
    ensures ListInv(s')
  {
    var list, rest := s.server.clients, s'.server.clients;
    assert forall k :: 0 <= k < |rest| ==> rest[k] == if k < i then list[k] else list[k + 1];
    forall d
      ensures d in rest <==> d in list && d != list[i]
    {
      if d in list && d != list[i] {
        var k :| 0 <= k < |list| && list[k] == d;
        assert rest[if k < i then k else k - 1] == d;
      }
    }
  }

  lemma ScanMoves(s: State, t: ThreadId, i: nat, taken: seq<Descriptor>)
    requires StoreInv(s) && t in s.runs && s.runs[t] == ReapScan(i, taken)
    requires i < |s.server.clients| ==> !HasCompleted(s.all[s.server.clients[i]].handler)
    ensures StoreInv(ApplyScan(s, t, i, taken))
  {
    var pc := if i < |s.server.clients| then ReapScan(i + 1, taken) else Drain(taken, 0, false, false);
    var s' := SetRun(s, t, pc);
    assert OwnListOk(s, t, s.runs[t]);
    forall k: nat | k < |taken|
      ensures NodeOk(s', t, pc, k)
    {
      assert NodeOk(s, t, s.runs[t], k);
    }
    StoreMoveAlone(s, t, pc);
    if i >= |s.server.clients| {
      StoreServer(s', None);
    }
  }

  /** run() of t moves and keeps its list; no record changes. */
  lemma StoreMoveAlone(s: State, t: ThreadId, pc: RunPc)
    requires StoreInv(s) && t in s.runs && (s.runs[t].ReapScan? || s.runs[t].Drain?) && (pc.ReapScan? || pc.Drain?)
    requires OwnList(pc) == OwnList(s.runs[t]) && (Collecting(s.runs[t]) ==> Collecting(pc))
    requires OwnListOk(SetRun(s, t, pc), t, pc)
    ensures StoreInv(SetRun(s, t, pc))
  {
    var s' := SetRun(s, t, pc);
    forall d | d in s'.all
      ensures ClientOk(s', d, s'.all[d])
    {
      assert ClientOk(s, d, s.all[d]);
    }
    forall u | u in s'.runs && u != t
      ensures OwnListOk(s', u, s'.runs[u])
    {
      OwnListKept(s, s', u, s.runs[u]);
    }
  }

  // ----- Draining a list: close, join, and destroy at the end

  lemma DrainMoves(s: State, t: ThreadId)
    requires StoreInv(s) && RunEnabled(s, t) && t in s.runs && s.runs[t].Drain? && s.runs[t].j < |s.runs[t].list|
    ensures StoreInv(ApplyDrain(s, t, s.runs[t]))
  {
    var pc := s.runs[t];
    var c := pc.list[pc.j];
    var s' := ApplyDrain(s, t, pc);
    assert OwnListOk(s, t, pc);
    assert NodeOk(s, t, pc, pc.j);
    assert ClientOk(s, c, s.all[c]);
    forall k: nat | k < |pc.list|
      ensures NodeOk(s', t, s'.runs[t], k)
    {
      assert NodeOk(s, t, pc, k);
      assert k != pc.j ==> pc.list[k] != c;
    }
    StoreMove(s, s', t, c);
  }

  /** At the end of the loop every node of the list was joined once and closed once. */
  lemma DrainEnds(s: State, t: ThreadId)
    requires StoreInv(s) && RunEnabled(s, t) && t in s.runs && s.runs[t].Drain? && s.runs[t].j >= |s.runs[t].list|
    requires s.runs[t].last ==> s.server.clients == []
    ensures StoreInv(ApplyDrain(s, t, s.runs[t]))
  {
    var pc := s.runs[t];
    var s' := ApplyDrain(s, t, pc);
    assert OwnListOk(s, t, pc);
    forall c | c in pc.list
      ensures c in s.all && s.all[c].place == Taken(t) && s.all[c].joins == 1 && !s.all[c].open && s.all[c].handler == Exited
    {
      var k: nat :| k < |pc.list| && pc.list[k] == c;
      assert NodeOk(s, t, pc, k);
    }
    forall d | d in s'.all
      ensures ClientOk(s', d, s'.all[d])
    {
      assert ClientOk(s, d, s.all[d]);
    }
    forall u | u in s'.runs && u != t
      ensures OwnListOk(s', u, s'.runs[u])
    {
      assert OwnListOk(s, u, s.runs[u]);
      OwnListPlaces(s, u, s.runs[u]);
      OwnListKept(s, s', u, s.runs[u]);
    }
  }

  /** The final splice takes all of m_clients, because no other run() is under way. */
  lemma FinalTakes(s: State, t: ThreadId)
    requires L.SessionInv(s.life) && RunInv(s) && StoreInv(s) && RunEnabled(s, t) && Run(s, t) == FinalLock
    requires t in s.runs
    ensures StoreInv(ApplyRun(s, t))
  {
    var s' := ApplyRun(s, t);
    var pc := Drain(s.server.clients, 0, false, true);
    forall d | d in s'.all
      ensures ClientOk(s', d, s'.all[d])
    {
      assert ClientOk(s, d, s.all[d]);
    }
    forall k: nat | k < |s.server.clients|
      ensures NodeOk(s', t, pc, k)
    {
      assert s.server.clients[k] in s.server.clients;
      assert ClientOk(s, s.server.clients[k], s.all[s.server.clients[k]]);
    }
    forall u | u in s'.runs && u != t
      ensures OwnListOk(s', u, s'.runs[u])
    {
      assert OwnListOk(s, u, s.runs[u]);
      OwnListPlaces(s, u, s.runs[u]);
      OwnListKept(s, s', u, s.runs[u]);
    }
  }

  // ----- Starting sessions

  lemma AppendListed(s: State, s': State, c: Descriptor)
    requires ListInv(s) && c in s.all && !s.all[c].place.Listed?
    requires s'.server.clients == s.server.clients + [c]
    requires c in s'.all && s'.all == s.all[c := s'.all[c]] && s'.all[c].place.Listed?
    ensures ListInv(s')
  {
  }

  lemma StartKeeps(s: State, t: ThreadId)
    requires StoreInv(s) && RunEnabled(s, t) && Run(s, t).StartLock?
    requires s.all[Run(s, t).c].place == Local(t)
    ensures StoreInv(ApplyRun(s, t))
  {
    var c := Run(s, t).c;
    assert ClientOk(s, c, s.all[c]);
    AppendListed(s, ApplyRun(s, t), c);
    StoreMove(s, ApplyRun(s, t), t, c);
  }

  lemma SpawnKeeps(s: State, t: ThreadId)
    requires StoreInv(s) && RunEnabled(s, t) && Run(s, t).SpawnHandler?
    requires s.all[Run(s, t).c].place == Listed(t)
    ensures StoreInv(ApplyRun(s, t))
  {
    var c := Run(s, t).c;
    assert ClientOk(s, c, s.all[c]);
    StoreMove(s, ApplyRun(s, t), t, c);
  }

  lemma RefuseKeeps(s: State, t: ThreadId)
    requires StoreInv(s) && RunEnabled(s, t) && Run(s, t).RefuseClose?
    requires s.all[Run(s, t).c].place.Rejected? && s.all[Run(s, t).c].place.t == t
    ensures StoreInv(ApplyRun(s, t))
  {
    var c := Run(s, t).c;
    assert ClientOk(s, c, s.all[c]);
    StoreMove(s, ApplyRun(s, t), t, c);
  }

  lemma AcceptKeeps(s: State, t: ThreadId, c: Descriptor)
    requires StoreInv(s) && Enabled(s, Accepts(t, c))
    ensures StoreInv(Apply(s, Accepts(t, c)))
  {
    StoreMove(s, Apply(s, Accepts(t, c)), t, c);
  }

  lemma NodeFailsKeeps(s: State, t: ThreadId)
    requires StoreInv(s) && Enabled(s, NodeFails(t)) && s.all[Run(s, t).c].place == Local(t)
    ensures StoreInv(Apply(s, NodeFails(t)))
  {
    var c := Run(s, t).c;
    assert ClientOk(s, c, s.all[c]);
    StoreMove(s, Apply(s, NodeFails(t)), t, c);
  }

  lemma SpawnFailsKeeps(s: State, t: ThreadId)
    requires StoreInv(s) && Enabled(s, SpawnFails(t))
    requires s.all[Run(s, t).c].place == Listed(t) && s.server.clients[|s.server.clients| - 1] == Run(s, t).c
    ensures StoreInv(ApplySpawnFails(s, t))
  {
    var c := Run(s, t).c;
    var n := |s.server.clients| - 1;
    assert ClientOk(s, c, s.all[c]);
    assert s.server.clients[..n] == WithoutAt(s.server.clients, n);
    WithoutListed(s, ApplySpawnFails(s, t), n);
    StoreMove(s, ApplySpawnFails(s, t), t, c);
  }

  // ----- What run()'s own variables point to

  ghost predicate SlotOk(s: State, t: ThreadId, pc: RunPc) {
    match pc
    case StartLock(c) => c in s.all && s.all[c].place == Local(t)
    case SpawnHandler(c) =>
      && c in s.all && s.all[c].place == Listed(t)
      && s.server.clients != [] && s.server.clients[|s.server.clients| - 1] == c
    case RefuseClose(c) => c in s.all && s.all[c].place.Rejected? && s.all[c].place.t == t
    case Drain(_, _, _, last) => last ==> s.server.clients == []
    case _ => true
  }

  ghost predicate SlotInv(s: State) {
    forall t :: t in s.runs ==> SlotOk(s, t, s.runs[t])
  }

  /** Only run() of t moves, and whatever it and its record point to fits. */
  lemma SlotMove(s: State, s': State, t: ThreadId)
    requires L.SessionInv(s.life) && RunInv(s) && SlotInv(s) && WorkerAt(s, t, L.InRun)
    requires t in s'.runs && s'.runs == s.runs[t := s'.runs[t]] && SlotOk(s', t, s'.runs[t])
    ensures SlotInv(s')
  {
    OthersDone(s, t);
  }

  lemma SlotRun(s: State, t: ThreadId)
    requires L.SessionInv(s.life) && RunInv(s) && MutexInv(s) && SlotInv(s) && RunEnabled(s, t)
    ensures SlotInv(ApplyRun(s, t))
  {
    assert t in s.runs ==> SlotOk(s, t, s.runs[t]);
    SlotMove(s, ApplyRun(s, t), t);
  }

  lemma SlotSame(s: State, s': State)
    requires SlotInv(s) && s'.runs == s.runs && s'.server.clients == s.server.clients
    requires s.all.Keys <= s'.all.Keys && forall c :: c in s.all ==> s'.all[c].place == s.all[c].place
    ensures SlotInv(s')
  {
    forall u | u in s'.runs
      ensures SlotOk(s', u, s'.runs[u])
    {
      assert SlotOk(s, u, s.runs[u]);
    }
  }

  lemma SlotHook(s: State, a: L.Agent)
    requires SlotInv(s) && HookEnabled(s, a)
    ensures SlotInv(ApplyHook(s, a))
  {
    SlotSame(s, ApplyHook(s, a));
  }

  lemma SlotHandler(s: State, c: Descriptor)
    requires SlotInv(s) && Enabled(s, HandlerMove(c))
    ensures SlotInv(ApplyHandler(s, c))
  {
    SlotSame(s, ApplyHandler(s, c));
  }

  lemma SlotStep(s: State, x: Action)
    requires L.SessionInv(s.life) && RunInv(s) && MutexInv(s) && SlotInv(s) && Enabled(s, x)
    ensures SlotInv(Apply(s, x))
  {
    match x
    case Life(y) => SlotSame(s, ApplyLife(s, y));
    case RunMove(t) => SlotRun(s, t);
    case Accepts(t, _) => SlotMove(s, Apply(s, x), t);
    case AcceptEnds(t, why) => SlotMove(s, ApplyAcceptEnds(s, t, why), t);
    case NodeFails(t) => SlotMove(s, Apply(s, x), t);
    case SpawnFails(t) => SlotMove(s, ApplySpawnFails(s, t), t);
    case HookMove(a) => SlotHook(s, a);
    case HandlerMove(c) => SlotHandler(s, c);
  }

  // ----- Every step keeps the books

  lemma RunKeepsStore(s: State, t: ThreadId)
    requires L.SessionInv(s.life) && RunInv(s) && SlotInv(s) && StoreInv(s) && RunEnabled(s, t)
    ensures StoreInv(ApplyRun(s, t))
  {
    assert t in s.runs ==> SlotOk(s, t, s.runs[t]);
    match Run(s, t)
    case Top => StoreRun(s, t, ApplyRun(s, t).runs[t]);
    case ReapLock => StoreRun(s, t, ReapScan(0, [])); StoreServer(SetRun(s, t, ReapScan(0, [])), Some(Runner(t)));
    case ReapScan(i, taken) =>
      if i < |s.server.clients| && HasCompleted(s.all[s.server.clients[i]].handler) {
        ScanTakes(s, t, i, taken);
      } else {
        ScanMoves(s, t, i, taken);
      }
    case Drain(list, j, _, _) =>
      if j < |list| {
        DrainMoves(s, t);
      } else {
        DrainEnds(s, t);
      }
    case FailStop => StoreRun(s, t, FinalLock);
    case StartLock(_) => StartKeeps(s, t);
    case SpawnHandler(_) => SpawnKeeps(s, t);
    case RefuseClose(_) => RefuseKeeps(s, t);
    case FinalLock => FinalTakes(s, t);
  }

  lemma HookKeepsStore(s: State, a: L.Agent)
    requires MutexInv(s) && StoreInv(s) && HookEnabled(s, a)
    ensures StoreInv(ApplyHook(s, a))
  {
    match Hook(s, a)
    case HookLock =>
      StoreServer(s, Some(Hooker(a)));
      StoreSame(s.(server := s.server.(mutex := Some(Hooker(a)))), ApplyHook(s, a));
    case HookScan(i) =>
      if i < |s.server.clients| {
        var c := s.server.clients[i];
        assert ClientOk(s, c, s.all[c]);
        StoreClient(s, c, CloseOnce(s.all[c]));
        StoreSame(SetClient(s, c, CloseOnce(s.all[c])), ApplyHook(s, a));
      } else {
        StoreSame(s, ApplyHook(s, a));
      }
  }

  lemma HandlerKeepsStore(s: State, c: Descriptor)
    requires StoreInv(s) && Enabled(s, HandlerMove(c))
    ensures StoreInv(ApplyHandler(s, c))
  {
    assert ClientOk(s, c, s.all[c]);
    StoreClient(s, c, ApplyHandler(s, c).all[c]);
  }

  /** Only the lifecycle and the hooks' counters change. */
  lemma StoreSame(s: State, s': State)
    requires StoreInv(s) && s'.runs == s.runs && s'.server.clients == s.server.clients && s'.all == s.all
    ensures StoreInv(s')
  {
    forall d | d in s'.all
      ensures ClientOk(s', d, s'.all[d])
    {
      assert ClientOk(s, d, s.all[d]);
    }
    forall u | u in s'.runs
      ensures OwnListOk(s', u, s'.runs[u])
    {
      OwnListKept(s, s', u, s.runs[u]);
    }
  }

  lemma AcceptEndsKeepsStore(s: State, t: ThreadId, why: AcceptEnd)
    requires StoreInv(s) && Run(s, t) == Accept
    ensures StoreInv(ApplyAcceptEnds(s, t, why))
  {
    var pc := ApplyAcceptEnds(s, t, why).runs[t];
    StoreRun(s, t, pc);
    StoreSame(SetRun(s, t, pc), ApplyAcceptEnds(s, t, why));
  }

  lemma StoreStep(s: State, x: Action)
    requires L.SessionInv(s.life) && RunInv(s) && MutexInv(s) && SlotInv(s) && StoreInv(s) && Enabled(s, x)
    ensures StoreInv(Apply(s, x))
  {
    match x
    case Life(y) => StoreSame(s, ApplyLife(s, y));
    case RunMove(t) => RunKeepsStore(s, t);
    case Accepts(t, c) => AcceptKeeps(s, t, c);
    case AcceptEnds(t, why) => AcceptEndsKeepsStore(s, t, why);
    case NodeFails(t) => assert SlotOk(s, t, s.runs[t]); NodeFailsKeeps(s, t);
    case SpawnFails(t) => assert SlotOk(s, t, s.runs[t]); SpawnFailsKeeps(s, t);
    case HookMove(a) => HookKeepsStore(s, a);
    case HandlerMove(c) => HandlerKeepsStore(s, c);
  }

  // ----- Over whole runs

  ghost predicate Inv(s: State) {
    L.Inv(s.life) && RunInv(s) && MutexInv(s) && SlotInv(s) && StoreInv(s)
  }

  lemma InvStep(s: State, x: Action)
    requires Inv(s) && Enabled(s, x)
    ensures Inv(Apply(s, x))
  {
    LifeKept(s, x);
    RunInvStep(s, x);
    MutexStep(s, x);
    SlotStep(s, x);
    StoreStep(s, x);
  }

  lemma {:induction false} InvRun(states: seq<State>, actions: seq<Action>, i: nat)
    requires IsRun(states, actions) && i < |states|
    ensures Inv(states[i])
  {
    if i == 0 {
      L.InvInit();
    } else {
      InvRun(states, actions, i - 1);
      InvStep(states[i - 1], actions[i - 1]);
    }
  }

  /** Nobody is between accepting a client and having settled it. */
  ghost predicate Settled(s: State) {
    && s.server.clients == []
    && forall c :: c in s.all ==>
         var v := s.all[c];
         || (v.place == Destroyed && v.joins == 1 && v.closes == 1 && v.handler == Exited)
         || (v.place == Refused(false) && v.joins == 0 && v.closes == 1)
         || (v.place == Refused(true) && v.joins == 0 && v.closes == 2)
  }

  /** Session ownership: when no run() is under way, as when one has just returned, m_clients is
      empty, and every session ever started was joined exactly once before its node went away and
      had its descriptor closed exactly once.  A descriptor whose session could not be made was
      closed once too, except when the handler's thread could not be created: then twice. */
  lemma RunLeavesNothing(states: seq<State>, actions: seq<Action>, i: nat)
    requires IsRun(states, actions) && i < |states|
    requires forall t :: t in states[i].runs ==> states[i].runs[t] == Done
    ensures Settled(states[i])
  {
    var s := states[i];
    assert s.server.clients != [] ==> s.server.clients[0] in s.server.clients;
    InvRun(states, actions, i);
    forall c | c in s.all
      ensures s.all[c].place.Destroyed? || s.all[c].place.Refused?
    {
      assert ClientOk(s, c, s.all[c]);
    }
  }

  /** ... in particular right after the run() of t has returned. */
  lemma ReturnedRunLeavesNothing(states: seq<State>, actions: seq<Action>, i: nat, t: ThreadId)
    requires IsRun(states, actions) && i < |states| && t in states[i].runs
    requires states[i].runs[t] == Done && WorkerAt(states[i], t, L.InRun)
    ensures Settled(states[i])
  {
    var s := states[i];
    InvRun(states, actions, i);
    OthersDone(s, t);
    RunLeavesNothing(states, actions, i);
  }

  /** Nothing is used after it is gone, and no descriptor is closed twice, in any reachable state: a
      node is destroyed only after its handler exited and was joined, a started session's descriptor
      is closed at most once, and is closed twice exactly when its handler's thread could not be made. */
  lemma NodesOutliveHandlers(states: seq<State>, actions: seq<Action>, i: nat, c: Descriptor)
    requires IsRun(states, actions) && i < |states| && c in states[i].all
    ensures var v := states[i].all[c];
            && (v.handler != NotStarted && v.handler != Exited ==> v.place.Listed? || v.place.Taken?)
            && v.joins <= 1 && (v.joins == 1 ==> v.handler == Exited)
            && (v.place == Destroyed ==> v.joins == 1)
            && v.closes <= 2 && (v.closes == 2 <==> v.place == Refused(true))
  {
    var s := states[i];
    InvRun(states, actions, i);
    assert ClientOk(s, c, s.all[c]);
    if s.all[c].place.Taken? {
      var t := s.all[c].place.t;
      var k: nat :| k < |OwnList(s.runs[t])| && OwnList(s.runs[t])[k] == c;
      assert OwnListOk(s, t, s.runs[t]);
      assert NodeOk(s, t, s.runs[t], k);
    }
  }

  /** A join is never attempted by a thread that holds m_clientsMutex. */
  lemma JoinsWithoutMutex(states: seq<State>, actions: seq<Action>, i: nat, t: ThreadId)
    requires IsRun(states, actions) && i < |states| && Run(states[i], t).Drain?
    ensures states[i].server.mutex != Some(Runner(t))
  {
    InvRun(states, actions, i);
  }
}
