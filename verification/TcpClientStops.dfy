/** A stop reaches the whole TCP client: the socket is closed, and run(), the reader and the writer only get
    to their ends with the stop flag set. */
module TcpClientStops {
  import opened Wrappers
  import opened TcpClient
  import opened TcpClientTheorems
  import L = Lifecycle
  import LT = LifecycleTheorems

  // ----- The socket

  /** Agent a has still to close the socket. */
  predicate OwesClose(s: State, a: L.Agent) {
    var pc := L.Pc(s.life, a);
    (pc.StopNotify? && pc.trigger) || (pc.StopHook? && Hook(s, a) == HookClose)
  }

  ghost predicate SomeoneOwesClose(s: State) {
    exists a :: OwesClose(s, a)
  }

  /** Session t is past its check of the flag. */
  predicate PastCheck(s: State, t: ThreadId) {
    WorkerAt(s, t, L.SetRunning) || WorkerAt(s, t, L.NotifyRunning) || WorkerAt(s, t, L.InRun)
  }

  ghost predicate CloseInv(s: State) {
    forall t: ThreadId :: PastCheck(s, t) && Stopping(s) ==> s.shared.socket.None? || SomeoneOwesClose(s)
  }

  /** Nobody who owes a close has gone away. */
  lemma OwesCarry(s: State, s': State)
    requires forall a :: OwesClose(s, a) ==> OwesClose(s', a)
    ensures SomeoneOwesClose(s) ==> SomeoneOwesClose(s')
  {
    if a :| OwesClose(s, a) {
      assert OwesClose(s', a);
    }
  }

  lemma OwesLife(s: State, y: L.Action, a: L.Agent)
    requires ThreadInv(s) && Enabled(s, Life(y)) && OwesClose(s, a)
    ensures OwesClose(ApplyLife(s, y), a)
  {
    LT.HookStays(s.life, y, a);
    assert L.Pc(s.life, a).StopNotify? ==> a !in s.hooks;
  }

  /** A session gets past its check with the flag clear. */
  lemma PastCheckBefore(s: State, y: L.Action, t: ThreadId)
    requires Enabled(s, Life(y)) && PastCheck(ApplyLife(s, y), t)
    ensures PastCheck(s, t) || !Stopping(ApplyLife(s, y))
  {
  }

  lemma CloseLife(s: State, y: L.Action)
    requires L.SessionInv(s.life) && ThreadInv(s) && CloseInv(s) && Enabled(s, Life(y))
    ensures CloseInv(ApplyLife(s, y))
  {
    var s' := ApplyLife(s, y);
    forall t: ThreadId | PastCheck(s', t) && Stopping(s')
      ensures s'.shared.socket.None? || SomeoneOwesClose(s')
    {
      PastCheckBefore(s, y, t);
      if Stopping(s) {
        forall a | OwesClose(s, a) ensures OwesClose(s', a) {
          OwesLife(s, y, a);
        }
        OwesCarry(s, s');
      } else {
        LT.RaisedWithHook(s.life, y, t);
        assert OwesClose(s', y.a);
      }
    }
  }

  lemma CloseHook(s: State, a: L.Agent)
    requires CloseInv(s) && HookEnabled(s, a)
    ensures CloseInv(ApplyHook(s, a))
  {
    var s' := ApplyHook(s, a);
    if Hook(s, a) != HookClose {
      assert forall b :: OwesClose(s, b) ==> OwesClose(s', b);
      OwesCarry(s, s');
      assert s'.life == s.life && s'.shared.socket == s.shared.socket;
      assert forall t: ThreadId :: PastCheck(s', t) == PastCheck(s, t);
    }
  }

  lemma ClosePre(s: State, t: ThreadId, ok: bool, conn: Connection)
    requires L.SessionInv(s.life) && CloseInv(s) && PreEnabled(s, t, conn)
    ensures CloseInv(ApplyPre(s, t, ok, conn))
  {
    assert forall u: ThreadId :: PastCheck(s, u) ==> s.life.session == L.Serving(u);
    assert s.life.session == L.Serving(t);
  }

  /** The other steps leave the socket, the hooks and the requests under way alone. */
  ghost predicate Around(s: State, s': State) {
    && s'.life.core == s.life.core && s'.life.workers == s.life.workers
    && s'.shared.socket == s.shared.socket && s'.hooks == s.hooks
    && (forall a :: L.Pc(s'.life, a) == L.Pc(s.life, a) || L.Pc(s.life, a).Idle?)
  }

  lemma AroundRun(s: State, t: ThreadId)
    requires RunEnabled(s, t)
    ensures Around(s, ApplyRun(s, t))
  {
  }

  lemma AroundWriter(s: State, t: ThreadId)
    requires WriterEnabled(s, t)
    ensures Around(s, ApplyWriter(s, t))
  {
  }

  lemma AroundReader(s: State, x: Action)
    requires Enabled(s, x) && (x.ReaderMove? || x.ReaderReceived? || x.WriterFailed?)
    ensures Around(s, Apply(s, x))
  {
  }

  lemma AroundSender(s: State, x: Action)
    requires Enabled(s, x) && (x.SendCall? || x.SendMove? || x.SendNotifies? || x.WriterSent? || x.WriterWakes?)
    ensures Around(s, Apply(s, x))
  {
  }

  lemma AroundStep(s: State, x: Action)
    requires Enabled(s, x) && !x.Life? && !x.HookMove? && !x.PreMove?
    ensures Around(s, Apply(s, x))
  {
    match x
    case RunMove(t) => AroundRun(s, t);
    case WriterMove(t) => AroundWriter(s, t);
    case ReaderMove(_) => AroundReader(s, x);
    case ReaderReceived(_, _) => AroundReader(s, x);
    case WriterFailed(_) => AroundReader(s, x);
    case _ => AroundSender(s, x);
  }

  lemma CloseOther(s: State, x: Action)
    requires CloseInv(s) && Enabled(s, x) && !x.Life? && !x.HookMove? && !x.PreMove?
    ensures CloseInv(Apply(s, x))
  {
    var s' := Apply(s, x);
    AroundStep(s, x);
    OwesCarry(s, s');
    assert forall t: ThreadId :: PastCheck(s', t) == PastCheck(s, t);
  }

  lemma CloseStep(s: State, x: Action)
    requires L.SessionInv(s.life) && ThreadInv(s) && CloseInv(s) && Enabled(s, x)
    ensures CloseInv(Apply(s, x))
  {
    if x.Life? {
      CloseLife(s, x.x);
    } else if x.HookMove? {
      CloseHook(s, x.a);
    } else if x.PreMove? {
      ClosePre(s, x.t, x.ok, x.conn);
    } else {
      CloseOther(s, x);
    }
  }

  lemma CloseNext(states: seq<State>, actions: seq<Action>, k: nat)
    requires IsRun(states, actions) && k < |actions| && CloseInv(states[k])
    ensures CloseInv(states[k + 1])
  {
    InvRun(states, actions, k);
    CloseStep(states[k], actions[k]);
  }

  lemma {:induction false} CloseRun(states: seq<State>, actions: seq<Action>, i: nat)
    requires IsRun(states, actions) && i < |states|
    ensures CloseInv(states[i])
  {
    if i > 0 {
      CloseRun(states, actions, i - 1);
      CloseNext(states, actions, i - 1);
    }
  }

  /** A session that is past its check of the flag and asked to stop has its socket closed, or some thread on
      its way to close it. */
  lemma StopReachesSocket(states: seq<State>, actions: seq<Action>, i: nat, t: ThreadId)
    requires IsRun(states, actions) && i < |states| && PastCheck(states[i], t) && Stopping(states[i])
    ensures states[i].shared.socket.None? || exists a :: OwesClose(states[i], a)
  {
    CloseRun(states, actions, i);
  }

  // ----- The threads of a session

  predicate UnderWay(run: RunPc) {
    run != RunReader && run != RunDone
  }

  /** A stop was requested, or agent a is about to. */
  predicate Asked(s: State, a: L.Agent) {
    Stopping(s) || L.Pc(s.life, a) == L.StopLock(L.RequestOnly)
  }

  /** What it means to be past a request. */
  ghost predicate EndOk(s: State, t: ThreadId) {
    var v := Of(s, t);
    UnderWay(v.run) ==>
      && (v.run == RunStop ==> Asked(s, RunAgent(t)))
      && (v.run == RunNotify || v.run == RunJoinWriter ==> Stopping(s))
      && (v.writer == Stop ==> Asked(s, WriterAgent(t)))
      && (v.writer == Exit ==> Stopping(s))
      && (v.reader == ReadStopping ==> Asked(s, ReaderAgent(t)))
      && (v.reader == ReadExit ==> Stopping(s) || s.shared.socket.None?)
  }

  lemma AskedLife(s: State, y: L.Action, a: L.Agent, t: ThreadId)
    requires L.SessionInv(s.life) && Enabled(s, Life(y)) && WorkerAt(s, t, L.InRun) && Asked(s, a)
    ensures Asked(ApplyLife(s, y), a) && (Stopping(s) ==> Stopping(ApplyLife(s, y)))
  {
    if Stopping(s) {
      LT.StopSticksStep(s.life, y, t);
    } else {
      LT.RequestAdvances(s.life, y, a);
    }
  }

  lemma EndLife(s: State, y: L.Action, t: ThreadId)
    requires L.SessionInv(s.life) && ThreadInv(s) && EndOk(s, t) && Enabled(s, Life(y))
    ensures EndOk(ApplyLife(s, y), t)
  {
    assert Of(ApplyLife(s, y), t) == Of(s, t);
    if UnderWay(Of(s, t).run) {
      if Asked(s, RunAgent(t)) { AskedLife(s, y, RunAgent(t), t); }
      if Asked(s, WriterAgent(t)) { AskedLife(s, y, WriterAgent(t), t); }
      if Asked(s, ReaderAgent(t)) { AskedLife(s, y, ReaderAgent(t), t); }
    }
  }

  /** The session's own record is as it was, but for a wakeup, or it is not under way. */
  ghost predicate SameEnds(s: State, s': State, t: ThreadId) {
    Of(s', t) == Of(s, t) || (Of(s, t).writer == Asleep && Of(s', t) == Of(s, t).(writer := Acquire)) || !UnderWay(Of(s', t).run)
  }

  lemma EndSame(s: State, s': State, t: ThreadId)
    requires EndOk(s, t) && SameEnds(s, s', t) && s'.life.core == s.life.core
    requires s.shared.socket.None? ==> s'.shared.socket.None?
    requires forall a :: L.Pc(s'.life, a) == L.Pc(s.life, a) || L.Pc(s.life, a).Idle?
    ensures EndOk(s', t)
  {
  }

  lemma EndHook(s: State, a: L.Agent, t: ThreadId)
    requires EndOk(s, t) && HookEnabled(s, a)
    ensures EndOk(ApplyHook(s, a), t)
  {
    WakeWritersOf(s, t);
    EndSame(s, ApplyHook(s, a), t);
  }

  /** During a preRun() no session is inside run(). */
  lemma NoneUnderWay(s: State, u: ThreadId, t: ThreadId)
    requires L.SessionInv(s.life) && ThreadInv(s) && WorkerAt(s, u, L.PreRun)
    ensures !UnderWay(Of(s, t).run)
  {
    assert s.life.session == L.Serving(u);
  }

  lemma EndPre(s: State, u: ThreadId, ok: bool, conn: Connection, t: ThreadId)
    requires L.SessionInv(s.life) && ThreadInv(s) && PreEnabled(s, u, conn)
    ensures EndOk(ApplyPre(s, u, ok, conn), t)
  {
    NoneUnderWay(s, u, t);
    assert Of(ApplyPre(s, u, ok, conn), t).run == Of(s, t).run;
  }

  lemma EndRun(s: State, u: ThreadId, t: ThreadId)
    requires ThreadInv(s) && EndOk(s, t) && RunEnabled(s, u)
    ensures EndOk(ApplyRun(s, u), t)
  {
    AroundRun(s, u);
    WakeWritersOf(s, t);
    if u == t {
      EndOwnRun(s, t);
    } else {
      EndSame(s, ApplyRun(s, u), t);
    }
  }

  lemma EndOwnRun(s: State, t: ThreadId)
    requires ThreadInv(s) && EndOk(s, t) && RunEnabled(s, t)
    ensures EndOk(ApplyRun(s, t), t)
  {
    AroundRun(s, t);
    WakeWritersOf(s, t);
    if Of(s, t).run == RunJoinReader {
      assert L.Pc(ApplyRun(s, t).life, RunAgent(t)) == L.StopLock(L.RequestOnly);
    }
  }

  lemma EndWriter(s: State, u: ThreadId, t: ThreadId)
    requires EndOk(s, t) && WriterEnabled(s, u)
    ensures EndOk(ApplyWriter(s, u), t)
  {
    AroundWriter(s, u);
    if u != t {
      EndSame(s, ApplyWriter(s, u), t);
    } else if Of(s, t).writer.Load? {
      assert Of(ApplyWriter(s, t), t).writer == Stop ==> L.Pc(ApplyWriter(s, t).life, WriterAgent(t)) == L.StopLock(L.RequestOnly);
    }
  }

  lemma EndReader(s: State, x: Action, t: ThreadId)
    requires EndOk(s, t) && Enabled(s, x) && (x.ReaderMove? || x.ReaderReceived?)
    ensures EndOk(Apply(s, x), t)
  {
    AroundReader(s, x);
    if x.t != t {
      EndSame(s, Apply(s, x), t);
    } else if x.ReaderReceived? {
      assert x.what.ClosedOrFailed? ==> L.Pc(Apply(s, x).life, ReaderAgent(t)) == L.StopLock(L.RequestOnly);
    }
  }

  lemma EndFailed(s: State, u: ThreadId, t: ThreadId)
    requires EndOk(s, t) && Enabled(s, WriterFailed(u))
    ensures EndOk(Apply(s, WriterFailed(u)), t)
  {
    AroundReader(s, WriterFailed(u));
    if u != t {
      EndSame(s, Apply(s, WriterFailed(u)), t);
    } else {
      assert L.Pc(Apply(s, WriterFailed(t)).life, WriterAgent(t)) == L.StopLock(L.RequestOnly);
    }
  }

  lemma EndOther(s: State, x: Action, t: ThreadId)
    requires EndOk(s, t) && Enabled(s, x) && (x.SendCall? || x.SendMove? || x.SendNotifies? || x.WriterSent? || x.WriterWakes?)
    ensures EndOk(Apply(s, x), t)
  {
    AroundSender(s, x);
  }

  lemma EndStep(s: State, x: Action, t: ThreadId)
    requires L.SessionInv(s.life) && ThreadInv(s) && EndOk(s, t) && Enabled(s, x)
    ensures EndOk(Apply(s, x), t)
  {
    match x
    case Life(y) => EndLife(s, y, t);
    case HookMove(a) => EndHook(s, a, t);
    case PreMove(u, ok, conn) => EndPre(s, u, ok, conn, t);
    case RunMove(u) => EndRun(s, u, t);
    case WriterMove(u) => EndWriter(s, u, t);
    case WriterFailed(u) => EndFailed(s, u, t);
    case ReaderMove(_) => EndReader(s, x, t);
    case ReaderReceived(_, _) => EndReader(s, x, t);
    case _ => EndOther(s, x, t);
  }

  lemma EndNext(states: seq<State>, actions: seq<Action>, k: nat, t: ThreadId)
    requires IsRun(states, actions) && k < |actions| && EndOk(states[k], t)
    ensures EndOk(states[k + 1], t)
  {
    InvRun(states, actions, k);
    EndStep(states[k], actions[k], t);
  }

  lemma {:induction false} EndRuns(states: seq<State>, actions: seq<Action>, i: nat, t: ThreadId)
    requires IsRun(states, actions) && i < |states|
    ensures EndOk(states[i], t)
  {
    if i > 0 {
      EndRuns(states, actions, i - 1, t);
      EndNext(states, actions, i - 1, t);
    }
  }

  /** While run() waits for the writer, a stop has been requested; the writer only ends when one was; and the
      reader only when one was or the socket is closed. */
  lemma EndsMeanStop(states: seq<State>, actions: seq<Action>, i: nat, t: ThreadId)
    requires IsRun(states, actions) && i < |states| && UnderWay(Of(states[i], t).run)
    ensures Of(states[i], t).run == RunJoinWriter ==> Stopping(states[i])
    ensures Of(states[i], t).writer == Exit ==> Stopping(states[i])
    ensures Of(states[i], t).reader == ReadExit ==> Stopping(states[i]) || states[i].shared.socket.None?
  {
    EndRuns(states, actions, i, t);
  }
}
