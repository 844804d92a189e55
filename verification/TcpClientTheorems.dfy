/** The writer thread of the TCP client is never left asleep through a stop or a payload. */
module TcpClientTheorems {
  import opened Wrappers
  import opened TcpClient
  import L = Lifecycle
  import LT = LifecycleTheorems

  // ----- Every step of the client keeps the lifecycle invariant

  /** Beginning a call of requestStop() is the lifecycle's own step. */
  lemma RequestKeepsLife(s: State, a: L.Agent)
    requires L.Inv(s.life) && AgentFree(s, a)
    ensures L.Inv(CallRequestStop(s, a).life)
  {
    assert CallRequestStop(s, a).life == L.Apply(s.life, L.CallStop(a, L.RequestOnly));
    L.InvStep(s.life, L.CallStop(a, L.RequestOnly));
  }

  lemma RunKeepsLife(s: State, t: ThreadId)
    requires L.Inv(s.life) && RunEnabled(s, t)
    ensures L.Inv(ApplyRun(s, t).life)
  {
    if Of(s, t).run == RunJoinReader {
      RequestKeepsLife(s, RunAgent(t));
    } else {
      assert ApplyRun(s, t).life == s.life;
    }
  }

  lemma WriterKeepsLife(s: State, t: ThreadId)
    requires L.Inv(s.life) && WriterEnabled(s, t)
    ensures L.Inv(ApplyWriter(s, t).life)
  {
    if Of(s, t).writer.Load? {
      RequestKeepsLife(s, WriterAgent(t));
    } else {
      assert ApplyWriter(s, t).life == s.life;
    }
  }

  lemma LifeKept(s: State, x: Action)
    requires L.Inv(s.life) && Enabled(s, x)
    ensures L.Inv(Apply(s, x).life)
  {
    match x
    case Life(y) => L.InvStep(s.life, y);
    case RunMove(t) => RunKeepsLife(s, t);
    case WriterMove(t) => WriterKeepsLife(s, t);
    case WriterFailed(t) => RequestKeepsLife(s, WriterAgent(t));
    case ReaderReceived(t, what) =>
      if what.ClosedOrFailed? {
        RequestKeepsLife(s, ReaderAgent(t));
      }
    case _ => LifeAlone(s, x);
  }

  lemma LifeAlone(s: State, x: Action)
    requires Enabled(s, x)
    requires !x.Life? && !x.RunMove? && !x.WriterMove? && !x.WriterFailed? && !x.ReaderReceived?
    ensures Apply(s, x).life == s.life
  {
  }

  // ----- The threads of a session

  /** A writer that has not returned belongs to a session that is inside run(). */
  ghost predicate ThreadInv(s: State) {
    && (forall t :: t in s.sessions ==> t in s.life.workers)
    && (forall t: ThreadId :: Of(s, t).run != RunReader && Of(s, t).run != RunDone ==> WorkerAt(s, t, L.InRun))
    && (forall t: ThreadId :: Of(s, t).writer != Unborn ==> Of(s, t).run != RunReader && Of(s, t).run != RunWriter)
    && (forall t: ThreadId :: Alive(Of(s, t).writer) ==> Of(s, t).run != RunDone)
    && (forall t: ThreadId :: HoldsMutex(Of(s, t).writer) ==> s.shared.mutex == Some(t))
    && (s.shared.mutex.Some? ==> HoldsMutex(Of(s, s.shared.mutex.value).writer))
    && (forall a :: a in s.hooks ==> L.Pc(s.life, a).StopHook?)
  }

  lemma WakeWritersOf(s: State, t: ThreadId)
    ensures Of(WakeWriters(s), t) == if Of(s, t).writer == Asleep then Of(s, t).(writer := Acquire) else Of(s, t)
  {
  }

  lemma WorkersStay(s: L.State, y: L.Action)
    requires L.Enabled(s, y)
    ensures s.workers.Keys <= L.Apply(s, y).workers.Keys
  {
  }

  lemma ThreadLife(s: State, y: L.Action)
    requires ThreadInv(s) && Enabled(s, Life(y))
    ensures ThreadInv(ApplyLife(s, y))
  {
    var s' := ApplyLife(s, y);
    WorkersStay(s.life, y);
    forall t: ThreadId | Of(s, t).run != RunReader && Of(s, t).run != RunDone
      ensures WorkerAt(s', t, L.InRun)
    {
      LT.InRunStays(s.life, y, t);
    }
    forall a | a in s'.hooks
      ensures L.Pc(s'.life, a).StopHook?
    {
      LT.HookStays(s.life, y, a);
    }
    assert forall t: ThreadId :: Of(s', t) == Of(s, t);
  }

  /** One session's record changes, and perhaps the mutex. */
  lemma ThreadFrame(s: State, s': State, t: ThreadId)
    requires ThreadInv(s)
    requires s'.life.workers == s.life.workers && t in s.life.workers
    requires s'.sessions.Keys <= s.sessions.Keys + {t}
    requires forall u: ThreadId :: u != t ==> Of(s', u) == Of(s, u)
    requires forall a :: a in s'.hooks ==> L.Pc(s'.life, a).StopHook?
    requires var v := Of(s', t);
             && (v.run != RunReader && v.run != RunDone ==> WorkerAt(s, t, L.InRun))
             && (v.writer != Unborn ==> v.run != RunReader && v.run != RunWriter)
             && (Alive(v.writer) ==> v.run != RunDone)
             && (if HoldsMutex(v.writer) then s'.shared.mutex == Some(t) && (s.shared.mutex.None? || s.shared.mutex == Some(t))
                 else if HoldsMutex(Of(s, t).writer) then s'.shared.mutex.None?
                 else s'.shared.mutex == s.shared.mutex)
    ensures ThreadInv(s')
  {
  }

  lemma ThreadHook(s: State, a: L.Agent)
    requires ThreadInv(s) && HookEnabled(s, a)
    ensures ThreadInv(ApplyHook(s, a))
  {
    forall t: ThreadId
      ensures Of(ApplyHook(s, a), t) == Of(s, t) || Of(ApplyHook(s, a), t) == Of(s, t).(writer := Acquire)
    {
      WakeWritersOf(s, t);
    }
  }

  lemma ThreadWake(s: State)
    requires ThreadInv(s)
    ensures ThreadInv(WakeWriters(s))
  {
    forall u: ThreadId
      ensures var v := Of(WakeWriters(s), u); v == Of(s, u) || (Of(s, u).writer == Asleep && v == Of(s, u).(writer := Acquire))
    {
      WakeWritersOf(s, u);
    }
  }

  lemma ThreadRun(s: State, t: ThreadId)
    requires ThreadInv(s) && RunEnabled(s, t)
    ensures ThreadInv(ApplyRun(s, t))
  {
    if Of(s, t).run == RunNotify {
      ThreadWake(s);
      WakeWritersOf(s, t);
      ThreadFrame(WakeWriters(s), ApplyRun(s, t), t);
    } else {
      ThreadFrame(s, ApplyRun(s, t), t);
    }
  }

  lemma ThreadWriterLocked(s: State, t: ThreadId)
    requires ThreadInv(s) && WriterEnabled(s, t) && HoldsMutex(Of(s, t).writer)
    ensures ThreadInv(ApplyWriter(s, t))
  {
    ThreadFrame(s, ApplyWriter(s, t), t);
  }

  lemma ThreadWriterUnlocked(s: State, t: ThreadId)
    requires ThreadInv(s) && WriterEnabled(s, t) && !HoldsMutex(Of(s, t).writer)
    ensures ThreadInv(ApplyWriter(s, t))
  {
    ThreadFrame(s, ApplyWriter(s, t), t);
  }

  lemma ThreadPre(s: State, t: ThreadId, ok: bool, conn: Connection)
    requires ThreadInv(s) && PreEnabled(s, t, conn)
    ensures ThreadInv(ApplyPre(s, t, ok, conn))
  {
    ThreadFrame(s, ApplyPre(s, t, ok, conn), t);
  }

  lemma ThreadReader(s: State, t: ThreadId)
    requires ThreadInv(s) && ReaderEnabled(s, t)
    ensures ThreadInv(ApplyReader(s, t))
  {
    ThreadFrame(s, ApplyReader(s, t), t);
  }

  lemma ThreadReceived(s: State, t: ThreadId, what: Received)
    requires ThreadInv(s) && Of(s, t).reader == ReadRecv && AgentFree(s, ReaderAgent(t))
    ensures ThreadInv(ApplyReceived(s, t, what))
  {
    ThreadFrame(s, ApplyReceived(s, t, what), t);
  }

  lemma ThreadSent(s: State, t: ThreadId, count: nat)
    requires ThreadInv(s) && SentEnabled(s, t, count)
    ensures ThreadInv(ApplySent(s, t, count))
  {
    ThreadFrame(s, ApplySent(s, t, count), t);
  }

  lemma ThreadFailed(s: State, t: ThreadId)
    requires ThreadInv(s) && Of(s, t).writer.Send? && AgentFree(s, WriterAgent(t))
    ensures ThreadInv(SetWriter(CallRequestStop(s, WriterAgent(t)), t, Stop))
  {
    ThreadFrame(s, SetWriter(CallRequestStop(s, WriterAgent(t)), t, Stop), t);
  }

  lemma ThreadWoken(s: State, t: ThreadId)
    requires ThreadInv(s) && Of(s, t).writer == Asleep
    ensures ThreadInv(SetWriter(s, t, Acquire))
  {
    ThreadFrame(s, SetWriter(s, t, Acquire), t);
  }

  lemma ThreadSame(s: State, s': State)
    requires ThreadInv(s) && s'.life == s.life && s'.sessions == s.sessions && s'.hooks == s.hooks
    requires s'.shared.mutex == s.shared.mutex
    ensures ThreadInv(s')
  {
    assert forall t: ThreadId :: Of(s', t) == Of(s, t);
  }

  lemma ThreadStep(s: State, x: Action)
    requires ThreadInv(s) && Enabled(s, x)
    ensures ThreadInv(Apply(s, x))
  {
    match x
    case Life(y) => ThreadLife(s, y);
    case HookMove(a) => ThreadHook(s, a);
    case PreMove(t, ok, conn) => ThreadPre(s, t, ok, conn);
    case RunMove(t) => ThreadRun(s, t);
    case WriterMove(t) =>
      if HoldsMutex(Of(s, t).writer) {
        ThreadWriterLocked(s, t);
      } else {
        ThreadWriterUnlocked(s, t);
      }
    case WriterSent(t, count) => ThreadSent(s, t, count);
    case WriterFailed(t) => ThreadFailed(s, t);
    case WriterWakes(t) => ThreadWoken(s, t);
    case ReaderMove(t) => ThreadReader(s, t);
    case ReaderReceived(t, what) => ThreadReceived(s, t, what);
    case SendNotifies(_, woken) =>
      if woken.Some? {
        ThreadWoken(s, woken.value);
        ThreadSame(SetWriter(s, woken.value, Acquire), Apply(s, x));
      } else {
        ThreadSame(s, Apply(s, x));
      }
    case _ => ThreadSame(s, Apply(s, x));
  }

  /** At most one writer has not returned, and its worker keeps the lifecycle out of Stopped. */
  lemma OneWriter(s: State, t: ThreadId, u: ThreadId)
    requires L.SessionInv(s.life) && ThreadInv(s) && Alive(Of(s, t).writer) && Alive(Of(s, u).writer)
    ensures t == u && LT.LiveAt(s.life, t)
  {
    assert WorkerAt(s, t, L.InRun) && WorkerAt(s, u, L.InRun);
  }

  // ----- The writer never sleeps through a stop or a payload

  /** Agent a still has to pass through the outbound mutex before it notifies. */
  predicate HookAhead(s: State, a: L.Agent) {
    var pc := L.Pc(s.life, a);
    (pc.StopNotify? && pc.trigger) || (pc.StopHook? && (Hook(s, a) == HookClose || Hook(s, a) == HookClear))
  }

  /** Agent a still has to notify the writer. */
  predicate HookOwes(s: State, a: L.Agent) {
    HookAhead(s, a) || (L.Pc(s.life, a).StopHook? && Hook(s, a) == HookNotify)
  }

  ghost predicate SomeHookAhead(s: State) { exists a :: HookAhead(s, a) }
  ghost predicate SomeHookOwes(s: State) { exists a :: HookOwes(s, a) }
  ghost predicate SomeSenderOwes(s: State) { exists i: nat :: Sender(s, i) == SendNotify }

  /** What holds of the writer of session t wherever it stands. */
  ghost predicate WriterOk(s: State, t: ThreadId) {
    var w := Of(s, t).writer;
    && ((w == ReadQueue || w == Sleep) && Stopping(s) ==> SomeHookAhead(s))
    && (w == Asleep && Stopping(s) ==> SomeHookOwes(s))
    && (w == Asleep && s.shared.queue != [] ==> SomeSenderOwes(s))
    && (w == Sleep ==> s.shared.queue == [])
    && (w == Recheck ==> Stopping(s) || s.shared.queue != [])
    && (w == Pop ==> s.shared.queue != [])
  }

  ghost predicate WakeInv(s: State) {
    forall t: ThreadId :: WriterOk(s, t)
  }

  /** Hooks that were owed are still owed. */
  ghost predicate DebtsStay(s: State, s': State) {
    && (forall a :: HookAhead(s, a) ==> HookAhead(s', a))
    && (forall a :: HookOwes(s, a) ==> HookOwes(s', a))
  }

  lemma DebtsCarry(s: State, s': State)
    requires DebtsStay(s, s')
    ensures SomeHookAhead(s) ==> SomeHookAhead(s') && SomeHookOwes(s')
    ensures SomeHookOwes(s) ==> SomeHookOwes(s')
  {
    if a :| HookAhead(s, a) {
      assert HookAhead(s', a) && HookOwes(s', a);
    }
    if a :| HookOwes(s, a) {
      assert HookOwes(s', a);
    }
  }

  lemma SendersSame(s: State, s': State)
    requires s'.senders == s.senders
    ensures SomeSenderOwes(s) ==> SomeSenderOwes(s')
  {
    if i: nat :| Sender(s, i) == SendNotify {
      assert Sender(s', i) == SendNotify;
    }
  }

  /** A step that only moves the writer of session t, and leaves queue, flag and debts alone. */
  lemma WakeFrame(s: State, s': State, t: ThreadId)
    requires WakeInv(s) && DebtsStay(s, s') && s'.senders == s.senders
    requires s'.shared.queue == s.shared.queue && Stopping(s') == Stopping(s)
    requires forall u: ThreadId :: u != t ==> Of(s', u).writer == Of(s, u).writer
    requires Of(s', t).writer == Of(s, t).writer || WriterOk(s', t)
    ensures WakeInv(s')
  {
    DebtsCarry(s, s');
    SendersSame(s, s');
    forall u: ThreadId
      ensures WriterOk(s', u)
    {
      assert WriterOk(s, u);
    }
  }

  lemma LifeKeepsDebts(s: State, y: L.Action)
    requires Enabled(s, Life(y)) && ThreadInv(s)
    ensures DebtsStay(s, ApplyLife(s, y))
  {
    forall a | HookOwes(s, a)
      ensures HookOwes(ApplyLife(s, y), a) && (HookAhead(s, a) ==> HookAhead(ApplyLife(s, y), a))
    {
      LT.HookStays(s.life, y, a);
      assert L.Pc(s.life, a).StopNotify? ==> a !in s.hooks;
    }
  }

  /** A lifecycle step: the flag can only rise together with a hook, because the writer's session
      keeps the state out of Stopped; and it cannot fall. */
  lemma FlagDuringWriter(s: State, y: L.Action, t: ThreadId)
    requires L.SessionInv(s.life) && ThreadInv(s) && Enabled(s, Life(y)) && Alive(Of(s, t).writer)
    ensures Stopping(s) ==> Stopping(ApplyLife(s, y))
    ensures !Stopping(s) && Stopping(ApplyLife(s, y)) ==> SomeHookAhead(ApplyLife(s, y)) && SomeHookOwes(ApplyLife(s, y))
  {
    var s' := ApplyLife(s, y);
    OneWriter(s, t, t);
    if Stopping(s) {
      LT.StopSticksStep(s.life, y, t);
    } else if Stopping(s') {
      LT.RaisedWithHook(s.life, y, t);
      assert HookAhead(s', y.a) && HookOwes(s', y.a);
    }
  }

  lemma WakeLife(s: State, y: L.Action)
    requires L.SessionInv(s.life) && ThreadInv(s) && WakeInv(s) && Enabled(s, Life(y))
    ensures WakeInv(ApplyLife(s, y))
  {
    var s' := ApplyLife(s, y);
    LifeKeepsDebts(s, y);
    DebtsCarry(s, s');
    SendersSame(s, s');
    forall t: ThreadId
      ensures WriterOk(s', t)
    {
      assert WriterOk(s, t) && Of(s', t) == Of(s, t);
      if Alive(Of(s, t).writer) {
        FlagDuringWriter(s, y, t);
      }
    }
  }

  lemma WakeClear(s: State, a: L.Agent)
    requires ThreadInv(s) && WakeInv(s) && HookEnabled(s, a) && Hook(s, a) == HookClear
    ensures WakeInv(ApplyHook(s, a))
  {
    var s' := ApplyHook(s, a);
    assert HookOwes(s', a);
    forall t: ThreadId
      ensures WriterOk(s', t)
    {
      assert Of(s', t) == Of(s, t) && !HoldsMutex(Of(s, t).writer);
    }
  }

  lemma WakeHookNotify(s: State, a: L.Agent)
    requires WakeInv(s) && HookEnabled(s, a) && Hook(s, a) == HookNotify
    ensures WakeInv(ApplyHook(s, a))
  {
    var s' := ApplyHook(s, a);
    assert forall b :: HookAhead(s, b) ==> HookAhead(s', b);
    assert SomeHookAhead(s) ==> SomeHookAhead(s');
    forall t: ThreadId
      ensures WriterOk(s', t)
    {
      WakeWritersOf(s, t);
      assert WriterOk(s, t);
    }
  }

  lemma WakeHook(s: State, a: L.Agent)
    requires ThreadInv(s) && WakeInv(s) && HookEnabled(s, a)
    ensures WakeInv(ApplyHook(s, a))
  {
    match Hook(s, a)
    case HookClose => WakeFrame(s, ApplyHook(s, a), 0);
    case HookClear => WakeClear(s, a);
    case HookNotify => WakeHookNotify(s, a);
  }

  lemma WakeWriterLocked(s: State, t: ThreadId)
    requires WakeInv(s) && WriterEnabled(s, t) && HoldsMutex(Of(s, t).writer) && Of(s, t).writer != Pop
    ensures WakeInv(ApplyWriter(s, t))
  {
    var s' := ApplyWriter(s, t);
    assert WriterOk(s, t);
    assert DebtsStay(s, s');
    DebtsCarry(s, s');
    WakeFrame(s, s', t);
  }

  lemma WakePop(s: State, t: ThreadId)
    requires ThreadInv(s) && WakeInv(s) && WriterEnabled(s, t) && Of(s, t).writer == Pop
    requires forall u: ThreadId :: u != t ==> !Alive(Of(s, u).writer)
    ensures WakeInv(ApplyWriter(s, t))
  {
    var s' := ApplyWriter(s, t);
    forall u: ThreadId
      ensures WriterOk(s', u)
    {
      assert u != t ==> Of(s', u) == Of(s, u) && !Alive(Of(s, u).writer);
    }
  }

  lemma WakeWriterUnlocked(s: State, t: ThreadId)
    requires WakeInv(s) && WriterEnabled(s, t) && !HoldsMutex(Of(s, t).writer)
    ensures WakeInv(ApplyWriter(s, t))
  {
    UnlockedDebts(s, t);
    WakeFrame(s, ApplyWriter(s, t), t);
  }

  lemma UnlockedDebts(s: State, t: ThreadId)
    requires WriterEnabled(s, t) && !HoldsMutex(Of(s, t).writer)
    ensures DebtsStay(s, ApplyWriter(s, t))
  {
    var s' := ApplyWriter(s, t);
    assert forall a :: a != WriterAgent(t) ==> L.Pc(s'.life, a) == L.Pc(s.life, a);
    assert s'.life == s.life || L.Pc(s.life, WriterAgent(t)).Idle?;
  }

  lemma WakeWriter(s: State, t: ThreadId)
    requires L.SessionInv(s.life) && ThreadInv(s) && WakeInv(s) && WriterEnabled(s, t)
    ensures WakeInv(ApplyWriter(s, t))
  {
    if Of(s, t).writer == Pop {
      forall u: ThreadId | u != t
        ensures !Alive(Of(s, u).writer)
      {
        if Alive(Of(s, u).writer) {
          OneWriter(s, t, u);
        }
      }
      WakePop(s, t);
    } else if HoldsMutex(Of(s, t).writer) {
      WakeWriterLocked(s, t);
    } else {
      WakeWriterUnlocked(s, t);
    }
  }

  lemma WakeRunNotify(s: State, t: ThreadId)
    requires WakeInv(s) && RunEnabled(s, t) && Of(s, t).run == RunNotify
    ensures WakeInv(ApplyRun(s, t))
  {
    var s' := ApplyRun(s, t);
    assert forall b :: HookAhead(s, b) ==> HookAhead(s', b);
    assert SomeHookAhead(s) ==> SomeHookAhead(s');
    forall u: ThreadId
      ensures WriterOk(s', u)
    {
      WakeWritersOf(s, u);
      assert WriterOk(s, u);
    }
  }

  lemma WakeRun(s: State, t: ThreadId)
    requires WakeInv(s) && RunEnabled(s, t)
    ensures WakeInv(ApplyRun(s, t))
  {
    if Of(s, t).run == RunNotify {
      WakeRunNotify(s, t);
    } else {
      assert DebtsStay(s, ApplyRun(s, t));
      WakeFrame(s, ApplyRun(s, t), t);
    }
  }

  lemma NoWriterDuringPreRun(s: State, t: ThreadId, u: ThreadId)
    requires L.SessionInv(s.life) && ThreadInv(s) && WorkerAt(s, t, L.PreRun)
    ensures !Alive(Of(s, u).writer)
  {
    if Alive(Of(s, u).writer) {
      OneWriter(s, u, u);
    }
  }

  lemma WakePre(s: State, t: ThreadId, ok: bool, conn: Connection)
    requires L.SessionInv(s.life) && ThreadInv(s) && WakeInv(s) && PreEnabled(s, t, conn)
    ensures WakeInv(ApplyPre(s, t, ok, conn))
  {
    var s' := ApplyPre(s, t, ok, conn);
    forall u: ThreadId
      ensures WriterOk(s', u)
    {
      assert Of(s', u).writer == Of(s, u).writer;
      NoWriterDuringPreRun(s, t, u);
    }
  }

  lemma WakeReader(s: State, t: ThreadId)
    requires WakeInv(s) && ReaderEnabled(s, t)
    ensures WakeInv(ApplyReader(s, t))
  {
    WakeFrame(s, ApplyReader(s, t), t);
  }

  lemma WakeReceived(s: State, t: ThreadId, what: Received)
    requires WakeInv(s) && AgentFree(s, ReaderAgent(t))
    ensures WakeInv(ApplyReceived(s, t, what))
  {
    assert DebtsStay(s, ApplyReceived(s, t, what));
    WakeFrame(s, ApplyReceived(s, t, what), t);
  }

  lemma WakeFailed(s: State, t: ThreadId)
    requires WakeInv(s) && AgentFree(s, WriterAgent(t))
    ensures WakeInv(SetWriter(CallRequestStop(s, WriterAgent(t)), t, Stop))
  {
    var s' := SetWriter(CallRequestStop(s, WriterAgent(t)), t, Stop);
    assert DebtsStay(s, s');
    WakeFrame(s, s', t);
  }

  /** A writer moves to a place about which nothing is promised. */
  lemma WakeSetWriter(s: State, t: ThreadId, pc: WriterPc)
    requires WakeInv(s) && pc == Acquire
    ensures WakeInv(SetWriter(s, t, pc))
  {
    WakeFrame(s, SetWriter(s, t, pc), t);
  }

  lemma WakeSent(s: State, t: ThreadId, count: nat)
    requires WakeInv(s) && SentEnabled(s, t, count)
    ensures WakeInv(ApplySent(s, t, count))
  {
    WakeFrame(s, ApplySent(s, t, count), t);
  }

  lemma WakeSend(s: State, i: nat)
    requires ThreadInv(s) && WakeInv(s) && SendEnabled(s, i)
    ensures WakeInv(ApplySend(s, i))
  {
    var s' := ApplySend(s, i);
    assert forall a :: HookAhead(s', a) == HookAhead(s, a);
    assert forall a :: HookOwes(s', a) == HookOwes(s, a);
    forall t: ThreadId
      ensures WriterOk(s', t)
    {
      assert WriterOk(s, t) && Of(s', t) == Of(s, t);
      if Sender(s, i).SendPush? {
        assert !HoldsMutex(Of(s, t).writer) && Sender(s', i) == SendNotify;
      } else if SomeSenderOwes(s) {
        var j: nat :| Sender(s, j) == SendNotify;
        assert Sender(s', j) == SendNotify;
      }
    }
  }

  lemma WakeSendCall(s: State, i: nat, data: Buffer)
    requires WakeInv(s) && Sender(s, i).NotSending?
    ensures WakeInv(s.(senders := s.senders[i := SendCheck(data)]))
  {
    var s' := s.(senders := s.senders[i := SendCheck(data)]);
    assert forall a :: HookAhead(s', a) == HookAhead(s, a);
    assert forall a :: HookOwes(s', a) == HookOwes(s, a);
    forall t: ThreadId
      ensures WriterOk(s', t)
    {
      assert WriterOk(s, t) && Of(s', t) == Of(s, t);
      if SomeSenderOwes(s) {
        var j: nat :| Sender(s, j) == SendNotify;
        assert Sender(s', j) == SendNotify;
      }
    }
  }

  /** notify_one: the one writer that can be asleep is the one it wakes. */
  lemma WakeNotifyOne(s: State, i: nat, woken: Option<ThreadId>)
    requires L.SessionInv(s.life) && ThreadInv(s) && WakeInv(s) && Enabled(s, SendNotifies(i, woken))
    ensures WakeInv(ApplyNotifyOne(s, i, woken))
  {
    var s' := ApplyNotifyOne(s, i, woken);
    assert forall a :: HookAhead(s', a) == HookAhead(s, a);
    forall t: ThreadId
      ensures WriterOk(s', t)
    {
      assert WriterOk(s, t);
      if Of(s, t).writer == Asleep && woken.Some? {
        OneWriter(s, t, woken.value);
      }
      assert Of(s', t).writer != Asleep;
    }
  }

  lemma WakeStep(s: State, x: Action)
    requires L.SessionInv(s.life) && ThreadInv(s) && WakeInv(s) && Enabled(s, x)
    ensures WakeInv(Apply(s, x))
  {
    match x
    case Life(y) => WakeLife(s, y);
    case HookMove(a) => WakeHook(s, a);
    case PreMove(t, ok, conn) => WakePre(s, t, ok, conn);
    case RunMove(t) => WakeRun(s, t);
    case WriterMove(t) => WakeWriter(s, t);
    case WriterSent(t, count) => WakeSent(s, t, count);
    case WriterFailed(t) => WakeFailed(s, t);
    case WriterWakes(t) => WakeSetWriter(s, t, Acquire);
    case ReaderMove(t) => WakeReader(s, t);
    case ReaderReceived(t, what) => WakeReceived(s, t, what);
    case SendCall(i, data) => WakeSendCall(s, i, data);
    case SendMove(i) => WakeSend(s, i);
    case SendNotifies(i, woken) => WakeNotifyOne(s, i, woken);
  }

  // ----- Over whole runs

  ghost predicate Inv(s: State) {
    L.Inv(s.life) && ThreadInv(s) && WakeInv(s)
  }

  lemma InvInit()
    ensures Inv(Init)
  {
    L.InvInit();
    assert forall t: ThreadId :: WriterOk(Init, t);
  }

  lemma InvStep(s: State, x: Action)
    requires Inv(s) && Enabled(s, x)
    ensures Inv(Apply(s, x))
  {
    LifeKept(s, x);
    ThreadStep(s, x);
    WakeStep(s, x);
  }

  lemma {:induction false} InvRun(states: seq<State>, actions: seq<Action>, i: nat)
    requires IsRun(states, actions) && i < |states|
    ensures Inv(states[i])
  {
    if i == 0 {
      InvInit();
    } else {
      InvRun(states, actions, i - 1);
      InvStep(states[i - 1], actions[i - 1]);
    }
  }

  /** If the writer is asleep and a stop was requested, some thread is on its way to notify it; if it
      is asleep and the queue is not empty, some sender is. */
  lemma WriterNeverOversleeps(states: seq<State>, actions: seq<Action>, i: nat, t: ThreadId)
    requires IsRun(states, actions) && i < |states| && Of(states[i], t).writer == Asleep
    ensures Stopping(states[i]) ==> exists a :: HookOwes(states[i], a)
    ensures states[i].shared.queue != [] ==> exists j: nat :: Sender(states[i], j) == SendNotify
  {
    InvRun(states, actions, i);
    assert WriterOk(states[i], t);
  }

  /** The writer never takes the front of an empty queue, and two writers never coexist. */
  lemma WriterAloneAndFed(states: seq<State>, actions: seq<Action>, i: nat, t: ThreadId, u: ThreadId)
    requires IsRun(states, actions) && i < |states|
    requires Alive(Of(states[i], t).writer) && Alive(Of(states[i], u).writer)
    ensures t == u
    ensures Of(states[i], t).writer == Pop ==> states[i].shared.queue != []
  {
    InvRun(states, actions, i);
    OneWriter(states[i], t, u);
    assert WriterOk(states[i], t);
  }
}
