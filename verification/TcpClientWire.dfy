/** What the TCP client puts on a connection: a prefix of the buffers enqueued for it, in order. */
module TcpClientWire {
  import opened Wrappers
  import opened TcpClient
  import opened TcpClientTheorems
  import L = Lifecycle
  import LT = LifecycleTheorems

  function Flatten(buffers: seq<Buffer>): seq<Byte> {
    if buffers == [] then [] else buffers[0] + Flatten(buffers[1..])
  }

  lemma {:induction false} FlattenConcat(a: seq<Buffer>, b: seq<Buffer>)
    ensures Flatten(a + b) == Flatten(a) + Flatten(b)
  {
    if a == [] {
      assert a + b == b;
    } else {
      assert (a + b)[1..] == a[1..] + b;
      FlattenConcat(a[1..], b);
    }
  }

  lemma FlattenSnoc(a: seq<Buffer>, b: Buffer)
    ensures Flatten(a + [b]) == Flatten(a) + b
  {
    FlattenConcat(a, [b]);
    assert Flatten([b]) == b + Flatten([]);
  }

  lemma FlattenPrefix(a: seq<Buffer>, b: seq<Buffer>)
    requires a <= b
    ensures Flatten(a) <= Flatten(b)
  {
    assert b == a + b[|a|..];
    FlattenConcat(a, b[|a|..]);
  }

  // ----- Queue accounting

  /** A stop hook throws queued buffers away although the flag is clear: the hook of an earlier session,
      clearing the queue of this one. */
  predicate Discards(s: State, x: Action) {
    x.HookMove? && L.Pc(s.life, x.a).StopHook? && Hook(s, x.a) == HookClear && s.shared.queue != [] && !Stopping(s)
  }

  /** preRun's clear. */
  predicate Clears(s: State, x: Action) {
    x.PreMove? && Of(s, x.t).pre == PreClear
  }

  predicate LostAfter(s: State, x: Action, lost: bool) {
    !Clears(s, x) && (lost || Discards(s, x))
  }

  /** Nothing is missing: the buffers enqueued since preRun's clear are those popped, then those queued. */
  ghost predicate Even(s: State) {
    s.log.popped + s.shared.queue == s.log.enqueued
  }

  /** The queue is the end of what was enqueued, after at least as many buffers as were popped. */
  ghost predicate Behind(s: State, lost: bool) {
    && |s.log.popped| + |s.shared.queue| <= |s.log.enqueued|
    && (lost ==> |s.log.popped| + |s.shared.queue| < |s.log.enqueued|)
    && s.shared.queue == s.log.enqueued[|s.log.enqueued| - |s.shared.queue|..]
  }

  /** Thread t has still to clear the queue. */
  predicate BeforeClear(s: State, t: ThreadId) {
    WorkerAt(s, t, L.PreRun) && Of(s, t).pre == PreClear
  }

  /** Unless buffers were lost, those popped are the first ones enqueued; and when some are missing, a
      regular stop hook has cleared the queue, so that nothing more is popped before preRun's clear. */
  ghost predicate QueueInv(s: State, lost: bool) {
    && Behind(s, lost)
    && (!lost ==> s.log.popped <= s.log.enqueued)
    && (forall t: ThreadId :: !lost && !Even(s) && !Stopping(s) && LT.LiveAt(s.life, t) ==> BeforeClear(s, t))
    && (forall t: ThreadId :: Of(s, t).writer == Pop && !lost ==> Even(s))
  }

  /** A thread that is live after a lifecycle step was live before, or was just spawned. */
  lemma LiveOrSpawned(s: State, y: L.Action, t: ThreadId)
    requires Enabled(s, Life(y)) && LT.LiveAt(ApplyLife(s, y).life, t)
    ensures LT.LiveAt(s.life, t) || (y.Spawn? && y.t == t && t !in s.life.workers)
  {
  }

  /** The flag only falls when a session starts, and then no thread is live. */
  lemma FlagFalls(s: State, y: L.Action)
    requires L.SessionInv(s.life) && Enabled(s, Life(y)) && Stopping(s) && !Stopping(ApplyLife(s, y))
    ensures forall t: ThreadId :: !LT.LiveAt(s.life, t)
  {
  }

  lemma PreRunStays(s: State, y: L.Action, t: ThreadId)
    requires Enabled(s, Life(y)) && BeforeClear(s, t)
    ensures WorkerAt(ApplyLife(s, y), t, L.PreRun)
  {
  }

  lemma SpawnedAtPreRun(s: State, y: L.Action)
    requires ThreadInv(s) && Enabled(s, Life(y)) && y.Spawn?
    ensures WorkerAt(ApplyLife(s, y), y.t, L.PreRun) && Of(s, y.t) == NewSession
  {
  }

  lemma QueueLife(s: State, y: L.Action, lost: bool)
    requires L.SessionInv(s.life) && ThreadInv(s) && QueueInv(s, lost) && Enabled(s, Life(y))
    ensures QueueInv(ApplyLife(s, y), lost)
  {
    var s' := ApplyLife(s, y);
    assert forall t: ThreadId :: Of(s', t) == Of(s, t);
    forall t: ThreadId | !lost && !Even(s') && !Stopping(s') && LT.LiveAt(s'.life, t)
      ensures BeforeClear(s', t)
    {
      LiveOrSpawned(s, y, t);
      if y.Spawn? && y.t == t && t !in s.life.workers {
        SpawnedAtPreRun(s, y);
      } else {
        if Stopping(s) {
          FlagFalls(s, y);
        }
        PreRunStays(s, y, t);
      }
    }
  }

  /** Steps that leave lifecycle flags, queue and its history alone, and pop nothing. */
  lemma QueueFrame(s: State, s': State, lost: bool)
    requires QueueInv(s, lost)
    requires Stopping(s') == Stopping(s) && s'.life.workers == s.life.workers
    requires s'.shared.queue == s.shared.queue && s'.log.popped == s.log.popped && s'.log.enqueued == s.log.enqueued
    requires forall t: ThreadId :: BeforeClear(s, t) ==> Of(s', t).pre == PreClear
    requires forall t: ThreadId :: Of(s', t).writer == Pop ==> Of(s, t).writer == Pop || lost || Even(s)
    ensures QueueInv(s', lost)
  {
    forall t: ThreadId
      ensures LT.LiveAt(s'.life, t) == LT.LiveAt(s.life, t) && (BeforeClear(s, t) ==> BeforeClear(s', t))
    {
    }
  }

  lemma QueueHook(s: State, a: L.Agent, lost: bool)
    requires ThreadInv(s) && QueueInv(s, lost) && HookEnabled(s, a)
    ensures QueueInv(ApplyHook(s, a), lost || Discards(s, HookMove(a)))
  {
    var s' := ApplyHook(s, a);
    forall t: ThreadId
      ensures Of(s', t).pre == Of(s, t).pre && (Of(s', t).writer == Pop <==> Of(s, t).writer == Pop)
    {
      WakeWritersOf(s, t);
    }
    if Hook(s, a) == HookClear && s.shared.queue != [] {
      assert forall t: ThreadId :: !HoldsMutex(Of(s, t).writer);
      QueueEmptied(s, s', lost);
    } else {
      QueueFrame(s, s', lost);
    }
  }

  /** A queue that held something is emptied by a hook. */
  lemma QueueEmptied(s: State, s': State, lost: bool)
    requires QueueInv(s, lost) && s.shared.queue != [] && s'.life == s.life && s'.log == s.log && s'.shared.queue == []
    requires forall t: ThreadId :: Of(s', t).writer != Pop
    ensures QueueInv(s', lost || !Stopping(s))
  {
  }

  lemma QueuePre(s: State, t: ThreadId, ok: bool, conn: Connection, lost: bool)
    requires ThreadInv(s) && QueueInv(s, lost) && PreEnabled(s, t, conn)
    ensures QueueInv(ApplyPre(s, t, ok, conn), lost && Of(s, t).pre != PreClear)
  {
    if Of(s, t).pre != PreClear {
      QueueConnects(s, t, ok, conn, lost);
    } else {
      QueueCleared(ApplyPre(s, t, ok, conn));
    }
  }

  lemma QueueConnects(s: State, t: ThreadId, ok: bool, conn: Connection, lost: bool)
    requires QueueInv(s, lost) && PreEnabled(s, t, conn) && Of(s, t).pre != PreClear
    ensures QueueInv(ApplyPre(s, t, ok, conn), lost)
  {
    var s' := ApplyPre(s, t, ok, conn);
    assert forall u: ThreadId :: Of(s', u).writer == Of(s, u).writer && (u != t ==> Of(s', u).pre == Of(s, u).pre);
    QueueFrame(s, s', lost);
  }

  /** preRun's clear begins the history anew. */
  lemma QueueCleared(s: State)
    requires s.shared.queue == [] && s.log.popped == [] && s.log.enqueued == []
    ensures QueueInv(s, false)
  {
    assert s.log.enqueued[0..] == [] && s.log.popped + s.shared.queue == [];
    assert Behind(s, false) && Even(s);
  }

  lemma QueueRun(s: State, t: ThreadId, lost: bool)
    requires QueueInv(s, lost) && RunEnabled(s, t)
    ensures QueueInv(ApplyRun(s, t), lost)
  {
    forall u: ThreadId
      ensures Of(ApplyRun(s, t), u).pre == Of(s, u).pre
      ensures Of(ApplyRun(s, t), u).writer == Pop ==> Of(s, u).writer == Pop
    {
      WakeWritersOf(s, u);
    }
    QueueFrame(s, ApplyRun(s, t), lost);
  }

  /** The front goes from the queue to the popped buffers. */
  lemma PopBehind(popped: seq<Buffer>, queue: seq<Buffer>, enqueued: seq<Buffer>)
    requires queue != [] && |queue| <= |enqueued| && queue == enqueued[|enqueued| - |queue|..]
    ensures (popped + [queue[0]]) + queue[1..] == popped + queue
    ensures queue[1..] == enqueued[|enqueued| - |queue[1..]|..]
  {
  }

  lemma QueuePop(s: State, t: ThreadId, lost: bool)
    requires QueueInv(s, lost) && WriterEnabled(s, t) && Of(s, t).writer == Pop
    ensures QueueInv(ApplyWriter(s, t), lost)
  {
    var s' := ApplyWriter(s, t);
    PopBehind(s.log.popped, s.shared.queue, s.log.enqueued);
    assert Even(s) ==> Even(s');
    assert forall u: ThreadId :: u != t ==> Of(s', u) == Of(s, u);
  }

  lemma QueueLoad(s: State, t: ThreadId, lost: bool)
    requires QueueInv(s, lost) && WriterEnabled(s, t) && Of(s, t).writer.Load?
    ensures QueueInv(ApplyWriter(s, t), lost)
  {
    QueueFrame(s, ApplyWriter(s, t), lost);
  }

  /** When the writer has just seen the flag clear, no regular hook can have emptied the queue. */
  lemma QueueWriter(s: State, t: ThreadId, lost: bool)
    requires ThreadInv(s) && QueueInv(s, lost) && WriterEnabled(s, t) && Of(s, t).writer != Pop
    ensures QueueInv(ApplyWriter(s, t), lost)
  {
    if Of(s, t).writer.Load? {
      QueueLoad(s, t, lost);
    } else {
      assert WorkerAt(s, t, L.InRun) && LT.LiveAt(s.life, t);
      QueueFrame(s, ApplyWriter(s, t), lost);
    }
  }

  lemma PushBehind(popped: seq<Buffer>, queue: seq<Buffer>, enqueued: seq<Buffer>, data: Buffer)
    requires |queue| <= |enqueued| && queue == enqueued[|enqueued| - |queue|..]
    ensures popped + (queue + [data]) == (popped + queue) + [data]
    ensures queue + [data] == (enqueued + [data])[|enqueued| - |queue|..]
  {
  }

  lemma QueueSend(s: State, i: nat, lost: bool)
    requires QueueInv(s, lost) && SendEnabled(s, i)
    ensures QueueInv(ApplySend(s, i), lost)
  {
    var s' := ApplySend(s, i);
    assert forall t: ThreadId :: Of(s', t) == Of(s, t);
    if Sender(s, i).SendPush? {
      PushBehind(s.log.popped, s.shared.queue, s.log.enqueued, Sender(s, i).data);
      assert Even(s) ==> Even(s');
    }
  }

  lemma QueueOther(s: State, x: Action, lost: bool)
    requires QueueInv(s, lost) && Enabled(s, x)
    requires x.WriterFailed? || x.WriterWakes? || x.SendCall? || x.SendNotifies? || x.WriterSent?
    ensures QueueInv(Apply(s, x), lost)
  {
    QueueFrame(s, Apply(s, x), lost);
  }

  lemma QueueReader(s: State, x: Action, lost: bool)
    requires QueueInv(s, lost) && Enabled(s, x) && (x.ReaderMove? || x.ReaderReceived?)
    ensures QueueInv(Apply(s, x), lost)
  {
    ReaderAlone(s, x);
    QueueFrame(s, Apply(s, x), lost);
  }

  lemma ReaderAlone(s: State, x: Action)
    requires Enabled(s, x) && (x.ReaderMove? || x.ReaderReceived?)
    ensures forall t: ThreadId :: Of(Apply(s, x), t).pre == Of(s, t).pre && Of(Apply(s, x), t).writer == Of(s, t).writer
  {
  }

  lemma QueueStep(s: State, x: Action, lost: bool)
    requires L.SessionInv(s.life) && ThreadInv(s) && QueueInv(s, lost) && Enabled(s, x)
    ensures QueueInv(Apply(s, x), LostAfter(s, x, lost))
  {
    match x
    case Life(y) => QueueLife(s, y, lost);
    case HookMove(a) => QueueHook(s, a, lost);
    case PreMove(t, ok, conn) => QueuePre(s, t, ok, conn, lost);
    case RunMove(t) => QueueRun(s, t, lost);
    case WriterMove(t) =>
      if Of(s, t).writer == Pop {
        QueuePop(s, t, lost);
      } else {
        QueueWriter(s, t, lost);
      }
    case SendMove(i) => QueueSend(s, i, lost);
    case ReaderMove(_) => QueueReader(s, x, lost);
    case ReaderReceived(_, _) => QueueReader(s, x, lost);
    case _ => QueueOther(s, x, lost);
  }

  // ----- The bytes on the current connection

  /** Session t has opened its connection, and may still come to write on it. */
  predicate PastOpen(s: State, t: ThreadId) {
    && t in s.life.workers
    && (match s.life.workers[t]
        case PreRun => Of(s, t).pre == PreConnect || Of(s, t).pre == PreDone(true)
        case CheckStop => true
        case SetRunning => true
        case NotifyRunning => true
        case InRun => true
        case _ => false)
  }

  /** How the wire relates to the popped buffers, by where the writer stands. */
  ghost predicate WriterWire(log: Log, w: WriterPc) {
    && log.connection.Some? && log.connection.value in log.wire
    && var bytes := log.wire[log.connection.value];
       match w
       case Load(payload, sent) => PartlySent(log.popped, payload, sent, bytes)
       case Send(payload, sent, to) => PartlySent(log.popped, payload, sent, bytes) && to == log.connection.value
       case Stop => true
       case _ => bytes == Flatten(log.popped)
  }

  /** Everything popped before `payload` is on the wire, and then its first `sent` bytes. */
  ghost predicate PartlySent(popped: seq<Buffer>, payload: Buffer, sent: nat, bytes: seq<Byte>) {
    && popped != [] && popped[|popped| - 1] == payload && sent <= |payload|
    && bytes == Flatten(popped[..|popped| - 1]) + payload[..sent]
  }

  ghost predicate ConnectionOk(s: State) {
    s.log.connection.Some? ==>
      && s.log.connection.value in s.log.wire
      && s.log.wire[s.log.connection.value] <= Flatten(s.log.popped)
      && (s.shared.socket.Some? ==> s.shared.socket == s.log.connection)
  }

  ghost predicate WireInv(s: State) {
    && ConnectionOk(s)
    && (forall t: ThreadId :: PastOpen(s, t) ==> s.log.connection.Some?)
    && (forall t: ThreadId :: WorkerAt(s, t, L.PreRun) && Of(s, t).pre == PreOpen ==> s.log.popped == [])
    && (forall t: ThreadId :: PastOpen(s, t) && Of(s, t).writer == Unborn ==> WriterWire(s.log, Top))
    && (forall t: ThreadId :: Alive(Of(s, t).writer) ==> WriterWire(s.log, Of(s, t).writer))
  }

  lemma PastOpenBefore(s: State, y: L.Action, t: ThreadId)
    requires ThreadInv(s) && Enabled(s, Life(y)) && PastOpen(ApplyLife(s, y), t)
    ensures PastOpen(s, t)
  {
    if t in s.life.workers {
      PcBefore(s.life, y, t);
    }
  }

  /** How a worker can have come to where it is. */
  lemma PcBefore(l: L.State, y: L.Action, t: ThreadId)
    requires L.Enabled(l, y) && t in l.workers
    ensures var pc, pc' := l.workers[t], L.Apply(l, y).workers[t];
            || pc' == pc
            || (y.PreRunEnds? && y.t == t && pc == L.PreRun)
            || (pc' == L.SetRunning && pc == L.CheckStop) || (pc' == L.NotifyRunning && pc == L.SetRunning)
            || (pc' == L.InRun && pc == L.NotifyRunning)
            || pc' == L.StoreException || pc' == L.SetStopped || pc' == L.NotifyStopped || pc' == L.Exited
  {
  }

  lemma AtPreRunBefore(s: State, y: L.Action, t: ThreadId)
    requires ThreadInv(s) && Enabled(s, Life(y)) && WorkerAt(ApplyLife(s, y), t, L.PreRun) && Of(s, t).pre == PreOpen
    ensures WorkerAt(s, t, L.PreRun)
  {
  }

  lemma WireLife(s: State, y: L.Action)
    requires ThreadInv(s) && WireInv(s) && Enabled(s, Life(y))
    ensures WireInv(ApplyLife(s, y))
  {
    var s' := ApplyLife(s, y);
    assert forall t: ThreadId :: Of(s', t) == Of(s, t);
    forall t: ThreadId | PastOpen(s', t)
      ensures PastOpen(s, t)
    {
      PastOpenBefore(s, y, t);
    }
    forall t: ThreadId | WorkerAt(s', t, L.PreRun) && Of(s, t).pre == PreOpen
      ensures WorkerAt(s, t, L.PreRun)
    {
      AtPreRunBefore(s, y, t);
    }
  }

  /** Steps that touch neither the log nor preRun(), and move writers only between places that say
      the same about the wire. */
  lemma WireFrame(s: State, s': State)
    requires WireInv(s)
    requires s'.log.popped == s.log.popped && s'.log.wire == s.log.wire && s'.log.connection == s.log.connection
    requires s'.life.workers == s.life.workers
    requires s'.shared.socket == s.shared.socket || s'.shared.socket.None?
    requires forall t: ThreadId :: Of(s', t).pre == Of(s, t).pre
    requires forall t: ThreadId :: Of(s', t).writer == Unborn ==> Of(s, t).writer == Unborn
    requires forall t: ThreadId :: Alive(Of(s', t).writer) && Of(s', t).writer != Of(s, t).writer ==>
               WriterWire(s.log, Of(s', t).writer)
    ensures WireInv(s')
  {
    forall t: ThreadId
      ensures PastOpen(s', t) == PastOpen(s, t) && WorkerAt(s', t, L.PreRun) == WorkerAt(s, t, L.PreRun)
    {
    }
  }

  lemma WireHook(s: State, a: L.Agent)
    requires WireInv(s) && HookEnabled(s, a)
    ensures WireInv(ApplyHook(s, a))
  {
    forall t: ThreadId
      ensures Of(ApplyHook(s, a), t) == Of(s, t) || (Of(s, t).writer == Asleep && Of(ApplyHook(s, a), t) == Of(s, t).(writer := Acquire))
    {
      WakeWritersOf(s, t);
    }
    WireFrame(s, ApplyHook(s, a));
  }

  /** A step of run() wakes the writer, or creates it. */
  lemma RunWriters(s: State, t: ThreadId, u: ThreadId)
    requires RunEnabled(s, t)
    ensures Of(ApplyRun(s, t), u).pre == Of(s, u).pre
    ensures Of(ApplyRun(s, t), u).writer == Of(s, u).writer
            || (Of(s, u).writer == Asleep && Of(ApplyRun(s, t), u).writer == Acquire)
            || (u == t && Of(s, t).run == RunWriter && Of(ApplyRun(s, t), u).writer == Top)
  {
    WakeWritersOf(s, u);
  }

  lemma WireRun(s: State, t: ThreadId)
    requires ThreadInv(s) && WireInv(s) && RunEnabled(s, t)
    ensures WireInv(ApplyRun(s, t))
  {
    assert PastOpen(s, t);
    forall u: ThreadId
      ensures Of(ApplyRun(s, t), u).pre == Of(s, u).pre
      ensures Of(ApplyRun(s, t), u).writer == Of(s, u).writer
              || (Of(s, u).writer == Asleep && Of(ApplyRun(s, t), u).writer == Acquire)
              || (u == t && Of(s, t).run == RunWriter && Of(ApplyRun(s, t), u).writer == Top)
    {
      RunWriters(s, t, u);
    }
    WireFrame(s, ApplyRun(s, t));
  }

  lemma SentAll(popped: seq<Buffer>, payload: Buffer, sent: nat, bytes: seq<Byte>)
    requires PartlySent(popped, payload, sent, bytes)
    ensures bytes <= Flatten(popped)
    ensures sent == |payload| ==> bytes == Flatten(popped)
  {
    var front := popped[..|popped| - 1];
    FlattenSnoc(front, payload);
    assert popped == front + [payload];
  }

  /** No other session than the writer's is under way. */
  lemma OnlyLive(s: State, t: ThreadId)
    requires L.SessionInv(s.life) && ThreadInv(s) && Alive(Of(s, t).writer)
    ensures WorkerAt(s, t, L.InRun)
    ensures forall u: ThreadId :: u != t ==> !Alive(Of(s, u).writer) && !PastOpen(s, u) && !WorkerAt(s, u, L.PreRun)
  {
    assert WorkerAt(s, t, L.InRun);
    forall u: ThreadId | u != t
      ensures !Alive(Of(s, u).writer) && !PastOpen(s, u) && !WorkerAt(s, u, L.PreRun)
    {
      if Alive(Of(s, u).writer) {
        OneWriter(s, t, u);
      }
      assert s.life.session == L.Serving(t);
    }
  }

  /** The writer of the one session under way moves, and the log with it. */
  lemma WireMoves(s: State, s': State, t: ThreadId)
    requires L.SessionInv(s.life) && ThreadInv(s) && Alive(Of(s, t).writer)
    requires s'.life == s.life && Alive(Of(s', t).writer)
    requires forall u: ThreadId :: u != t ==> Of(s', u) == Of(s, u)
    requires ConnectionOk(s') && WriterWire(s'.log, Of(s', t).writer)
    ensures WireInv(s')
  {
    OnlyLive(s, t);
    forall u: ThreadId | u != t
      ensures PastOpen(s', u) == PastOpen(s, u) && WorkerAt(s', u, L.PreRun) == WorkerAt(s, u, L.PreRun)
    {
    }
  }

  lemma PopLog(log: Log, front: Buffer)
    requires WriterWire(log, Pop)
    ensures var log' := log.(popped := log.popped + [front]);
            WriterWire(log', Load(front, 0)) && log'.wire[log.connection.value] <= Flatten(log'.popped)
  {
    var popped' := log.popped + [front];
    FlattenPrefix(log.popped, popped');
    assert popped'[..|log.popped|] == log.popped;
    assert front[..0] == [];
  }

  lemma WirePop(s: State, t: ThreadId)
    requires L.SessionInv(s.life) && ThreadInv(s) && WireInv(s) && WriterEnabled(s, t) && Of(s, t).writer == Pop
    ensures WireInv(ApplyWriter(s, t))
  {
    PopLog(s.log, s.shared.queue[0]);
    WireMoves(s, ApplyWriter(s, t), t);
  }

  lemma LoadLog(log: Log, w: WriterPc)
    requires w.Load? && WriterWire(log, w)
    ensures w.sent >= |w.payload| ==> WriterWire(log, Top)
    ensures w.sent < |w.payload| ==> WriterWire(log, Send(w.payload, w.sent, log.connection.value)) && WriterWire(log, Stop)
  {
    SentAll(log.popped, w.payload, w.sent, log.wire[log.connection.value]);
  }

  lemma WireLoad(s: State, t: ThreadId)
    requires WireInv(s) && WriterEnabled(s, t) && Of(s, t).writer.Load?
    ensures WireInv(ApplyWriter(s, t))
  {
    LoadLog(s.log, Of(s, t).writer);
    WireFrame(s, ApplyWriter(s, t));
  }

  lemma WireWriter(s: State, t: ThreadId)
    requires WireInv(s) && WriterEnabled(s, t) && Of(s, t).writer != Pop
    ensures WireInv(ApplyWriter(s, t))
  {
    if Of(s, t).writer.Load? {
      WireLoad(s, t);
    } else {
      WireFrame(s, ApplyWriter(s, t));
    }
  }

  lemma SentLog(log: Log, w: WriterPc, count: nat)
    requires w.Send? && WriterWire(log, w) && w.sent + count <= |w.payload|
    ensures var log' := log.(wire := log.wire[w.to := log.wire[w.to] + w.payload[w.sent..w.sent + count]]);
            WriterWire(log', Load(w.payload, w.sent + count)) && log'.wire[w.to] <= Flatten(log'.popped)
  {
    var bytes := log.wire[w.to] + w.payload[w.sent..w.sent + count];
    assert w.payload[..w.sent + count] == w.payload[..w.sent] + w.payload[w.sent..w.sent + count];
    assert PartlySent(log.popped, w.payload, w.sent + count, bytes);
    SentAll(log.popped, w.payload, w.sent + count, bytes);
  }

  lemma SentConnection(s: State, t: ThreadId, count: nat)
    requires ConnectionOk(s) && SentEnabled(s, t, count) && WriterWire(s.log, Of(s, t).writer)
    ensures var s' := ApplySent(s, t, count);
            ConnectionOk(s') && WriterWire(s'.log, Of(s', t).writer) && Alive(Of(s', t).writer)
  {
    SentLog(s.log, Of(s, t).writer, count);
  }

  lemma WireSent(s: State, t: ThreadId, count: nat)
    requires L.SessionInv(s.life) && ThreadInv(s) && WireInv(s) && SentEnabled(s, t, count)
    ensures WireInv(ApplySent(s, t, count))
  {
    SentConnection(s, t, count);
    WireMoves(s, ApplySent(s, t, count), t);
  }

  lemma OnlyPreRun(s: State, s': State, t: ThreadId)
    requires L.SessionInv(s.life) && ThreadInv(s) && WorkerAt(s, t, L.PreRun) && s'.life == s.life
    requires forall u: ThreadId :: Of(s', u).writer == Of(s, u).writer
    requires ConnectionOk(s') && (PastOpen(s', t) ==> s'.log.connection.Some?)
    requires PastOpen(s', t) && Of(s', t).writer == Unborn ==> WriterWire(s'.log, Top)
    requires Of(s', t).pre == PreOpen ==> s'.log.popped == []
    ensures WireInv(s')
  {
    forall u: ThreadId
      ensures !Alive(Of(s', u).writer)
      ensures u != t ==> !PastOpen(s', u) && !WorkerAt(s', u, L.PreRun)
    {
      NoWriterDuringPreRun(s, t, u);
      assert s.life.session == L.Serving(t);
    }
  }

  lemma WirePre(s: State, t: ThreadId, ok: bool, conn: Connection)
    requires L.SessionInv(s.life) && ThreadInv(s) && WireInv(s) && PreEnabled(s, t, conn)
    ensures WireInv(ApplyPre(s, t, ok, conn))
  {
    assert Of(s, t).pre == PreConnect ==> PastOpen(s, t);
    OnlyPreRun(s, ApplyPre(s, t, ok, conn), t);
  }

  lemma WireOther(s: State, x: Action)
    requires WireInv(s) && Enabled(s, x)
    requires x.WriterFailed? || x.WriterWakes? || x.SendCall? || x.SendMove? || x.SendNotifies?
    ensures WireInv(Apply(s, x))
  {
    if x.WriterFailed? {
      WireFailed(s, x.t);
    } else {
      WireFrame(s, Apply(s, x));
    }
  }

  lemma WireFailed(s: State, t: ThreadId)
    requires WireInv(s) && Enabled(s, WriterFailed(t))
    ensures WireInv(Apply(s, WriterFailed(t)))
  {
    WireFrame(s, Apply(s, WriterFailed(t)));
  }

  lemma WireReader(s: State, x: Action)
    requires WireInv(s) && Enabled(s, x) && (x.ReaderMove? || x.ReaderReceived?)
    ensures WireInv(Apply(s, x))
  {
    WireFrame(s, Apply(s, x));
  }

  lemma WireStep(s: State, x: Action)
    requires L.SessionInv(s.life) && ThreadInv(s) && WireInv(s) && Enabled(s, x)
    ensures WireInv(Apply(s, x))
  {
    match x
    case Life(y) => WireLife(s, y);
    case HookMove(a) => WireHook(s, a);
    case PreMove(t, ok, conn) => WirePre(s, t, ok, conn);
    case RunMove(t) => WireRun(s, t);
    case WriterMove(t) =>
      if Of(s, t).writer == Pop {
        WirePop(s, t);
      } else {
        WireWriter(s, t);
      }
    case WriterSent(t, count) => WireSent(s, t, count);
    case ReaderMove(_) => WireReader(s, x);
    case ReaderReceived(_, _) => WireReader(s, x);
    case _ => WireOther(s, x);
  }

  // ----- Over whole runs

  /** Since preRun's last clear, a late hook has thrown queued buffers away. */
  ghost predicate Lost(states: seq<State>, actions: seq<Action>, i: nat)
    requires i < |states| == |actions| + 1
  {
    i > 0 && LostAfter(states[i - 1], actions[i - 1], Lost(states, actions, i - 1))
  }

  lemma {:induction false} WireRunInv(states: seq<State>, actions: seq<Action>, i: nat)
    requires IsRun(states, actions) && i < |states|
    ensures WireInv(states[i])
  {
    if i > 0 {
      InvRun(states, actions, i - 1);
      WireRunInv(states, actions, i - 1);
      WireStep(states[i - 1], actions[i - 1]);
    }
  }

  lemma QueueStepAt(states: seq<State>, actions: seq<Action>, k: nat, lost: bool)
    requires IsRun(states, actions) && k < |actions| && QueueInv(states[k], lost)
    ensures QueueInv(states[k + 1], LostAfter(states[k], actions[k], lost))
  {
    InvRun(states, actions, k);
    QueueStep(states[k], actions[k], lost);
  }

  lemma {:induction false} QueueRunInv(states: seq<State>, actions: seq<Action>, i: nat)
    requires IsRun(states, actions) && i < |states|
    ensures QueueInv(states[i], Lost(states, actions, i))
  {
    if i > 0 {
      QueueRunInv(states, actions, i - 1);
      QueueStepAt(states, actions, i - 1, Lost(states, actions, i - 1));
    }
  }

  /** In every run whatever, the bytes on the current connection are a prefix of the buffers the
      writer popped since preRun's clear: nothing is duplicated, reordered or invented. */
  lemma WireFollowsPopped(states: seq<State>, actions: seq<Action>, i: nat)
    requires IsRun(states, actions) && i < |states| && states[i].log.connection.Some?
    ensures states[i].log.connection.value in states[i].log.wire
    ensures states[i].log.wire[states[i].log.connection.value] <= Flatten(states[i].log.popped)
  {
    WireRunInv(states, actions, i);
  }

  /** A connection that is not the current one is never written to again. */
  lemma RestingStep(s: State, x: Action, c: Connection)
    requires WireInv(s) && Enabled(s, x) && c in s.log.wire && s.log.connection != Some(c)
    ensures var log := Apply(s, x).log; c in log.wire && log.wire[c] == s.log.wire[c] && log.connection != Some(c)
  {
    if x.WriterSent? {
      assert WriterWire(s.log, Of(s, x.t).writer);
    } else if x.PreMove? {
      RestingPre(s, x.t, x.ok, x.conn, c);
    } else {
      WireUntouched(s, x);
    }
  }

  lemma WireUntouched(s: State, x: Action)
    requires Enabled(s, x) && !x.WriterSent? && !x.PreMove?
    ensures Apply(s, x).log.wire == s.log.wire && Apply(s, x).log.connection == s.log.connection
  {
  }

  lemma RestingPre(s: State, t: ThreadId, ok: bool, conn: Connection, c: Connection)
    requires PreEnabled(s, t, conn) && c in s.log.wire && s.log.connection != Some(c)
    ensures var log := ApplyPre(s, t, ok, conn).log; c in log.wire && log.wire[c] == s.log.wire[c] && log.connection != Some(c)
  {
  }

  lemma {:induction false} OldConnectionsRest(states: seq<State>, actions: seq<Action>, i: nat, j: nat, c: Connection)
    requires IsRun(states, actions) && i <= j < |states| && c in states[i].log.wire && states[i].log.connection != Some(c)
    ensures c in states[j].log.wire && states[j].log.wire[c] == states[i].log.wire[c] && states[j].log.connection != Some(c)
  {
    if i < j {
      OldConnectionsRest(states, actions, i, j - 1, c);
      WireRunInv(states, actions, j - 1);
      RestingStep(states[j - 1], actions[j - 1], c);
    }
  }

  /** Wire prefix: unless a late hook has thrown queued buffers away since preRun's clear, the bytes on
      the current connection are a prefix of the concatenation, in enqueue order, of the buffers enqueued
      since then. */
  lemma WirePrefix(states: seq<State>, actions: seq<Action>, i: nat)
    requires IsRun(states, actions) && i < |states| && states[i].log.connection.Some? && !Lost(states, actions, i)
    ensures states[i].log.connection.value in states[i].log.wire
    ensures states[i].log.wire[states[i].log.connection.value] <= Flatten(states[i].log.enqueued)
  {
    WireRunInv(states, actions, i);
    QueueRunInv(states, actions, i);
    FlattenPrefix(states[i].log.popped, states[i].log.enqueued);
  }

  /** Session t is under way and has cleared the queue. */
  predicate PastClear(s: State, t: ThreadId) {
    LT.LiveAt(s.life, t) && !BeforeClear(s, t)
  }

  /** The condition is exact: in a session past preRun's clear and not asked to stop, nothing is missing
      between what was popped and what is queued if and only if no late hook has thrown buffers away. */
  lemma EvenExactlyUnlessLost(states: seq<State>, actions: seq<Action>, i: nat, t: ThreadId)
    requires IsRun(states, actions) && i < |states| && PastClear(states[i], t) && !Stopping(states[i])
    ensures Even(states[i]) <==> !Lost(states, actions, i)
  {
    QueueRunInv(states, actions, i);
    assert |states[i].log.popped + states[i].shared.queue| == |states[i].log.popped| + |states[i].shared.queue|;
  }

  /** After a loss every buffer popped is one enqueued later than its turn, until preRun clears again. */
  lemma LostSkips(states: seq<State>, actions: seq<Action>, i: nat, t: ThreadId)
    requires IsRun(states, actions) && i < |actions| && Lost(states, actions, i)
    requires actions[i] == WriterMove(t) && Of(states[i], t).writer == Pop
    ensures |states[i + 1].log.popped| == |states[i].log.popped| + 1
    ensures exists k: nat :: |states[i].log.popped| < k < |states[i].log.enqueued|
                             && states[i + 1].log.popped[|states[i].log.popped|] == states[i].log.enqueued[k]
  {
    QueueRunInv(states, actions, i);
    var s := states[i];
    assert s.shared.queue[0] == s.log.enqueued[|s.log.enqueued| - |s.shared.queue|];
  }
}
