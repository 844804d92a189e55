/** What the TCP client's calls and threads come to: send() enqueues exactly what it says it did, preRun()
    answers for its socket, and a stop reaches the socket, the reader and the writer. */
module TcpClientAnswers {
  import opened Wrappers
  import opened TcpClient
  import opened TcpClientTheorems
  import L = Lifecycle
  import LT = LifecycleTheorems

  // ----- send

  predicate IsRunning(s: State) {
    s.life.core.state == L.Starting || s.life.core.state == L.Running
  }

  ghost predicate SendSince(states: seq<State>, i: nat, c: nat, e: nat) {
    c < e < |states| && forall j: nat :: c < j <= e ==> !Sender(states[j], i).NotSending?
  }

  /** Step k is sender i's look at the state, and finds the client running. */
  ghost predicate FindsRunning(s: State, x: Action, i: nat) {
    x == SendMove(i) && Sender(s, i).SendCheck? && IsRunning(s)
  }

  ghost predicate Enqueues(s: State, x: Action, i: nat, data: Buffer) {
    x == SendMove(i) && Sender(s, i) == SendPush(data)
  }

  ghost predicate FoundRunning(states: seq<State>, actions: seq<Action>, c: nat, e: nat, i: nat)
    requires |states| == |actions| + 1
  {
    exists k: nat {:trigger actions[k]} :: c < k < e && k < |actions| && FindsRunning(states[k], actions[k], i)
  }

  /** How often the call has enqueued its buffer. */
  ghost function Enqueued(states: seq<State>, actions: seq<Action>, c: nat, e: nat, i: nat, data: Buffer): nat
    requires |states| == |actions| + 1 && e <= |actions|
    decreases e
  {
    if e <= c + 1 then 0
    else Enqueued(states, actions, c, e - 1, i, data) + if Enqueues(states[e - 1], actions[e - 1], i, data) then 1 else 0
  }

  ghost predicate SendFits(pc: SenderPc, data: Buffer, found: bool, enqueued: nat) {
    match pc
    case NotSending(_) => false
    case SendCheck(d) => d == data && !found && enqueued == 0
    case SendPush(d) => d == data && found && data != [] && enqueued == 0
    case SendNotify => found && data != [] && enqueued == 1
  }

  /** Another's step, or the sender's own. */
  lemma SendStep(s: State, x: Action, i: nat, data: Buffer, found: bool, enqueued: nat)
    requires Enabled(s, x) && SendFits(Sender(s, i), data, found, enqueued)
    ensures var pc' := Sender(Apply(s, x), i);
            var found' := found || FindsRunning(s, x, i);
            var enqueued' := enqueued + if Enqueues(s, x, i, data) then 1 else 0;
            if pc'.NotSending?
            then (pc'.answer == Some(false) && enqueued' == 0 && (data == [] || !IsRunning(s)))
                 || (pc'.answer == Some(true) && enqueued' == 1 && found')
            else SendFits(pc', data, found', enqueued')
  {
  }

  lemma SendNext(states: seq<State>, actions: seq<Action>, c: nat, k: nat, i: nat, data: Buffer)
    requires IsRun(states, actions) && c < k < |actions| && !Sender(states[k + 1], i).NotSending?
    requires SendFits(Sender(states[k], i), data, FoundRunning(states, actions, c, k, i), Enqueued(states, actions, c, k, i, data))
    ensures SendFits(Sender(states[k + 1], i), data, FoundRunning(states, actions, c, k + 1, i), Enqueued(states, actions, c, k + 1, i, data))
  {
    SendStep(states[k], actions[k], i, data, FoundRunning(states, actions, c, k, i), Enqueued(states, actions, c, k, i, data));
    FoundOn(states, actions, c, k, i);
  }

  lemma FoundOn(states: seq<State>, actions: seq<Action>, c: nat, k: nat, i: nat)
    requires |states| == |actions| + 1 && c < k < |actions|
    ensures FoundRunning(states, actions, c, k + 1, i) <==> FoundRunning(states, actions, c, k, i) || FindsRunning(states[k], actions[k], i)
  {
  }

  lemma SendBegins(states: seq<State>, actions: seq<Action>, c: nat, i: nat, data: Buffer)
    requires IsRun(states, actions) && c < |actions| && actions[c] == SendCall(i, data)
    ensures SendFits(Sender(states[c + 1], i), data, FoundRunning(states, actions, c, c + 1, i), Enqueued(states, actions, c, c + 1, i, data))
  {
    assert Sender(states[c + 1], i) == SendCheck(data);
  }

  lemma {:induction false} SendRun(states: seq<State>, actions: seq<Action>, c: nat, e: nat, i: nat, data: Buffer)
    requires IsRun(states, actions) && SendSince(states, i, c, e) && actions[c] == SendCall(i, data)
    ensures SendFits(Sender(states[e], i), data, FoundRunning(states, actions, c, e, i), Enqueued(states, actions, c, e, i, data))
  {
    if e == c + 1 {
      SendBegins(states, actions, c, i, data);
    } else {
      SendRun(states, actions, c, e - 1, i, data);
      SendNext(states, actions, c, e - 1, i, data);
    }
  }

  /** send(data), called in step c, answers `ok` in step e.  It says true exactly if it enqueued the data,
      once, after finding the client starting or running; otherwise it enqueued nothing, and the data were
      empty or the client was not running. */
  lemma SendAnswer(states: seq<State>, actions: seq<Action>, c: nat, e: nat, i: nat, data: Buffer, ok: bool)
    requires IsRun(states, actions) && SendSince(states, i, c, e) && actions[c] == SendCall(i, data)
    requires e < |actions| && Sender(states[e + 1], i) == NotSending(Some(ok))
    ensures Enqueued(states, actions, c, e + 1, i, data) == if ok then 1 else 0
    ensures ok ==> FoundRunning(states, actions, c, e + 1, i)
    ensures !ok ==> data == [] || !IsRunning(states[e])
  {
    SendRun(states, actions, c, e, i, data);
    SendStep(states[e], actions[e], i, data, FoundRunning(states, actions, c, e, i), Enqueued(states, actions, c, e, i, data));
    FoundOn(states, actions, c, e, i);
  }

  /** Enqueuing puts the buffer at the end of the queue, and nothing else ever does. */
  lemma OnlySendEnqueues(s: State, x: Action)
    requires Enabled(s, x) && |Apply(s, x).log.enqueued| > |s.log.enqueued|
    ensures exists i: nat, data: Buffer :: Enqueues(s, x, i, data) && Apply(s, x).shared.queue == s.shared.queue + [data]
                                           && Apply(s, x).log.enqueued == s.log.enqueued + [data]
  {
    if !x.SendMove? {
      NothingEnqueued(s, x);
    } else {
      var pc := Sender(s, x.i);
      assert pc.SendPush? && Enqueues(s, x, x.i, pc.data);
    }
  }

  lemma NothingEnqueued(s: State, x: Action)
    requires Enabled(s, x) && !x.SendMove?
    ensures |Apply(s, x).log.enqueued| <= |s.log.enqueued|
  {
  }

  // ----- preRun

  /** preRun() of t gets its socket, or its connection. */
  ghost predicate Opens(s: State, x: Action, t: ThreadId) {
    x.PreMove? && x.t == t && x.ok && Of(s, t).pre == PreOpen
  }

  ghost predicate Connects(s: State, x: Action, t: ThreadId) {
    x.PreMove? && x.t == t && x.ok && Of(s, t).pre == PreConnect
  }

  /** One of the two calls fails; a socket that could not connect is closed. */
  ghost predicate GivesUp(s: State, x: Action, t: ThreadId) {
    && x.PreMove? && x.t == t && !x.ok
    && (Of(s, t).pre == PreOpen || (Of(s, t).pre == PreConnect && Enabled(s, x) && Apply(s, x).shared.socket.None?))
  }

  datatype Tried = Tried(hasSocket: bool, connected: bool, gaveUp: bool)

  ghost function TriedAfter(s: State, x: Action, t: ThreadId, d: Tried): Tried {
    Tried(d.hasSocket || Opens(s, x, t), d.connected || Connects(s, x, t), d.gaveUp || GivesUp(s, x, t))
  }

  /** What the run has seen preRun() of t do. */
  ghost function TriedBy(states: seq<State>, actions: seq<Action>, i: nat, t: ThreadId): Tried
    requires i < |states| == |actions| + 1
  {
    if i == 0 then Tried(false, false, false) else TriedAfter(states[i - 1], actions[i - 1], t, TriedBy(states, actions, i - 1, t))
  }

  predicate PreFits(pc: PrePc, d: Tried) {
    match pc
    case PreClear => d == Tried(false, false, false)
    case PreOpen => d == Tried(false, false, false)
    case PreConnect => d == Tried(true, false, false)
    case PreDone(ok) => if ok then d == Tried(true, true, false) else d.gaveUp && !d.connected
  }

  lemma PreKept(s: State, x: Action, t: ThreadId)
    requires Enabled(s, x) && !(x.PreMove? && x.t == t)
    ensures Of(Apply(s, x), t).pre == Of(s, t).pre
  {
    if x.HookMove? {
      PreKeptHook(s, x.a, t);
    } else if x.RunMove? {
      PreKeptRun(s, x.t, t);
    }
  }

  lemma PreKeptHook(s: State, a: L.Agent, t: ThreadId)
    requires HookEnabled(s, a)
    ensures Of(ApplyHook(s, a), t).pre == Of(s, t).pre
  {
    WakeWritersOf(s, t);
  }

  lemma PreKeptRun(s: State, u: ThreadId, t: ThreadId)
    requires RunEnabled(s, u)
    ensures Of(ApplyRun(s, u), t).pre == Of(s, t).pre
  {
    WakeWritersOf(s, t);
  }

  lemma PreStep(s: State, x: Action, t: ThreadId, d: Tried)
    requires Enabled(s, x) && PreFits(Of(s, t).pre, d)
    ensures PreFits(Of(Apply(s, x), t).pre, TriedAfter(s, x, t, d))
  {
    if !(x.PreMove? && x.t == t) {
      PreKept(s, x, t);
    }
  }

  lemma {:induction false} PreTraced(states: seq<State>, actions: seq<Action>, i: nat, t: ThreadId)
    requires IsRun(states, actions) && i < |states|
    ensures PreFits(Of(states[i], t).pre, TriedBy(states, actions, i, t))
  {
    if i > 0 {
      PreTraced(states, actions, i - 1, t);
      PreStep(states[i - 1], actions[i - 1], t, TriedBy(states, actions, i - 1, t));
    }
  }

  /** preRun() answers true exactly if it got a socket and connected it; when it answers false, one of the
      two failed, and a socket that could not connect was closed. */
  lemma PreRunAnswer(states: seq<State>, actions: seq<Action>, i: nat, t: ThreadId, ok: bool)
    requires IsRun(states, actions) && i < |states| && Of(states[i], t).pre == PreDone(ok)
    ensures var d := TriedBy(states, actions, i, t);
            if ok then d.hasSocket && d.connected && !d.gaveUp else d.gaveUp && !d.connected
  {
    PreTraced(states, actions, i, t);
  }
}
