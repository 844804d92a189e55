# A verified model of ThreadComponent

ThreadComponent is a C++17 toolkit of background workers: a thread-owning base class with a
start/stop/join protocol, and on top of it TCP clients and servers, a gRPC service engine and HTTP
servers, together with a synchronous TCP client, a thread-safe container and an HTTP client.  This
project models its concurrent protocols and its stream and header handling in Dafny and proves what
they guarantee.

`dafny verify dfyconfig.toml` checks the whole project.

## How it is organised

| file | part of the system |
|---|---|
| `Lifecycle.dfy`, `LifecycleTheorems.dfy`, `LifecycleAnswers.dfy`, `LifecycleScenes.dfy` | the worker base class, `cBaseWorker_V2.h` |
| `TcpClient.dfy`, `TcpClientTheorems.dfy`, `TcpClientWire.dfy`, `TcpClientAnswers.dfy`, `TcpClientStops.dfy`, `TcpClientLateHook.dfy` | the asynchronous client, `cTCPClient_V2.h` |
| `TcpServer.dfy`, `TcpServerTheorems.dfy`, `TcpServerStops.dfy`, `TcpServerTwoCloses.dfy` | the server's client sessions, `cTCPServer_V2.h` |
| `GrpcEngine.dfy`, `GrpcTheorems.dfy`, `GrpcStops.dfy`, `GrpcLateHook.dfy` | the completion-queue engine, `cGenericGrpcWorker.h` |
| `StartHandshake.dfy`, `HandshakeTheorems.dfy`, `HandshakeAnswers.dfy` | the start of the HTTP server, `cHTTPServer.cpp` |
| `RespondOnce.dfy` | the response handle of the HTTP server, `cHTTPServer.cpp` |
| `SyncClient.dfy` | the synchronous client, `cTCPSyncClient_V2.h` |
| `Container.dfy` | the selective grab, `simple_container_V2.h` |
| `HttpHeaders.dfy`, `HttpRoundTrip.dfy`, `HttpText.dfy` | header printer and parser, `cHTTPServer.cpp` and `cHTTPClient.cpp` |

The concurrent parts are state machines.  `Enabled(s, x)` and `Apply(s, x)` define the steps, one for
each critical section, atomic access, notification, sleep, wakeup and join; a run is any sequence of
enabled steps from `Init`, so a theorem about `IsRun(states, actions)` covers every interleaving of
any number of threads, across any number of restarts.  `Runs.dfy` builds single runs from `Init`, for
the theorems that exhibit one.  The TCP client, the TCP server, the gRPC
engine and the start handshake each contain the whole lifecycle protocol, and their proofs use its
invariants.  Fields that only record history (handle owners, the bytes on each connection, counts of
closes, joins and handler calls) guard no step.  The objects the steps act on are classes whose
methods are tied to the functions used in the steps.  The sequential parts are classes and loops
proved against specification functions.

## What the environment is taken to do

- Atomics are sequentially consistent, condition variables may wake spuriously, and a timed wait may
  time out at any moment.
- Descriptors, connections, thread ids and completion-queue tags are tokens that are never reused.
- User hooks and callbacks return; exceptions of `preRun()`, `run()` and of the RPC and HTTP handlers
  are modelled.
- The gRPC queue delivers each posted operation once, reports SHUTDOWN only when it is shut down and
  drained, and fails a listener only after the server was shut down (cGenericGrpcWorker.h:165,
  174-176, 221-224).  One turn of the event loop is one step.
- The HTTP library's `stop()` returns; its `start()` calls the listening callback, returns or throws
  at will.
- The transfer library hands a header block to the header callback line by line through the first
  empty line.
- A peer splits its stream at will; a socket call may move any positive number of bytes, be
  interrupted, or fail.
- Nobody uses a response handle while it is being destroyed, or destroys or moves from one while a
  write through it is in progress.

## What the code does not do

- The state does not only move forward: `setState(Running)` is not atomic with the check of the stop
  flag before it, so Running can overwrite Stopping (`StoppingIsOverwritten`, a run from the start).
  `RunningOverwritesStopping` says exactly when, `OverwriteFollows` that it can always be made to
  happen; session exclusion, stickiness of the stop and the wakeups survive it.
- The TCP client can lose a buffer in the middle of a stream when the stop hook of one session is
  still executing in the next one (`LateHookLeavesAGap`, a run from the start).  The bytes are a prefix
  as long as no hook has cleared a non-empty queue while the flag was clear (`WirePrefix`);
  `EvenExactlyUnlessLost` shows the condition to be exact, `LostSkips` what happens otherwise.
- The gRPC engine can lose its listener without a stop request, when the stop hook of one session shuts
  down the server of the next (`LateHookLeavesNoListener`, a run from the start).  `OneListener` says
  exactly when a listener is armed.
- In the TCP server a descriptor whose handler thread cannot be created is closed twice
  (cTCPServer_V2.h:178-183 and then 122-125; `DescriptorClosedTwice`, a run from the start);
  `NodesOutliveHandlers` says that this is the only case.
- Two response handles destroyed at the same time can leave a request unanswered
  (`OverlapLosesTheAnswer`); `AnsweredUnlessAbandoned` says exactly when that happens.
- A handler that moves the response out and then throws is answered with 204 and not 500
  (`MovedResponseGets204`); `ExactlyOnce` says exactly when it is 500.
- Header values come back trimmed, and a reason phrase with a colon is parsed as a header
  (cHTTPClient.cpp:188-195); `ExactRoundTrip` says exactly when nothing changes.

## Model

| member | source | states |
|---|---|---|
| `Lifecycle.Worker.constructor` | cBaseWorker_V2.h:239-242 | a new worker is Stopped, with no stop requested and no thread |
| `Lifecycle.Worker.StartLocked` | cBaseWorker_V2.h:68-77 | a start is accepted exactly when the worker is Stopped and holds no joinable thread; it clears the flag and the stored exception, and stores the new thread |
| `Lifecycle.Worker.RequestStopLocked` | cBaseWorker_V2.h:140-157 | the flag is always raised; only Starting and Running become Stopping; the hook is due unless the worker is Stopped |
| `Lifecycle.Worker.TakeFinishedThread` | cBaseWorker_V2.h:328-338 | the handle moves out only when the worker is Stopped |
| `Lifecycle.Worker.TakeThread` | cBaseWorker_V2.h:346-356 | the handle moves out in any state |
| `Lifecycle.InvStep` | cBaseWorker_V2.h:62-99 | every step of starters, stoppers, waiters, joiners and workers keeps the lifecycle invariant: one owner of the session, one owner of each handle, no wakeup lost, Stopping exactly when the flag is set before Running |
| `Lifecycle.InvRun` | cBaseWorker_V2.h:264-290 | the lifecycle invariant holds in every state of every run |
| `LifecycleTheorems.SessionExclusion` | cBaseWorker_V2.h:62-99 | the state is out of Stopped exactly while one worker thread has not written its final Stopped or one starter is in its failed-spawn handler; no two threads execute `preRun()` or `run()` at once |
| `LifecycleTheorems.RunningOverwritesStopping` | cBaseWorker_V2.h:274-281 | writing Running overwrites Stopping exactly when a stop was requested since the check, and leaves the flag as it is |
| `LifecycleTheorems.OverwriteFollows` | cBaseWorker_V2.h:140-157 | in any run, whenever a worker is past its check, a stop request followed by the worker's step takes Stopping back to Running |
| `LifecycleScenes.StoppingIsOverwritten` | cBaseWorker_V2.h:274-281 | there is a run in which the state goes from Stopping to Running |
| `LifecycleTheorems.HandleConservation` | cBaseWorker_V2.h:328-362 | each spawned handle is owned by exactly one of `m_thread`, one joiner's local, or "joined"; joined means the thread has exited |
| `LifecycleTheorems.NeverOverwritten` | cBaseWorker_V2.h:68-77 | no step replaces a joinable `m_thread` by another thread |
| `LifecycleTheorems.FinishedJoinsAreLate` | cBaseWorker_V2.h:328-344 | `joinFinishedThread` only holds a thread past its last state write, so no thread inside `preRun()` or `run()` is joined that way |
| `LifecycleTheorems.JoinedOnce` | cBaseWorker_V2.h:340-343 | over a whole run no thread is joined twice |
| `LifecycleTheorems.NoLostWakeup` | cBaseWorker_V2.h:292-326 | a waiter asleep although its predicate holds is owed a `notify_all` by some thread |
| `LifecycleTheorems.StopSticks` | cBaseWorker_V2.h:244-252 | once the flag is set in a live session it stays set while that session's thread is live |
| `LifecycleTheorems.RequestedStopHolds` | cBaseWorker_V2.h:140-157 | after `requestStop` took the lock in a live session, the thread never gets past its check into `run()`, and `continueRunning()` is false until it has written Stopped |
| `LifecycleTheorems.StopAndJoinLeavesNothing` | cBaseWorker_V2.h:106-138 | with one controller, `stopThreadAndJoin` with a non-zero timeout, and the destructor, come back with the worker Stopped and every thread ever spawned exited and joined |
| `LifecycleTheorems.RaisedWithHook` | cBaseWorker_V2.h:140-171 | while a session is live, whoever raises the flag is bound to run the stop hook |
| `LifecycleAnswers.StartAnswer` | cBaseWorker_V2.h:62-99 | over a whole call, startThread says true exactly if it created its thread and, when it waits, the worker is Running as it returns, put there since by some thread; false means rejected, failed to create the thread, found Stopped, or timed out |
| `LifecycleAnswers.StopAnswer` | cBaseWorker_V2.h:106-172 | over a whole call, the request raised the flag, told whatever was running to stop, and went through the hook exactly if something was running; stopThread with a timeout says true only after it saw Stopped, and false only if it timed out in another state |
| `LifecycleAnswers.ThreadRecord` | cBaseWorker_V2.h:264-290 | when a thread writes Stopped, the stored exception tells whether `preRun()` or `run()` threw, `run()` was executed exactly if the flag was found clear, and the flag was looked at exactly if `preRun()` had returned true |
| `LifecycleAnswers.RunIsEarned` | cBaseWorker_V2.h:266-281 | a thread inside `run()` had a `preRun()` that returned true and found the flag clear |
| `TcpClientTheorems.ThreadStep` | cTCPClient_V2.h:112-129 | a writer that has not returned belongs to a session inside `run()`, and the outbound mutex has one holder |
| `TcpClientTheorems.WakeStep` | cTCPClient_V2.h:194-206 | every step keeps the writer's wakeup invariant, by where it stands in its wait |
| `TcpClientTheorems.WriterNeverOversleeps` | cTCPClient_V2.h:131-136 | a writer asleep with the flag set is owed a notify by a thread on its way through the stop hook; asleep with a payload queued, by a sender |
| `TcpClientTheorems.WriterAloneAndFed` | cTCPClient_V2.h:186-210 | two writers never coexist, and the writer never pops an empty queue |
| `TcpClientWire.FlattenConcat` | cTCPClient_V2.h:227-260 | the bytes of two lists of buffers are the bytes of one after those of the other |
| `TcpClientWire.WireFollowsPopped` | cTCPClient_V2.h:186-260 | in every run, for every pattern of partial sends, the bytes on a connection are a prefix of the popped buffers in order |
| `TcpClientWire.OldConnectionsRest` | cTCPClient_V2.h:227-260 | the bytes on a connection that is not the current one never change again |
| `TcpClientWire.WirePrefix` | cTCPClient_V2.h:47-61 | unless a hook has cleared a non-empty queue with the flag clear since `preRun`'s clear, the bytes on the current connection are a prefix of the concatenation, in enqueue order, of the buffers enqueued since then |
| `TcpClientWire.EvenExactlyUnlessLost` | cTCPClient_V2.h:262-267 | in a session past `preRun`'s clear with the flag clear, popped and queued buffers together are those enqueued if and only if no such clear happened |
| `TcpClientWire.LostSkips` | cTCPClient_V2.h:208-209 | after such a clear every buffer popped is one enqueued later than its turn |
| `TcpClientLateHook.LateHookLeavesAGap` | cTCPClient_V2.h:131-136 | there is a run, with such a clear, in which the second buffer is on the wire and the first one gone |
| `TcpClientAnswers.SendAnswer` | cTCPClient_V2.h:47-61 | over a whole call, `send` says true exactly if it enqueued the data, once, after finding the client starting or running; otherwise it enqueued nothing, and the data were empty or the client was not running |
| `TcpClientAnswers.OnlySendEnqueues` | cTCPClient_V2.h:54-57 | what is enqueued goes to the end of the queue, and only `send` enqueues |
| `TcpClientAnswers.PreRunAnswer` | cTCPClient_V2.h:81-110 | `preRun` answers true exactly if it got a socket and connected it; a socket that could not connect was closed |
| `TcpClientStops.StopReachesSocket` | cTCPClient_V2.h:131-136 | a session past its check and asked to stop has its socket closed, or some thread on its way to close it |
| `TcpClientStops.EndsMeanStop` | cTCPClient_V2.h:112-129 | while `run()` waits for the writer a stop has been requested; the writer only ends after one, and the reader only after one or with the socket closed |
| `TcpServerTheorems.InvRun` | cTCPServer_V2.h:87-130 | in every state of every run each accepted descriptor is in exactly one place, with the closes and joins that place implies |
| `TcpServerTheorems.RunLeavesNothing` | cTCPServer_V2.h:261-278 | when no `run()` is under way, `m_clients` is empty and every started session was joined once and its descriptor closed once |
| `TcpServerTheorems.ReturnedRunLeavesNothing` | cTCPServer_V2.h:128-130 | the same right after one `run()` has finished its drain |
| `TcpServerTheorems.NodesOutliveHandlers` | cTCPServer_V2.h:158-184 | a node outlives its handler, is joined at most once and destroyed only after; a descriptor is closed twice exactly when its handler thread could not be created |
| `TcpServerTwoCloses.DescriptorClosedTwice` | cTCPServer_V2.h:173-183 | there is a run in which a descriptor is closed twice |
| `TcpServerTheorems.JoinsWithoutMutex` | cTCPServer_V2.h:232-259 | a thread that joins a handler does not hold `m_clientsMutex` |
| `TcpServerStops.ReapTakesCompleted` | cTCPServer_V2.h:232-249 | a reap takes every session that had completed when it began, to be joined, and leaves none of them listed |
| `TcpServerStops.HookClosesListed` | cTCPServer_V2.h:280-287 | when a stop hook finishes, no listed session has an open socket |
| `TcpServerStops.OneAcceptAfterStop` | cTCPServer_V2.h:87-126 | of the clients a `run()` accepts, at most the last was accepted after a stop was requested |
| `TcpServerStops.LoopEndsForAReason` | cTCPServer_V2.h:96-120 | the accept loop is only left when a stop was requested, if need be by `run()`, or the listening socket was gone |
| `TcpServerStops.RefusedForAReason` | cTCPServer_V2.h:158-184 | a client is only refused a session when its node or its thread could not be made |
| `GrpcEngine.CallData.constructor` | cGenericGrpcWorker.h:229-233 | a new object is armed: it awaits its request |
| `GrpcEngine.CallData.Proceed` | cGenericGrpcWorker.h:237-281 | one event advances the object by one state; it posts an operation unless it deletes itself, and arms a successor only while running |
| `GrpcTheorems.TagOwnership` | cGenericGrpcWorker.h:226-281 | the outstanding operations are exactly the live objects, once each; no event finds its object gone |
| `GrpcTheorems.ServedOnce` | cGenericGrpcWorker.h:248-275 | a delivered request is handled once and finished once, with INTERNAL if the handler threw; each object is deleted at most once |
| `GrpcTheorems.NothingAliveAfterShutdown` | cGenericGrpcWorker.h:163-167 | when the loop sees SHUTDOWN every object ever made was deleted exactly once |
| `GrpcTheorems.OneListener` | cGenericGrpcWorker.h:248-254 | in every run never more than one armed listener; while the loop runs without a stop request exactly one if and only if none has failed since the first was armed, and none has while the server is up |
| `GrpcTheorems.ShutServerLosesListener` | cGenericGrpcWorker.h:172-179 | once the server is shut down the listener may fail, and then none is armed, whatever the flag says |
| `GrpcLateHook.LateHookLeavesNoListener` | cGenericGrpcWorker.h:185-198 | there is a run in which the loop goes on with no listener and the flag clear |
| `GrpcTheorems.HandleDrains` | cGenericGrpcWorker.h:169-181 | with the flag set, every delivered event decreases twice the listeners plus the finishing calls |
| `GrpcTheorems.DrainBounded` | cGenericGrpcWorker.h:148-182 | from the stop on, the number of delivered events is at most that measure |
| `GrpcStops.StopReachesEngine` | cGenericGrpcWorker.h:185-198 | while the loop runs with a stop requested, server and queue are shut down or some thread is on its way to do it; with none left and nothing outstanding the loop can end |
| `StartHandshake.StartState.ResetStartState` | cHTTPServer.cpp:252-259 | the start is unresolved again |
| `StartHandshake.StartState.ResolveStartIfPending` | cHTTPServer.cpp:261-284 | only the first outcome is recorded, and it is to be announced |
| `HandshakeTheorems.FirstOutcomeIsFinal` | cHTTPServer.cpp:261-284 | between resets the first outcome fixes success and port for good |
| `HandshakeTheorems.PortMeansSuccess` | cHTTPServer.cpp:796-818 | a non-zero port implies success; a starter asleep after the outcome is owed a notify |
| `HandshakeTheorems.StoppedIsSettled` | cHTTPServer.cpp:780-794 | while the only starter waits, a session that has reached Stopped is resolved, or some thread inside the stop hook will still resolve it |
| `HandshakeAnswers.OutcomeIsRecorded` | cHTTPServer.cpp:261-284 | in every run, success is recorded exactly if the first outcome since the last reset was the library listening, with that port; after any other first outcome it is false and the port 0 |
| `HandshakeAnswers.HttpStartAnswer` | cHTTPServer.cpp:569-579 | over a whole call, startThread says true exactly if the worker created its thread and, when it waits, the library has come to listen since the last reset; without an outcome it only gives up by a timeout |
| `HandshakeAnswers.HttpThreadAnswers` | cHTTPServer.cpp:725-778 | `preRun()` answers true exactly if the server could be built, and `run()` throws exactly if the library's `start()` did |
| `RespondOnce.AtMostOnce` | cHTTPServer.cpp:317-336 | over every interleaving the writer runs at most once, with the code of the first write to take the flag |
| `RespondOnce.WrittenByFirst` | cHTTPServer.cpp:317-336 | the writer is only called with what the step that took the flag says: the caller's code, 500 for the wrapper, 204 for the last destructor |
| `RespondOnce.AnsweredUnlessAbandoned` | cHTTPServer.cpp:303-310 | once the last handle is gone the writer has run, unless all remaining handles, two or more, had looked at the count before any dropped its reference; exactly then it has not |
| `RespondOnce.ExactlyOnce` | cHTTPServer.cpp:627-655 | exactly where the request is answered at all, it is answered once, with the code of the first to try; the last destructor is first exactly if nobody else tried; without user writes the answer is 500 exactly if the handler threw while the wrapper's handle held the state, and 204 exactly otherwise |
| `RespondOnce.OverlapLosesTheAnswer` | cHTTPServer.cpp:303-310 | there is a run after which two handles are gone and nothing was written |
| `RespondOnce.MovedResponseGets204` | cHTTPServer.cpp:634-655 | there is a run in which the handler threw and 204 was written |
| `SyncClient.Client.Connect` | cTCPSyncClient_V2.h:114-165 | success exactly if some address connects, on the first one that does; every other socket opened on the way is closed; the last error is kept |
| `SyncClient.Client.Close` | cTCPSyncClient_V2.h:173-180 | the socket is closed once if there was one |
| `SyncClient.Client.SendAll` | cTCPSyncClient_V2.h:210-258 | a prefix of the data goes on the wire, all of it exactly on Success, which is the outcome unless a call fails other than by an interruption; then the status is Timeout exactly for the timeout codes, else Failed, and the code is kept |
| `SyncClient.Client.ReceiveSome` | cTCPSyncClient_V2.h:260-303 | what it returns is what it consumed; unless a call fails it is Success, or Closed exactly at the end of the stream; a failure is Timeout exactly for the timeout codes, else Failed, and its code is kept |
| `SyncClient.Client.ReceiveExact` | cTCPSyncClient_V2.h:305-351 | success exactly if it consumed the requested number of bytes; unless a call fails the result is a function of the stream, for every chunking; a failure is classified and its code kept |
| `SyncClient.ExactReadsCompose` | cTCPSyncClient_V2.h:305-351 | exact reads of a and then b bytes succeed and yield the same as one of a + b |
| `SyncClient.Client.ReceiveUntilDelimiter` | cTCPSyncClient_V2.h:369-412 | for every chunking and interruption, unless a call fails, Success iff the delimiter occurs in the first min(maxBytes, length) bytes, else Failed iff the stream reaches maxBytes, else Closed; a failure is classified and its code kept; `out` is what was consumed; at most 4095 bytes follow the first occurrence |
| `SyncClient.FoundEarly` | cTCPSyncClient_V2.h:396-402 | a delimiter found in the bytes so far decides the stream's outcome |
| `SyncClient.NeverFound` | cTCPSyncClient_V2.h:405-411 | none found in all there is, or in maxBytes, decides it the other way |
| `SyncClient.LittleFollows` | cTCPSyncClient_V2.h:391-402 | when the delimiter was absent before the last chunk, fewer than a chunk's bytes follow it |
| `SyncClient.Client.ReceiveUntilClosed` | cTCPSyncClient_V2.h:414-456 | for every chunking, unless a call fails, Success with the whole stream if shorter than maxBytes, else Failed with its first maxBytes bytes; after a failure never Success, but Timeout exactly for the timeout codes, else Failed, with the code kept |
| `SyncClient.Client.ExchangeOnce` | cTCPSyncClient_V2.h:474-497 | no socket stays open on any exit; on success the whole request went out; the response is a beginning of the stream; the status is that of the first failing call, or Closed exactly for an empty stream, or Success |
| `SyncClient.Client.ExchangeOnceUntilClosed` | cTCPSyncClient_V2.h:515-544 | no socket stays open on any exit; the status is that of the first failing call, Failed with the code of a failing shutdown, or that of the whole stream, which comes back up to the limit |
| `Container.GrabPartitions` | simple_container_V2.h:167-210 | the erase loop is a stable partition of the items from the offset on, for every sequence of decisions, and a requeue leaves remaining then grabbed |
| `Container.GrabConserves` | simple_container_V2.h:167-210 | result and container together hold the items there were, at most `count` are taken, and the items before the offset do not move |
| `Container.EndIsUnique` | simple_container_V2.h:181-207 | where the walk ends is determined by the decisions |
| `Container.FilterKeepsOrder` | simple_container_V2.h:192-206 | the taken, and the kept, items sit at increasing positions, exactly those so decided |
| `Container.PartitionConserves` | simple_container_V2.h:192-206 | taken and kept items together are the items |
| `Container.Items.GrabSelected` | simple_container_V2.h:167-210 | the locked operation does that partition, and nothing for a zero count or an empty function |
| `Container.Items.GrabFrom` | simple_container_V2.h:181-209 | the in-place loop computes the walk |
| `Container.Items.GrabFront` | simple_container_V2.h:298-312 | the first items are removed, as many as asked for and present |
| `Container.Items.Snapshot` | simple_container_V2.h:215-233 | up to `count` items from the offset on, the container unchanged |
| `HttpHeaders.IEquals` | cHTTPServer.cpp:68-85 | equality up to the case of ASCII letters |
| `HttpHeaders.FindHeader` | cHTTPServer.cpp:87-98 | whether some field has that name in any case |
| `HttpHeaders.WriteResponse` | cHTTPServer.cpp:173-207 | start line, the named fields in order, a Content-Length exactly when the caller gave none, an empty line, the body; a null response is left alone |
| `HttpHeaders.WriteFields` | cHTTPServer.cpp:186-194 | the field loop prints the named fields in order |
| `HttpHeaders.TrimCopy` | cHTTPClient.cpp:54-69 | the two loops compute the trimmed text |
| `HttpHeaders.TrimUnique` | cHTTPClient.cpp:54-69 | cutting blank ends down to something trimmed has one result |
| `HttpHeaders.TrimSplits` | cHTTPClient.cpp:54-69 | what was cut is blank, and what is left is trimmed |
| `HttpHeaders.WriteHeaderCallback` | cHTTPClient.cpp:169-198 | null pointers are refused and change nothing; a start line clears the record; every line is kept verbatim and split at its first colon |
| `HttpHeaders.Response.HeaderValue` | cHTTPClient.cpp:232-243 | the value of the first field of that name in any case, else nothing |
| `HttpHeaders.DecimalParses` | cHTTPServer.cpp:197-200 | the printed length reads back as the length |
| `HttpRoundTrip.TokensAreSendable` | cHTTPServer.cpp:186-194 | fields with token names (section 5.6.2 of RFC 9110) can be carried |
| `HttpRoundTrip.HeaderRoundTrip` | cHTTPClient.cpp:169-198 | whatever was recorded before, feeding the printed lines leaves the named fields, trimmed and in order, the length when the caller gave none, the head verbatim, and the body unread |
| `HttpRoundTrip.ExactRoundTrip` | cHTTPServer.cpp:173-207 | nothing changes exactly when the named fields are trimmed and the reason phrase has no colon |
| `HttpRoundTrip.LookupRoundTrip` | cHTTPClient.cpp:232-243 | a lookup in any case finds the caller's first value of that name, or the body's length when the caller gave none |
| `HttpText.SameNameMeans` | cHTTPServer.cpp:68-85 | two names are the same exactly if they agree character by character up to the case of ASCII letters |
| `HttpText.LengthIsAddedOnce` | cHTTPServer.cpp:197-200 | the length is added exactly when no field of the caller is called Content-Length in any case, and it is the decimal size of the body |
| `HttpText.LookupIsFirst` | cHTTPClient.cpp:232-243 | a lookup answers with the first field that has the name in any case, or with nothing |
| `HttpText.TrimMeans` | cHTTPClient.cpp:54-69 | trimming takes away all spaces, tabs and line characters at both ends and nothing else |
| `HttpText.NamedSplits` | cHTTPServer.cpp:186-195 | fields are passed over exactly if they have no name, and the order is kept |
| `HttpText.PrintedReadsBack` | cHTTPServer.cpp:173-207 | a strict reader gets back from the printed text the version, the status or its code, the named fields with untouched values in order, the added length, and the body |

## Left out

- Sockets, DNS, libcurl, asio, Simple-Web-Server, OpenSSL and gRPC themselves: only the contracts above.
- cHTTPSServer.cpp, cHTTPServer_V2.cpp, cHTTPSServer_V2.cpp: the same logic with certificates, or asio plumbing; the handshake theorem is about cHTTPServer.cpp only, since the stop hook of cHTTPServer_V2.cpp can return without resolving.
- cThreadQueue_V2.h, the legacy TCP classes, cGrpcServerWorker.h, scope_exit.h, the examples: short invariants, or code whose base class is not part of this model.
- Heartbeats, clocks, names, the text of `lastError`, and memory orders weaker than sequential consistency.
- Wakeups of the container: a batch insert notifies one waiter, so nothing is claimed about waiters.
- Throwing selection functions in the container, and allocation failures other than those the TCP server catches.
- Failure to create the TCP client's two threads, and the exception paths of its loops; the destructors of the TCP client and server.
- The TCP server's listening socket; that closing a client's socket makes its handler's receive end.
- `shutdown` and `close` of the TCP client's socket as steps apart from the exchange of its descriptor.
- The body and the fields that a response is written with, beyond its code, in the respond-once protocol; the data handed to the receive callbacks of the TCP client and server.
- Assignment of response handles, which drops a reference without running the destructor.
- A gRPC listener armed after the queue was shut down: the first one, and a successor armed between the read of `continueRunning()` and the shutdown, since one turn of the loop is one step.
- `boundPort()` of the gRPC worker.
- `stopThreadAndJoin` with a zero timeout is modelled, but may return without joining; `StopAndJoinLeavesNothing` is about the other timeouts.
- Header names and values with line ends, names with a colon or starting with `HTTP/`: the format cannot carry them.
