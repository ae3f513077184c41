# A model of the xtp TCP proxy, with proofs

xtp is a single-threaded, event-driven TCP proxy. It queues client connections, opens at most
`working_num_max` of them at a time to upstream servers chosen in turn, and copies bytes both ways
through chains of pooled buffers. All its callbacks run on one libev loop, so a run is any sequence
of callbacks of started watchers, with any answers of the sockets and any passage of time that no
active timer forbids.

## How the project is laid out

There are two layers.

The specification layer is made of values and functions, and the whole-run theorems are about it.

- `Admission` has the control state (statuses, watchers, timers, counters, the waiting queue) and
  what each callback does to it. `AdmissionInvariant` and `AdmissionSteps` show what every callback
  keeps; `Scheduler` is about failover, work conservation and the repaired timeout; `ControlRuns`
  has theorems about whole runs, `ControlHistory` those about what a run leaves behind and about two
  moments of it, `Lifecycle` those about the life of a single connection, and `ControlWitnesses` runs
  that go wrong.
- `Nio` has the socket loops, `BufPool` the pool, `Pipe` the chains of buffers with their receive
  and send loops, and `LoopEnds` tells why those end.
- `Proxy` puts both sides together; `ConnectionMoves` and `Evolution` tell what a callback does to each
  single connection, `Streams` and `Ownership` show what a step keeps,
  `ProxyRuns` has the theorems about whole runs with bytes, and `ProxyWitnesses` runs that go wrong.

The memory layer has the source's own form: objects whose fields change, loops and pointers.

- `Nio.RecvN` and `Nio.SendN` are the socket loops over an array; `Buffers` has the buffers and the
  free list of the pool; `Chains` has the buffer loops of the callbacks; `Listeners` has the
  connections, the listener and the mutual recursion of `x_upstream_handle` and
  `x_upstream_final`; `Transfers` frames an operation on one chain against all the others;
  `Callbacks` has the callbacks and `EventLoop` the loop.
- Each method is shown to compute the function of the specification layer that describes it.
  `EventLoop.Dispatch` says so of one round of the loop: in memory that represents a model state, the
  callback of any enabled event leaves memory that represents the next model state. `EventLoop.Run`
  says so of whole runs, from the empty proxy on.
- `TailQueue` and `SingleTailQueue` are the intrusive queues with their tail pointers, and `Zmalloc`
  is the allocation accounting.

## What comes out

The main results hold for every configuration with at least one upstream server and positive
timeouts, and for every run from the start.

Two behaviours of the program decide how the results read. Both are kept as they are.

- When `connect()` fails at once, `upc_status` is `CONN_CONNECT` already, so `x_upstream_final` takes
  one off `working_num` that was never added. The exact law is
  `working_num + refusals == open upstream sockets`, where the refusals are those that the callbacks
  of the run meet: at the front of a callback's script, when it calls the scheduler while a connection
  waits and a place is free. In a run in which no `connect()` is refused the maximum holds
  (`ControlRuns.UpstreamConcurrency`); `ControlWitnesses.RefusalOvershoots` is a run with two open
  sockets under a maximum of one. The same failures are what the recursion between the two functions
  follows: it ends by itself exactly when some server accepts (`Scheduler.FailoverEndsIffSomeGood`),
  and `ControlWitnesses.RefusalsWithoutEnd` reaches any number of attempts in one callback.
- `x_timeout_cb` overwrites `CONN_WAITING` before `x_event_close` looks at it, so a connection that
  times out in the queue is freed while it is linked. A run never has freed memory in its queue and
  never touches any exactly when no access timer fires on a waiting connection
  (`ControlRuns.QueueSoundIffWaitingSpared`);
  `ControlWitnesses.TimeoutInQueueTouchesFreedMemory` is a run that does touch it. With the
  overwriting removed the hypothesis is not needed (`Scheduler.GentleKeeps`), and nothing changes for
  the other connections (`Scheduler.GentleSame`). The other invariants of the control state, among
  them the counters, the status pairs and the order of admission, hold with or without the
  hypothesis, up to the first touch of freed memory.

A third is an asymmetry: on `EAGAIN` the sender towards the client keeps its watcher and the sender
towards the server stops it. So the wakeup towards the client is never lost, and the one towards the
server is lost exactly there (`ProxyRuns.StallIffGivesUp`); `ProxyWitnesses.WakeupIsLost` is a run in
which it is.

A fourth is in `x_recvn`: when bytes and the end of the stream come in the same call, the result is that
of the end alone and the bytes are given up. `Nio.UnreportedIff` says exactly when a call does so, and in
`ProxyWitnesses.LastBytesAreLost` a client is closed without having been sent its server's answer. As long
as an end has not failed nothing is lost (`ProxyRuns.NothingLostWhileOpen`).

What a connection looks like in a reachable state follows from the events of the run, as `Lifecycle`
tells: the statuses of both sides, the senders that are on, the deadlines of both sides, and the only
moment at which it can be freed.

## Conventions of the model

- The outcomes of the `socket()`/`connect()` pairs of one callback are a finite list, consumed in
  order; once it is used up, `socket()` fails. That ends the recursion of the scheduler, so every
  callback that returns is described by some list. The answers of `recv()` and `send()` are scripts
  too, and an exhausted script answers `EAGAIN`.
- Connections are numbered as they are accepted and a number is never used again, so freed memory is
  recognised as such even where `malloc()` would hand out the same address.
- libev is the rule "a started watcher may fire": a timer fires at its deadline, and time does not
  pass the deadline of an active timer.
- `History` and the fields `src`, `inn`, `out` and `wire` record what has happened; no branch of the
  program looks at them.
- A buffer's cursors are offsets from `start`; the room of a buffer is any positive number.
- `accept()` failing for good leads to a connection all the same, as in the source.

## Model

| member | source | states |
|---|---|---|
| `ControlRuns.UpstreamConcurrency` | src/xtp_upstream.c:72-94 | in every reachable state `working_num` plus the refusals met by the run is the number of open upstream sockets; so `working_num` is exact iff the run met none, the sockets exceed the maximum by at most the refused `connect()` calls of the run, and not at all in a run without any |
| `ControlRuns.ReactFails` | src/xtp_upstream.c:127-131 | a callback logs exactly the refusals at the front of its script, and only if it calls the scheduler while a connection waits and a place is free |
| `ControlWitnesses.RefusalOvershoots` | src/xtp_upstream.c:127-131 | a run with a maximum of one in which a refusal leads to two open upstream sockets |
| `ControlWitnesses.RefusalsWithoutEnd` | src/xtp_upstream.c:38-46 | for every n, a run of one client in which a single callback goes through n refused attempts, `working_num` ends at -n and the client still waits |
| `ControlRuns.ClientCount` | src/xtp_access.c:186-190 | `c_count` is the number of unfreed connections that are not closed, whichever way they were closed, and stays within a non-negative `access.max` |
| `ControlRuns.StatesAndWatchers` | src/xtp_upstream.c:110-120 | between callbacks only eight pairs of statuses occur; which watcher and timer is active follows from the pair, and a closed connection has no I/O watcher |
| `ControlHistory.FifoAdmission` | src/xtp_upstream.c:36-43 | the log of enqueued connections without those closed while waiting is the log of admissions followed by the queue, and nobody is enqueued or admitted twice; an unfreed connection waits iff it is in the queue, works iff it has been admitted and is not closed, and is closed if it was dropped |
| `ControlHistory.NoOvertaking` | src/xtp_upstream.c:26-43 | while a connection waits, none that came to the queue after it has been given an upstream server |
| `ControlHistory.LogsGrow` | src/xtp_access.c:252-262 | between any two moments of a run the logs used by the other results have only been added to |
| `ControlHistory.AcceptTime` | src/xtp_access.c:186-213 | a connection accepted in a move has the time of that move as its accept time, for the rest of the run |
| `ControlHistory.BoundedLifetime` | src/xtp_access.c:142-167 | each accepted connection is unfreed or was freed exactly once, no earlier than it was accepted and no later than that time plus access timeout plus `CONN_FREE_TIMEOUT`; past that moment it is not unfreed |
| `ControlHistory.DeadlineIsFixed` | src/xtp_access.c:210-211 | at any two moments of a run a connection that is not closed at the later one has the same deadline, its accept time plus the access timeout |
| `Lifecycle.StatusesFollowEvents` | src/xtp_access.c:17-167 | in every reachable state the two statuses of each connection are those that a small automaton computes from the events alone: the client's bytes and end, the server's answer and end, the two timers and the connection's own turns of the scheduler |
| `Lifecycle.WaitingUntouched` | src/xtp_upstream.c:96-104 | a client without a server has a closed upstream side and an active sender iff a `connect()` for it has been refused, and otherwise neither, however often no socket was to be had |
| `Lifecycle.ClosedDeadline` | src/xtp_access.c:34-35 | from the step that closes a client, at time t, until it is freed its timer stands at t plus `CONN_FREE_TIMEOUT` |
| `Lifecycle.FreedWhen` | src/xtp_access.c:142-167 | a connection is freed exactly when the access timeout has passed since it was accepted, if it is not closed by then, and otherwise exactly `CONN_FREE_TIMEOUT` after the step that closed it |
| `Lifecycle.ConnectingSince` | src/xtp_upstream.c:119-120 | a connection that is being connected was given that server, the next in turn, by one move of the run, and its upstream deadline is that moment plus `CONN_CONNECT_TIMEOUT` |
| `Lifecycle.ConnectedSince` | src/xtp_upstream.c:174-179 | a connected server was connected by one move, and its deadline is that moment plus the timeout configured for that server |
| `Lifecycle.PeerDeadlineIsFixed` | src/xtp_upstream.c:182-259 | at any two moments at which the upstream side is in the same open state its deadline and its server are the same: traffic does not move them |
| `Lifecycle.CutOffWhen` | src/xtp_upstream.c:261-273 | the upstream timer fires exactly when that time has passed |
| `Lifecycle.DrySenderStops` | src/xtp_access.c:104-137 | with nothing left to send and the server not gone, the client's sender stops and nothing else changes |
| `Lifecycle.SenderOnIff` | src/xtp_access.c:87-92 | the sender of an unclosed client is on iff bytes of its server or the end of its upstream side have come since it last ran dry; without an upstream side it is off |
| `Lifecycle.PeerSenderOnIff` | src/xtp_upstream.c:174-217 | the sender towards a connected server is on iff the connection was made, or the client sent something, after it last ran |
| `ControlRuns.QueueSoundIffWaitingSpared` | src/xtp_access.c:141-151 | the queue never holds, and no step touches, freed memory iff no access timer fires on a waiting connection |
| `ControlWitnesses.TimeoutInQueueTouchesFreedMemory` | src/xtp_access.c:146-148 | a run in which a connection times out in the queue and the next insertion writes into its memory |
| `ControlRuns.GentleRunsAreSound` | src/xtp_access.c:141-151 | had `x_timeout_cb` left the status alone, no run would touch freed memory or leave it in the queue, whichever timers fire |
| `ControlRuns.WorkConservation` | src/xtp_upstream.c:26-43 | when every attempt gets through, after every callback the queue is empty or all places are taken, although each callback calls the scheduler once |
| `ControlRuns.RoundRobinFair` | src/xtp_upstream.c:145-147 | choice number k is server k modulo their number, so in any window of choices two servers differ by at most one |
| `AdmissionInvariant.HandleKeeps` | src/xtp_upstream.c:18-49 | the scheduler keeps the invariant through its recursion over failing attempts |
| `AdmissionInvariant.HandleFrame` | src/xtp_upstream.c:26-46 | the scheduler changes only connections of the queue, leaves none of them half-closed, and touches no freed memory unless the queue held some |
| `AdmissionInvariant.FinalKeeps` | src/xtp_upstream.c:72-94 | closing the upstream side, with the admission nested in it, keeps the invariant and closes exactly that side |
| `AdmissionSteps.EventCloseKeeps` | src/xtp_access.c:17-39 | closing a client keeps the invariant and leaves it closed with its accept time |
| `AdmissionSteps.TimeoutKeeps` | src/xtp_access.c:142-167 | the access timer of a connection that is not waiting keeps the invariant and a sound queue |
| `AdmissionSteps.TimeoutWaiting` | src/xtp_access.c:146-150 | the access timer of a waiting connection leaves the queue unchanged, so that it holds a freed connection |
| `AdmissionSteps.AcceptKeeps` | src/xtp_access.c:169-215 | accepting keeps the invariant |
| `AdmissionSteps.ReceivedKeeps` | src/xtp_access.c:73-84 | queueing and scheduling after a receive keep the invariant |
| `AdmissionSteps.SentKeeps` | src/xtp_access.c:112-138 | the four ends of the send loop towards the client keep the invariant |
| `AdmissionSteps.ConnectedKeeps` | src/xtp_upstream.c:154-180 | both ends of a pending connect keep the invariant |
| `AdmissionSteps.UpstreamReceivedKeeps` | src/xtp_upstream.c:234-258 | both ends of the receive loop from the server keep the invariant |
| `AdmissionSteps.UpstreamSentKeeps` | src/xtp_upstream.c:195-218 | the ends of the send loop towards the server keep the invariant |
| `AdmissionSteps.UpstreamTimeoutKeeps` | src/xtp_upstream.c:261-273 | the upstream timer keeps the invariant |
| `AdmissionSteps.ReactKeeps` | src/xtp_access.c:252-262 | every enabled callback keeps the invariant, and a sound queue stays sound iff the callback is not the access timer of a waiting connection |
| `Scheduler.Failover` | src/xtp_upstream.c:36-48 | the head of the queue is admitted to the first accepting server after exactly the d refusing ones before it; `working_num` changes by 1 - d and d + 1 attempts are made |
| `Scheduler.SchedulerAtOnce` | src/xtp_upstream.c:18-49 | the recursion at once, for any outcomes: after the refusals at the front of the script the next attempt ends it; what becomes of the head of the queue, the counters, the queue, the chosen servers, the rest of the script and the result |
| `Scheduler.SchedulerIdle` | src/xtp_upstream.c:26-31 | with nobody waiting or no free place nothing happens, and the result says which |
| `Scheduler.NoSocketWaitsOn` | src/xtp_upstream.c:102-104 | an attempt without a socket leaves the client waiting with its upstream side, watchers, timers, the queue and the counters as they were |
| `Scheduler.AllRefused` | src/xtp_upstream.c:38-46 | while every attempt is refused the recursion uses up any number of them, each taking one off `working_num`, and the queue stays |
| `Scheduler.FailoverEndsIffSomeGood` | src/xtp_upstream.c:18-49 | with the outcome of each server fixed, the recursion ends by itself iff some server accepts, and then within one round |
| `Scheduler.ReactConserves` | src/xtp_access.c:73-79 | one scheduler call per callback is enough: no callback whose attempts get through leaves a free place beside a waiting connection |
| `Scheduler.HandleIgnores` | src/xtp_upstream.c:18-49 | the scheduler does not depend on connections outside the queue |
| `Scheduler.GentleSame` | src/xtp_access.c:142-150 | not overwriting the status makes no difference for a connection that is not waiting |
| `Scheduler.GentleKeeps` | src/xtp_access.c:30-33 | not overwriting the status, no timeout ever leaves a freed connection in the queue |
| `Nio.ReceivedContract` | src/xtp_nio.c:10-32 | a result k >= 0 means exactly the next k bytes of the stream, in order; a negative one that a prefix short of the request may have been taken unreported |
| `Nio.ReceivedEnds` | src/xtp_nio.c:10-32 | a call that ends before its room is full has used up answers to one that failed, closed, or was `EAGAIN`, or all of them, and its result says which |
| `Nio.UnreportedIff` | src/xtp_nio.c:10-32 | a call takes bytes without reporting them iff an answer that fails or closes comes right after them, before its room is full |
| `Nio.SentContract` | src/xtp_nio.c:35-57 | the call uses the kernel's answers as long as they let it go on; it moves as many bytes as these take, up to the request; -1 iff the last was an error, -2 iff it took nothing, short otherwise only at `EAGAIN` or when there are no more answers |
| `Nio.RecvN` | src/xtp_nio.c:10-32 | the loop over the socket computes that function, stores the bytes at the right place and writes nothing else |
| `Nio.SendN` | src/xtp_nio.c:35-57 | the loop over the socket computes that function and puts the next bytes of the array on the wire, in order, that many |
| `BufPool.AllocExchange` | src/xtp_bufpool.c:47-93 | allocation moves one buffer out of the pool and creates only new ones: nothing is lost or held twice |
| `BufPool.FreeAllExchange` | src/xtp_bufpool.c:113-128 | giving buffers back loses and duplicates none |
| `BufPool.GrowthBound` | src/xtp_bufpool.c:47-72 | after any history of allocations and releases `max` is at most max(start, 2 * (peak - 1)), and it counts the buffers |
| `ProxyRuns.PoolGrowth` | src/xtp_bufpool.c:51-71 | the same for every run of the proxy, where the peak is the most buffers that chains of connections have held after any step; and `max` is `n` plus the buffers in chains |
| `BufPool.GrowthCountsIffNotEmpty` | src/xtp_bufpool.c:51-52 | growth keeps `max` the number of buffers iff the pool was not started without any |
| `Buffers.BufferPool.constructor` | src/xtp_bufpool.c:9-35 | the loop links that many different buffers into the free list |
| `Buffers.BufferPool.Grow` | src/xtp_bufpool.c:47-72 | the growth loop, on the linked free list |
| `Buffers.BufferPool.Alloc` | src/xtp_bufpool.c:74-93 | allocation on the linked free list, calling itself at most once; the buffer handed out is in no other place and empty |
| `Buffers.BufferPool.Free` | src/xtp_bufpool.c:113-128 | release onto the linked free list |
| `Pipe.FillRefines` | src/xtp_access.c:47-71 | the receive loop appends to a byte queue exactly what was committed, in order, whatever the socket answers, and keeps the shape of the chain |
| `Pipe.DrainRefines` | src/xtp_access.c:100-131 | the send loop takes from the front of a byte queue exactly what was counted; it finds nothing left to send iff the chain holds no unsent byte, although it looks at one buffer |
| `LoopEnds.FillReadsAll` | src/xtp_upstream.c:233-250 | the receive loop leaves nothing that could be read, however many buffers that takes; it fails iff the socket has failed or is closed |
| `LoopEnds.DrainHalts` | src/xtp_upstream.c:195-210 | the send loop fails iff the kernel does, and gives up only when the kernel takes nothing more for now |
| `Pipe.FillSwaps` | src/xtp_access.c:47-69 | the receive loop only moves buffers from the pool into the chain |
| `Pipe.DrainSwaps` | src/xtp_access.c:126-131 | the send loop only moves buffers from the chain into the pool |
| `Streams.NextFlows` | src/xtp_upstream.c:182-259 | every step keeps, for both directions of every connection: sent plus unread is committed, and what the statuses say about the bytes |
| `Ownership.TransferOwned` | src/xtp_access.c:154-161 | every step keeps each buffer at exactly one place |
| `ProxyRuns.ControlRunOf` | src/xtp_access.c:252-262 | a run with bytes goes through a run of the control state, so the theorems about those hold for it |
| `ProxyRuns.StreamIntegrity` | src/xtp_access.c:41-139 | for every connection, direction and run: bytes counted as sent followed by the unread bytes are the committed ones, and the destination has got a prefix of the source's stream |
| `ProxyRuns.NothingLostWhileOpen` | src/xtp_access.c:54-71 | as long as neither end has failed no byte was taken without being committed and none was sent uncounted |
| `ProxyRuns.EndToEnd` | src/xtp_access.c:41-139 | the bytes of the client come from the client's socket only and go to the server's only, and the other way round: no event moves any between other ends |
| `ProxyRuns.ExclusiveOwnership` | src/xtp_bufpool.c:74-128 | after every run each buffer ever made is in the pool or in one direction of one unfreed connection, and nowhere else; `n` and `max` are right |
| `ProxyRuns.AllBuffersReturn` | src/xtp_access.c:154-167 | once all connections are freed, `n == max` |
| `ProxyRuns.NoLostWakeup` | src/xtp_upstream.c:87-89 | an unclosed client with unsent bytes or a closed server always has its send watcher active |
| `ProxyRuns.StallIffGivesUp` | src/xtp_upstream.c:203-217 | unsent bytes for a connected server lose their watcher iff the step is the `EAGAIN` exit of the sender |
| `ProxyWitnesses.WakeupIsLost` | src/xtp_upstream.c:203-217 | a run of four events after which a byte waits for a connected server and no watcher will send it |
| `ProxyWitnesses.LastBytesAreLost` | src/xtp_upstream.c:233-239 | a run of five events in which a server answers and closes, and the client is closed without the answer |
| `ProxyRuns.NoLostWakeupTowardsServer` | src/xtp_access.c:81-83 | in a run without that exit they always have one |
| `ProxyRuns.DrainBeforeClose` | src/xtp_access.c:126-137 | when the client is closed because the server has closed, every committed byte has been sent to it |
| `Chains.Chain.AddBuffer` | src/xtp_access.c:49-50 | in memory: a new buffer at the end of a chain, apart from all others |
| `Chains.Chain.Fill` | src/xtp_access.c:47-71 | in memory: the receive loop over cursors, arrays and pool computes the model's receive loop |
| `Chains.Chain.DropFirst` | src/xtp_access.c:127-129 | in memory: the first buffer goes back to the pool |
| `Chains.Chain.Drain` | src/xtp_upstream.c:188-215 | in memory: the send loop computes the model's send loop, down to the bytes on the wire |
| `Chains.Chain.Release` | src/xtp_access.c:154-161 | in memory: all buffers of a chain go back, in order |
| `Listeners.Listener.constructor` | src/xtp_access.c:236-248 | the fresh listener and pool represent the start of the model |
| `Listeners.Listener.ChoosePeer` | src/xtp_upstream.c:138-152 | the index arithmetic picks the next server in turn |
| `Listeners.Listener.ConnectionNew` | src/xtp_upstream.c:96-135 | the three ends of an attempt, with the fields each has set by then |
| `Listeners.Listener.UpstreamInit` | src/xtp_upstream.c:57-70 | an attempt with a chosen server, in memory |
| `Listeners.Listener.UpstreamHandle` | src/xtp_upstream.c:18-49 | the mutual recursion in memory computes the model's scheduler, result and consumed outcomes included |
| `Listeners.Listener.UpstreamFinal` | src/xtp_upstream.c:72-94 | the other half of the recursion |
| `Listeners.Listener.EventClose` | src/xtp_access.c:17-39 | the close with the unlinking from the queue, in memory |
| `Transfers.FillSide` | src/xtp_upstream.c:233-250 | in memory: a receive loop moves the bytes of one direction as the model does and touches no other chain, connection or counter |
| `Transfers.DrainSide` | src/xtp_access.c:100-131 | in memory: the same of a send loop |
| `Callbacks.AcceptCb` | src/xtp_access.c:169-215 | in memory: accepting adds a connection with two empty chains, or nothing when the limit is reached |
| `Callbacks.RecvCb` | src/xtp_access.c:41-85 | in memory: bytes and control state change as in the model |
| `Callbacks.SendCb` | src/xtp_access.c:94-139 | in memory: bytes and control state change as in the model |
| `Callbacks.TimeoutCb` | src/xtp_access.c:142-167 | in memory: close, release of both chains and freeing; afterwards the queue of the listener is sound iff the connection is not in it |
| `Callbacks.UpstreamConnectedCb` | src/xtp_upstream.c:154-180 | in memory: both ends of a pending connect |
| `Callbacks.UpstreamSendCb` | src/xtp_upstream.c:182-219 | in memory: bytes and control state change as in the model |
| `Callbacks.UpstreamRecvCb` | src/xtp_upstream.c:221-259 | in memory: bytes and control state change as in the model |
| `Callbacks.UpstreamTimeoutCb` | src/xtp_upstream.c:261-273 | in memory: the upstream timer |
| `EventLoop.Dispatch` | src/xtp_access.c:252-262 | one round of the loop: for every enabled event the program in memory takes exactly the step of the model; its queue stays sound iff the event is not the access timer of a waiting connection |
| `EventLoop.Run` | src/xtp_access.c:236-262 | from the empty proxy, after every run in which no access timer fires on a waiting connection, the memory represents the state that the model reaches |
| `TailQueue.Queue.constructor` | src/queue.h:488-491 | an empty queue whose tail pointer points to its own first-field |
| `TailQueue.Queue.InsertTail` | src/queue.h:504-510 | appends, through the tail pointer; elements stay distinct and back pointers right |
| `TailQueue.Queue.InsertHead` | src/queue.h:493-502 | prepends |
| `TailQueue.Queue.Remove` | src/queue.h:532-542 | takes out exactly the given element, wherever it stands, through its back pointer |
| `TailQueue.Queue.Concat` | src/queue.h:556-563 | appends all elements of another queue and leaves that one empty |
| `SingleTailQueue.Queue.constructor` | src/queue.h:593-596 | an empty queue |
| `SingleTailQueue.Queue.InsertTail` | src/queue.h:604-608 | appends, through the tail pointer |
| `SingleTailQueue.Queue.InsertHead` | src/queue.h:598-602 | prepends |
| `SingleTailQueue.Queue.RemoveHead` | src/queue.h:616-619 | takes out the first element and moves the tail pointer back when it was the only one |
| `SingleTailQueue.Queue.Remove` | src/queue.h:621-632 | the cursor loop ends and takes out exactly the given element |
| `SingleTailQueue.Queue.Concat` | src/queue.h:644-650 | appends all elements of another queue and leaves that one empty |
| `SingleTailQueue.Queue.Last` | src/queue.h:652-656 | the element around the field that the tail pointer points to is the last one |
| `Zmalloc.MaskIsRemainder` | src/zmalloc.c:92 | the mask computes a remainder |
| `Zmalloc.TermCovers` | src/zmalloc.c:90-98 | the amount accounted for a block is its size with the prefix rounded up to a multiple of eight, exactly for the sizes for which that fits in a `size_t` |
| `Zmalloc.PrefixMovesOut` | src/zmalloc.c:174-175 | `zrealloc` may leave the prefix out on both sides and `zmalloc_size` may add it after rounding, wrap-around included |
| `Zmalloc.ApplyKeeps` | src/zmalloc.c:123-210 | every call keeps `used_memory` the sum over the live blocks, modulo 2^64 |
| `Zmalloc.HeadersAreRequests` | src/zmalloc.c:132-176 | after any history of calls each live block is preceded by the size last requested for it, as told from the calls alone, and nothing else is recorded |
| `Zmalloc.Accounting` | src/zmalloc.c:73-108 | after any history of calls `used_memory` is, modulo 2^64, the sum over the live blocks of the sizes last requested, with prefix and rounded up; it is that sum itself iff the sum is in range |
| `Zmalloc.Allocator.Zmalloc` | src/zmalloc.c:123-135 | allocation with its header and statistics |
| `Zmalloc.Allocator.Zrealloc` | src/zmalloc.c:151-178 | reallocation, of NULL too and in place or not |
| `Zmalloc.Allocator.ZmallocSize` | src/zmalloc.c:184-191 | reports exactly the amount accounted for the block |
| `Zmalloc.Allocator.Zfree` | src/zmalloc.c:194-210 | release; of NULL it does nothing |

## Left out

- Sockets, libev, `fcntl`, address handling and logging: the kernel is a script of answers and libev the rule "a started watcher may fire".
- EventLoop.Run: in memory a run goes no further than the access timer of a waiting connection, after which the queue holds freed memory; the control state describes what follows up to the first touch of it.
- Listeners.Listener.UpstreamHandle: the waiting queue of a listener and the buffers of a connection are sequence fields there; the pointers of the queue macros are shown to behave like sequences in TailQueue and SingleTailQueue.
- Reuse of a freed connection's address by `malloc()`.
- Failing `malloc()`, and the descriptor leaked when `x_setNonBlock` fails after `socket()`; it counts as getting no socket.
- `x_buf_adjust`, `x_buf_uninit` and the branch of `x_buf_free` for oversized buffers: not reached by the callbacks.
- Zmalloc.Accounting: a machine where `long` and `size_t` have eight bytes; other sizes are not modelled.
- `zmalloc` on several threads, its RSS and fragmentation reports and its handler for lack of memory.
- SLIST, LIST, SIMPLEQ and CIRCLEQ of `queue.h`, TAILQ insertion beside an element and replacement, and the debugging variants: not used by the proxy.
- Configuration parsing, threads and the server list: the configuration is a constant.
- `working_num_max` and `access.max` may be any integers; no bound on the counters' machine width is modelled, as they stay below the number of connections.
