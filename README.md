# ion-flow-lib connection core, modelled in Dafny

This project models the sequential core of ion-flow-lib, a small C++ library
that keeps TCP connections alive and multiplexes them with `poll(2)`. The
model covers five parts:

- **The connection state machine.** This is `IPv4Socket` on top of
  `EasySocketIntf`. It has three states, a descriptor and a 4096-byte
  receive buffer. `enter` is the one place where the state changes and
  the online/offline hooks fire. `eval` maps a `revents` mask to at most
  one transition. `connect` and `disconnect` acquire and release the
  descriptor.
- **The engine cycle.** This is `StickyEngine::poll`. It reconnects the
  Disconnected connections. It then rebuilds one `pollfd` entry per
  connection, calls `poll` once and dispatches `eval`/`step` by index. The
  model also covers `makeSocket`, `rebuild_poll_params` and the
  destructor.
- **The supervising service.** This is `IonService`. Its loop sets the
  health flag, runs one engine cycle and keeps a leaky fault counter: a
  fault adds one, a clean cycle takes one away. It gives up when the
  counter passes five.
- **The legacy `StickySocket`.** This is an earlier revision. It
  classifies a poll response by a strict priority of bits, and follows a
  status/descriptor discipline in `open`, `close` and `receive`.
- **The SICP test framing.** These are `checksum`, `pack_reply`,
  `parse_message` and `on_receive` from the Python test server. A frame
  is a length byte, a control byte, an optional group byte, the payload,
  and an XOR checksum byte.

Every call across the `IoIntf` boundary is an oracle: the model takes
the integer result the call returns as a parameter. The model does not
perform the call. The calls covered are `inet_pton`, `socket`,
`connect` with its errno, `recv`, `send`, `getsockopt` and `poll`.

Side effects the library uses for its own bookkeeping are recorded as
logs in ordinary fields:

- the hooks fired (`hooks`);
- the descriptors closed (`closed`);
- the buffers sent (`sent`);
- every call the engine makes (`trace`).

With these logs, properties of whole histories can be stated. Examples
are "online never fires twice without offline in between" and "`eval` is
called once per live connection, after the single `poll`".

Each imperative method is proved against a pure function of the old
state. The lemmas are stated and proved about those functions:

- `IPv4Socket.Eval` is proved against `Ipv4.EvalStep`.
- `StickyEngine.Poll` is proved against the phase functions. `Cycle`
  composes those functions (`CycleByPhases`).
- `IonService.Loop` is proved against `Service.Run`.
- `PackReply` is proved against `Sicp.Reply`.

Modules:

| file | module | models |
|---|---|---|
| io.dfy | `Io` | the `IoIntf` boundary: byte, size_t, poll bits, errno values, recv results |
| easy_socket.dfy | `EasySocket` | `ConnectionState`, `getStatus`, the hook log and its alternation |
| ipv4_socket.dfy | `Ipv4` | `IPv4Socket` and the transition functions it is proved against |
| sticky_engine.dfy | `Engine` | the connections the engine drives, and `StickyEngine` |
| ion_service.dfy | `Service` | `IonService` and its loop |
| sticky_socket.dfy | `Legacy` | the legacy `StickySocket` |
| sim_sicp.dfy | `Sicp` | the SICP framing of `etc/sim-sicp.py` |

Where the code and its documented intent differ, the model follows the
code:

- `rebuild_poll_params` lists every connection. Idle ones are listed with
  their descriptor, which may be -1.
- A negative `poll` result is only logged. It is not thrown, so it is not
  a service fault.
- `isRunning()` is `worker.joinable()`. It stays true after the loop has
  given up, until `stop()` joins the worker.
- A disconnect driven by `eval` enters Disconnected but does not close
  the descriptor. Only `disconnect()` closes it.
- `connect()` leaves the descriptor as it was when `inet_pton` fails. It
  sets the descriptor to -1, without closing it, when `socket` or
  `connect` fails.
- `wentOffline` also fires on Connecting → Disconnected. So "online"
  and "offline" notifications are not paired one to one. What holds is
  that "online" never repeats without an "offline" in between.
- `send` does not look at the state.
- The worker's loop observes the stop token passed to `start()`. It does
  not observe the jthread's own token, which is the one `stop()`
  requests. So `stop()` returns only once the loop has ended on its own
  (see Findings).
- A refused legacy `open()` leaves the status Connecting with no
  descriptor.
- The legacy `send()` test `bytes < 0` can never hold.
- `parse_message` never raises `NotImplementedError`. So the NAV branch
  of `on_receive` is unreachable (`ParseNeverRaisesNotImplemented`).

## Model

| member | source | states |
|---|---|---|
| Io.Int32 | src/ipv4_socket.cpp:180-183 | the conversion of `send`'s size_t to `int`: in 32-bit range, congruent modulo 2^32, and the identity on values that fit |
| EasySocket.StatusText | src/easy_socket.cpp:17-33 | each state maps to exactly its own name, in both directions |
| EasySocket.StatusTextInjective | src/easy_socket.cpp:17-33 | two states have the same name iff they are the same state |
| EasySocket.OnlineUntilOffline | src/ipv4_socket.cpp:41-59 | after a `wentOnline` with no later `wentOffline`, the owner was last told "online" |
| EasySocket.NoDoubleOnline | src/ipv4_socket.cpp:41-59 | in an alternating log, any two `wentOnline` have a `wentOffline` between them |
| EasySocket.OnlineCountBound | src/ipv4_socket.cpp:41-59 | "online" notifications outnumber "offline" ones by at most one, and by one only while online |
| Ipv4.EnterHooks | src/ipv4_socket.cpp:41-59 | `enter` fires at most one hook: `wentOnline` iff the state changes to Connected, `wentOffline` iff it changes to Disconnected, and never a data hook |
| Ipv4.EnterKeepsNotifications | src/ipv4_socket.cpp:41-59 | every transition `enter` makes keeps the hooks alternating, and keeps "last told online" equal to "Connected" |
| Ipv4.RecvErrorOverrunsBufferAsWritten | src/ipv4_socket.cpp:187-192 | as written, a failed recv yields a span longer than the 4096-byte buffer |
| Ipv4.ReceivedDataFits | src/ipv4_socket.cpp:185-193 | the corrected span fits the buffer, and equals the span as written whenever recv succeeds |
| Ipv4.RefusedConnectEntersConnectedAsWritten | src/ipv4_socket.cpp:103-121 | as written, a refused attempt (getsockopt 0, SO_ERROR ECONNREFUSED) enters Connected; corrected, it enters Disconnected |
| Ipv4.SendPathOutcome | src/ipv4_socket.cpp:103-121 | corrected send path: no effect unless Connecting; then Connected iff getsockopt succeeds with no pending error, otherwise Disconnected |
| Ipv4.SendPathAgreesWithoutPendingError | src/ipv4_socket.cpp:103-121 | with no pending socket error, the corrected send path agrees with the code as written |
| Ipv4.EvalOnDisconnectedIsNoop | src/ipv4_socket.cpp:63-67 | `eval` on a Disconnected socket changes nothing and fires nothing |
| Ipv4.EvalAtMostOneTransition | src/ipv4_socket.cpp:61-85 | one `eval` fires at most one hook: the hooks of the single `enter` from the old state to the new one, or no online/offline hook when the state is kept |
| Ipv4.EvalPriority | src/ipv4_socket.cpp:71-82 | NVAL/ERR/HUP forces Disconnected with `wentOffline`, even with OUT set; otherwise IN/PRI takes the receive path; otherwise OUT takes the send path; a zero mask changes nothing |
| Ipv4.ReceivePathOutcome | src/ipv4_socket.cpp:87-101 | (corrected) the receive path acts only when Connected; an empty or failed read disconnects with `wentOffline`; a non-empty read delivers exactly those bytes and keeps the state |
| Ipv4.EvalKeepsNotifications | src/ipv4_socket.cpp:61-121 | `eval` keeps the hooks alternating, and keeps "last told online" equal to "Connected" |
| Ipv4.IPv4Socket.constructor | src/ipv4_socket.cpp:18-24 | a new socket holds no descriptor, is Disconnected, keeps its host and port, and has a zero-filled 4096-byte buffer |
| Ipv4.IPv4Socket.MoveFrom | src/ipv4_socket.cpp:26-31 | the moved-to socket takes the host, port and buffer contents, and starts Disconnected with no descriptor |
| Ipv4.IPv4Socket.GetDescriptor | src/easy_socket.cpp:13 | returns the descriptor and reads nothing else |
| Ipv4.IPv4Socket.GetState | src/easy_socket.cpp:15 | returns the state |
| Ipv4.IPv4Socket.GetHost | src/easy_socket.cpp:35 | returns the host |
| Ipv4.IPv4Socket.GetStatus | src/easy_socket.cpp:17-33 | returns the name of the current state |
| Ipv4.IPv4Socket.IsOnline | src/easy_socket.cpp:37-40 | true iff Connected; on a valid socket, iff the owner was last told "online" |
| Ipv4.IPv4Socket.Enter | src/ipv4_socket.cpp:41-59 | returns true iff the state changes; the new state is the argument; the hooks grow by `EnterHooks`; nothing else changes |
| Ipv4.IPv4Socket.Receive | src/ipv4_socket.cpp:185-193 | recv's bytes land at the start of the buffer and the rest is kept; the result is that prefix, or empty for a failed read (corrected) |
| Ipv4.IPv4Socket.CanReceive | src/ipv4_socket.cpp:87-101 | (corrected) state and hooks follow `ReceivePath`; descriptor, closes and sends are untouched; the socket invariant is kept |
| Ipv4.IPv4Socket.CanSend | src/ipv4_socket.cpp:103-121 | (corrected) state and hooks follow the corrected `SendPath`; nothing else changes; the invariant is kept |
| Ipv4.IPv4Socket.Eval | src/ipv4_socket.cpp:61-85 | state and hooks follow `EvalStep`; returns true iff the state changed; the descriptor is kept, so an eval-driven disconnect does not close it; the buffer changes only on the receive path |
| Ipv4.IPv4Socket.Connect | src/ipv4_socket.cpp:123-166 | succeeds iff the socket is Disconnected, the address parses, a descriptor is created and connect succeeded or is in progress; then Connecting with that descriptor; on failure the state is kept, the descriptor is kept when not Disconnected or when the address does not parse, and is -1 otherwise; nothing is closed |
| Ipv4.IPv4Socket.Disconnect | src/ipv4_socket.cpp:168-178 | closes the descriptor exactly when one is held, then holds none and is Disconnected, firing `wentOffline` iff the state changed |
| Ipv4.IPv4Socket.Send | src/ipv4_socket.cpp:180-183 | hands the buffer to `io.send` on the current descriptor whatever the state; returns that result converted to int; nothing else changes |
| Ipv4.IPv4Socket.Destroy | src/ipv4_socket.cpp:33-39 | disconnects exactly when a descriptor is held, so that descriptor is closed once; otherwise nothing changes |
| Ipv4.ConnectOnlineOffline | src/ipv4_socket.cpp:61-101 | connect, writable, then an empty read: Connecting, Connected, Disconnected, one "online" and one "offline", and descriptor 3 is never closed |
| Ipv4.FailedAttemptsNotifyOfflineTwice | src/ipv4_socket.cpp:41-59 | two attempts that fail while Connecting fire "offline" twice with no "online", and the first descriptor is overwritten without being closed |
| Ipv4.DisconnectTwiceClosesOnce | src/ipv4_socket.cpp:168-178 | a second `disconnect` closes nothing |
| Ipv4.ReceiveHello | tests/test_ipv4_socket.cpp:256-303 | a read of "Hello" while Connected delivers exactly those five bytes |
| Engine.StickySocket.constructor | src/include/sticky_engine.h:30 | a new connection is Disconnected with no descriptor, and holds the given host and port |
| Engine.StickySocket.GetState | src/sticky_engine.cpp:52 | returns the state |
| Engine.StickySocket.GetDescriptor | src/sticky_engine.cpp:40 | returns the descriptor |
| Engine.StickySocket.Reconnect | src/sticky_engine.cpp:54 | leaves the connection holding the given outcome |
| Engine.StickySocket.Eval | src/sticky_engine.cpp:68 | (corrected) the state follows the corrected `IPv4Socket::eval` (`EvalStep`); the descriptor is kept; returns true iff the state changed |
| Engine.StickySocket.Step | src/sticky_engine.cpp:70 | leaves the connection holding the given outcome |
| Engine.StickySocket.Disconnect | src/sticky_engine.cpp:27 | Disconnected with no descriptor |
| Engine.EvalStateIsEvalStep | src/ipv4_socket.cpp:61-121 | (corrected) the state an engine connection's `eval` leaves is exactly the state the corrected `IPv4Socket::eval` leaves |
| Engine.ReconnectCallsKinds | src/sticky_engine.cpp:50-56 | the reconnect phase makes only `reconnect` calls, on existing indices |
| Engine.ReconnectCallsCount | src/sticky_engine.cpp:50-56 | the reconnect phase calls `reconnect` exactly once on each Disconnected connection, and never on the others |
| Engine.DispatchCallsKinds | src/sticky_engine.cpp:60-74 | the dispatch phase makes only `eval` and `step` calls, on existing indices |
| Engine.DispatchOneEvals | src/sticky_engine.cpp:64-68 | dispatch to one entry calls `eval` once on it, with its revents, unless it is Disconnected |
| Engine.DispatchOneSteps | src/sticky_engine.cpp:66-71 | dispatch to one entry calls `step` once exactly when it is not Disconnected and its `eval` returned false |
| Engine.DispatchEvalCount | src/sticky_engine.cpp:60-74 | over the whole dispatch phase, `eval` is called once on each connection that is not Disconnected at dispatch time, with the revents reported for it, and never otherwise |
| Engine.DispatchStepCount | src/sticky_engine.cpp:60-74 | over the whole dispatch phase, `step` is called once on each connection whose `eval` returned false, and never otherwise |
| Engine.CycleByPhases | src/sticky_engine.cpp:48-80 | one cycle is the reconnect phase, then the rebuilt list with poll's revents, then dispatch only when poll returned a positive count |
| Engine.CycleShape | src/sticky_engine.cpp:48-80 | a cycle keeps the number and order of connections; it calls the reconnects first, then one poll on one entry per connection (descriptor, IN/PRI/OUT, no revents) with the given timeout, then only `eval`/`step`, and none of those when poll returned zero or less |
| Engine.CycleCalls | src/sticky_engine.cpp:48-80 | per cycle: `poll` exactly once; `reconnect` once per connection that was Disconnected at the start; `eval` once per connection live after reconnect, with the reported revents, only when poll returned a positive count; `step` once where that `eval` returned false |
| Engine.StickyEngine.constructor | src/sticky_engine.cpp:18-21 | a new engine owns no connections and has made no calls |
| Engine.StickyEngine.MakeSocket | src/include/sticky_engine.h:24-34 | appends exactly one new Disconnected connection with the given host and port, and returns it; the connections already present keep their identity and order |
| Engine.StickyEngine.RebuildPollParams | src/sticky_engine.cpp:31-46 | the response list is one entry per connection, in order: its descriptor, IN/PRI/OUT, no revents |
| Engine.StickyEngine.ReconnectAt | src/sticky_engine.cpp:52-55 | reconnects entry `i` exactly when it is Disconnected, and leaves every other connection unchanged |
| Engine.StickyEngine.ReconnectIdle | src/sticky_engine.cpp:50-56 | the connections become `AfterReconnect` of the old ones, and the trace grows by the reconnect calls, in index order |
| Engine.StickyEngine.DispatchAt | src/sticky_engine.cpp:64-72 | entry `i` becomes `Dispatched` of its old link; every other connection is unchanged; the trace grows by that entry's `eval` and, when `eval` returned false, `step` |
| Engine.StickyEngine.DispatchAll | src/sticky_engine.cpp:62-73 | the connections become `AfterDispatch` of the old ones, and the trace grows by the dispatch calls, in index order |
| Engine.StickyEngine.PollAndDispatch | src/sticky_engine.cpp:58-79 | rebuilds the list, calls poll once with it and the duration, returns poll's result, and dispatches only on a positive result |
| Engine.StickyEngine.Poll | src/sticky_engine.cpp:48-80 | one cycle: the connections, responses and trace are those of the reconnect, poll and dispatch phases in order; returns poll's result unchanged |
| Engine.StickyEngine.Destroy | src/sticky_engine.cpp:23-29 | calls `disconnect()` on every owned connection, in order; the connections are kept |
| Service.FailCountBound | src/ion_service.cpp:66-90 | the counter never exceeds six, and it reaches six exactly when the loop aborts |
| Service.AbortNeedsFaults | src/ion_service.cpp:79-89 | an abort takes more faults than the budget of five: from zero, at least six |
| Service.ConsecutiveFaultsAbort | src/ion_service.cpp:85-89 | enough consecutive faults end the loop by abort, right after the fault that takes the counter to six |
| Service.FaultsWithinBudget | src/ion_service.cpp:74-89 | up to five consecutive faults do not end the loop, and the counter counts them |
| Service.SixFaultsAbortFiveDoNot | src/ion_service.cpp:85-89 | from zero, six consecutive faults abort after six cycles, and five do not |
| Service.StopBoundsCycles | src/ion_service.cpp:67 | the stop request is checked before any work: once it is seen, no further cycle runs |
| Service.HealthyIffCycled | src/ion_service.cpp:71-72 | after a run the health flag is set iff it was set before or a cycle ran, so a cleared flag stays cleared until the next iteration begins |
| Service.IonService.constructor | src/ion_service.cpp:15-19 | a new service is healthy, not running, and owns an empty engine |
| Service.IonService.IsHealthy | src/ion_service.cpp:100 | returns the health flag |
| Service.IonService.IsRunning | src/ion_service.cpp:102 | true iff a worker exists, even after its loop has given up |
| Service.IonService.Start | src/ion_service.cpp:23-31 | creates the worker; ignored when one exists |
| Service.IonService.StopAsWritten | src/ion_service.cpp:39-47 | as written: callable with a worker only once its loop has ended, because the join waits for a loop that never sees the request; then leaves no worker; does nothing when there is none |
| Service.IonService.Stop | src/ion_service.cpp:39-47 | (corrected) leaves no worker, and a worker it joins has ended its loop; does nothing when there is none, so it is idempotent; health is untouched |
| Service.CleanTicksRunOn | src/ion_service.cpp:66-90 | clean cycles with no stop request seen run every tick, keep the counter at zero and never end the loop |
| Service.StopUnseenAsWritten | src/ion_service.cpp:30-44 | as written, with only the jthread's own token requested and no fault, the loop is still running after any number of ticks |
| Service.StopSeenCorrected | src/ion_service.cpp:39-47 | corrected, the request of `stop()` ends the loop at its next check, before any further cycle |
| Service.IonService.ResetHealth | src/ion_service.cpp:98 | clears the health flag |
| Service.IonService.Loop | src/ion_service.cpp:59-96 | the exit reason, final counter, health flag and cycle count are those of `Run` on the tick script; the loop has ended iff it saw the stop request or gave up |
| Legacy.ClassifyRules | src/sticky_socket.cpp:144-164 | NVAL is Failed whatever else is set; without it, IN is Received iff Connected and never Failed; Connected iff OUT is the first set bit; ERR/HUP first is Failed; PRI alone is Received; no recognised bit gives None |
| Legacy.RecvErrorOverrunsBufferAsWritten | src/sticky_socket.cpp:193-201 | as written, a failed recv yields a span longer than the 1024-byte buffer |
| Legacy.ReceivedFits | src/sticky_socket.cpp:191-202 | the corrected span fits the 1024-byte buffer (include/sticky_socket.h:8), and equals the span as written whenever recv succeeds |
| Legacy.StickySocket.constructor | src/sticky_socket.cpp:78-119 | given the valid descriptor without which the source throws, a new socket is Disconnected with a zeroed buffer and has closed nothing |
| Legacy.StickySocket.Parse | src/sticky_socket.cpp:144-164 | the event is `Classify` of the old status; the status becomes Connected exactly on the Connected event, and is unchanged otherwise |
| Legacy.StickySocket.Open | src/sticky_socket.cpp:122-142 | does nothing unless Disconnected; otherwise Connecting, and on a connect error other than EWOULDBLOCK/EINPROGRESS closes and invalidates the descriptor and throws |
| Legacy.StickySocket.Close | src/sticky_socket.cpp:166-175 | does nothing while Disconnected or without a descriptor; otherwise closes it and invalidates it; the status never changes |
| Legacy.StickySocket.IsConnected | src/sticky_socket.cpp:179 | true iff a descriptor is held |
| Legacy.StickySocket.Receive | src/sticky_socket.cpp:191-202 | (corrected) recv's bytes land at the start of the buffer; the result is the corrected `ReceivedBytes`; a zero-byte read closes the socket, and nothing else is closed |
| Legacy.RefusedOpenThenClose | src/sticky_socket.cpp:122-175 | a refused `open` leaves the socket Connecting and not connected, and a later `close` has nothing left to close |
| Sicp.ToByte | etc/sim-sicp.py:41 | the byte that `bytearray([v])` builds has value `v` |
| Sicp.ChecksumAppend | etc/sim-sicp.py:35-36 | the checksum of nothing is 0, and the checksum of a concatenation is the XOR of the checksums |
| Sicp.ChecksumSealed | etc/sim-sicp.py:54 | appending its own checksum makes the XOR of a message zero |
| Sicp.FrameLayout | etc/sim-sicp.py:50-54 | a frame is two bytes longer than its parts; its first byte is its own length, the parts follow unchanged, and its last byte is the checksum of the rest, so the frame XORs to zero |
| Sicp.Reply | etc/sim-sicp.py:39-56 | `pack_reply` succeeds iff the control byte, the group byte when there is one, and the frame length are all bytes; otherwise it raises ValueError |
| Sicp.PackReply | etc/sim-sicp.py:39-56 | building the frame part by part gives exactly `Reply` |
| Sicp.ReplyLayout | etc/sim-sicp.py:39-56 | a packed frame is the frame of control, group and payload plus filler: byte 1 is the control (MONITOR_ID for 0), byte 2 the group when present (GROUP_ID for 0), then the payload and the filler |
| Sicp.ParseAccepts | etc/sim-sicp.py:59-68 | `parse_message` answers iff the frame is at least four bytes, its first byte is its length, its last byte is its checksum, and the reply's filler is short enough |
| Sicp.RoundTrip | etc/sim-sicp.py:39-68 | a frame packed with a group and a non-empty payload passes `parse_message`, whose answer echoes its control, its group and its first payload byte |
| Sicp.OnReceive | etc/sim-sicp.py:71-82 | a message that parses is answered with the reply of `parse_message` |
| Sicp.ParseNeverRaisesNotImplemented | etc/sim-sicp.py:59-68 | `parse_message` never raises NotImplementedError |
| Sicp.NackFrame | etc/sim-sicp.py:76-80 | the NACK frame exists iff the filler is at most 249 bytes; it is length, MONITOR_ID, GROUP_ID, 0, NACK, then the filler |
| Sicp.OnReceiveNacks | etc/sim-sicp.py:71-82 | every failure of `parse_message` is answered with the NACK frame |

## Left out

- Threads, `std::jthread`, `stop_token`, atomics and `sleep_for`. The worker is a "worker exists" flag. One run of its loop is a script of ticks: each tick says whether a stop was requested and whether that cycle's engine call threw. The window constants are kept, but no time passes.
- `onEntry`/`onExit` of the service. `onEntry` makes one socket for 127.0.0.1:5000 on the engine and calls `connect()` on it, so every `start()` adds one more connection to the engine; `onExit` only logs. The model's loop starts from the engine as it is. The exception messages and everything the console and log files do are left out too.
- The `io` reference each object holds. Each call's result is a parameter instead: `inet_pton`, `socket`, `connect` and errno, `recv`, `send`, `getsockopt`, `poll`. The address layout and `htons` are not modelled.
- The hook bodies (`wentOnline`, `wentOffline`, `didReceived` only log). They are recorded as the `hooks` log instead.
- Engine.StickySocket.Reconnect: only says that the connection ends up holding a given state and descriptor. The implementation of the engine connections' `reconnect` is not part of this model, and no retry or backoff is modelled.
- Engine.StickySocket.Step: only says that the connection ends up holding a given state and descriptor. The implementation of `step` is not part of this model.
- `StickyEngine::poll` with a negative poll result: the logging of the error. The model returns the result and does not dispatch.
- The legacy `StickySocket` constructor (`getaddrinfo`), `setSocketNonBlocking`, `sockaddr_to_string`, `print_addrinfo` and `connect_with_timeout`. These are DNS, clock and formatting code. The model's legacy constructor takes the descriptor the lookup produced.
- The legacy `send`. Its only check, `bytes < 0` on a `size_t`, can never hold, so it reduces to handing bytes to `::send`.
- The descriptor-keyed `attach`/`detach` API of the service. Its implementation is not part of this model.
- `listen()` in the SICP script, and the Faker call behind the reply filler. The filler is a byte-string parameter (`junk`).
- Python's `-O` flag, which removes the two `assert` checks of `parse_message`. The model keeps the checks.
- Sicp.OnReceive: its own contract covers only the success path. The error path (the NACK frame) is stated by `OnReceiveNacks` and `NackFrame`.
- Ipv4.IPv4Socket.Eval: stated for the corrected receive and send paths of the findings below. As written, a failed recv on the receive path reaches `didReceived` with a SIZE_MAX span, and a refused attempt on the send path enters Connected; the as-written members named there state those.
- Engine.StickySocket.Eval: follows the corrected `EvalStep`. As written, `IPv4Socket::eval` keeps a Connected socket Connected on a failed recv, handing `didReceived` a SIZE_MAX span, and enters Connected on a refused attempt whose getsockopt returns 0.
- Engine.EvalStateIsEvalStep: equates the engine connection's state with the corrected `EvalStep`, not with the code as written, which differs on a failed recv while Connected (stays Connected) and on a refused attempt with getsockopt returning 0 (enters Connected).
- Ipv4.IPv4Socket.Receive: stated for the corrected `receive`, which yields no data for a failed recv. As written it returns a SIZE_MAX span over the 4096-byte buffer (`RecvErrorOverrunsBufferAsWritten`); bytes past the buffer cannot be modelled.
- Ipv4.IPv4Socket.CanReceive: stated for the corrected `ReceivePath`, where a failed recv disconnects with `wentOffline`. As written, the SIZE_MAX span is not empty, so the code calls `didReceived` with it and stays Connected.
- Ipv4.ReceivePathOutcome: stated for the corrected `ReceivePath`; as written, a failed recv delivers a SIZE_MAX span to `didReceived` instead of disconnecting.
- Ipv4.IPv4Socket.CanSend: stated for the corrected `SendPath`. As written, a refused attempt whose getsockopt returns 0 enters Connected (`RefusedConnectEntersConnectedAsWritten`).
- Legacy.StickySocket.Receive: stated for the corrected `receive`, which yields no data for a failed recv. As written it returns a SIZE_MAX span over the 1024-byte buffer (`Legacy.RecvErrorOverrunsBufferAsWritten`).
- Service.IonService.Stop: stated for the corrected stop, whose request reaches the loop. As written the join returns only once the loop has ended on its own (`StopAsWritten`); a worker started without a supervisor request never ends, so `stop()` blocks.
- Ipv4.IPv4Socket.MoveFrom: does not say what becomes of the moved-from socket. The source moves `other.host` out, which leaves it unspecified; the model leaves `other` as it was.
- Engine.StickySocket.Disconnect: only says that the connection ends Disconnected with no descriptor, the effect `IPv4Socket::disconnect` has. The engine connections' `disconnect` is not part of this model, so `StickyEngine.Destroy`'s statement about the links it leaves rests on that effect.

## Findings

| source | as written | input that shows it | evidently intended | confidence | as-written member | corrected member |
|---|---|---|---|---|---|---|
| src/ipv4_socket.cpp:187-192 | `size_t bytes = io.recv(...)`, then `if (bytes <= 0)`: an unsigned count is never negative, so a failed recv, which returns (size_t)-1, passes the test and yields a span of SIZE_MAX bytes over a 4096-byte buffer | recv fails (returns -1) while Connected | a failed recv yields no data, like a closed stream | not executed | Ipv4.RecvErrorOverrunsBufferAsWritten | Ipv4.ReceivedDataFits |
| src/ipv4_socket.cpp:111-112 | `error = io.getsockopt(descriptor, SOL_SOCKET, SO_ERROR, &error, &len)` overwrites the pending socket error stored in `error` with getsockopt's own return code, so only a failing getsockopt disconnects | getsockopt returns 0 and stores ECONNREFUSED as the pending error: the socket enters Connected | Connected only when getsockopt succeeds and the pending error is 0 | not executed | Ipv4.RefusedConnectEntersConnectedAsWritten | Ipv4.SendPathOutcome |
| src/sticky_socket.cpp:193-201 | `size_t bytes = ::recv(...)`, then `if (bytes < 0)`: never true, so a failed recv falls through and the returned span has SIZE_MAX bytes over a 1024-byte buffer | recv fails (returns -1) | a failed recv is reported and yields no data | not executed; the intended behaviour is inferred, since the failing branch only logs and every branch reaches the same `return` at line 201 | Legacy.RecvErrorOverrunsBufferAsWritten | Legacy.ReceivedFits |
| src/ion_service.cpp:30-44 | the worker runs `loop(superToken)` with start()'s token, while `stop()` calls `request_stop()` on the jthread's own token and then `join()`: the loop never sees that request | `start()` with a default token (never requested), then `stop()` with no fault: the loop keeps cycling and the join does not return | `stop()` ends the loop at its next check and joins the worker, as tests/test_ion_service.cpp:55-65 expects | not executed | Service.StopUnseenAsWritten | Service.StopSeenCorrected |
