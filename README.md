# Cluster test fixture: call-gate and connection quorum

This project models the two pieces of logic in the test fixture `test/util.ts`
of the socket.io Redis-streams adapter:

- `times(count, fn)` returns a call-gate. This is a closure over a counter `i`
  that starts at 0. Every call increments `i`. The call that brings `i` to
  `count` invokes `fn`. Every call that brings `i` above `count` throws
  `too many calls: <i> instead of <count>`. Module `CallGate` (gate.dfy) has
  a class `Gate` with the counter field `i` and a `Call()` method. `Call()`
  returns `Quiet`, `Fired` (`fn` invoked) or `TooMany(i, count)` (the
  error). A ghost history ties every call to the pure function `Trace`.
  The lemmas about the gate are stated over `Trace`.
- `setup()` starts `NODES_COUNT` socket.io servers. Its "connection" handler
  pushes the accepted connection's client socket, server socket, server and
  Redis client onto four parallel arrays. It resolves the fixture when
  `servers.length === NODES_COUNT`. Module `Quorum` (quorum.dfy) has a class
  `Cluster` with the four arrays as sequence fields and an `OnConnection`
  method. `OnConnection` reports whether the length check passes. `Setup`
  feeds an arbitrary sequence of connection events, in arrival order, through
  one `Cluster`. The node count is a parameter (3 in the fixture). Handles
  are type parameters, so the model knows nothing about them.
  The order of the releases in `cleanup` is modelled as a sequence of
  release steps.

The source keeps four arrays, not three: `redisClients` is pushed in the same
handler and is kept for `cleanup`. The model follows the code and keeps all
four arrays aligned.

## Model

| member | source | states |
|---|---|---|
| `CallGate.Gate.constructor` | test/util.ts:9-10 | a new gate has counter 0, the given count and no calls yet |
| `CallGate.Gate.Call` | test/util.ts:11-18 | every call raises the counter by exactly one, throwing calls included; the call fires iff the new counter equals count and throws iff it exceeds count, the error carrying the counter and count; the history grows by this outcome |
| `CallGate.Trace` | test/util.ts:11-12 | n calls produce n outcomes |
| `CallGate.TraceAt` | test/util.ts:11-18 | the j-th call's outcome depends only on the counter value j + 1, not on what earlier calls did |
| `CallGate.FiresIff` | test/util.ts:13-14 | a call invokes `fn` if and only if the counter after incrementing equals count |
| `CallGate.TooManyReports` | test/util.ts:15-16 | a call throws if and only if the counter exceeds count, and the error reports that counter and count |
| `CallGate.FiresOnce` | test/util.ts:10-18 | over any n calls `fn` is invoked exactly once when 1 <= count <= n and never otherwise |
| `CallGate.FiresOnLastCall` | test/util.ts:10-18 | for count >= 1, count calls invoke `fn` exactly once, on the last call; all earlier calls are quiet |
| `CallGate.ZeroFailsAtOnce` | test/util.ts:13-16 | with count 0 the first call throws reporting 1 and 0, and `fn` is never invoked |
| `CallGate.FailureIsPermanent` | test/util.ts:12-16 | after a call has thrown, every later call throws and none invokes `fn` |
| `CallGate.CountTwoScenario` | test/util.ts:9-18 | times(2, fn) called three times: quiet, then `fn`, then an error naming 3 and 2 |
| `Quorum.Accumulate` | test/util.ts:55-58 | after any sequence of connection events the four arrays have one element per event, and index j of each array holds the matching handle of the j-th event |
| `Quorum.Cluster.constructor` | test/util.ts:35-38 | setup starts with four empty arrays and no events |
| `Quorum.Cluster.OnConnection` | test/util.ts:54-59 | the handler appends exactly one element to each array, keeps them aligned with the events seen, and its resolve check passes iff the number of events equals the node count |
| `Quorum.Setup` | test/util.ts:54-62 | over any arrival order, the resolve branch is taken once if at least N >= 1 connections arrive and never otherwise; this count equals the number of times a times(N) gate would fire; the resolved arrays are aligned with the first N events |
| `Quorum.CloseServers` | test/util.ts:67-71 | closing the servers takes two steps per server |
| `Quorum.DisconnectClients` | test/util.ts:72-74 | one disconnect per client socket |
| `Quorum.QuitBrokers` | test/util.ts:75-77 | one quit per Redis client |
| `Quorum.CloseServersAt` | test/util.ts:67-71 | server j's listener is closed at step 2j and its adapter at step 2j + 1 |
| `Quorum.DisconnectClientsAt` | test/util.ts:72-74 | client socket j is disconnected at step j of that batch |
| `Quorum.QuitBrokersAt` | test/util.ts:75-77 | Redis client j is quit at step j of that batch |
| `Quorum.CleanupReleasesEach` | test/util.ts:66-78 | for the arrays of n connections, cleanup makes 4n releases. It first closes every server's listener and adapter, then disconnects every client, then quits every Redis client. Each batch follows arrival order |

## Left out

- `sleep` and the 200 ms settle delay before resolving (test/util.ts:21-23, 60): timer scheduling only.
- Creating and connecting Redis clients, the HTTP server, the socket.io server with its adapter, `listen`, the port lookup and the client connection (test/util.ts:42-52): foreign library calls and network I/O. The connection events that they eventually produce are the input of `Quorum.Setup`.
- The asynchronous `for` loop and the scheduling of connection events across nodes (test/util.ts:40-54): any arrival order is allowed through the event sequence, and no schedule is modelled.
- Quorum.Setup: the fixture resolves with references to the live arrays. Events that arrive during the settle delay or later would therefore show up in the caller's context. The model returns the contents at the N-th event and does not model this aliasing.
- The Promise itself and the `TestContext` interface (test/util.ts:27-32, 40, 62): resolution is the boolean from `Quorum.Cluster.OnConnection` and the value `Quorum.Setup` returns.
- The effects of `cleanup` (closing, disconnecting, quitting) belong to libraries that are not part of this model. Only the order of the release steps is modelled.
- `fn` itself is not modelled. Its invocation is the `Fired` outcome, and an exception thrown by `fn` is not modelled.
- CallGate.Gate.Call: `count` is a JavaScript number and is modelled as an integer. For a fractional count the gate never fires and first throws once the counter passes it; that case is not modelled. The counter is unbounded, so the loss of precision above 2^53 is not modelled.
