# pynjspc client core, modelled in Dafny

`pynjspc` is an asynchronous Python client for the nodejs-PoolController
("njsPC") server. A client holds a push connection to the controller (a
Socket.IO socket). Events pushed over that connection are dispatched to
callbacks registered per event name. Commands and state queries go over
HTTP. A background monitor task watches for idle connections: it probes the
controller's status route and, once the connection is lost, runs a bounded
campaign of reconnect attempts.

This project models three parts of the repository:

- the client class `NjsPCClient`:
  - its configuration rules;
  - its connection lifecycle (connect, disconnect, close, socket cleanup);
  - the socket's connect and disconnect handlers;
  - the callback registry and event dispatch;
  - one pass of the connection monitor, including its retry campaign;
  - the guards and status rules of its four HTTP calls;
- the constant tables: defaults, inbound event names, API routes;
- the exception hierarchy.

Each operation's contract states what the code does on every path, including its error paths, and lemmas relate the operations to each other.

Files:

| file | module | contents |
|---|---|---|
| `values.dfy` | `Values` | `Option`, `Result`, the Python values carried as JSON payloads, and whether `json.dumps` can encode one |
| `const.dfy` | `Const` | the default settings, the inbound event enumeration with `is_known_event`, and the route table |
| `exceptions.dfy` | `Exceptions` | the exception classes, the subclass relation, what an `except` clause catches |
| `registry.dfy` | `Registry` | the callback table as a map from event name to a set of callbacks, its updates, and the dispatch loop |
| `requests.dfy` | `Requests` | `fetch_full_state`, `send_command`, `set_circuit_state` and `test_connection` as functions of the connection flag and of the network's answer |
| `client.dfy` | `Client` | configuration resolution, the watchdog arithmetic, the retry campaign as a function of its oracle, and the class `NjsPCClient`, whose methods update its fields as the Python methods do |

The network, the clock and cancellation are inputs to the model:

- A call of `connect` is a `ConnectAttempt`. It records whether the host resolved, whether the transport opened, timed out or was refused, and the clock reading at which the connect handler ran.
- The health probe is a `Probe`.
- An HTTP exchange is a `Requests.HttpOutcome`: a timeout, an `aiohttp.ClientError`, any other exception, or a response with a status and a body. The body is either JSON or text.
- Closing a socket takes `closeAt`, the clock reading at which the transport fires the disconnect handler (`None`: it does not fire it).
- A retry campaign takes a sequence of attempts. If the sequence runs out before the loop ends, that stands for a cancellation during the reconnect delay.
- A callback is an identity (`CallbackId`). The callbacks that raise are given as a set.

Where the code and its documentation disagree, the model follows the code:

- **`test_connection` can raise.** It resolves the host before its `try` block, so an unresolvable host raises `ConnectionError` instead of returning `False`. Inside the monitor, that exception escapes the task and ends it (`MonitorIteration`, `end.ProbeRaised?`).
- **Teardown can raise.** `disconnect` and `async_close` await the cancelled monitor task and catch only `CancelledError`. A task that already died of an exception re-raises it there, and the task handle is not cleared.
- **There is no unlimited retry.** `max_reconnect_attempts=None` falls back to the default of 5, so "no limit" can never be configured (`ConfigValid`).
- **The counter reads 1 after a reconnect.** When the campaign reconnects, `connect` resets the attempt counter to 0 and the loop then adds one, so the counter reads 1 and not 0.
- **Host resolution comes first in `send_command`.** The host is resolved before the payload is checked, so an unresolvable host raises `ConnectionError` even when the payload would have raised `ValueError`.
- **A non-JSON state body.** `fetch_full_state` is given a body that is not JSON; the HTTP library's decoder raises a `ClientError` subclass, which the call turns into `ConnectionError`.

## Model

| member | source | states |
|---|---|---|
| `Client.Resolve` | pynjspc/client.py:52-84 | every constructed configuration has a non-empty host, a non-zero port, a set attempt limit and no empty log path |
| `Client.ResolveNothingGiven` | pynjspc/const.py:4-12 | a client built without arguments gets host "localhost", port 4200, request timeout 10, auto-reconnect on, delay 5, limit 5, watchdog 60 and no log |
| `Client.ResolveEverythingGiven` | pynjspc/client.py:52-84 | every setting given (with non-falsy host, port and log path) is kept unchanged |
| `Client.ResolveFalsyValues` | pynjspc/client.py:52-84 | an empty host, port 0 and an empty log path fall back to the defaults; timeout 0, delay 0, `False` and limit 0 are kept |
| `Client.NjsPCClient.constructor` | pynjspc/client.py:40-92 | a new client is disconnected, with an empty callback table, zero attempts, no activity, no socket and no monitor |
| `Client.NjsPCClient.Connected` | pynjspc/client.py:489-492 | the `connected` property; a client that reports itself connected has recorded activity |
| `Client.NjsPCClient.UpdateActivity` | pynjspc/client.py:94-97 | the activity stamp becomes the current clock reading |
| `Client.NjsPCClient.RegisterSocketHandlers` | pynjspc/client.py:99-125 | handlers are wired once per socket, and only when a socket exists |
| `Client.NjsPCClient.OnConnect` | pynjspc/client.py:110-116 | afterwards connected; activity is stamped only on a real transition, so a duplicate fire changes nothing |
| `Client.NjsPCClient.OnDisconnect` | pynjspc/client.py:118-124 | afterwards disconnected; activity is stamped only on a real transition |
| `Client.NjsPCClient.Connect` | pynjspc/client.py:136-161 | a fresh socket; raises iff the host does not resolve, and then starts no monitor; connected iff the transport opened; attempts reset only on success; starts a monitor with auto-reconnect unless a live one exists |
| `Client.NjsPCClient.CleanupSocket` | pynjspc/client.py:200-208 | the socket is dropped and the client is disconnected; the monitor's state is untouched |
| `Client.NjsPCClient.Disconnect` | pynjspc/client.py:163-180 | socket dropped, disconnected, stop flag set, task handle cleared; raises exactly when the monitor had died of an exception, with that exception |
| `Client.NjsPCClient.AsyncClose` | pynjspc/client.py:182-198 | the same teardown and the same error rule as `disconnect` |
| `Client.NjsPCClient.StartConnectionMonitor` | pynjspc/client.py:454-458 | a live monitor is kept as it is; otherwise a new one starts with the stop flag cleared, so at most one runs |
| `Client.NjsPCClient.FetchFullState` | pynjspc/client.py:236-272 | the exchange is `Requests.FetchFullState` on the client's connection flag; activity is refreshed exactly on success |
| `Client.NjsPCClient.SendCommand` | pynjspc/client.py:274-346 | the exchange is `Requests.SendCommand` on the client's connection flag; activity is refreshed exactly on success |
| `Client.NjsPCClient.SetCircuitState` | pynjspc/client.py:462-475 | the exchange is `Requests.SetCircuitState`; activity is refreshed exactly on success |
| `Client.NjsPCClient.On` | pynjspc/client.py:348-353 | the table becomes `Registry.Register` of the old table, and stays well formed |
| `Client.NjsPCClient.Off` | pynjspc/client.py:355-360 | the table becomes `Registry.Unregister` of the old table, and stays well formed |
| `Client.NjsPCClient.Remove` | pynjspc/client.py:362-367 | the table becomes `Registry.RemoveHandlers` of the old table |
| `Client.NjsPCClient.HandleEvent` | pynjspc/client.py:369-389 | activity refreshed; every callback stored under the name is called exactly once with the payload; raising ones are collected and do not stop the others; warns iff the name is unknown and appends to the log iff one is configured; an unknown name calls nothing |
| `Client.NjsPCClient.RetryCampaign` | pynjspc/client.py:416-441 | the number of connect calls is `CampaignCalls` of the script under the configured limit (none when already connected or stopped); connected iff the last call succeeded; the counter after a reconnect is 1; cancelled iff the script ran out while another attempt was still allowed; a call installs a fresh socket with its handlers |
| `Client.NjsPCClient.MonitorIteration` | pynjspc/client.py:391-452 | the stop flag and the callback table are never changed; the stop flag ends the task; an unresolvable probe kills it; a healthy or freshly probed connection is left connected; no recorded activity or a failed probe drops the socket, and a lost connection then gets a retry campaign whose attempts each install a fresh socket; a disconnected pass that was not cancelled has used up the limit; a pass ends in `NextSleep` seconds |
| `Client.SleepTime` | pynjspc/client.py:443-447 | the sleep is at least one second, reaches the moment the connection goes stale, and is longer than that only when clamped to one second |
| `Client.NextSleep` | pynjspc/client.py:443-450 | with activity recorded, the monitor sleeps at least one second and wakes exactly when the connection goes stale, or after one second if that moment has passed; without activity it sleeps the whole watchdog timeout |
| `Client.FirstSuccess` | pynjspc/client.py:420-427 | the index of the first successful attempt: every earlier attempt fails |
| `Client.CampaignCalls` | pynjspc/client.py:419-438 | a campaign never makes more calls than the script offers or than the limit allows |
| `Client.CampaignCallsUnique` | pynjspc/client.py:419-438 | the loop's exit condition (earlier calls failed, the limit allowed the last, the loop had to stop) determines the number of calls |
| `Client.CampaignOutcome` | pynjspc/client.py:419-441 | `CampaignCalls` meets that exit condition: when the campaign ends disconnected and not cancelled, every call failed and the limit was used up |
| `Client.GivesUpAtTheLimit` | pynjspc/client.py:420-441 | with every attempt failing, a limit of m gives exactly m calls, and no (m+1)-th |
| `Client.StopsAtFirstSuccess` | pynjspc/client.py:420-438 | a campaign stops right after its first successful attempt, whenever the limit lets that attempt run |
| `Const.InboundNames` | pynjspc/const.py:60 | the list the membership test runs against contains the value of every enumeration member, one entry per member |
| `Const.AllInboundComplete` | pynjspc/const.py:40-55 | every enumeration member is listed |
| `Const.IsKnownEvent` | pynjspc/const.py:57-60 | a name is known iff it is the value of some inbound event |
| `Const.EveryInboundEventKnown` | pynjspc/const.py:57-60 | every member's value is recognised |
| `Const.CaseSensitiveMatch` | pynjspc/const.py:47 | "pumpExt" is known, "pumpext" is not |
| `Const.EventNamesDistinct` | pynjspc/const.py:40-55 | the inbound event values are pairwise distinct |
| `Const.EndpointPathsDistinct` | pynjspc/const.py:14-37 | the route paths are pairwise distinct |
| `Exceptions.TimeoutIsConnectionError` | pynjspc/exceptions.py:11 | a timeout is a connection error, not conversely |
| `Exceptions.ConnectionErrorIsNjsPCError` | pynjspc/exceptions.py:7 | a connection error is an `NjsPCError`, not conversely |
| `Exceptions.NotConnectedIsNotAConnectionError` | pynjspc/exceptions.py:15 | "not connected" is an `NjsPCError` but neither a connection error nor a timeout |
| `Exceptions.AllAreNjsPCErrors` | pynjspc/exceptions.py:3-17 | every library exception derives from `NjsPCError` |
| `Exceptions.IsATransitive` | pynjspc/exceptions.py:3-17 | the subclass relation is transitive |
| `Exceptions.IsAAntisymmetric` | pynjspc/exceptions.py:3-17 | the hierarchy has no cycles |
| `Exceptions.NjsPCErrorCatchesLibraryErrors` | pynjspc/exceptions.py:3-17 | `except NjsPCError` catches exactly the library's errors, not `ValueError` or re-raised foreign exceptions |
| `Exceptions.IsA` | pynjspc/exceptions.py:3-17 | the subclass relation given by the class bases; a class is a subclass only of classes at least as close to the root, strictly closer unless it is the class itself |
| `Registry.Register` | pynjspc/client.py:348-353 | dispatch for the event then also calls the callback, every other event is unchanged, and the table stays well formed |
| `Registry.Unregister` | pynjspc/client.py:355-360 | dispatch for the event no longer calls the callback, others are unchanged; an absent entry leaves the table as it is; no empty entry remains |
| `Registry.RemoveHandlers` | pynjspc/client.py:362-367 | one event's entry is dropped and the others are kept, or the table is cleared |
| `Registry.CallbacksFor` | pynjspc/client.py:375 | `.get(event, set())`: nothing for a name without an entry; in a well-formed table, a name has callbacks iff it has an entry |
| `Registry.UnknownEventHasNoCallbacks` | pynjspc/client.py:348-353 | a well-formed table holds no callbacks for a name outside the inbound events |
| `Registry.RegisterIdempotent` | pynjspc/client.py:348-353 | registering a callback twice is the same as registering it once |
| `Registry.UnregisterUndoesRegister` | pynjspc/client.py:348-360 | `off` undoes an `on` that added a new callback |
| `Registry.RemoveHandlersDispatch` | pynjspc/client.py:362-367 | after `remove(e)` nothing is called for `e` and other events keep their callbacks; after `remove()` nothing is called at all |
| `Registry.InvokedMembers` | pynjspc/client.py:375-380 | a callback has been called iff some call in the sequence names it |
| `Registry.InvokeAll` | pynjspc/client.py:375-380 | each callback in the set is called exactly once with the payload; the failed ones are exactly the raising ones among them |
| `Requests.TransportFailure` | pynjspc/client.py:258-266 | a timeout becomes `ConnectionTimeoutError`, an HTTP library error `ConnectionError`, and any other exception is re-raised unchanged, each iff |
| `Requests.FetchFullState` | pynjspc/client.py:236-272 | disconnected raises `NotConnectedError` and sends nothing; an unresolved host raises `ConnectionError`; otherwise a GET of the state route is sent; succeeds iff the status is 200 with a JSON body, and `null` becomes `{}`; a rejected status or a text body raises `ConnectionError`; a session exception is mapped by `TransportFailure` |
| `Requests.SendCommand` | pynjspc/client.py:274-346 | the same guards; no payload (`None`) skips validation; `ValueError` iff connected and resolved but the payload fails `PayloadValid` (it is given and is not a dictionary that `json.dumps` can encode), and then nothing is sent; succeeds iff the status is 200, 201 or 202; a rejected status raises `ConnectionError`; a text body is wrapped as `{"response": text}`; a session exception is mapped by `TransportFailure` |
| `Requests.SetCircuitState` | pynjspc/client.py:462-475 | disconnected raises `NotConnectedError` itself; otherwise a PUT to the circuit route with `{"id", "state"}`; never a `ValueError` |
| `Requests.TestConnection` | pynjspc/client.py:477-487 | raises `ConnectionError` iff the host does not resolve; otherwise `True` iff the status route answers 200, and `False` on any exception of the session |
| `Requests.DisconnectedCallsSendNothing` | pynjspc/client.py:238-239 | every guarded call made while disconnected fails with `NotConnectedError` and sends nothing, whatever the network would do |
| `Requests.NoPayloadIsSent` | pynjspc/client.py:304-320 | a command without a payload is sent, with no body |
| `Requests.InvalidPayloadIndependentOfReply` | pynjspc/client.py:304-313 | a rejected payload is rejected before sending, whatever the network would have answered |
| `Requests.SetCircuitStateIsSendCommand` | pynjspc/client.py:472-475 | once connected, `set_circuit_state` is `send_command` with a PUT on the circuit state route |
| `Requests.CircuitPayloadValid` | pynjspc/client.py:474 | the circuit payload is a serialisable dictionary |

## Left out

- **Concurrency.** asyncio scheduling, task interleaving, and cancellation arriving at any await other than the reconnect delay are not modelled. The monitor's outer loop is modelled as repeated calls of `MonitorIteration` and its final sleep as a returned duration.
- **Transports.** The Socket.IO and aiohttp libraries are oracles; the names of their requests and responses beyond verb, route, payload, status and body are not modelled.
- **Timeouts.** The `timeout` arguments of `connect`, `fetch_full_state`, `send_command` and `test_connection` are not modelled: whether a timeout happened is part of the oracle.
- **Hosts and URLs.** Host resolution is a boolean from the oracle, and URL formatting (`_get_host_url`) is not modelled; the request records the route path.
- **Logging.** Log messages are not modelled. Appending to the unknown-events log is modelled by naming the file that would be written; failures of that write are not modelled.
- **Callback contents.** A callback is an opaque identity. A callback that changes the table during dispatch is not modelled (Python would raise on the changed set).
- **Abandoned sockets.** A socket that `connect` abandoned still being able to fire its handlers later is not modelled.
- **Numbers.** Python floats, in the configuration and in JSON values (`PyFloat`), are modelled as mathematical reals: rounding, infinities and NaN are not modelled. The integer defaults 10 and 60 are modelled as the reals 10.0 and 60.0, which the constructor's `float()` turns them into.
- **Commented-out code.** `emit` and the outbound event enumeration are commented out in the source and are not modelled.
- **Unused constant.** `DEFAULT_FALLBACK_WATCHDOG_SLEEP` is declared but never read by the client; it appears as `Const.DefaultFallbackWatchdogSleep` and is used nowhere.
- **Malformed JSON.** A body that claims to be JSON but does not parse is treated like any body that is not JSON.
- **Other files.** The package `__init__`, the example script, the snapshot script and the test fixtures are not part of this model.
- `Client.NjsPCClient.MonitorIteration`: one pass is modelled; properties that span several passes (for instance "eventually reconnects") are not stated.
