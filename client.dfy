/** The pool-controller client: its configuration, its connection state, the
    event callback table, and the watchdog that heals a dropped connection.

    The network is an oracle. A connection attempt is described by a
    `ConnectAttempt` (did the host resolve, what did the push transport do,
    and the clock reading when its connect handler ran); a health probe by a
    `Probe`; an HTTP call by a `Requests.HttpOutcome`; and closing a socket
    by `closeAt`, the clock reading at which the transport fires the client's
    disconnect handler while it closes (`None`: it does not fire it). */
module Client {
  import opened Values
  import opened Const
  import opened Exceptions
  import opened Registry
  import Requests

  // ---------------------------------------------------------------------
  // Configuration

  /** The constructor's optional arguments; `None` means "not given". */
  datatype Settings = Settings(
    host: Option<string>,
    port: Option<int>,
    requestTimeout: Option<real>,
    autoReconnect: Option<bool>,
    reconnectDelay: Option<real>,
    maxReconnectAttempts: Option<int>,
    watchdogTimeout: Option<real>,
    unknownEventsLog: Option<string>)

  /** The configuration a client keeps for its whole life.
      `maxReconnectAttempts == None` would mean "no limit". */
  datatype Config = Config(
    host: string,
    port: int,
    requestTimeout: real,
    autoReconnect: bool,
    reconnectDelay: real,
    maxReconnectAttempts: Option<int>,
    watchdogTimeout: real,
    unknownEventsLog: Option<string>)

  /** What every constructed configuration satisfies: host and port are never
      falsy, a log path is never the empty string, and the attempt limit is
      always set (an absent limit falls back to the default). */
  predicate ConfigValid(c: Config) {
    && c.host != ""
    && c.port != 0
    && c.maxReconnectAttempts.Some?
    && c.unknownEventsLog != Some("")
  }

  /** The constructor's fallback rules: host and port fall back to their
      defaults when absent or falsy (`x or DEFAULT`), the other settings only
      when absent (`x if x is not None else DEFAULT`), and an empty log path
      counts as absent. */
  function Resolve(s: Settings): (c: Config)
    ensures ConfigValid(c)
  {
    Config(
      host := if s.host.Some? && s.host.value != "" then s.host.value else DefaultHost,
      port := if s.port.Some? && s.port.value != 0 then s.port.value else DefaultPort,
      requestTimeout := if s.requestTimeout.Some? then s.requestTimeout.value else DefaultRequestTimeout,
      autoReconnect := if s.autoReconnect.Some? then s.autoReconnect.value else DefaultAutoReconnect,
      reconnectDelay := if s.reconnectDelay.Some? then s.reconnectDelay.value else DefaultReconnectDelay,
      maxReconnectAttempts := Some(if s.maxReconnectAttempts.Some? then s.maxReconnectAttempts.value
                                   else DefaultMaxReconnectAttempts),
      watchdogTimeout := if s.watchdogTimeout.Some? then s.watchdogTimeout.value else DefaultWatchdogTimeout,
      unknownEventsLog := if s.unknownEventsLog.Some? && s.unknownEventsLog.value != "" then s.unknownEventsLog
                          else DefaultUnknownEventsLog)
  }

  /** A client built with no arguments gets the library's defaults. */
  lemma ResolveNothingGiven()
    ensures Resolve(Settings(None, None, None, None, None, None, None, None)) ==
              Config("localhost", 4200, 10.0, true, 5.0, Some(5), 60.0, None)
  {
  }

  /** Every value given is kept, provided host, port and log path are not
      falsy. */
  lemma ResolveEverythingGiven(s: Settings)
    requires s.host.Some? && s.port.Some? && s.requestTimeout.Some? && s.autoReconnect.Some?
    requires s.reconnectDelay.Some? && s.maxReconnectAttempts.Some? && s.watchdogTimeout.Some?
    requires s.unknownEventsLog.Some?
    requires s.host.value != "" && s.port.value != 0 && s.unknownEventsLog.value != ""
    ensures Resolve(s) == Config(s.host.value, s.port.value, s.requestTimeout.value, s.autoReconnect.value,
                                 s.reconnectDelay.value, s.maxReconnectAttempts, s.watchdogTimeout.value,
                                 s.unknownEventsLog)
  {
  }

  /** Falsy host, port and log path fall back to the defaults, while a zero
      timeout, a zero delay, `False` and a zero limit are kept as given. */
  lemma ResolveFalsyValues(s: Settings)
    requires s.host == Some("") && s.port == Some(0) && s.unknownEventsLog == Some("")
    requires s.requestTimeout == Some(0.0) && s.reconnectDelay == Some(0.0)
    requires s.autoReconnect == Some(false) && s.maxReconnectAttempts == Some(0)
    ensures Resolve(s).host == "localhost" && Resolve(s).port == 4200 && Resolve(s).unknownEventsLog == None
    ensures Resolve(s).requestTimeout == 0.0 && Resolve(s).reconnectDelay == 0.0
    ensures !Resolve(s).autoReconnect && Resolve(s).maxReconnectAttempts == Some(0)
  {
  }

  // ---------------------------------------------------------------------
  // Oracles and small state types

  /** What the push transport did with one connect call. */
  datatype TransportResult = Opened | ConnectTimedOut | ConnectRefused

  /** One call of `connect` as seen from the network: whether the host
      resolved, the transport's result, and the clock reading at which the
      connect handler ran (used only when the transport opened). */
  datatype ConnectAttempt = ConnectAttempt(resolves: bool, result: TransportResult, at: real)

  /** The attempt leaves the client connected. */
  predicate Succeeds(a: ConnectAttempt) {
    a.resolves && a.result == Opened
  }

  /** The health probe: whether the host resolved, the HTTP outcome of the
      status request, and the clock reading when it returned. */
  datatype Probe = Probe(resolves: bool, reply: Requests.HttpOutcome, at: real)

  /** How a finished monitor task ended: it returned, or an exception
      escaped it (awaiting the task raises that exception again). */
  datatype TaskEnd = Returned | Failed(error: Raised)

  /** The monitor task handle: none, a task that is still live, or a task
      that is done (`task.done()`). */
  datatype MonitorTask = NoTask | Running | Finished(end: TaskEnd)

  /** How one pass of the monitor loop ended: the stop flag ended the loop,
      the health probe raised (ending the task), a cancellation arrived
      during a reconnect delay (absorbed: the task returns), or the pass ends
      in the sleep before the next pass, of the given length in seconds. */
  datatype IterationEnd = Stopped | ProbeRaised(error: Raised) | Cancelled | Sleep(seconds: real)

  /** The attempt limit lets attempt number `n + 1` run. */
  predicate Allows(limit: Option<int>, n: int) {
    limit.None? || n < limit.value
  }

  /** The watchdog's health probe is due: connected, and the last activity is
      more than the watchdog timeout ago. */
  predicate ProbeDue(connected: bool, last: Option<real>, now: real, watchdog: real) {
    connected && last.Some? && now - last.value > watchdog
  }

  /** The last-activity stamp after a socket close: the disconnect handler
      refreshes it when it fires on a connected client. */
  function ClosedActivity(connected: bool, hadSocket: bool, closeAt: Option<real>, last: Option<real>): Option<real> {
    if hadSocket && closeAt.Some? && connected then Some(closeAt.value) else last
  }

  // ---------------------------------------------------------------------
  // The watchdog's arithmetic

  /** `max(1, watchdog - elapsed)`: the monitor sleeps until the connection
      would go stale, but never less than one second. */
  function SleepTime(watchdog: real, elapsed: real): (r: real)
    ensures r >= 1.0
    ensures elapsed + r >= watchdog
    ensures r == 1.0 || elapsed + r == watchdog
  {
    if watchdog - elapsed > 1.0 then watchdog - elapsed else 1.0
  }

  /** The sleep before the next monitor pass: `SleepTime` when activity has
      been recorded, the whole watchdog timeout otherwise. */
  function NextSleep(watchdog: real, last: Option<real>, now: real): (r: real)
    ensures last.Some? ==> r >= 1.0 && now + r >= last.value + watchdog
    ensures last.Some? ==> r == 1.0 || now + r == last.value + watchdog
    ensures last.None? ==> r == watchdog
  {
    if last.Some? then SleepTime(watchdog, now - last.value) else watchdog
  }

  // ---------------------------------------------------------------------
  // The retry campaign, as a function of its oracle

  /** The index of the first attempt that succeeds, or `|script|`. */
  function FirstSuccess(script: seq<ConnectAttempt>): (k: nat)
    ensures k <= |script|
    ensures forall i :: 0 <= i < k ==> !Succeeds(script[i])
    ensures k < |script| ==> Succeeds(script[k])
  {
    if script == [] then 0
    else if Succeeds(script[0]) then 0
    else 1 + FirstSuccess(script[1..])
  }

  /** The number of `connect` calls a campaign makes when it starts
      disconnected and not stopped: it stops after the first success, when
      the limit is reached, or when the oracle has no further attempt (the
      task was cancelled during the next reconnect delay). */
  function CampaignCalls(script: seq<ConnectAttempt>, limit: Option<int>): (n: nat)
    ensures n <= |script|
    ensures limit.Some? ==> n <= (if limit.value < 0 then 0 else limit.value)
  {
    var k := FirstSuccess(script);
    var untilSuccess := if k < |script| then k + 1 else |script|;
    if limit.Some? && limit.value < untilSuccess then
      (if limit.value < 0 then 0 else limit.value)
    else untilSuccess
  }

  /** What the campaign's loop establishes determines its number of calls:
      every attempt before the last one failed, the limit allowed the last
      one, and the loop then had to stop. */
  lemma CampaignCallsUnique(script: seq<ConnectAttempt>, limit: Option<int>, n: nat)
    requires n <= |script|
    requires forall i :: 0 <= i < n - 1 ==> !Succeeds(script[i])
    requires n > 0 ==> Allows(limit, n - 1)
    requires (n > 0 && Succeeds(script[n - 1])) || !Allows(limit, n) || n == |script|
    ensures n == CampaignCalls(script, limit)
  {
    var k := FirstSuccess(script);
    if n > 0 && Succeeds(script[n - 1]) {
      assert k >= n - 1;
    } else {
      assert k >= n;
    }
  }

  /** The campaign keeps its promises: when it ends disconnected without
      being cancelled, every call failed and the limit was used up. */
  lemma CampaignOutcome(script: seq<ConnectAttempt>, limit: Option<int>)
    ensures var n := CampaignCalls(script, limit);
            && (forall i :: 0 <= i < n - 1 ==> !Succeeds(script[i]))
            && (n > 0 ==> Allows(limit, n - 1))
            && ((n > 0 && Succeeds(script[n - 1])) || !Allows(limit, n) || n == |script|)
  {
    var k := FirstSuccess(script);
    var n := CampaignCalls(script, limit);
    assert n <= k + 1;
  }

  /** A campaign whose every attempt fails makes exactly as many calls as
      the limit allows when the oracle offers that many attempts, and no
      more. With a limit of 3 and attempts failing, the fourth never runs. */
  lemma GivesUpAtTheLimit(script: seq<ConnectAttempt>, m: int)
    requires 0 <= m <= |script|
    requires forall i :: 0 <= i < |script| ==> !Succeeds(script[i])
    ensures CampaignCalls(script, Some(m)) == m
  {
    assert FirstSuccess(script) == |script|;
  }

  /** A campaign stops at its first successful attempt, provided the limit
      lets that attempt run. */
  lemma StopsAtFirstSuccess(script: seq<ConnectAttempt>, limit: Option<int>, k: nat)
    requires k < |script| && Succeeds(script[k])
    requires forall i :: 0 <= i < k ==> !Succeeds(script[i])
    requires Allows(limit, k)
    ensures CampaignCalls(script, limit) == k + 1
  {
    assert FirstSuccess(script) >= k;
  }

  // ---------------------------------------------------------------------
  // The client

  /** A push-transport handle; each connect creates a fresh one. */
  class Socket {
    constructor () {}
  }

  class NjsPCClient {
    const config: Config

    var connected: bool
    var eventCallbacks: Table
    var reconnectAttempts: nat
    var monitorTask: MonitorTask
    var monitorStop: bool
    var lastActivity: Option<real>
    var socket: Socket?
    var handlersRegistered: bool

    /** The client's invariant: the configuration is one `Resolve` builds, the
        callback table is well formed, and a connected client has recorded
        activity (the connect handler records it). */
    ghost predicate Valid()
      reads this
    {
      && ConfigValid(config)
      && WellFormed(eventCallbacks)
      && (connected ==> lastActivity.Some?)
    }

    /** A new client is disconnected, has no callbacks, no attempts, no
        activity, no socket and no monitor; it opens nothing. */
    constructor (settings: Settings)
      ensures Valid()
      ensures config == Resolve(settings)
      ensures !connected && eventCallbacks == map[] && reconnectAttempts == 0
      ensures monitorTask == NoTask && !monitorStop && lastActivity == None
      ensures socket == null && !handlersRegistered
    {
      config := Resolve(settings);
      connected := false;
      eventCallbacks := map[];
      reconnectAttempts := 0;
      monitorTask := NoTask;
      monitorStop := false;
      lastActivity := None;
      socket := null;
      handlersRegistered := false;
    }

    /** The `connected` property; a connected client has recorded activity. */
    function Connected(): (c: bool)
      requires Valid()
      reads this
      ensures c ==> lastActivity.Some?
    {
      connected
    }

    /** `_update_activity`: record the current clock reading. */
    method UpdateActivity(now: real)
      modifies this`lastActivity
      ensures lastActivity == Some(now)
    {
      lastActivity := Some(now);
    }

    /** `_register_socket_handlers`: wires the event, connect and disconnect
        handlers (`HandleEvent`, `OnConnect`, `OnDisconnect`) to the current
        socket, once per socket. */
    method RegisterSocketHandlers()
      modifies this`handlersRegistered
      ensures handlersRegistered == (old(handlersRegistered) || socket != null)
    {
      if socket == null || handlersRegistered {
        return;
      }
      handlersRegistered := true;
    }

    /** The connect handler: acts only on a disconnected client, so a duplicate
        fire changes nothing. */
    method OnConnect(at: real)
      requires Valid()
      modifies this`connected, this`lastActivity
      ensures Valid()
      ensures connected
      ensures lastActivity == if old(connected) then old(lastActivity) else Some(at)
    {
      if !connected {
        connected := true;
        UpdateActivity(at);
      }
    }

    /** The disconnect handler: acts only on a connected client, so a
        duplicate fire changes nothing. */
    method OnDisconnect(at: real)
      requires Valid()
      modifies this`connected, this`lastActivity
      ensures Valid()
      ensures !connected
      ensures lastActivity == if old(connected) then Some(at) else old(lastActivity)
    {
      if connected {
        connected := false;
        UpdateActivity(at);
      }
    }

    /** `_start_connection_monitor`: starts a monitor unless a live one
        exists, so there is never more than one. */
    method StartConnectionMonitor()
      modifies this`monitorStop, this`monitorTask
      ensures old(monitorTask).Running? ==> monitorTask == old(monitorTask) && monitorStop == old(monitorStop)
      ensures !old(monitorTask).Running? ==> monitorTask == Running && !monitorStop
    {
      if !monitorTask.Running? {
        monitorStop := false;
        monitorTask := Running;
      }
    }

    /** `connect`: installs a fresh socket with its handlers and marks the
        client disconnected; an unresolvable host raises `ConnectionError`
        before any attempt and before the monitor is considered. Otherwise a
        timeout or a refused connection is logged, not raised; an opened
        connection (its connect handler has run) resets the attempt counter.
        With auto-reconnect on, a monitor is started unless one is live. */
    method Connect(attempt: ConnectAttempt) returns (err: Option<Raised>)
      requires Valid()
      modifies this
      ensures Valid()
      ensures socket != null && fresh(socket) && handlersRegistered
      ensures eventCallbacks == old(eventCallbacks)
      ensures err.Some? <==> !attempt.resolves
      ensures err.Some? ==> err.value == Library(ConnectionError)
      ensures connected == Succeeds(attempt)
      ensures reconnectAttempts == if connected then 0 else old(reconnectAttempts)
      ensures lastActivity == if connected then Some(attempt.at) else old(lastActivity)
      ensures var starts := attempt.resolves && config.autoReconnect && !old(monitorTask).Running?;
              && monitorTask == (if starts then Running else old(monitorTask))
              && monitorStop == (if starts then false else old(monitorStop))
    {
      socket := new Socket();
      connected := false;
      handlersRegistered := false;
      RegisterSocketHandlers();
      if !attempt.resolves {
        return Some(Library(ConnectionError));
      }
      err := None;
      match attempt.result {
        case Opened =>
          OnConnect(attempt.at);
          reconnectAttempts := 0;
        case _ =>
          connected := false;
      }
      if config.autoReconnect && !monitorTask.Running? {
        monitorStop := false;
        StartConnectionMonitor();
      }
    }

    /** `_cleanup_socket`: closes and drops the socket (an error from the
        close is logged) and marks the client disconnected; the monitor's
        fields are left as they are. */
    method CleanupSocket(closeAt: Option<real>)
      requires Valid()
      modifies this`socket, this`connected, this`lastActivity
      ensures Valid()
      ensures socket == null && !connected
      ensures lastActivity == ClosedActivity(old(connected), old(socket) != null, closeAt, old(lastActivity))
    {
      if socket != null {
        if closeAt.Some? {
          OnDisconnect(closeAt.value);
        }
        socket := null;
      }
      connected := false;
    }

    /** `disconnect`: drops the socket, marks the client disconnected, sets the
        stop flag, then cancels and awaits the monitor. A live monitor absorbs
        the cancellation; a monitor that died of an exception re-raises it
        from the await, before the handle is cleared. */
    method Disconnect(closeAt: Option<real>) returns (err: Option<Raised>)
      requires Valid()
      modifies this
      ensures Valid()
      ensures socket == null && !connected && monitorStop
      ensures lastActivity == ClosedActivity(old(connected), old(socket) != null, closeAt, old(lastActivity))
      ensures eventCallbacks == old(eventCallbacks) && reconnectAttempts == old(reconnectAttempts)
      ensures handlersRegistered == old(handlersRegistered)
      ensures err.Some? <==> old(monitorTask).Finished? && old(monitorTask).end.Failed?
      ensures err.Some? ==> err.value == old(monitorTask).end.error && monitorTask == old(monitorTask)
      ensures err.None? ==> monitorTask == NoTask
    {
      CleanupSocket(closeAt);
      monitorStop := true;
      err := None;
      match monitorTask {
        case NoTask =>
        case Running =>
          monitorTask := NoTask;
        case Finished(Returned) =>
          monitorTask := NoTask;
        case Finished(Failed(e)) =>
          err := Some(e);
      }
    }

    /** `async_close`: the same teardown as `disconnect`, under another name. */
    method AsyncClose(closeAt: Option<real>) returns (err: Option<Raised>)
      requires Valid()
      modifies this
      ensures Valid()
      ensures socket == null && !connected && monitorStop
      ensures lastActivity == ClosedActivity(old(connected), old(socket) != null, closeAt, old(lastActivity))
      ensures eventCallbacks == old(eventCallbacks) && reconnectAttempts == old(reconnectAttempts)
      ensures handlersRegistered == old(handlersRegistered)
      ensures err.Some? <==> old(monitorTask).Finished? && old(monitorTask).end.Failed?
      ensures err.Some? ==> err.value == old(monitorTask).end.error && monitorTask == old(monitorTask)
      ensures err.None? ==> monitorTask == NoTask
    {
      CleanupSocket(closeAt);
      monitorStop := true;
      err := None;
      match monitorTask {
        case NoTask =>
        case Running =>
          monitorTask := NoTask;
        case Finished(Returned) =>
          monitorTask := NoTask;
        case Finished(Failed(e)) =>
          err := Some(e);
      }
    }

    /** `fetch_full_state`; a successful fetch refreshes the activity stamp. */
    method FetchFullState(resolves: bool, reply: Requests.HttpOutcome, now: real)
      returns (x: Requests.Exchange<PyValue>)
      requires Valid()
      modifies this`lastActivity
      ensures Valid()
      ensures x == Requests.FetchFullState(connected, resolves, reply)
      ensures lastActivity == if x.result.Success? then Some(now) else old(lastActivity)
    {
      x := Requests.FetchFullState(connected, resolves, reply);
      if x.result.Success? {
        UpdateActivity(now);
      }
    }

    /** `send_command`; a successful command refreshes the activity stamp. */
    method SendCommand(endpoint: ApiEndpoint, data: PyValue, verb: string,
                       resolves: bool, reply: Requests.HttpOutcome, now: real)
      returns (x: Requests.Exchange<PyValue>)
      requires Valid()
      modifies this`lastActivity
      ensures Valid()
      ensures x == Requests.SendCommand(connected, resolves, endpoint, data, verb, reply)
      ensures lastActivity == if x.result.Success? then Some(now) else old(lastActivity)
    {
      x := Requests.SendCommand(connected, resolves, endpoint, data, verb, reply);
      if x.result.Success? {
        UpdateActivity(now);
      }
    }

    /** `set_circuit_state`: its own connection check, then `send_command`. */
    method SetCircuitState(circuitId: int, state: bool, resolves: bool, reply: Requests.HttpOutcome, now: real)
      returns (x: Requests.Exchange<PyValue>)
      requires Valid()
      modifies this`lastActivity
      ensures Valid()
      ensures x == Requests.SetCircuitState(connected, resolves, circuitId, state, reply)
      ensures lastActivity == if x.result.Success? then Some(now) else old(lastActivity)
    {
      if !connected {
        return Requests.Exchange(None, Failure(Library(NotConnectedError)));
      }
      x := SendCommand(CircuitSetState, Requests.CircuitPayload(circuitId, state), "PUT", resolves, reply, now);
    }

    /** `on`: registers a callback for an event; registering it again changes
        nothing. */
    method On(e: InboundEvent, cb: CallbackId)
      requires Valid()
      modifies this`eventCallbacks
      ensures Valid()
      ensures eventCallbacks == Register(old(eventCallbacks), e, cb)
    {
      var name := EventName(e);
      var table := eventCallbacks;
      if name !in table {
        table := table[name := {}];
      }
      table := table[name := table[name] + {cb}];
      assert table == Register(eventCallbacks, e, cb);
      eventCallbacks := table;
    }

    /** `off`: unregisters a callback, deleting the entry once it is empty. */
    method Off(e: InboundEvent, cb: CallbackId)
      requires Valid()
      modifies this`eventCallbacks
      ensures Valid()
      ensures eventCallbacks == Unregister(old(eventCallbacks), e, cb)
    {
      var name := EventName(e);
      var table := eventCallbacks;
      if name in table {
        table := table[name := table[name] - {cb}];
        if table[name] == {} {
          table := table - {name};
        }
      }
      assert table == Unregister(eventCallbacks, e, cb);
      eventCallbacks := table;
    }

    /** `remove`: drops one event's callbacks, or all of them. */
    method Remove(e: Option<InboundEvent>)
      requires Valid()
      modifies this`eventCallbacks
      ensures Valid()
      ensures eventCallbacks == RemoveHandlers(old(eventCallbacks), e)
    {
      if e.Some? {
        eventCallbacks := eventCallbacks - {EventName(e.value)};
      } else {
        eventCallbacks := map[];
      }
    }

    /** `_handle_event`: refreshes the activity stamp, calls each callback
        stored under the name once with the payload (a raising callback is
        logged and the others still run), and warns about a name outside the
        inbound events, appending it to the unknown-events log when one is
        configured. */
    method HandleEvent(name: string, data: PyValue, raising: set<CallbackId>, now: real)
      returns (calls: seq<Call>, failed: set<CallbackId>, warned: bool, appendedTo: Option<string>)
      requires Valid()
      modifies this`lastActivity
      ensures Valid()
      ensures lastActivity == Some(now)
      ensures Invoked(calls) == CallbacksFor(eventCallbacks, name)
      ensures |calls| == |CallbacksFor(eventCallbacks, name)|
      ensures forall i :: 0 <= i < |calls| ==> calls[i].payload == data
      ensures failed == CallbacksFor(eventCallbacks, name) * raising
      ensures warned <==> !IsKnownEvent(name)
      ensures appendedTo == if warned then config.unknownEventsLog else None
      ensures warned ==> calls == []
    {
      UpdateActivity(now);
      calls, failed := InvokeAll(CallbacksFor(eventCallbacks, name), raising, data);
      warned := !IsKnownEvent(name);
      appendedTo := None;
      if warned {
        UnknownEventHasNoCallbacks(eventCallbacks, name);
        if config.unknownEventsLog.Some? {
          appendedTo := config.unknownEventsLog;
        }
      }
    }

    /** The retry campaign of the monitor: resets the attempt counter, then
        while disconnected, not stopped and under the limit, waits the
        reconnect delay and calls `connect`, swallowing what it raises, and
        counts the attempt. An exhausted oracle stands for a cancellation
        during that delay. */
    method RetryCampaign(script: seq<ConnectAttempt>) returns (calls: nat, cancelled: bool)
      requires Valid() && monitorTask.Running?
      modifies this
      ensures Valid()
      ensures monitorTask == old(monitorTask) && monitorStop == old(monitorStop)
      ensures eventCallbacks == old(eventCallbacks)
      ensures calls == if old(connected) || old(monitorStop) then 0
                       else CampaignCalls(script, config.maxReconnectAttempts)
      ensures connected == (old(connected) || (calls > 0 && Succeeds(script[calls - 1])))
      ensures reconnectAttempts == if calls > 0 && connected then 1 else calls
      ensures lastActivity == if calls > 0 && connected then Some(script[calls - 1].at) else old(lastActivity)
      ensures cancelled <==> !connected && !monitorStop && Allows(config.maxReconnectAttempts, calls) && calls == |script|
      ensures calls > 0 ==> socket != null && fresh(socket) && handlersRegistered
      ensures calls == 0 ==> socket == old(socket) && handlersRegistered == old(handlersRegistered)
    {
      reconnectAttempts := 0;
      calls, cancelled := 0, false;
      while !connected && Allows(config.maxReconnectAttempts, reconnectAttempts) && !monitorStop
        invariant Valid()
        invariant monitorTask == old(monitorTask) && monitorStop == old(monitorStop)
        invariant eventCallbacks == old(eventCallbacks)
        invariant calls <= |script| && !cancelled
        invariant calls == 0 ==> connected == old(connected) && lastActivity == old(lastActivity) && socket == old(socket)
        invariant calls == 0 ==> handlersRegistered == old(handlersRegistered)
        invariant calls > 0 ==> handlersRegistered
        invariant calls > 0 ==> !old(connected) && !old(monitorStop) && Allows(config.maxReconnectAttempts, calls - 1)
        invariant calls > 0 ==> connected == Succeeds(script[calls - 1]) && socket != null && fresh(socket)
        invariant forall i :: 0 <= i < calls - 1 ==> !Succeeds(script[i])
        invariant reconnectAttempts == if calls > 0 && connected then 1 else calls
        invariant lastActivity == if calls > 0 && connected then Some(script[calls - 1].at) else old(lastActivity)
        decreases |script| - calls
      {
        if calls == |script| {
          cancelled := true;
          break;
        }
        // Whatever `connect` raises is logged and swallowed.
        var raised := Connect(script[calls]);
        reconnectAttempts := reconnectAttempts + 1;
        calls := calls + 1;
      }
      if !old(connected) && !old(monitorStop) {
        CampaignCallsUnique(script, config.maxReconnectAttempts, calls);
      }
    }

    /** One pass of the monitor loop. It runs as the live monitor task. With
        no recorded activity it cleans the socket up; connected and idle for
        longer than the watchdog timeout, it probes the status route: success
        refreshes the activity stamp, failure cleans up, and an unresolvable
        host raises out of the task. If then disconnected, it runs a retry
        campaign. It ends in the sleep before the next pass. */
    method MonitorIteration(now: real, probe: Probe, closeAt: Option<real>,
                            script: seq<ConnectAttempt>, wake: real)
      returns (end: IterationEnd)
      requires Valid() && monitorTask.Running?
      modifies this
      ensures Valid()
      ensures eventCallbacks == old(eventCallbacks) && monitorStop == old(monitorStop)
      // The stop flag ends the loop before anything else happens.
      ensures end == Stopped <==> old(monitorStop)
      ensures end == Stopped ==>
                && monitorTask == Finished(Returned) && connected == old(connected)
                && lastActivity == old(lastActivity) && socket == old(socket)
                && reconnectAttempts == old(reconnectAttempts) && handlersRegistered == old(handlersRegistered)
      // A probe whose host does not resolve kills the task.
      ensures var due := ProbeDue(old(connected), old(lastActivity), now, config.watchdogTimeout);
              end.ProbeRaised? <==> !old(monitorStop) && due && !probe.resolves
      ensures end.ProbeRaised? ==>
                && end.error == Library(ConnectionError) && monitorTask == Finished(Failed(end.error))
                && connected == old(connected) && lastActivity == old(lastActivity) && socket == old(socket)
                && reconnectAttempts == old(reconnectAttempts) && handlersRegistered == old(handlersRegistered)
      // A healthy connection is left alone; a successful probe refreshes it.
      ensures var due := ProbeDue(old(connected), old(lastActivity), now, config.watchdogTimeout);
              var healthy := probe.resolves && probe.reply.Response? && probe.reply.status == 200;
              !old(monitorStop) && old(connected) && (!due || healthy) ==>
                && connected && socket == old(socket) && reconnectAttempts == old(reconnectAttempts)
                && handlersRegistered == old(handlersRegistered)
                && lastActivity == (if due then Some(probe.at) else old(lastActivity))
                && end == Sleep(NextSleep(config.watchdogTimeout, lastActivity, wake))
      // Without recorded activity, or after a failed probe, the socket is
      // cleaned up; a dropped connection then gets a retry campaign, and
      // each attempt installs a fresh socket.
      ensures var due := ProbeDue(old(connected), old(lastActivity), now, config.watchdogTimeout);
              var healthy := probe.resolves && probe.reply.Response? && probe.reply.status == 200;
              var cleaned := old(lastActivity).None? || (due && probe.resolves && !healthy);
              var n := CampaignCalls(script, config.maxReconnectAttempts);
              !old(monitorStop) && (!old(connected) || (due && probe.resolves && !healthy)) ==>
                && (n == 0 ==> socket == (if cleaned then null else old(socket))
                               && handlersRegistered == old(handlersRegistered))
                && (n > 0 ==> socket != null && fresh(socket) && handlersRegistered)
                && connected == (n > 0 && Succeeds(script[n - 1]))
                && reconnectAttempts == (if connected then 1 else n)
                && (end == Cancelled <==> !connected && n == |script| && Allows(config.maxReconnectAttempts, n))
                && lastActivity == (if connected then Some(script[n - 1].at)
                                    else ClosedActivity(old(connected), old(socket) != null, closeAt, old(lastActivity)))
      ensures end == Cancelled ==> monitorTask == Finished(Returned) && !connected
      ensures end.Sleep? ==> monitorTask == Running && end.seconds == NextSleep(config.watchdogTimeout, lastActivity, wake)
      // A pass that ends disconnected, and not cancelled, has used up the limit.
      ensures end.Sleep? && !connected ==> !Allows(config.maxReconnectAttempts, reconnectAttempts)
    {
      if monitorStop {
        monitorTask := Finished(Returned);
        return Stopped;
      }
      if lastActivity.None? {
        CleanupSocket(closeAt);
      } else if connected && now - lastActivity.value > config.watchdogTimeout {
        var check := Requests.TestConnection(probe.resolves, probe.reply);
        if check.result.Failure? {
          monitorTask := Finished(Failed(check.result.error));
          return ProbeRaised(check.result.error);
        }
        if check.result.value {
          UpdateActivity(probe.at);
        } else {
          CleanupSocket(closeAt);
        }
      }
      if !connected {
        var calls, cancelled := RetryCampaign(script);
        if cancelled {
          monitorTask := Finished(Returned);
          return Cancelled;
        }
      }
      end := Sleep(NextSleep(config.watchdogTimeout, lastActivity, wake));
    }
  }
}
