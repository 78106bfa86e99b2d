/** The request/response channel: the guards a client checks before it sends
    an HTTP request and the rules that turn the reply into a value or a
    raised error. The transport is an oracle: `resolves` says whether the
    host name resolved, `reply` what the HTTP session produced. */
module Requests {
  import opened Values
  import opened Const
  import opened Exceptions

  /** A reply body: valid JSON, or text that is not JSON. */
  datatype Body = JsonBody(value: PyValue) | TextBody(text: string)

  /** What the HTTP session produced for one request: a timeout, an error of
      the HTTP library (`aiohttp.ClientError`), any other exception, or a
      response. */
  datatype HttpOutcome =
    | TimedOut
    | ClientFailure
    | OtherFailure
    | Response(status: int, body: Body)

  /** A request as sent: HTTP verb, route path and JSON payload (`PyNone`:
      no body, as `json=None` sends). */
  datatype Request = Request(verb: string, path: string, payload: PyValue)

  /** The request a call sent, if it got as far as sending one, and what the
      call returned or raised. */
  datatype Exchange<T> = Exchange(sent: Option<Request>, result: Result<T, Raised>)

  /** Status codes `send_command` accepts. */
  predicate CommandAccepted(status: int) {
    status == 200 || status == 201 || status == 202
  }

  /** The payload check of `send_command`: `None` (the default) skips it;
      anything else must be a dictionary that `json.dumps` can encode. */
  predicate PayloadValid(data: PyValue) {
    data.PyNone? || (data.PyDict? && Serialisable(data))
  }

  /** The rules every HTTP call applies to the exceptions of the session:
      a timeout becomes `ConnectionTimeoutError`, an HTTP library error
      becomes `ConnectionError`, anything else is re-raised unchanged. */
  function TransportFailure(reply: HttpOutcome): (r: Raised)
    requires !reply.Response?
    ensures reply.TimedOut? <==> r == Library(ConnectionTimeoutError)
    ensures reply.ClientFailure? <==> r == Library(ConnectionError)
    ensures reply.OtherFailure? <==> r == Propagated
    ensures r.Library? ==> Catches(ConnectionError, r)
  {
    match reply
    case TimedOut => Library(ConnectionTimeoutError)
    case ClientFailure => Library(ConnectionError)
    case OtherFailure => Propagated
  }

  /** `fetch_full_state`: GET the full state. Requires a connection, accepts
      only status 200, and turns a JSON `null` into an empty dictionary.
      A body that is not JSON makes the HTTP library's decoder raise one of
      its own errors, which becomes a `ConnectionError`. */
  function FetchFullState(connected: bool, resolves: bool, reply: HttpOutcome): (x: Exchange<PyValue>)
    ensures x.sent.Some? <==> connected && resolves
    ensures x.sent.Some? ==> x.sent.value == Request("GET", EndpointPath(StateAll), PyNone)
    ensures !connected ==> x.result == Failure(Library(NotConnectedError))
    ensures connected && !resolves ==> x.result == Failure(Library(ConnectionError))
    ensures x.result.Success? <==>
              x.sent.Some? && reply.Response? && reply.status == 200 && reply.body.JsonBody?
    ensures x.result.Success? && reply.body.value == PyNone ==> x.result.value == PyDict(map[])
    ensures x.result.Success? && reply.body.value != PyNone ==> x.result.value == reply.body.value
    ensures x.sent.Some? && reply.Response? && (reply.status != 200 || reply.body.TextBody?) ==>
              x.result == Failure(Library(ConnectionError))
    ensures x.sent.Some? && !reply.Response? ==> x.result == Failure(TransportFailure(reply))
  {
    if !connected then Exchange(None, Failure(Library(NotConnectedError)))
    else if !resolves then Exchange(None, Failure(Library(ConnectionError)))
    else
      var sent := Some(Request("GET", EndpointPath(StateAll), PyNone));
      match reply
      case Response(status, body) =>
        if status != 200 then Exchange(sent, Failure(Library(ConnectionError)))
        else
          (match body
           case JsonBody(v) => Exchange(sent, Success(if v == PyNone then PyDict(map[]) else v))
           case TextBody(_) => Exchange(sent, Failure(Library(ConnectionError))))
      case _ => Exchange(sent, Failure(TransportFailure(reply)))
  }

  /** `send_command`: requires a connection, resolves the host, validates
      the payload, then sends it. Accepts status 200, 201 and 202; a body
      that is not JSON is wrapped as `{"response": text}`. */
  function SendCommand(connected: bool, resolves: bool, endpoint: ApiEndpoint, data: PyValue,
                       verb: string, reply: HttpOutcome): (x: Exchange<PyValue>)
    ensures x.sent.Some? <==> connected && resolves && PayloadValid(data)
    ensures x.sent.Some? ==> x.sent.value == Request(verb, EndpointPath(endpoint), data)
    ensures !connected ==> x.result == Failure(Library(NotConnectedError))
    ensures connected && !resolves ==> x.result == Failure(Library(ConnectionError))
    ensures x.result == Failure(ValueError) <==> connected && resolves && !PayloadValid(data)
    ensures x.result.Success? <==> x.sent.Some? && reply.Response? && CommandAccepted(reply.status)
    ensures x.result.Success? && reply.body.JsonBody? ==> x.result.value == reply.body.value
    ensures x.result.Success? && reply.body.TextBody? ==>
              x.result.value == PyDict(map["response" := PyStr(reply.body.text)])
    ensures x.sent.Some? && reply.Response? && !CommandAccepted(reply.status) ==>
              x.result == Failure(Library(ConnectionError))
    ensures x.sent.Some? && !reply.Response? ==> x.result == Failure(TransportFailure(reply))
  {
    if !connected then Exchange(None, Failure(Library(NotConnectedError)))
    else if !resolves then Exchange(None, Failure(Library(ConnectionError)))
    else if !data.PyNone? && !data.PyDict? then Exchange(None, Failure(ValueError))
    else if !data.PyNone? && !Serialisable(data) then Exchange(None, Failure(ValueError))
    else
      var sent := Some(Request(verb, EndpointPath(endpoint), data));
      match reply
      case Response(status, body) =>
        if !CommandAccepted(status) then Exchange(sent, Failure(Library(ConnectionError)))
        else
          (match body
           case JsonBody(v) => Exchange(sent, Success(v))
           case TextBody(text) => Exchange(sent, Success(PyDict(map["response" := PyStr(text)]))))
      case _ => Exchange(sent, Failure(TransportFailure(reply)))
  }

  /** The payload `set_circuit_state` sends. */
  function CircuitPayload(circuitId: int, state: bool): PyValue {
    PyDict(map["id" := PyInt(circuitId), "state" := PyBool(state)])
  }

  /** `set_circuit_state`: checks the connection itself, then sends a PUT to
      the circuit state route. */
  function SetCircuitState(connected: bool, resolves: bool, circuitId: int, state: bool,
                           reply: HttpOutcome): (x: Exchange<PyValue>)
    ensures !connected ==> x == Exchange(None, Failure(Library(NotConnectedError)))
    ensures x.sent.Some? <==> connected && resolves
    ensures x.sent.Some? ==>
              x.sent.value == Request("PUT", "state/circuit/setState", CircuitPayload(circuitId, state))
    ensures x.result != Failure(ValueError)
  {
    if !connected then Exchange(None, Failure(Library(NotConnectedError)))
    else
      CircuitPayloadValid(circuitId, state);
      SendCommand(connected, resolves, CircuitSetState, CircuitPayload(circuitId, state), "PUT", reply)
  }

  /** `test_connection`: GET the status route; true iff the status is 200,
      false on any exception of the session. The host is resolved before the
      guarded block, so an unresolvable host raises `ConnectionError`. */
  function TestConnection(resolves: bool, reply: HttpOutcome): (x: Exchange<bool>)
    ensures x.sent.Some? <==> resolves
    ensures x.sent.Some? ==> x.sent.value == Request("GET", EndpointPath(StateStatus), PyNone)
    ensures x.result.Failure? <==> !resolves
    ensures x.result.Failure? ==> x.result.error == Library(ConnectionError)
    ensures x.result == Success(true) <==> resolves && reply.Response? && reply.status == 200
  {
    if !resolves then Exchange(None, Failure(Library(ConnectionError)))
    else
      var ok := match reply
        case Response(status, _) => status == 200
        case _ => false;
      Exchange(Some(Request("GET", EndpointPath(StateStatus), PyNone)), Success(ok))
  }

  /** Called while disconnected, every guarded call fails with
      `NotConnectedError` and sends nothing, whatever the network would do. */
  lemma DisconnectedCallsSendNothing(resolves: bool, endpoint: ApiEndpoint, data: PyValue,
                                     verb: string, circuitId: int, state: bool, reply: HttpOutcome)
    ensures FetchFullState(false, resolves, reply) == Exchange(None, Failure(Library(NotConnectedError)))
    ensures SendCommand(false, resolves, endpoint, data, verb, reply) == Exchange(None, Failure(Library(NotConnectedError)))
    ensures SetCircuitState(false, resolves, circuitId, state, reply) == Exchange(None, Failure(Library(NotConnectedError)))
  {
  }

  /** `send_command` without a payload (`data=None`) skips the check and
      sends the request with no body. */
  lemma NoPayloadIsSent(endpoint: ApiEndpoint, verb: string, reply: HttpOutcome)
    ensures SendCommand(true, true, endpoint, PyNone, verb, reply).sent ==
              Some(Request(verb, EndpointPath(endpoint), PyNone))
  {
  }

  /** A rejected payload is rejected before anything is sent, whatever the
      network would have answered. */
  lemma InvalidPayloadIndependentOfReply(endpoint: ApiEndpoint, data: PyValue, verb: string,
                                         r1: HttpOutcome, r2: HttpOutcome)
    requires !PayloadValid(data)
    ensures SendCommand(true, true, endpoint, data, verb, r1) == SendCommand(true, true, endpoint, data, verb, r2)
    ensures SendCommand(true, true, endpoint, data, verb, r1) == Exchange(None, Failure(ValueError))
  {
  }

  /** Once connected, `set_circuit_state` is `send_command` on the circuit
      state route with a `PUT`. */
  lemma SetCircuitStateIsSendCommand(resolves: bool, circuitId: int, state: bool, reply: HttpOutcome)
    ensures SetCircuitState(true, resolves, circuitId, state, reply) ==
              SendCommand(true, resolves, CircuitSetState, CircuitPayload(circuitId, state), "PUT", reply)
  {
  }

  /** A circuit payload is a serialisable dictionary. */
  lemma CircuitPayloadValid(circuitId: int, state: bool)
    ensures PayloadValid(CircuitPayload(circuitId, state))
  {
    var entries := CircuitPayload(circuitId, state).entries;
    assert forall k :: k in entries ==> Serialisable(entries[k]);
  }
}
