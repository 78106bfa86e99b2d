/** The event callback table of a client: for each inbound event name, the
    set of callbacks registered for it, and the loop that calls them when an
    event arrives. */
module Registry {
  import opened Values
  import opened Const

  /** A callback is identified by its identity; the table holds sets of them. */
  type CallbackId = nat

  type Table = map<string, set<CallbackId>>

  /** The table's invariant: it is keyed by event values only (the
      registration methods take an `InboundEvent`), and a key whose set
      becomes empty is deleted. */
  ghost predicate WellFormed(t: Table) {
    forall name :: name in t ==> IsKnownEvent(name) && t[name] != {}
  }

  /** The callbacks dispatch would call for `name` (`dict.get(name, set())`). */
  function CallbacksFor(t: Table, name: string): (cbs: set<CallbackId>)
    ensures name !in t ==> cbs == {}
    ensures WellFormed(t) ==> (cbs != {} <==> name in t)
  {
    if name in t then t[name] else {}
  }

  /** `on(e, cb)`: create the entry if missing, then add `cb` to its set. */
  function Register(t: Table, e: InboundEvent, cb: CallbackId): (r: Table)
    ensures forall name :: CallbacksFor(r, name) == CallbacksFor(t, name) + (if name == EventName(e) then {cb} else {})
    ensures WellFormed(t) ==> WellFormed(r)
  {
    var name := EventName(e);
    EveryInboundEventKnown(e);
    var current := if name in t then t[name] else {};
    t[name := current + {cb}]
  }

  /** `off(e, cb)`: discard `cb` from the entry, and delete the entry once
      its set is empty; an absent entry leaves the table as it is. */
  function Unregister(t: Table, e: InboundEvent, cb: CallbackId): (r: Table)
    ensures forall name :: CallbacksFor(r, name) == CallbacksFor(t, name) - (if name == EventName(e) then {cb} else {})
    ensures EventName(e) !in t ==> r == t
    ensures WellFormed(t) ==> WellFormed(r)
  {
    var name := EventName(e);
    if name in t then
      var rest := t[name] - {cb};
      if rest == {} then t - {name} else t[name := rest]
    else
      t
  }

  /** `remove(e)` drops the entry for `e` (`dict.pop(e, None)`);
      `remove()` clears the table. */
  function RemoveHandlers(t: Table, e: Option<InboundEvent>): (r: Table)
    ensures e.Some? ==> r.Keys == t.Keys - {EventName(e.value)}
    ensures forall name :: name in r ==> name in t && r[name] == t[name]
    ensures e.None? ==> r == map[]
    ensures WellFormed(t) ==> WellFormed(r)
  {
    match e
    case Some(ev) => t - {EventName(ev)}
    case None => map[]
  }

  /** A table that has kept its invariant holds no callback for a name
      outside the inbound events: dispatch of an unknown event calls nothing. */
  lemma UnknownEventHasNoCallbacks(t: Table, name: string)
    requires WellFormed(t)
    requires !IsKnownEvent(name)
    ensures CallbacksFor(t, name) == {}
  {
  }

  /** Registering a callback twice is the same as registering it once. */
  lemma RegisterIdempotent(t: Table, e: InboundEvent, cb: CallbackId)
    ensures Register(Register(t, e, cb), e, cb) == Register(t, e, cb)
  {
    var once := Register(t, e, cb);
    var name := EventName(e);
    assert once[name] + {cb} == once[name];
  }

  /** Unregistering a callback that registering just added restores the
      table it was added to. */
  lemma UnregisterUndoesRegister(t: Table, e: InboundEvent, cb: CallbackId)
    requires WellFormed(t)
    requires cb !in CallbacksFor(t, EventName(e))
    ensures Unregister(Register(t, e, cb), e, cb) == t
  {
    var name := EventName(e);
    var r := Unregister(Register(t, e, cb), e, cb);
    if name in t {
      assert (t[name] + {cb}) - {cb} == t[name];
      assert r == t[name := t[name]];
    } else {
      assert ({} + {cb}) - {cb} == {};
      assert r == t;
    }
  }

  /** After `remove(e)` nothing is called for `e`, and every other event
      keeps its callbacks; after `remove()` nothing is called at all. */
  lemma RemoveHandlersDispatch(t: Table, e: Option<InboundEvent>, name: string)
    ensures e.None? ==> CallbacksFor(RemoveHandlers(t, e), name) == {}
    ensures e.Some? ==> CallbacksFor(RemoveHandlers(t, e), name) ==
                          (if name == EventName(e.value) then {} else CallbacksFor(t, name))
  {
  }

  /** One call of a callback with the event's payload. */
  datatype Call = Call(callback: CallbackId, payload: PyValue)

  /** The callbacks a sequence of calls has called. */
  function Invoked(calls: seq<Call>): set<CallbackId> {
    if calls == [] then {}
    else Invoked(calls[..|calls| - 1]) + {calls[|calls| - 1].callback}
  }

  /** A callback has been called iff some call in the sequence names it. */
  lemma {:induction false} InvokedMembers(calls: seq<Call>, c: CallbackId)
    ensures c in Invoked(calls) <==> exists i :: 0 <= i < |calls| && calls[i].callback == c
  {
    if calls != [] {
      var init := calls[..|calls| - 1];
      InvokedMembers(init, c);
      if c in Invoked(init) {
        var i :| 0 <= i < |init| && init[i].callback == c;
        assert calls[i].callback == c;
      }
      if i :| 0 <= i < |calls| && calls[i].callback == c {
        if i < |init| {
          assert init[i].callback == c;
        }
      }
    }
  }

  lemma InvokedSnoc(calls: seq<Call>, c: Call)
    ensures Invoked(calls + [c]) == Invoked(calls) + {c.callback}
  {
    assert (calls + [c])[..|calls|] == calls;
  }

  /** No callback is called twice. */
  predicate CalledOnce(calls: seq<Call>) {
    forall i, j :: 0 <= i < j < |calls| ==> calls[i].callback != calls[j].callback
  }

  /** Every call carries the event's payload. */
  predicate AllCarry(calls: seq<Call>, payload: PyValue) {
    forall i :: 0 <= i < |calls| ==> calls[i].payload == payload
  }

  /** The dispatch loop's invariant. */
  predicate DispatchState(callbacks: set<CallbackId>, pending: set<CallbackId>, payload: PyValue, calls: seq<Call>) {
    && pending <= callbacks
    && Invoked(calls) == callbacks - pending
    && |calls| + |pending| == |callbacks|
    && CalledOnce(calls)
    && AllCarry(calls, payload)
  }

  /** Calling one more pending callback keeps the dispatch invariant. */
  lemma DispatchStep(callbacks: set<CallbackId>, pending: set<CallbackId>, payload: PyValue,
                     calls: seq<Call>, cb: CallbackId)
    requires DispatchState(callbacks, pending, payload, calls)
    requires cb in pending
    ensures DispatchState(callbacks, pending - {cb}, payload, calls + [Call(cb, payload)])
  {
    var next := calls + [Call(cb, payload)];
    InvokedSnoc(calls, Call(cb, payload));
    assert callbacks - (pending - {cb}) == (callbacks - pending) + {cb};
    assert |pending - {cb}| == |pending| - 1;
    forall i | 0 <= i < |calls| ensures calls[i].callback != cb {
      InvokedMembers(calls, calls[i].callback);
    }
    assert forall i :: 0 <= i < |calls| ==> next[i] == calls[i];
  }

  /** The dispatch loop: calls every callback of `callbacks` once, with the
      payload, in an unspecified order. `raising` is the set of callbacks that
      throw; each such exception is caught and logged, so the loop carries
      on with the remaining callbacks. */
  method InvokeAll(callbacks: set<CallbackId>, raising: set<CallbackId>, payload: PyValue)
    returns (calls: seq<Call>, failed: set<CallbackId>)
    ensures Invoked(calls) == callbacks
    ensures |calls| == |callbacks|
    ensures forall i, j :: 0 <= i < j < |calls| ==> calls[i].callback != calls[j].callback
    ensures forall i :: 0 <= i < |calls| ==> calls[i].payload == payload
    ensures failed == callbacks * raising
  {
    var pending := callbacks;
    calls, failed := [], {};
    while pending != {}
      invariant DispatchState(callbacks, pending, payload, calls)
      invariant failed == (callbacks - pending) * raising
      decreases pending
    {
      var cb :| cb in pending;
      DispatchStep(callbacks, pending, payload, calls, cb);
      calls := calls + [Call(cb, payload)];
      if cb in raising {
        failed := failed + {cb};
      }
      pending := pending - {cb};
    }
  }
}
