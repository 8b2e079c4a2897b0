/**
 * The managed entry points over the foreign surface (`QuinnApi`): a once-only
 * initialisation that registers the managed callbacks, and wrappers that take the lock of
 * every handle they pass for exactly the duration of the foreign call.
 */
module QuinnApi {
  import opened Primitives
  import opened QuinnResults
  import opened RustResult
  import opened Handles
  import opened AddressHelpers
  import opened NativeApi
  import LastErrorFetch

  /** The callbacks `ConnectionEvents.Initialize` registers, in its order. */
  const ConnectionSlots: seq<CallbackSlot> :=
    [OnConnectedCb, OnConnectionLostCb, OnDatagramReceivedCb, OnStreamOpenedCb, OnStreamAvailableCb,
     OnStreamWritableCb, OnStreamReadableCb, OnStreamStoppedCb, OnStreamFinishedCb]

  /** The callbacks `EndpointEvents.Initialize` registers, in its order. */
  const EndpointSlots: seq<CallbackSlot> := [OnNewConnectionCb, OnTransmitCb, OnPollableConnectionCb]

  /** The registration calls for a list of callbacks, one per callback in the same order. */
  function SetCalls(slots: seq<CallbackSlot>): (cs: seq<FfiCall>)
    ensures |cs| == |slots|
    ensures forall i :: 0 <= i < |slots| ==> cs[i] == SetCallbackCall(slots[i])
  {
    seq(|slots|, i requires 0 <= i < |slots| => SetCallbackCall(slots[i]))
  }

  /** The registrations of a nonempty prefix are the first one followed by those of the rest. */
  lemma SetCallsPrefix(slots: seq<CallbackSlot>, k: nat)
    requires 0 < k <= |slots|
    ensures SetCalls(slots[..k]) == [SetCallbackCall(slots[0])] + SetCalls(slots[1..][..k - 1])
  {
    assert slots[..k] == [slots[0]] + slots[1..][..k - 1];
  }

  /** Being a prefix of a sequence carries over to a longer sequence it is a prefix of. */
  lemma PrefixOfPrefix<T>(a: seq<T>, b: seq<T>, c: seq<T>)
    requires |a| <= |b| <= |c| && b[..|a|] == a && c[..|b|] == b
    ensures c[..|a|] == a
  {
    assert c[..|a|] == c[..|b|][..|a|];
  }

  /** Between them, the two registration runs name every callback, and none twice. */
  lemma RegistrationsCoverEverySlot(s: CallbackSlot)
    ensures s in ConnectionSlots + EndpointSlots
    ensures forall i, j :: 0 <= i < j < |ConnectionSlots + EndpointSlots| ==>
      (ConnectionSlots + EndpointSlots)[i] != (ConnectionSlots + EndpointSlots)[j]
  {
  }

  class Api {
    const engine: Engine
    /** The static `_isInitialized` flag. */
    var isInitialized: bool

    constructor(engine: Engine)
      ensures this.engine == engine && !isInitialized
    {
      this.engine := engine;
      isInitialized := false;
    }

    /** The answer the last logged call received. */
    ghost function LastReply(): (r: Reply)
      reads engine
      requires |engine.log| > 0
      ensures r == engine.respond(engine.log[..|engine.log| - 1], engine.log[|engine.log| - 1])
    {
      engine.respond(engine.log[..|engine.log| - 1], engine.log[|engine.log| - 1])
    }

    /**
     * `QuinnApi.Initialize`: registers the connection callbacks and then the endpoint
     * callbacks, unless that has been done before; then sets the flag. A registration that
     * throws propagates before the flag is set.
     */
    method Initialize() returns (o: Outcome)
      modifies this, engine, engine.cell
      ensures old(isInitialized) ==> o == Pass && isInitialized && engine.log == old(engine.log)
      ensures !old(isInitialized) && o == Pass ==>
        isInitialized && engine.log == old(engine.log) + SetCalls(ConnectionSlots) + SetCalls(EndpointSlots)
      ensures o.Fail? ==> !isInitialized && |engine.log| > |old(engine.log)| && Throws(LastReply().kind)
      ensures |engine.trace| >= |old(engine.trace)| && engine.trace[..|old(engine.trace)|] == old(engine.trace)
    {
      if !isInitialized {
        var made;
        o, made := RegisterConnectionEvents();
        if o.Fail? {
          return;
        }
        o, made := RegisterEndpointEvents();
        if o.Fail? {
          return;
        }
      }
      isInitialized := true;
      o := Pass;
    }

    /** One `SetOn*` call, unwrapped. */
    method Register(slot: CallbackSlot) returns (o: Outcome)
      modifies engine, engine.cell
      ensures engine.log == old(engine.log) + [SetCallbackCall(slot)]
      ensures engine.trace == old(engine.trace) + [NativeStep(SetCallbackCall(slot))]
      ensures o == Unwrap(LastReply().kind, LastErrorFetch.StoredReason(engine.cell))
      ensures o.Fail? <==> Throws(LastReply().kind)
    {
      var r := engine.Invoke(SetCallbackCall(slot));
      o := LastErrorFetch.Unwrap(r.kind, engine.cell);
      assert engine.log[..|engine.log| - 1] == old(engine.log);
    }

    /**
     * A run of registrations, each unwrapped, in the order given: the first one that throws
     * ends the run. `made` is how many registration calls were made.
     */
    method RegisterAll(slots: seq<CallbackSlot>) returns (o: Outcome, made: nat)
      modifies engine, engine.cell
      decreases |slots|
      ensures made <= |slots| && engine.log == old(engine.log) + SetCalls(slots[..made])
      ensures o.Pass? ==> made == |slots|
      ensures o.Fail? ==> made > 0 && Throws(LastReply().kind)
      ensures |engine.trace| >= |old(engine.trace)| && engine.trace[..|old(engine.trace)|] == old(engine.trace)
    {
      if slots == [] {
        return Pass, 0;
      }
      ghost var trace0 := engine.trace;
      o := Register(slots[0]);
      if o.Fail? {
        SetCallsPrefix(slots, 1);
        PrefixOfPrefix(trace0, trace0, engine.trace);
        return o, 1;
      }
      ghost var trace1 := engine.trace;
      var rest;
      o, rest := RegisterAll(slots[1..]);
      made := rest + 1;
      SetCallsPrefix(slots, made);
      PrefixOfPrefix(trace0, trace1, engine.trace);
    }

    /**
     * `ConnectionEvents.Initialize`: the nine registrations of `ConnectionSlots`, in that
     * order, each unwrapped.
     */
    method RegisterConnectionEvents() returns (o: Outcome, made: nat)
      modifies engine, engine.cell
      ensures made <= |ConnectionSlots| && engine.log == old(engine.log) + SetCalls(ConnectionSlots[..made])
      ensures o.Pass? ==> made == |ConnectionSlots|
      ensures o.Fail? ==> made > 0 && Throws(LastReply().kind)
      ensures |engine.trace| >= |old(engine.trace)| && engine.trace[..|old(engine.trace)|] == old(engine.trace)
    {
      o, made := RegisterAll(ConnectionSlots);
    }

    /** `EndpointEvents.Initialize`: the three registrations of `EndpointSlots`, in that order, each unwrapped. */
    method RegisterEndpointEvents() returns (o: Outcome, made: nat)
      modifies engine, engine.cell
      ensures made <= |EndpointSlots| && engine.log == old(engine.log) + SetCalls(EndpointSlots[..made])
      ensures o.Pass? ==> made == |EndpointSlots|
      ensures o.Fail? ==> made > 0 && Throws(LastReply().kind)
      ensures |engine.trace| >= |old(engine.trace)| && engine.trace[..|old(engine.trace)|] == old(engine.trace)
    {
      o, made := RegisterAll(EndpointSlots);
    }

    /**
     * The shape every handle-taking wrapper shares: take the handle's lock, make the call
     * with the handle as it then is, give the lock back.
     */
    method Bracketed(h: Handle, call: HandleUse -> FfiCall) returns (r: Reply)
      modifies h`isAcquired, engine, engine.cell
      ensures h.raw == old(h.raw) && !h.isAcquired
      ensures var c := call(HandleUse(old(h.raw), true));
        r == engine.respond(old(engine.log), c) && engine.log == old(engine.log) + [c]
        && engine.trace == old(engine.trace) + [AcquireStep(h), NativeStep(c), ReleaseStep(h)]
    {
      var _ := h.Acquire();
      engine.trace := engine.trace + [AcquireStep(h)];
      r := engine.Invoke(call(HandleUse(h.raw, h.isAcquired)));
      h.Release();
      engine.trace := engine.trace + [ReleaseStep(h)];
    }

    /**
     * `ConnectClient`: the endpoint's lock is held across the call and the unwrap, and given
     * back only when the unwrap does not throw; the connection handle and id are the call's
     * out-values.
     */
    method ConnectClient(endpoint: Handle, hostName: seq<byte>, addr: SockaddrInV4)
      returns (o: Result<(Handle, int)>)
      modifies endpoint, engine, engine.cell
      ensures endpoint.raw == old(endpoint.raw)
      ensures var c := ConnectClientCall(HandleUse(old(endpoint.raw), true), hostName, addr);
        var r := engine.respond(old(engine.log), c);
        engine.log == old(engine.log) + [c]
        && (o.Threw? <==> Throws(r.kind))
        && (o.Threw? ==> Fail(o.exc) == Unwrap(r.kind, LastErrorFetch.StoredReason(engine.cell)))
        && (o.Threw? ==> endpoint.isAcquired && engine.trace == old(engine.trace) + [AcquireStep(endpoint), NativeStep(c)])
        && (o.Returned? ==> !endpoint.isAcquired && o.value.0.raw == r.handle && o.value.1 == r.id
                            && engine.trace == old(engine.trace) + [AcquireStep(endpoint), NativeStep(c), ReleaseStep(endpoint)])
      ensures o.Returned? ==> fresh(o.value.0) && !o.value.0.isAcquired
    {
      var _ := endpoint.Acquire();
      engine.trace := engine.trace + [AcquireStep(endpoint)];
      var r := engine.Invoke(ConnectClientCall(HandleUse(endpoint.raw, endpoint.isAcquired), hostName, addr));
      var u := LastErrorFetch.Unwrap(r.kind, engine.cell);
      if u.Fail? {
        return Threw(u.exc);
      }
      var connection := new Handle(r.handle);
      endpoint.Release();
      engine.trace := engine.trace + [ReleaseStep(endpoint)];
      o := Returned((connection, r.id));
    }

    /** `PollConnection`: the answer of the bracketed `poll_connection`, unchanged. */
    method PollConnection(conn: Handle) returns (k: ResultKind)
      modifies conn`isAcquired, engine, engine.cell
      ensures conn.raw == old(conn.raw) && !conn.isAcquired
      ensures var c := PollConnectionCall(HandleUse(old(conn.raw), true));
        k == engine.respond(old(engine.log), c).kind && engine.log == old(engine.log) + [c]
        && engine.trace == old(engine.trace) + [AcquireStep(conn), NativeStep(c), ReleaseStep(conn)]
    {
      var r := Bracketed(conn, u => PollConnectionCall(u));
      k := r.kind;
    }

    /**
     * `FreeConnection`: the endpoint's lock is taken first and given back last, the
     * connection's lock nests inside it, and the call sees both held.
     */
    method FreeConnection(endpoint: Handle, conn: Handle) returns (k: ResultKind)
      modifies endpoint`isAcquired, conn`isAcquired, engine, engine.cell
      ensures endpoint.raw == old(endpoint.raw) && conn.raw == old(conn.raw)
      ensures !endpoint.isAcquired && !conn.isAcquired
      ensures var c := FreeConnectionCall(HandleUse(old(endpoint.raw), true), HandleUse(old(conn.raw), true));
        k == engine.respond(old(engine.log), c).kind && engine.log == old(engine.log) + [c]
        && engine.trace == old(engine.trace) + [AcquireStep(endpoint), AcquireStep(conn), NativeStep(c), ReleaseStep(conn), ReleaseStep(endpoint)]
    {
      var _ := endpoint.Acquire();
      engine.trace := engine.trace + [AcquireStep(endpoint)];
      var _ := conn.Acquire();
      engine.trace := engine.trace + [AcquireStep(conn)];
      var r := engine.Invoke(FreeConnectionCall(HandleUse(endpoint.raw, endpoint.isAcquired), HandleUse(conn.raw, conn.isAcquired)));
      conn.Release();
      engine.trace := engine.trace + [ReleaseStep(conn)];
      endpoint.Release();
      engine.trace := engine.trace + [ReleaseStep(endpoint)];
      k := r.kind;
    }

    /**
     * `CloseConnection`: like `ConnectClient`, the connection's lock is given back only when
     * the unwrap does not throw.
     */
    method CloseConnection(conn: Handle, reason: seq<byte>, code: int) returns (o: Outcome)
      modifies conn, engine, engine.cell
      ensures conn.raw == old(conn.raw)
      ensures var c := CloseConnectionCall(HandleUse(old(conn.raw), true), reason, code);
        var r := engine.respond(old(engine.log), c);
        engine.log == old(engine.log) + [c]
        && o == Unwrap(r.kind, LastErrorFetch.StoredReason(engine.cell))
        && (o.Fail? ==> conn.isAcquired && engine.trace == old(engine.trace) + [AcquireStep(conn), NativeStep(c)])
        && (o.Pass? ==> !conn.isAcquired && engine.trace == old(engine.trace) + [AcquireStep(conn), NativeStep(c), ReleaseStep(conn)])
    {
      var _ := conn.Acquire();
      engine.trace := engine.trace + [AcquireStep(conn)];
      var r := engine.Invoke(CloseConnectionCall(HandleUse(conn.raw, conn.isAcquired), reason, code));
      o := LastErrorFetch.Unwrap(r.kind, engine.cell);
      if o.Fail? {
        return;
      }
      conn.Release();
      engine.trace := engine.trace + [ReleaseStep(conn)];
    }

    /** `SetOn*`: each registration passes the native answer through unchanged. */
    method SetCallback(slot: CallbackSlot) returns (k: ResultKind)
      modifies engine, engine.cell
      ensures engine.log == old(engine.log) + [SetCallbackCall(slot)]
      ensures k == engine.respond(old(engine.log), SetCallbackCall(slot)).kind
    {
      var r := engine.Invoke(SetCallbackCall(slot));
      k := r.kind;
    }

    /** `PollEndpoint`: the answer of the bracketed `poll_endpoint`, unchanged. */
    method PollEndpoint(endpoint: Handle) returns (k: ResultKind)
      modifies endpoint, engine, engine.cell
      ensures endpoint.raw == old(endpoint.raw) && !endpoint.isAcquired
      ensures var c := PollEndpointCall(HandleUse(old(endpoint.raw), true));
        k == engine.respond(old(engine.log), c).kind && engine.log == old(engine.log) + [c]
        && engine.trace == old(engine.trace) + [AcquireStep(endpoint), NativeStep(c), ReleaseStep(endpoint)]
    {
      var r := Bracketed(endpoint, u => PollEndpointCall(u));
      k := r.kind;
    }

    /**
     * `CreateServerEndpoint`: the bracketed call on the configuration handle; the endpoint id
     * byte and the endpoint handle are the call's out-values.
     */
    method CreateServerEndpoint(config: Handle) returns (k: ResultKind, endpointId: byte, endpoint: Handle)
      modifies config, engine, engine.cell
      ensures config.raw == old(config.raw) && !config.isAcquired
      ensures var c := CreateServerEndpointCall(HandleUse(old(config.raw), true));
        var r := engine.respond(old(engine.log), c);
        k == r.kind && endpointId == r.id % 0x100 && endpoint.raw == r.handle
        && engine.log == old(engine.log) + [c]
        && engine.trace == old(engine.trace) + [AcquireStep(config), NativeStep(c), ReleaseStep(config)]
      ensures fresh(endpoint) && !endpoint.isAcquired
    {
      var r := Bracketed(config, u => CreateServerEndpointCall(u));
      k, endpointId := r.kind, r.id % 0x100;
      endpoint := new Handle(r.handle);
    }

    /** `CreateClientEndpoint`: as `CreateServerEndpoint`, on a client configuration. */
    method CreateClientEndpoint(config: Handle) returns (k: ResultKind, endpointId: byte, endpoint: Handle)
      modifies config, engine, engine.cell
      ensures config.raw == old(config.raw) && !config.isAcquired
      ensures var c := CreateClientEndpointCall(HandleUse(old(config.raw), true));
        var r := engine.respond(old(engine.log), c);
        k == r.kind && endpointId == r.id % 0x100 && endpoint.raw == r.handle
        && engine.log == old(engine.log) + [c]
        && engine.trace == old(engine.trace) + [AcquireStep(config), NativeStep(c), ReleaseStep(config)]
      ensures fresh(endpoint) && !endpoint.isAcquired
    {
      var r := Bracketed(config, u => CreateClientEndpointCall(u));
      k, endpointId := r.kind, r.id % 0x100;
      endpoint := new Handle(r.handle);
    }

    /**
     * `ReadStream`: the bracketed `read_stream` with a capacity of `bufferLength`; the native
     * side fills the start of the buffer (never more than the capacity) and reports the
     * length it read.
     */
    method ReadStream(conn: Handle, streamId: int, buffer: array<byte>, bufferLength: u32)
      returns (k: ResultKind, actualLength: u32)
      requires bufferLength <= buffer.Length
      modifies conn, engine, engine.cell, buffer
      ensures conn.raw == old(conn.raw) && !conn.isAcquired
      ensures var c := ReadStreamCall(HandleUse(old(conn.raw), true), streamId, bufferLength);
        var r := engine.respond(old(engine.log), c);
        var n := if |r.data| < bufferLength then |r.data| else bufferLength;
        k == r.kind && actualLength == r.count
        && buffer[..n] == r.data[..n] && buffer[n..] == old(buffer[n..])
        && engine.log == old(engine.log) + [c]
        && engine.trace == old(engine.trace) + [AcquireStep(conn), NativeStep(c), ReleaseStep(conn)]
    {
      var r := Bracketed(conn, u => ReadStreamCall(u, streamId, bufferLength));
      var n := if |r.data| < bufferLength then |r.data| else bufferLength;
      forall i | 0 <= i < n {
        buffer[i] := r.data[i];
      }
      k, actualLength := r.kind, r.count;
    }

    /** `WriteStream`: the bracketed `write_stream` of the first `bufferLength` bytes; returns how many were taken. */
    method WriteStream(conn: Handle, streamId: int, buffer: array<byte>, bufferLength: u32)
      returns (k: ResultKind, bytesWritten: u32)
      requires bufferLength <= buffer.Length
      modifies conn, engine, engine.cell
      ensures conn.raw == old(conn.raw) && !conn.isAcquired
      ensures var c := WriteStreamCall(HandleUse(old(conn.raw), true), streamId, buffer[..bufferLength]);
        var r := engine.respond(old(engine.log), c);
        k == r.kind && bytesWritten == r.count && engine.log == old(engine.log) + [c]
        && engine.trace == old(engine.trace) + [AcquireStep(conn), NativeStep(c), ReleaseStep(conn)]
    {
      var data := buffer[..bufferLength];
      var r := Bracketed(conn, u => WriteStreamCall(u, streamId, data));
      k, bytesWritten := r.kind, r.count;
    }

    /** `AcceptStream`: the bracketed `accept_stream`; the stream id is the call's out-value. */
    method AcceptStream(conn: Handle, streamDirection: byte) returns (k: ResultKind, streamId: int)
      modifies conn, engine, engine.cell
      ensures conn.raw == old(conn.raw) && !conn.isAcquired
      ensures var c := AcceptStreamCall(HandleUse(old(conn.raw), true), streamDirection);
        var r := engine.respond(old(engine.log), c);
        k == r.kind && streamId == r.id && engine.log == old(engine.log) + [c]
        && engine.trace == old(engine.trace) + [AcquireStep(conn), NativeStep(c), ReleaseStep(conn)]
    {
      var r := Bracketed(conn, u => AcceptStreamCall(u, streamDirection));
      k, streamId := r.kind, r.id;
    }

    /** `OpenStream`: the bracketed `open_stream`; the new stream's id is the call's out-value. */
    method OpenStream(conn: Handle, streamType: StreamType) returns (k: ResultKind, openedStreamId: int)
      modifies conn, engine, engine.cell
      ensures conn.raw == old(conn.raw) && !conn.isAcquired
      ensures var c := OpenStreamCall(HandleUse(old(conn.raw), true), streamType);
        var r := engine.respond(old(engine.log), c);
        k == r.kind && openedStreamId == r.id && engine.log == old(engine.log) + [c]
        && engine.trace == old(engine.trace) + [AcquireStep(conn), NativeStep(c), ReleaseStep(conn)]
    {
      var r := Bracketed(conn, u => OpenStreamCall(u, streamType));
      k, openedStreamId := r.kind, r.id;
    }

    /** `HandleDatagram`: the bracketed `handle_datagram` of the first `length` bytes of the buffer. */
    method HandleDatagram(endpoint: Handle, buffer: array<byte>, length: nat, addr: SockaddrInV4) returns (k: ResultKind)
      requires length <= buffer.Length
      modifies endpoint, engine, engine.cell
      ensures endpoint.raw == old(endpoint.raw) && !endpoint.isAcquired
      ensures var c := HandleDatagramCall(HandleUse(old(endpoint.raw), true), buffer[..length], addr);
        k == engine.respond(old(engine.log), c).kind && engine.log == old(engine.log) + [c]
        && engine.trace == old(engine.trace) + [AcquireStep(endpoint), NativeStep(c), ReleaseStep(endpoint)]
    {
      var data := buffer[..length];
      var r := Bracketed(endpoint, u => HandleDatagramCall(u, data, addr));
      k := r.kind;
    }
  }
}
