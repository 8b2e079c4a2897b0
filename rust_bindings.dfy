/**
 * The native entry points the managed side calls (`ffi::bindings`): the endpoint and
 * connection pumps, datagram dispatch and the last-error protocol.
 */
module RustBindings {
  import opened Primitives
  import opened RustAddr
  import opened RustProto
  import opened RustResult
  import opened RustCallbacks
  import opened RustConnection
  import opened RustEndpoint

  /** The bytes of an ASCII text. */
  function Ascii(s: string): (r: seq<byte>)
    requires forall i :: 0 <= i < |s| ==> s[i] < 128 as char
    ensures |r| == |s| && forall i :: 0 <= i < |s| ==> r[i] == s[i] as int
  {
    seq(|s|, i requires 0 <= i < |s| => s[i] as int)
  }

  /** What `to_string` gives for the error of a send on a channel whose receiver is gone. */
  const SendErrorText: seq<byte> := Ascii("sending on a closed channel")

  /**
   * `last_error`: with a recorded error, reports its length through `actual_message_len`
   * first; then answers `BufferToSmall` without touching the buffer when the message does
   * not fit, and otherwise copies the message to the start of the buffer. Without a
   * recorded error it writes nothing and answers `Ok`. `None` for the length means the
   * out-parameter was not written.
   */
  method LastError(cell: LastResultCell, messageBuf: array<byte>, messageBufLen: nat)
    returns (k: Kind, actualMessageLen: Option<nat>)
    requires messageBufLen <= messageBuf.Length
    modifies messageBuf
    ensures cell.StoredError().None? ==> k == Ok && actualMessageLen.None? && messageBuf[..] == old(messageBuf[..])
    ensures cell.StoredError().Some? ==> actualMessageLen == Some(|cell.StoredError().value.reason|)
    ensures cell.StoredError().Some? && messageBufLen < |cell.StoredError().value.reason| ==>
      k == BufferToSmall && messageBuf[..] == old(messageBuf[..])
    ensures cell.StoredError().Some? && |cell.StoredError().value.reason| <= messageBufLen ==>
      var reason := cell.StoredError().value.reason;
      k == Ok && messageBuf[..|reason|] == reason && messageBuf[|reason|..] == old(messageBuf[|reason|..])
  {
    var lastResult := cell.StoredError();
    actualMessageLen := None;
    if lastResult.Some? {
      var errorAsBytes := lastResult.value.reason;
      actualMessageLen := Some(|errorAsBytes|);
      if messageBufLen < |errorAsBytes| {
        return BufferToSmall, actualMessageLen;
      }
      forall i | 0 <= i < |errorAsBytes| {
        messageBuf[i] := errorAsBytes[i];
      }
    }
    k := Ok;
  }

  /**
   * `create_endpoint`: a new endpoint, handed out through the handle out-parameter, and
   * `Ok`. The id the endpoint computed is assigned to the by-value `endpoint_id`
   * parameter, a local copy the caller never sees.
   */
  method CreateEndpoint(endpointId: byte) returns (k: Kind, endpoint: EndpointInner)
    ensures k == Ok && fresh(endpoint) && fresh(endpoint.events)
    ensures endpoint.connections == map[] && endpoint.events.queue == [] && endpoint.id == 1
  {
    var localEndpointId := endpointId;
    endpoint := new EndpointInner();
    localEndpointId := endpoint.id;
    k := Ok;
  }

  /** `poll_endpoint`: polls the endpoint and answers `Ok`. */
  method PollEndpoint(endpoint: EndpointInner, transmit: Option<Transmit>, reply: EngineReply, cbs: Callbacks)
    returns (k: Kind, panicked: bool)
    requires TransmitSlot in cbs.slots
    modifies endpoint, endpoint.events, cbs
    ensures k == Ok && cbs.slots == old(cbs.slots)
    ensures transmit.Some? && transmit.value.destination.SockV6? ==> panicked
    ensures transmit.None? || transmit.value.destination.SockV4? ==>
      var pre := if transmit.Some? then old(cbs.invoked) + [TransmitInvocation(endpoint.id, cbs.slots, transmit.value)] else old(cbs.invoked);
      var r := Drain(endpoint.id, cbs.slots, reply, Pump(old(endpoint.connections), pre, false, 0), old(endpoint.events.queue));
      endpoint.connections == r.connections && cbs.invoked == r.invoked && panicked == r.panicked
  {
    panicked := endpoint.Poll(transmit, reply, cbs);
    k := Ok;
  }

  /** What the engine makes of a datagram: a new connection, or an event for an existing one. */
  datatype DatagramEvent = NewConnection | ConnectionEvent(ev: ProtoConnectionEvent)

  /** The engine's `handle(now, remote, .., data)`. */
  type EngineHandle = (SocketAddr, seq<byte>) -> Option<(ConnectionHandle, DatagramEvent)>

  /**
   * `handle_datagram`: gives the engine the `length` bytes and the converted address. A new
   * connection is added to the endpoint and announced through `on_new_connection` with the
   * boxed connection (`boxed`, the address the allocation returns) and the handle's index
   * truncated to 32 bits; a connection event is forwarded; nothing else happens otherwise.
   * The answer is always `Ok`.
   */
  method HandleDatagram(endpoint: EndpointInner, data: seq<byte>, address: IpAddr, handle: EngineHandle,
                        boxed: nat, cbs: Callbacks)
    returns (k: Kind, panicked: bool, connection: Option<ConnectionInner>)
    requires NewConnectionSlot in cbs.slots
    modifies endpoint, cbs
    ensures k == Ok && cbs.slots == old(cbs.slots)
    ensures handle(IntoSocketAddr(address), data).None? ==>
      !panicked && connection.None? && endpoint.connections == old(endpoint.connections) && cbs.invoked == old(cbs.invoked)
    ensures handle(IntoSocketAddr(address), data).Some? && handle(IntoSocketAddr(address), data).value.1.NewConnection? ==>
      var h := handle(IntoSocketAddr(address), data).value.0;
      !panicked && endpoint.connections == old(endpoint.connections)[h := []]
      && cbs.invoked == old(cbs.invoked) + [Invocation(NewConnectionSlot, cbs.slots[NewConnectionSlot], NewConnectionArgs(boxed, TruncateU32(h)))]
      && connection.Some? && fresh(connection.value) && connection.value.connectionHandle == h
      && !connection.value.connected && connection.value.endpointEvents == endpoint.events
    ensures handle(IntoSocketAddr(address), data).Some? && handle(IntoSocketAddr(address), data).value.1.ConnectionEvent? ==>
      var (h, d) := handle(IntoSocketAddr(address), data).value;
      connection.None? && cbs.invoked == old(cbs.invoked)
      && (panicked <==> h !in old(endpoint.connections))
      && (!panicked ==> endpoint.connections == old(endpoint.connections)[h := old(endpoint.connections)[h] + [d.ev]])
  {
    k := Ok;
    panicked := false;
    connection := None;
    match handle(IntoSocketAddr(address), data) {
      case Some((h, NewConnection)) =>
        var c := endpoint.AddConnection(h);
        connection := Some(c);
        cbs.Fire(NewConnectionSlot, NewConnectionArgs(boxed, TruncateU32(h)));
      case Some((h, ConnectionEvent(ev))) =>
        panicked := endpoint.ForwardEventToConnection(h, ev);
      case None =>
    }
  }

  /**
   * `poll_connection`: polls the connection; a failed channel send becomes `Error` with a
   * code-0 error recorded in the last-result cell, carrying the send error's text.
   */
  method PollConnection(conn: ConnectionInner, transmit: Option<Transmit>, event: Option<ProtoEndpointEvent>,
                        events: seq<AppEvent>, cbs: Callbacks, cell: LastResultCell)
    returns (k: Kind)
    requires AllSet(cbs.slots)
    modifies conn, conn.endpointEvents, cbs, cell
    ensures k == Ok || k == Error
    ensures cbs.slots == old(cbs.slots)
    ensures k == Ok <==> old(conn.endpointEvents.receiverAlive) || (event.None? && transmit.None?)
    ensures k == Ok ==> cell.last == old(cell.last)
    ensures k == Ok ==> cbs.invoked == old(cbs.invoked) + Invocations(conn.ConnectionId(), cbs.slots, events, |events|)
    ensures k == Error ==> cell.StoredError() == Some(QuinnError(0, SendErrorText)) && cbs.invoked == old(cbs.invoked)
  {
    var ok := conn.Poll(transmit, event, events, cbs);
    if !ok {
      var e := NewQuinnError(0, SendErrorText);
      assert forall i :: 0 <= i < |SendErrorText| ==> SendErrorText[i] != 0;
      k := cell.Context(Error, e.value);
    } else {
      k := Ok;
    }
  }
}
