/**
 * The server side: `QuicListener` keeps the endpoint's connection registry (id to handle),
 * `ConnectionListener` queues the incoming connections of its endpoint in arrival order, and
 * `IncomingConnection` takes one of them from `Listening` through `Connecting` to `Connected`
 * once the handshake has signalled.
 */
module Listener {
  import opened Primitives
  import opened QuinnResults
  import opened Handles
  import opened NativeApi
  import opened QuinnApi
  import opened Driver
  import opened Connections
  import EventBridge
  import LastErrorFetch

  class IncomingConnection {
    const handle: Handle
    const id: int
    const driver: ConnectionDriver
    var state: IncomingState
    /** The manual-reset event the handshake sets (`_awaitingConnection`). */
    var signalled: bool
    /** The connection `ProcessIncoming` made, once it has run. */
    var connection: QuicConnection?
    /** The processing task's result, once it has completed. */
    var result: Option<QuicConnection>

    /** A completed task's result is the connection it made, and it completed after the signal. */
    ghost predicate Valid()
      reads this
    {
      result.Some? ==> signalled && connection != null && result.value == connection
    }

    constructor(handle: Handle, id: int, driver: ConnectionDriver)
      ensures this.handle == handle && this.id == id && this.driver == driver
      ensures state == Listening && !signalled && connection == null && result == None && Valid()
    {
      this.handle := handle;
      this.id := id;
      this.driver := driver;
      state := Listening;
      signalled := false;
      connection := null;
      result := None;
    }

    /**
     * `OnConnectionInitialized`: sets the signal for this connection's id while listening.
     * Setting it again changes nothing.
     */
    method OnConnectionInitialized(eventId: int)
      requires Valid()
      modifies this
      ensures Valid()
      ensures signalled == (old(signalled) || (state == Listening && eventId == id))
      ensures state == old(state) && connection == old(connection) && result == old(result)
    {
      if state == Listening && eventId == id {
        signalled := true;
      }
    }

    /**
     * `ProcessIncoming`, up to the wait: back to `Listening`, and a new connection on this
     * handle and id, set to `Connecting`.
     */
    method ProcessIncoming()
      requires Valid()
      modifies this
      ensures Valid()
      ensures state == Listening && signalled == old(signalled) && result == None
      ensures connection != null && fresh(connection)
      ensures connection.handle == handle && connection.connectionId == id && connection.driver == driver
      ensures connection.state == Connecting && !connection.IsConnected()
      ensures connection.uniStreams == map[] && connection.biStreams == map[] && connection.Valid()
    {
      state := Listening;
      var quicConnection := new QuicConnection(handle, id, driver);
      quicConnection.SetState(Connecting);
      connection := quicConnection;
      result := None;
    }

    /**
     * `ProcessIncoming`, after the wait: once the signal is set the connection becomes
     * `Connected` and is the task's result; before that the task is still waiting.
     */
    method Resume() returns (done: bool)
      requires Valid() && connection != null
      modifies this, connection
      ensures Valid()
      ensures done <==> signalled
      ensures done ==>
        connection == old(connection) && connection.IsConnected() && result == Some(connection)
        && connection.uniStreams == old(connection.uniStreams) && connection.biStreams == old(connection.biStreams)
      ensures !done ==> unchanged(this, old(connection))
      ensures state == old(state)
    {
      if !signalled {
        return false;
      }
      connection.SetState(Connected);
      result := Some(connection);
      done := true;
    }

    /** `WaitAsync`: the task's result, when there is one; there is one only after the signal. */
    function WaitAsync(): (r: Option<QuicConnection>)
      requires Valid()
      reads this
      ensures r.Some? ==> signalled && r.value == connection
    {
      result
    }
  }

  class ConnectionListener {
    const endpointId: int
    const driver: ConnectionDriver
    /** The incoming connections not yet taken, in arrival order (`_incomingConnections`). */
    var incoming: seq<IncomingConnection>

    constructor(endpointId: int, driver: ConnectionDriver)
      ensures this.endpointId == endpointId && this.driver == driver && incoming == []
    {
      this.endpointId := endpointId;
      this.driver := driver;
      incoming := [];
    }

    /**
     * `OnNewConnection`: an event for another endpoint is ignored; otherwise exactly one new
     * incoming connection is made, started, and queued last.
     */
    method OnNewConnection(handle: Handle, connectionId: int, eventEndpointId: int)
      modifies this
      ensures eventEndpointId != endpointId ==> unchanged(this)
      ensures eventEndpointId == endpointId ==>
        |incoming| == |old(incoming)| + 1 && incoming[..|old(incoming)|] == old(incoming)
        && var inc := incoming[|old(incoming)|];
        fresh(inc) && inc.handle == handle && inc.id == connectionId && inc.driver == driver
        && inc.state == Listening && !inc.signalled && inc.result == None && inc.Valid()
        && inc.connection != null && fresh(inc.connection) && inc.connection.state == Connecting
    {
      if endpointId != eventEndpointId {
        return;
      }
      var inc := new IncomingConnection(handle, connectionId, driver);
      inc.ProcessIncoming();
      incoming := incoming + [inc];
    }

    /** `NextAsync`, up to its second await: the oldest queued incoming connection, or waiting when there is none. */
    method NextAsync() returns (next: Option<IncomingConnection>)
      modifies this
      ensures old(incoming) == [] ==> next == None && incoming == []
      ensures old(incoming) != [] ==> next == Some(old(incoming)[0]) && incoming == old(incoming)[1..]
    {
      if incoming == [] {
        return None;
      }
      next := Some(incoming[0]);
      incoming := incoming[1..];
    }
  }

  class QuicListener {
    /** The endpoint id `create_endpoint` gave back (`Id`). */
    const id: int
    const endpoint: Handle
    /** The poller; it looks connection ids up in `connections`. */
    const driver: ConnectionDriver
    const listener: ConnectionListener
    /** The handle of every connection of this endpoint not yet lost (`_connections`). */
    var connections: map<int, Handle>
    /** The packets handed to the socket, in order. */
    var sent: seq<EventBridge.TransmitPacket>
    /** The `Incoming` events raised, in order. */
    var incomingRaised: seq<EventBridge.Event>

    constructor(id: int, endpoint: Handle)
      ensures this.id == id && this.endpoint == endpoint
      ensures fresh(driver) && fresh(listener) && listener.endpointId == id && listener.driver == driver
      ensures driver.pollTasks == [] && driver.scheduled == [] && listener.incoming == []
      ensures connections == map[] && sent == [] && incomingRaised == []
    {
      this.id := id;
      this.endpoint := endpoint;
      var d := new ConnectionDriver();
      driver := d;
      listener := new ConnectionListener(id, d);
      connections := map[];
      sent := [];
      incomingRaised := [];
    }

    /**
     * The `QuicListener` constructor, without its socket and server configuration:
     * initializes the bindings, creates the server endpoint on the configuration and unwraps
     * the answer, and keeps the endpoint's id and handle. It throws exactly when the last
     * foreign call's answer throws.
     */
    static method Open(api: Api, config: Handle) returns (o: Result<QuicListener>)
      modifies api, api.engine, api.engine.cell, config
      ensures |api.engine.log| > |old(api.engine.log)|
      ensures o.Threw? <==> Throws(api.LastReply().kind)
      ensures o.Returned? ==>
        var r := api.LastReply();
        api.isInitialized && api.engine.log[|api.engine.log| - 1] == CreateServerEndpointCall(HandleUse(old(config.raw), true))
        && fresh(o.value) && o.value.id == r.id % 0x100 && o.value.endpoint.raw == r.handle
        && o.value.connections == map[]
    {
      var init := api.Initialize();
      if init.Fail? {
        return Threw(init.exc);
      }
      var k, endpointId, handle := api.CreateServerEndpoint(config);
      var u := LastErrorFetch.Unwrap(k, api.engine.cell);
      if u.Fail? {
        return Threw(u.exc);
      }
      var l := new QuicListener(endpointId, handle);
      o := Returned(l);
    }

    /** `AcceptAsync`: the listener's oldest incoming connection, in arrival order, or waiting when there is none. */
    method AcceptAsync() returns (next: Option<IncomingConnection>)
      modifies listener
      ensures old(listener.incoming) == [] ==> next == None && listener.incoming == []
      ensures old(listener.incoming) != [] ==>
        next == Some(old(listener.incoming)[0]) && listener.incoming == old(listener.incoming)[1..]
    {
      next := listener.NextAsync();
    }

    /** `ConnectionHandle`: the stored handle of a recorded id; a missing id throws. */
    function ConnectionHandle(connectionId: int): (o: Result<Handle>)
      reads this
      ensures o.Returned? <==> connectionId in connections
      ensures o.Returned? ==> o.value == connections[connectionId]
      ensures o.Threw? ==> o.exc == KeyNotFound
    {
      if connectionId in connections then Returned(connections[connectionId]) else Threw(KeyNotFound)
    }

    /** `OnTransmitReady`: the packet goes to the socket only when the event is for this endpoint. */
    method OnTransmitReady(packet: EventBridge.TransmitPacket, eventId: int)
      modifies this
      ensures sent == old(sent) + (if eventId == id then [packet] else [])
      ensures connections == old(connections) && incomingRaised == old(incomingRaised)
    {
      if id != eventId {
        return;
      }
      if id == eventId {
        sent := sent + [packet];
      }
    }

    /**
     * `OnConnectionLost`: a recorded id is dropped and an action is scheduled that frees the
     * connection and then raises `ConnectionClose`; an id not recorded (also one already
     * lost) throws at the lookup, so the free is scheduled at most once per recorded id.
     */
    method OnConnectionLost(connectionId: int) returns (o: Outcome)
      modifies this, driver
      ensures connectionId !in connections
      ensures connectionId !in old(connections) ==> o == Fail(KeyNotFound) && unchanged(this, driver)
      ensures connectionId in old(connections) ==>
        o == Pass && connections == old(connections) - {connectionId}
        && driver.scheduled == old(driver.scheduled) + [FreeThenClose(endpoint, old(connections)[connectionId], connectionId)]
        && driver.pollTasks == old(driver.pollTasks) && driver.notices == old(driver.notices)
        && sent == old(sent) && incomingRaised == old(incomingRaised)
    {
      if connectionId !in connections {
        return Fail(KeyNotFound);
      }
      var handle := connections[connectionId];
      connections := connections - {connectionId};
      driver.Schedule(FreeThenClose(endpoint, handle, connectionId));
      o := Pass;
    }

    /**
     * One turn of this listener's poller. The driver looks connection ids up in the
     * listener's own registry, so a poll task queued for a connection that has been lost
     * since ends the worker with `KeyNotFoundException`, before any foreign call.
     */
    method DriverStep(api: Api) returns (p: PollOutcome)
      modifies driver, api.engine, api.engine.cell, connections.Values`isAcquired, HandlesOf(driver.scheduled)`isAcquired
      ensures connections == old(connections) && sent == old(sent) && incomingRaised == old(incomingRaised)
      ensures old(driver.cancelled || driver.faulted) ==> p == Stopped && api.engine.log == old(api.engine.log)
      ensures !old(driver.cancelled || driver.faulted) && old(driver.pollTasks) != [] && old(driver.pollTasks)[0] !in connections ==>
        p == Faulted(KeyNotFound) && driver.faulted && api.engine.log == old(api.engine.log)
      ensures !old(driver.cancelled || driver.faulted) && old(driver.pollTasks) != [] && old(driver.pollTasks)[0] in connections ==>
        var id := old(driver.pollTasks)[0];
        var c := PollConnectionCall(HandleUse(old(connections[id].raw), true));
        p == Polled(id, api.engine.respond(old(api.engine.log), c).kind)
        && api.engine.log == old(api.engine.log) + [c] + old(FreeCalls(driver.scheduled))
    {
      p := driver.Step(api, connections);
    }

    /**
     * `OnNewConnection`: an event for another endpoint is ignored; otherwise the id's entry
     * is set (replacing any earlier one) and `Incoming` is raised with the event.
     */
    method OnNewConnection(handle: Handle, connectionId: int, eventEndpointId: int)
      modifies this
      ensures eventEndpointId != id ==> unchanged(this)
      ensures eventEndpointId == id ==>
        connections == old(connections)[connectionId := handle]
        && ConnectionHandle(connectionId) == Returned(handle)
        && incomingRaised == old(incomingRaised) + [EventBridge.NewConnection(handle, connectionId, eventEndpointId)]
        && sent == old(sent)
    {
      if id != eventEndpointId {
        return;
      }
      connections := connections[connectionId := handle];
      incomingRaised := incomingRaised + [EventBridge.NewConnection(handle, connectionId, eventEndpointId)];
    }
  }
}
