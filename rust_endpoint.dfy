/**
 * One native endpoint (`EndpointInner`): it owns the receiving half of the channel its
 * connections send on, keeps a sender per connection handle, and pumps the channel into
 * engine calls and transmit callbacks.
 */
module RustEndpoint {
  import opened Primitives
  import opened RustAddr
  import opened RustProto
  import opened RustCallbacks
  import opened RustConnection

  /** The static `ENDPOINT_ID`, created as 0; nothing ever stores into it. */
  const ENDPOINT_ID: byte := 0

  /** `ENDPOINT_ID.load(..).wrapping_add(1)`. */
  function NextEndpointId(counter: byte): (id: byte)
    ensures counter < 255 ==> id == counter + 1
    ensures counter == 255 ==> id == 0
  {
    (counter + 1) % 256
  }

  /**
   * The engine's `handle_event(handle, event)`: what a protocol event from a connection
   * gives back for that connection, if anything.
   */
  type EngineReply = (ConnectionHandle, ProtoEndpointEvent) -> Option<ProtoConnectionEvent>

  type Item = (ConnectionHandle, EndpointEvent)

  /**
   * The state `handle_connection_events` works on: the connection table (each handle's
   * sender, shown as what was sent on it), the callbacks invoked, whether a panic ended
   * the pump, and how many channel items were taken.
   */
  datatype Pump = Pump(
    connections: map<ConnectionHandle, seq<ProtoConnectionEvent>>,
    invoked: seq<Invocation>,
    panicked: bool,
    consumed: nat)

  /** The invocation `on_transmit` makes for a transmit to an IPv4 destination. */
  function TransmitInvocation(id: byte, slots: map<Slot, FnPtr>, t: Transmit): Invocation
    requires TransmitSlot in slots && t.destination.SockV4?
  {
    Invocation(TransmitSlot, slots[TransmitSlot], TransmitArgs(id, t.contents, FromSocketAddr(t.destination).value))
  }

  /** One received channel item, as the loop body of `handle_connection_events` treats it. */
  function PumpStep(id: byte, slots: map<Slot, FnPtr>, reply: EngineReply, p: Pump, item: Item): (r: Pump)
    requires TransmitSlot in slots
    ensures r.consumed == p.consumed + 1
    ensures item.1.TransmitEvent? ==> r.connections == p.connections && (r.panicked <==> p.panicked || item.1.t.destination.SockV6?)
    ensures item.1.TransmitEvent? && item.1.t.destination.SockV4? ==>
      r.invoked == p.invoked + [TransmitInvocation(id, slots, item.1.t)]
    ensures item.1.ProtoEvent? ==> r.invoked == p.invoked
    ensures item.1.ProtoEvent? && item.1.ev.drained && !r.panicked ==> item.0 !in r.connections
    ensures item.1.ProtoEvent? && item.1.ev.drained && reply(item.0, item.1.ev).Some? ==> r.panicked
    ensures forall h :: h != item.0 ==> (h in r.connections <==> h in p.connections)
    ensures forall h :: h != item.0 && h in r.connections ==> r.connections[h] == p.connections[h]
    ensures r.connections.Keys <= p.connections.Keys
  {
    var (h, ev) := item;
    match ev
    case ProtoEvent(pe) =>
      var conns := if pe.drained then p.connections - {h} else p.connections;
      var answer := reply(h, pe);
      if answer.None? then p.(connections := conns, consumed := p.consumed + 1)
      else if h !in conns then p.(connections := conns, panicked := true, consumed := p.consumed + 1)
      else p.(connections := conns[h := conns[h] + [answer.value]], consumed := p.consumed + 1)
    case TransmitEvent(t) =>
      if t.destination.SockV6? then p.(panicked := true, consumed := p.consumed + 1)
      else p.(invoked := p.invoked + [TransmitInvocation(id, slots, t)], consumed := p.consumed + 1)
  }

  /** The pump run over a channel holding `q`, stopping at the first panic or when the channel is empty. */
  function Drain(id: byte, slots: map<Slot, FnPtr>, reply: EngineReply, p: Pump, q: seq<Item>): Pump
    requires TransmitSlot in slots
    decreases |q|
  {
    if p.panicked || q == [] then p else Drain(id, slots, reply, PumpStep(id, slots, reply, p, q[0]), q[1..])
  }

  /** The transmit invocations for the transmit items of `q`, in channel order. */
  function TransmitsOf(id: byte, slots: map<Slot, FnPtr>, q: seq<Item>): seq<Invocation>
    requires TransmitSlot in slots
  {
    if q == [] then []
    else
      var first := if q[0].1.TransmitEvent? && q[0].1.t.destination.SockV4? then [TransmitInvocation(id, slots, q[0].1.t)] else [];
      first + TransmitsOf(id, slots, q[1..])
  }

  /**
   * Without a panic the pump takes the whole channel in FIFO order, and the only callbacks
   * it makes are the transmits, in the order they were queued.
   */
  lemma {:induction false} DrainTakesAll(id: byte, slots: map<Slot, FnPtr>, reply: EngineReply, p: Pump, q: seq<Item>)
    requires TransmitSlot in slots && !p.panicked
    requires !Drain(id, slots, reply, p, q).panicked
    ensures Drain(id, slots, reply, p, q).consumed == p.consumed + |q|
    ensures Drain(id, slots, reply, p, q).invoked == p.invoked + TransmitsOf(id, slots, q)
    decreases |q|
  {
    if q != [] {
      DrainTakesAll(id, slots, reply, PumpStep(id, slots, reply, p, q[0]), q[1..]);
    }
  }

  /** Without a panic every queued transmit went to an IPv4 destination. */
  lemma {:induction false} DrainNoPanicOnlyV4(id: byte, slots: map<Slot, FnPtr>, reply: EngineReply, p: Pump, q: seq<Item>, k: nat)
    requires TransmitSlot in slots && !p.panicked
    requires !Drain(id, slots, reply, p, q).panicked
    requires k < |q| && q[k].1.TransmitEvent?
    ensures q[k].1.t.destination.SockV4?
    decreases |q|
  {
    if k > 0 {
      DrainNoPanicOnlyV4(id, slots, reply, PumpStep(id, slots, reply, p, q[0]), q[1..], k - 1);
    }
  }

  /** The pump never adds a connection. */
  lemma {:induction false} DrainNeverAdds(id: byte, slots: map<Slot, FnPtr>, reply: EngineReply, p: Pump, q: seq<Item>)
    requires TransmitSlot in slots
    ensures Drain(id, slots, reply, p, q).connections.Keys <= p.connections.Keys
    decreases |q|
  {
    if !p.panicked && q != [] {
      DrainNeverAdds(id, slots, reply, PumpStep(id, slots, reply, p, q[0]), q[1..]);
    }
  }

  /**
   * A drained protocol event whose engine reply is `Some` makes the pump panic: the entry
   * was removed just before `unwrap` looks it up. Wherever such an item sits in the
   * channel, the pump ends in a panic (at that item or earlier).
   */
  lemma {:induction false} DrainedThenReplyPanics(id: byte, slots: map<Slot, FnPtr>, reply: EngineReply, p: Pump, q: seq<Item>, k: nat)
    requires TransmitSlot in slots
    requires k < |q| && q[k].1.ProtoEvent? && q[k].1.ev.drained && reply(q[k].0, q[k].1.ev).Some?
    ensures Drain(id, slots, reply, p, q).panicked
    decreases |q|
  {
    if !p.panicked {
      var p' := PumpStep(id, slots, reply, p, q[0]);
      if k == 0 {
        assert p'.panicked;
      } else {
        DrainedThenReplyPanics(id, slots, reply, p', q[1..], k - 1);
      }
    }
  }

  class EndpointInner {
    /** Each connection's sender, shown as the events sent on it. */
    var connections: map<ConnectionHandle, seq<ProtoConnectionEvent>>
    /** The channel: the receiving half is the endpoint's, every connection holds a sender. */
    const events: EndpointChannel
    const id: byte

    /** `EndpointInner::new`: an empty table, a fresh channel and the id the counter yields. */
    constructor()
      ensures connections == map[] && fresh(events) && events.queue == [] && events.receiverAlive
      ensures id == NextEndpointId(ENDPOINT_ID) && id == 1
    {
      connections := map[];
      events := new EndpointChannel();
      id := NextEndpointId(ENDPOINT_ID);
    }

    /** `notify_transmit`: hands the transmit to `on_transmit` with this endpoint's id. */
    method NotifyTransmit(t: Transmit, cbs: Callbacks) returns (panicked: bool)
      requires TransmitSlot in cbs.slots
      modifies cbs
      ensures cbs.slots == old(cbs.slots)
      ensures panicked <==> t.destination.SockV6?
      ensures !panicked ==> cbs.invoked == old(cbs.invoked) + [TransmitInvocation(id, cbs.slots, t)]
      ensures panicked ==> cbs.invoked == old(cbs.invoked)
    {
      panicked := cbs.OnTransmit(id, t);
    }

    /**
     * `add_connection`: a new sender under `handle` (replacing any earlier one) and a
     * connection that is not yet connected and sends on this endpoint's channel.
     */
    method AddConnection(handle: ConnectionHandle) returns (c: ConnectionInner)
      modifies this
      ensures connections == old(connections)[handle := []]
      ensures fresh(c) && !c.connected && c.connectionHandle == handle && c.endpointEvents == events
    {
      connections := connections[handle := []];
      c := new ConnectionInner(handle, events);
    }

    /** `forward_event_to_connection`: sends on the handle's sender; `unwrap` panics on an unknown handle. */
    method ForwardEventToConnection(handle: ConnectionHandle, ev: ProtoConnectionEvent) returns (panicked: bool)
      modifies this
      ensures panicked <==> handle !in old(connections)
      ensures panicked ==> connections == old(connections)
      ensures !panicked ==> connections == old(connections)[handle := old(connections)[handle] + [ev]]
    {
      if handle !in connections {
        return true;
      }
      connections := connections[handle := connections[handle] + [ev]];
      return false;
    }

    /** The body of the `handle_connection_events` loop for one received item. */
    method HandleItem(item: Item, reply: EngineReply, cbs: Callbacks, ghost before: Pump) returns (panicked: bool)
      requires TransmitSlot in cbs.slots
      requires before.connections == connections && before.invoked == cbs.invoked && !before.panicked
      modifies this, cbs
      ensures cbs.slots == old(cbs.slots)
      ensures var r := PumpStep(id, cbs.slots, reply, before, item);
        connections == r.connections && cbs.invoked == r.invoked && panicked == r.panicked
    {
      var (h, ev) := item;
      match ev {
        case ProtoEvent(pe) =>
          if pe.drained {
            connections := connections - {h};
          }
          var answer := reply(h, pe);
          panicked := false;
          if answer.Some? {
            panicked := ForwardEventToConnection(h, answer.value);
          }
        case TransmitEvent(t) =>
          panicked := NotifyTransmit(t, cbs);
      }
    }

    /**
     * `handle_connection_events`: takes items off the channel until it is empty, in FIFO
     * order. A drained protocol event removes its handle; the engine's reply, if any, is
     * sent to that handle's connection; transmits go to `on_transmit`. A panic ends it.
     */
    method HandleConnectionEvents(reply: EngineReply, cbs: Callbacks) returns (panicked: bool)
      requires TransmitSlot in cbs.slots
      modifies this, events, cbs
      ensures cbs.slots == old(cbs.slots) && events.receiverAlive == old(events.receiverAlive)
      ensures var r := Drain(id, cbs.slots, reply, Pump(old(connections), old(cbs.invoked), false, 0), old(events.queue));
        connections == r.connections && cbs.invoked == r.invoked && panicked == r.panicked
        && r.consumed <= |old(events.queue)| && events.queue == old(events.queue)[r.consumed..]
    {
      ghost var whole := Drain(id, cbs.slots, reply, Pump(connections, cbs.invoked, false, 0), events.queue);
      ghost var consumed := 0;
      panicked := false;
      while !panicked
        invariant cbs.slots == old(cbs.slots) && events.receiverAlive == old(events.receiverAlive)
        invariant consumed <= |old(events.queue)| && events.queue == old(events.queue)[consumed..]
        invariant whole == Drain(id, cbs.slots, reply, Pump(connections, cbs.invoked, panicked, consumed), events.queue)
        decreases |events.queue|
      {
        var next := events.TryRecv();
        if next.None? {
          break;
        }
        ghost var before := Pump(connections, cbs.invoked, false, consumed);
        assert next.value == old(events.queue)[consumed];
        panicked := HandleItem(next.value, reply, cbs, before);
        consumed := consumed + 1;
      }
    }

    /** `poll`: at most one transmit from the engine goes out first, then the channel is pumped. */
    method Poll(transmit: Option<Transmit>, reply: EngineReply, cbs: Callbacks) returns (panicked: bool)
      requires TransmitSlot in cbs.slots
      modifies this, events, cbs
      ensures cbs.slots == old(cbs.slots)
      ensures transmit.Some? && transmit.value.destination.SockV6? ==> panicked && unchanged(this, events)
      ensures transmit.None? || transmit.value.destination.SockV4? ==>
        var pre := if transmit.Some? then old(cbs.invoked) + [TransmitInvocation(id, cbs.slots, transmit.value)] else old(cbs.invoked);
        var r := Drain(id, cbs.slots, reply, Pump(old(connections), pre, false, 0), old(events.queue));
        connections == r.connections && cbs.invoked == r.invoked && panicked == r.panicked
    {
      if transmit.Some? {
        panicked := NotifyTransmit(transmit.value, cbs);
        if panicked {
          return;
        }
      }
      panicked := HandleConnectionEvents(reply, cbs);
    }
  }
}
