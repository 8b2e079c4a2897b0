/**
 * One native connection (`ConnectionInner`): `poll` forwards what the engine has for the
 * endpoint over the shared channel and then turns every pending application event into a
 * managed callback.
 */
module RustConnection {
  import opened Primitives
  import opened RustProto
  import opened RustCallbacks

  /** What a connection sends to its endpoint. */
  datatype EndpointEvent = ProtoEvent(ev: ProtoEndpointEvent) | TransmitEvent(t: Transmit)

  /**
   * The endpoint's `mpsc` channel of `(ConnectionHandle, EndpointEvent)`. Every connection
   * holds a sender, the endpoint the receiver; a send fails once the receiver is gone.
   */
  class EndpointChannel {
    var queue: seq<(ConnectionHandle, EndpointEvent)>
    var receiverAlive: bool

    constructor()
      ensures queue == [] && receiverAlive
    {
      queue := [];
      receiverAlive := true;
    }

    method Send(item: (ConnectionHandle, EndpointEvent)) returns (ok: bool)
      modifies this
      ensures ok == old(receiverAlive) && receiverAlive == old(receiverAlive)
      ensures queue == if ok then old(queue) + [item] else old(queue)
    {
      ok := receiverAlive;
      if ok {
        queue := queue + [item];
      }
    }

    /**
     * The endpoint that owns the receiver is dropped: from now on every send fails, and
     * what was queued is gone with it.
     */
    method DropReceiver()
      modifies this
      ensures !receiverAlive && queue == []
    {
      receiverAlive := false;
      queue := [];
    }

    /** `try_recv`: the oldest item, or nothing when the channel is empty. */
    method TryRecv() returns (item: Option<(ConnectionHandle, EndpointEvent)>)
      modifies this
      ensures receiverAlive == old(receiverAlive)
      ensures old(queue) == [] ==> item.None? && queue == []
      ensures old(queue) != [] ==> item == Some(old(queue)[0]) && queue == old(queue)[1..]
    {
      if queue == [] {
        return None;
      }
      item := Some(queue[0]);
      queue := queue[1..];
    }
  }

  /** The callback one application event turns into; `HandshakeDataReady` turns into none. */
  function CallbackFor(con: u32, e: AppEvent): Option<(Slot, Args)>
  {
    match e
    case HandshakeDataReady => None
    case Connected => Some((ConnectedSlot, ConnArgs(con)))
    case ConnectionLost => Some((ConnectionLostSlot, ConnArgs(con)))
    case DatagramReceived => Some((DatagramReceivedSlot, ConnArgs(con)))
    case Stream(s) =>
      match s
      case Writable(i) => Some((StreamWritableSlot, StreamArgs(con, i)))
      case Opened(d) => Some((StreamOpenedSlot, DirArgs(con, DirByte(d))))
      case Readable(i) => Some((StreamReadableSlot, StreamArgs(con, i)))
      case Available(d) => Some((StreamAvailableSlot, DirArgs(con, DirByte(d))))
      case Finished(i) => Some((StreamFinishedSlot, StreamArgs(con, i)))
      case Stopped(i) => Some((StreamStoppedSlot, StreamArgs(con, i)))
  }

  /** The invocation, through the callback table, that one application event causes, if any. */
  function InvocationFor(slots: map<Slot, FnPtr>, con: u32, e: AppEvent): seq<Invocation>
    requires AllSet(slots)
  {
    match CallbackFor(con, e)
    case None => []
    case Some((s, a)) => [Invocation(s, slots[s], a)]
  }

  /** The invocations the first `n` events cause, in event order. */
  function Invocations(con: u32, slots: map<Slot, FnPtr>, es: seq<AppEvent>, n: nat): seq<Invocation>
    requires AllSet(slots) && n <= |es|
  {
    if n == 0 then [] else Invocations(con, slots, es, n - 1) + InvocationFor(slots, con, es[n - 1])
  }

  /** Whether one of the first `n` events is `Connected`. */
  predicate ConnectedAmong(es: seq<AppEvent>, n: nat)
    requires n <= |es|
  {
    n > 0 && (ConnectedAmong(es, n - 1) || es[n - 1] == Connected)
  }

  lemma {:induction false} ConnectedAmongIsExists(es: seq<AppEvent>, n: nat)
    requires n <= |es|
    ensures ConnectedAmong(es, n) <==> exists k :: 0 <= k < n && es[k] == Connected
  {
    if n > 0 {
      ConnectedAmongIsExists(es, n - 1);
    }
  }

  /** The connection id a callback argument carries, if it carries one. */
  function ArgsCon(a: Args): Option<u32>
  {
    match a
    case NewConnectionArgs(_, con) => Some(con)
    case ConnArgs(con) => Some(con)
    case StreamArgs(con, _) => Some(con)
    case DirArgs(con, _) => Some(con)
    case TransmitArgs(_, _, _) => None
  }

  /**
   * Every invocation a connection causes calls the callback stored in its slot and carries
   * that connection's id.
   */
  lemma {:induction false} InvocationsCarryId(con: u32, slots: map<Slot, FnPtr>, es: seq<AppEvent>, n: nat)
    requires AllSet(slots) && n <= |es|
    ensures forall k :: 0 <= k < |Invocations(con, slots, es, n)| ==>
      var v := Invocations(con, slots, es, n)[k];
      v.target == slots[v.slot] && ArgsCon(v.args) == Some(con)
  {
    if n > 0 {
      InvocationsCarryId(con, slots, es, n - 1);
    }
  }

  /**
   * Without `HandshakeDataReady` events there is exactly one invocation per event, in the
   * order of the events; stream events pass `id.index()` and Opened/Available pass `dir as u8`.
   */
  lemma {:induction false} OneInvocationPerEvent(con: u32, slots: map<Slot, FnPtr>, es: seq<AppEvent>, n: nat)
    requires AllSet(slots) && n <= |es|
    requires forall k :: 0 <= k < n ==> !es[k].HandshakeDataReady?
    ensures |Invocations(con, slots, es, n)| == n
    ensures forall k :: 0 <= k < n ==>
      var v := Invocations(con, slots, es, n)[k];
      CallbackFor(con, es[k]) == Some((v.slot, v.args))
    ensures forall k :: 0 <= k < n && es[k].Stream? && es[k].ev.Readable? ==>
      Invocations(con, slots, es, n)[k].args == StreamArgs(con, es[k].ev.index)
    ensures forall k :: 0 <= k < n && es[k].Stream? && es[k].ev.Opened? ==>
      Invocations(con, slots, es, n)[k].args == DirArgs(con, DirByte(es[k].ev.dir))
  {
    if n > 0 {
      OneInvocationPerEvent(con, slots, es, n - 1);
    }
  }

  /** The invocations for the first `n` events depend on those events only. */
  lemma {:induction false} InvocationsOfPrefix(con: u32, slots: map<Slot, FnPtr>, es: seq<AppEvent>, es': seq<AppEvent>, n: nat)
    requires AllSet(slots) && n <= |es| && n <= |es'| && es[..n] == es'[..n]
    ensures Invocations(con, slots, es, n) == Invocations(con, slots, es', n)
  {
    if n > 0 {
      assert es[n - 1] == es[..n][n - 1] == es'[..n][n - 1] == es'[n - 1];
      assert es[..n - 1] == es[..n][..n - 1];
      assert es'[..n - 1] == es'[..n][..n - 1];
      InvocationsOfPrefix(con, slots, es, es', n - 1);
    }
  }

  /** A `HandshakeDataReady` event causes nothing: appending one leaves the invocations unchanged. */
  lemma HandshakeProducesNothing(con: u32, slots: map<Slot, FnPtr>, es: seq<AppEvent>)
    requires AllSet(slots)
    ensures Invocations(con, slots, es + [HandshakeDataReady], |es| + 1) == Invocations(con, slots, es, |es|)
  {
    var es' := es + [HandshakeDataReady];
    assert es'[..|es|] == es[..|es|];
    InvocationsOfPrefix(con, slots, es', es, |es|);
  }

  class ConnectionInner {
    var connected: bool
    const connectionHandle: ConnectionHandle
    /** The sender half of the endpoint's channel. */
    const endpointEvents: EndpointChannel

    constructor(handle: ConnectionHandle, events: EndpointChannel)
      ensures !connected && connectionHandle == handle && endpointEvents == events
    {
      connected := false;
      connectionHandle := handle;
      endpointEvents := events;
    }

    /** `connection_id`: the handle's index truncated to 32 bits. */
    function ConnectionId(): (id: u32)
      ensures connectionHandle < 0x1_0000_0000 ==> id == connectionHandle
      ensures (id - connectionHandle) % 0x1_0000_0000 == 0
    {
      TruncateU32(connectionHandle)
    }

    /**
     * `handle_app_events`: drains the engine's application events (given here as the
     * events `poll()` yields before `None`), invoking one callback per event in order.
     * Only `Connected` sets `connected`.
     */
    method HandleAppEvents(events: seq<AppEvent>, cbs: Callbacks)
      requires AllSet(cbs.slots)
      modifies this, cbs
      ensures cbs.slots == old(cbs.slots)
      ensures cbs.invoked == old(cbs.invoked) + Invocations(ConnectionId(), cbs.slots, events, |events|)
      ensures connected == (old(connected) || exists k :: 0 <= k < |events| && events[k] == Connected)
    {
      var con := ConnectionId();
      ghost var slots := cbs.slots;
      ghost var invoked0 := cbs.invoked;
      ghost var connected0 := connected;
      var i := 0;
      while i < |events|
        invariant 0 <= i <= |events|
        invariant cbs.slots == slots
        invariant cbs.invoked == invoked0 + Invocations(con, slots, events, i)
        invariant connected == (connected0 || ConnectedAmong(events, i))
      {
        HandleAppEvent(con, events[i], cbs);
        i := i + 1;
      }
      ConnectedAmongIsExists(events, |events|);
    }

    /** One arm of the `handle_app_events` match. */
    method HandleAppEvent(con: u32, e: AppEvent, cbs: Callbacks)
      requires AllSet(cbs.slots)
      modifies this, cbs
      ensures cbs.slots == old(cbs.slots)
      ensures cbs.invoked == old(cbs.invoked) + InvocationFor(cbs.slots, con, e)
      ensures connected == (old(connected) || e == Connected)
    {
      match e {
        case HandshakeDataReady =>
        case Connected =>
          connected := true;
          cbs.Fire(ConnectedSlot, ConnArgs(con));
        case ConnectionLost =>
          cbs.Fire(ConnectionLostSlot, ConnArgs(con));
        case DatagramReceived =>
          cbs.Fire(DatagramReceivedSlot, ConnArgs(con));
        case Stream(s) =>
          match s {
            case Writable(idx) => cbs.Fire(StreamWritableSlot, StreamArgs(con, idx));
            case Opened(d) => cbs.Fire(StreamOpenedSlot, DirArgs(con, DirByte(d)));
            case Readable(idx) => cbs.Fire(StreamReadableSlot, StreamArgs(con, idx));
            case Available(d) => cbs.Fire(StreamAvailableSlot, DirArgs(con, DirByte(d)));
            case Finished(idx) => cbs.Fire(StreamFinishedSlot, StreamArgs(con, idx));
            case Stopped(idx) => cbs.Fire(StreamStoppedSlot, StreamArgs(con, idx));
          }
      }
    }

    /**
     * `poll`: sends the endpoint event (if any) and then the transmit (if any) over the
     * endpoint channel, and only then handles application events. A failed send returns
     * the error at once, skipping everything after it.
     */
    method Poll(transmit: Option<Transmit>, event: Option<ProtoEndpointEvent>, events: seq<AppEvent>, cbs: Callbacks)
      returns (ok: bool)
      requires AllSet(cbs.slots)
      modifies this, endpointEvents, cbs
      ensures ok <==> old(endpointEvents.receiverAlive) || (event.None? && transmit.None?)
      ensures endpointEvents.queue == if ok then old(endpointEvents.queue) + SentToEndpoint(connectionHandle, event, transmit)
                                      else old(endpointEvents.queue)
      ensures cbs.slots == old(cbs.slots)
      ensures ok ==> cbs.invoked == old(cbs.invoked) + Invocations(ConnectionId(), cbs.slots, events, |events|)
      ensures ok ==> connected == (old(connected) || exists k :: 0 <= k < |events| && events[k] == Connected)
      ensures !ok ==> cbs.invoked == old(cbs.invoked) && connected == old(connected)
    {
      if event.Some? {
        var sent := endpointEvents.Send((connectionHandle, ProtoEvent(event.value)));
        if !sent {
          return false;
        }
      }
      if transmit.Some? {
        var sent := endpointEvents.Send((connectionHandle, TransmitEvent(transmit.value)));
        if !sent {
          return false;
        }
      }
      HandleAppEvents(events, cbs);
      return true;
    }
  }

  /** What one `poll` puts on the endpoint channel: the endpoint event first, then the transmit. */
  function SentToEndpoint(h: ConnectionHandle, event: Option<ProtoEndpointEvent>, transmit: Option<Transmit>)
    : seq<(ConnectionHandle, EndpointEvent)>
  {
    (if event.Some? then [(h, ProtoEvent(event.value))] else [])
    + (if transmit.Some? then [(h, TransmitEvent(transmit.value))] else [])
  }
}
