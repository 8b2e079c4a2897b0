/**
 * The managed side of the native callbacks (`ConnectionEvents`, `EndpointEvents`): each
 * handler turns the callback's arguments into an event payload and raises the matching
 * .NET event. Raising an event with no subscribers does nothing; an event hub records the
 * events it delivers, in order.
 */
module EventBridge {
  import opened Primitives
  import opened Handles
  import opened RustAddr
  import opened AddressHelpers
  import opened NativeApi

  /** The static .NET events of `ConnectionEvents` and `EndpointEvents`. */
  datatype EventKind =
    | ConnectionInitializedKind
    | ConnectionLostKind
    | StreamOpenedKind
    | StreamAvailableKind
    | StreamWritableKind
    | StreamReadableKind
    | StreamStoppedKind
    | StreamFinishedKind
    | DatagramReceivedKind
    | TransmitReadyKind
    | NewConnectionKind
    | ConnectionPollableKind

  /** `TransmitPacket`: where to send, and the bytes (a managed array). */
  datatype TransmitPacket = TransmitPacket(destination: IPEndPoint, contents: array<byte>)

  /** An event with its payload (`ConnectionIdEventArgs`, `StreamTypeEventArgs`, `StreamEventArgs`, ...). */
  datatype Event =
    | ConnectionInitialized(id: int)
    | ConnectionLost(id: int)
    | StreamOpened(connectionId: int, streamType: StreamType)
    | StreamAvailable(connectionId: int, streamType: StreamType)
    | StreamWritable(connectionId: int, streamId: int, streamType: StreamType)
    | StreamReadable(connectionId: int, streamId: int, streamType: StreamType)
    | StreamStopped(connectionId: int, streamId: int, streamType: StreamType)
    | StreamFinished(connectionId: int, streamId: int, streamType: StreamType)
    | DatagramReceived(id: int)
    | TransmitReady(packet: TransmitPacket, endpointId: int)
    | NewConnection(handle: Handle, connectionId: int, endpointId: int)
    | ConnectionPollable(id: int)

  function KindOf(e: Event): EventKind
  {
    match e
    case ConnectionInitialized(_) => ConnectionInitializedKind
    case ConnectionLost(_) => ConnectionLostKind
    case StreamOpened(_, _) => StreamOpenedKind
    case StreamAvailable(_, _) => StreamAvailableKind
    case StreamWritable(_, _, _) => StreamWritableKind
    case StreamReadable(_, _, _) => StreamReadableKind
    case StreamStopped(_, _, _) => StreamStoppedKind
    case StreamFinished(_, _, _) => StreamFinishedKind
    case DatagramReceived(_) => DatagramReceivedKind
    case TransmitReady(_, _) => TransmitReadyKind
    case NewConnection(_, _, _) => NewConnectionKind
    case ConnectionPollable(_) => ConnectionPollableKind
  }

  /** The default `EndpointId` of a new-connection event. */
  const DefaultEndpointId: int := 1

  class EventHub {
    /** The events that have at least one subscriber. */
    var subscribed: set<EventKind>
    /** Every event delivered to subscribers so far, in order. */
    var raised: seq<Event>

    constructor()
      ensures subscribed == {} && raised == []
    {
      subscribed := {};
      raised := [];
    }

    /** What raising `e` delivers: `e` itself when its event has subscribers, nothing otherwise. */
    function Delivery(e: Event): (d: seq<Event>)
      reads this
      ensures |d| <= 1
      ensures d == [] <==> KindOf(e) !in subscribed
    {
      if KindOf(e) in subscribed then [e] else []
    }

    /** `+=` on one of the events. */
    method Subscribe(k: EventKind)
      modifies this
      ensures subscribed == old(subscribed) + {k} && raised == old(raised)
    {
      subscribed := subscribed + {k};
    }

    /** `Event?.Invoke(null, e)`. */
    method Raise(e: Event)
      modifies this
      ensures subscribed == old(subscribed)
      ensures raised == old(raised) + Delivery(e)
      ensures KindOf(e) !in subscribed ==> unchanged(this)
    {
      if KindOf(e) in subscribed {
        raised := raised + [e];
      }
    }

    /** `ConnectionEvents.OnConnected`: `ConnectionInitialized` with the same id. */
    method OnConnected(connectionId: int)
      modifies this
      ensures subscribed == old(subscribed)
      ensures raised == old(raised) + Delivery(ConnectionInitialized(connectionId))
      ensures ConnectionInitializedKind !in subscribed ==> unchanged(this)
    {
      Raise(ConnectionInitialized(connectionId));
    }

    /** `ConnectionEvents.OnConnectionLost`: `ConnectionLost` with the same id. */
    method OnConnectionLost(connectionId: int)
      modifies this
      ensures subscribed == old(subscribed)
      ensures raised == old(raised) + Delivery(ConnectionLost(connectionId))
      ensures ConnectionLostKind !in subscribed ==> unchanged(this)
    {
      Raise(ConnectionLost(connectionId));
    }

    /** `ConnectionEvents.OnStreamOpened`: the connection id and the byte cast to a stream type. */
    method OnStreamOpened(connectionId: int, streamType: byte)
      modifies this
      ensures subscribed == old(subscribed)
      ensures raised == old(raised) + Delivery(StreamOpened(connectionId, StreamType(streamType)))
      ensures StreamOpenedKind !in subscribed ==> unchanged(this)
    {
      Raise(StreamOpened(connectionId, StreamType(streamType)));
    }

    /** `ConnectionEvents.OnStreamAvailable`: the connection id and the byte cast to a stream type. */
    method OnStreamAvailable(connectionId: int, streamType: byte)
      modifies this
      ensures subscribed == old(subscribed)
      ensures raised == old(raised) + Delivery(StreamAvailable(connectionId, StreamType(streamType)))
      ensures StreamAvailableKind !in subscribed ==> unchanged(this)
    {
      Raise(StreamAvailable(connectionId, StreamType(streamType)));
    }

    /** `ConnectionEvents.OnStreamWritable`: both ids unchanged, the byte cast to a stream type. */
    method OnStreamWritable(connectionId: int, streamId: int, streamType: byte)
      modifies this
      ensures subscribed == old(subscribed)
      ensures raised == old(raised) + Delivery(StreamWritable(connectionId, streamId, StreamType(streamType)))
      ensures StreamWritableKind !in subscribed ==> unchanged(this)
    {
      Raise(StreamWritable(connectionId, streamId, StreamType(streamType)));
    }

    /** `ConnectionEvents.OnStreamReadable`: both ids unchanged, the byte cast to a stream type. */
    method OnStreamReadable(connectionId: int, streamId: int, streamType: byte)
      modifies this
      ensures subscribed == old(subscribed)
      ensures raised == old(raised) + Delivery(StreamReadable(connectionId, streamId, StreamType(streamType)))
      ensures StreamReadableKind !in subscribed ==> unchanged(this)
    {
      Raise(StreamReadable(connectionId, streamId, StreamType(streamType)));
    }

    /** `ConnectionEvents.OnStreamStopped`: both ids unchanged, the byte cast to a stream type. */
    method OnStreamStopped(connectionId: int, streamId: int, streamType: byte)
      modifies this
      ensures subscribed == old(subscribed)
      ensures raised == old(raised) + Delivery(StreamStopped(connectionId, streamId, StreamType(streamType)))
      ensures StreamStoppedKind !in subscribed ==> unchanged(this)
    {
      Raise(StreamStopped(connectionId, streamId, StreamType(streamType)));
    }

    /** `ConnectionEvents.OnStreamFinished`: both ids unchanged, the byte cast to a stream type. */
    method OnStreamFinished(connectionId: int, streamId: int, streamType: byte)
      modifies this
      ensures subscribed == old(subscribed)
      ensures raised == old(raised) + Delivery(StreamFinished(connectionId, streamId, StreamType(streamType)))
      ensures StreamFinishedKind !in subscribed ==> unchanged(this)
    {
      Raise(StreamFinished(connectionId, streamId, StreamType(streamType)));
    }

    /** `ConnectionEvents.OnDatagramReceived`: `DatagramReceived` with the same id. */
    method OnDatagramReceived(connectionId: int)
      modifies this
      ensures subscribed == old(subscribed)
      ensures raised == old(raised) + Delivery(DatagramReceived(connectionId))
      ensures DatagramReceivedKind !in subscribed ==> unchanged(this)
    {
      Raise(DatagramReceived(connectionId));
    }

    /** `EndpointEvents.OnConnectionPollable`: `ConnectionPollable` with the same id. */
    method OnConnectionPollable(connectionId: int)
      modifies this
      ensures subscribed == old(subscribed)
      ensures raised == old(raised) + Delivery(ConnectionPollable(connectionId))
      ensures ConnectionPollableKind !in subscribed ==> unchanged(this)
    {
      Raise(ConnectionPollable(connectionId));
    }

    /**
     * `EndpointEvents.OnNewConnection`: wraps the raw pointer in a new connection handle and
     * raises `NewConnection` with the connection id unchanged and the default endpoint id 1.
     * The payload is built only when the event has subscribers.
     */
    method OnNewConnection(handle: int, connectionId: int)
      modifies this
      ensures subscribed == old(subscribed)
      ensures NewConnectionKind !in subscribed ==> unchanged(this)
      ensures NewConnectionKind in subscribed ==>
        |raised| == |old(raised)| + 1 && raised[..|old(raised)|] == old(raised)
        && var e := raised[|old(raised)|];
        e.NewConnection? && fresh(e.handle) && e.handle.raw == handle && !e.handle.isAcquired
        && e.connectionId == connectionId && e.endpointId == DefaultEndpointId
    {
      if NewConnectionKind in subscribed {
        var h := new Handle(handle);
        raised := raised + [NewConnection(h, connectionId, DefaultEndpointId)];
      }
    }

    /**
     * `EndpointEvents.OnTransmit`: copies exactly `bufferLength` bytes of the native buffer
     * into a new managed array, then raises `TransmitReady` with that array, the destination
     * converted by `ToIpEndpoint`, and the native endpoint id.
     */
    method OnTransmit(endpointId: byte, buffer: array<byte>, bufferLength: nat, address: SockaddrInV4, e: Endian)
      returns (managedArray: array<byte>)
      requires bufferLength <= buffer.Length
      modifies this
      ensures fresh(managedArray) && managedArray[..] == buffer[..bufferLength]
      ensures subscribed == old(subscribed)
      ensures raised == old(raised) + Delivery(TransmitReady(TransmitPacket(ToIpEndpoint(address, e), managedArray), endpointId))
    {
      managedArray := new byte[bufferLength];
      forall i | 0 <= i < bufferLength {
        managedArray[i] := buffer[i];
      }
      Raise(TransmitReady(TransmitPacket(ToIpEndpoint(address, e), managedArray), endpointId));
    }
  }
}
