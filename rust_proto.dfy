/**
 * The parts of the QUIC engine (quinn_proto) the native glue reads: application events,
 * stream events, transmits and the opaque events exchanged between a connection and its
 * endpoint. The engine itself is not part of this model.
 */
module RustProto {
  import opened Primitives
  import opened RustAddr

  /** quinn_proto's `ConnectionHandle(usize)`. */
  type ConnectionHandle = nat

  /** Stream directionality; `dir as u8` gives Bi = 0 and Uni = 1. */
  datatype Dir = Bi | Uni

  function DirByte(d: Dir): (b: byte)
    ensures d == Bi <==> b == 0
    ensures d == Uni <==> b == 1
  {
    match d
    case Bi => 0
    case Uni => 1
  }

  /** Stream events; a stream is named by its index (`id.index()`). */
  datatype StreamEvent =
    | Opened(dir: Dir)
    | Readable(index: u64)
    | Writable(index: u64)
    | Finished(index: u64)
    | Stopped(index: u64)
    | Available(dir: Dir)

  /** The events `Connection::poll` yields. */
  datatype AppEvent =
    | HandshakeDataReady
    | Connected
    | ConnectionLost
    | Stream(ev: StreamEvent)
    | DatagramReceived

  /** An outgoing datagram: where it goes and what it holds. */
  datatype Transmit = Transmit(destination: SocketAddr, contents: seq<byte>)

  /** An event a connection hands to its endpoint; `drained` is its `is_drained()`. */
  datatype ProtoEndpointEvent = ProtoEndpointEvent(drained: bool, tag: nat)

  /** An event the endpoint hands back to one connection. */
  datatype ProtoConnectionEvent = ProtoConnectionEvent(tag: nat)
}
