/**
 * The foreign-function surface the managed layer calls (`QuinnApiFFI`). The native library
 * behind it is an oracle: `respond` gives the answer to a call from the calls made before it,
 * every call is logged, and a call that records an error (`QuinnResult::context`) updates
 * the native last-result cell that `last_error` reads.
 */
module NativeApi {
  import opened Primitives
  import opened QuinnResults
  import opened RustResult
  import opened AddressHelpers
  import opened Handles

  /** `StreamType`, passed across the boundary as its byte: Bi = 0, Uni = 1. */
  datatype StreamType = StreamType(code: byte)

  const BiStream: StreamType := StreamType(0)
  const UniStream: StreamType := StreamType(1)

  /** A handle as the native side sees it in a call: its pointer and whether its lock was held. */
  datatype HandleUse = HandleUse(raw: int, acquired: bool)

  /** The managed callbacks registered through `QuinnApi.SetOn*`. */
  datatype CallbackSlot =
    | OnConnectedCb
    | OnConnectionLostCb
    | OnDatagramReceivedCb
    | OnStreamOpenedCb
    | OnStreamAvailableCb
    | OnStreamWritableCb
    | OnStreamReadableCb
    | OnStreamStoppedCb
    | OnStreamFinishedCb
    | OnNewConnectionCb
    | OnTransmitCb
    | OnPollableConnectionCb

  /** One foreign call with the arguments the managed side passes. */
  datatype FfiCall =
    | ConnectClientCall(endpoint: HandleUse, hostName: seq<byte>, addr: SockaddrInV4)
    | PollConnectionCall(conn: HandleUse)
    | FreeConnectionCall(endpoint: HandleUse, conn: HandleUse)
    | CloseConnectionCall(conn: HandleUse, reason: seq<byte>, code: int)
    | SetCallbackCall(slot: CallbackSlot)
    | PollEndpointCall(endpoint: HandleUse)
    | CreateServerEndpointCall(config: HandleUse)
    | CreateClientEndpointCall(config: HandleUse)
    | ReadStreamCall(conn: HandleUse, streamId: int, capacity: u32)
    | WriteStreamCall(conn: HandleUse, streamId: int, data: seq<byte>)
    | AcceptStreamCall(conn: HandleUse, direction: byte)
    | OpenStreamCall(conn: HandleUse, streamType: StreamType)
    | HandleDatagramCall(endpoint: HandleUse, data: seq<byte>, addr: SockaddrInV4)

  /**
   * The answer to a call: the result kind and the out-values (`count` for a byte count,
   * `id` for a connection, stream or endpoint id, `handle` for a handle's pointer, `data`
   * for the bytes a read fills in), and the error the call records, if any.
   */
  datatype Reply = Reply(kind: ResultKind, count: u32, id: int, handle: int, data: seq<byte>, context: Option<QuinnError>)

  /** What happened at the boundary, in order: a handle's lock taken or given back, or a foreign call. */
  datatype Step = AcquireStep(h: Handle) | ReleaseStep(h: Handle) | NativeStep(c: FfiCall)

  class Engine {
    const respond: (seq<FfiCall>, FfiCall) -> Reply
    /** The native thread-local last-result cell. */
    const cell: LastResultCell
    /** Every call made so far, in order. */
    var log: seq<FfiCall>
    /** The foreign calls interleaved with the lock operations of the wrappers around them. */
    ghost var trace: seq<Step>

    constructor(respond: (seq<FfiCall>, FfiCall) -> Reply, cell: LastResultCell)
      ensures this.respond == respond && this.cell == cell && log == [] && trace == []
    {
      this.respond := respond;
      this.cell := cell;
      log := [];
      trace := [];
    }

    /** Makes one call: logs it and returns the answer; an answer with an error records it. */
    method Invoke(c: FfiCall) returns (r: Reply)
      modifies this, cell
      ensures r == respond(old(log), c)
      ensures log == old(log) + [c] && trace == old(trace) + [NativeStep(c)]
      ensures r.context.Some? ==> cell.last == Some(LastResult(r.context))
      ensures r.context.None? ==> cell.last == old(cell.last)
    {
      r := respond(log, c);
      log := log + [c];
      trace := trace + [NativeStep(c)];
      if r.context.Some? {
        cell.last := Some(LastResult(r.context));
      }
    }
  }
}
