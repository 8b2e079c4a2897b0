# DotQuic binding layer in Dafny

DotQuic is a .NET QUIC library. Its protocol engine is the Rust crate quinn_proto, and
two layers connect the two:

- **The native glue** (Rust). It holds endpoints and connections and pumps their events
  through a callback table into managed code. It reports failures as a result kind, with
  a thread-local last-error record.
- **The managed binding** (C#). It keeps the handle locks and unwraps result kinds into
  exceptions. It turns callbacks into .NET events and keeps the registries: streams per
  connection, connections per listener, and the incoming connections waiting to be
  accepted. A driver polls connections and runs the deferred actions after each poll.

The model follows the program's own structure, one module per source component:

| module | models |
|---|---|
| `Primitives` | machine integer widths, fixed-size address octets, `Option` |
| `QuinnResults` | the managed `ResultKind`, its predicates and `Unwrap` |
| `RustResult` | the native `Kind`, `QuinnError` and the thread-local last-result cell |
| `Handles` | the managed `Handle`: raw pointer, lock flag, release |
| `RustAddr` | the native `IpAddr` record and its conversions to and from `SocketAddr` |
| `AddressHelpers` | the managed `SockaddrInV4`, `ToNative`, `SetPort` and `ToIpEndpoint` |
| `RustProto` | the engine events the glue reads (application, stream and endpoint events; transmits) |
| `RustCallbacks` | the native callback slots, `set_on_*` and `on_*` |
| `RustConnection` | `ConnectionInner`: `poll`, `handle_app_events` and the endpoint channel |
| `RustEndpoint` | `EndpointInner`: `new`, `add_connection`, forwarding, and the `handle_connection_events` pump |
| `RustBindings` | the native entry points `last_error`, `create_endpoint`, `poll_endpoint`, `handle_datagram` and `poll_connection` |
| `NativeApi` | the foreign-call surface as an oracle: every call is logged, and its answer is a function of the calls made before it |
| `LastErrorFetch` | the managed last-error fetch (`LastError`, `FillLastResult`), run against the native `last_error` |
| `QuinnApi` | the `QuinnApi` wrappers: once-only `Initialize`, callback registration, and the lock bracketing of every handle |
| `FfiHelpers` | `QuinnFFIHelpers`: `HandleDatagram`, `WriteToStream` and `ReadFromStream` |
| `EventBridge` | `ConnectionEvents` and `EndpointEvents`: callback arguments turned into event payloads |
| `Streams` | `QuicStream`: access rights, read-token queue, retrying reads, writes |
| `Driver` | `ConnectionDriver`: FIFO poll tasks, then a full drain of the deferred actions |
| `Connections` | `QuicConnection`: the two stream registries and the stream-event handlers |
| `Listener` | `IncomingConnection`, `ConnectionListener` and `QuicListener`: the accept queue and the connection registry |

Foreign calls are modelled by an `Engine` object.

- Each call appends an `FfiCall` value to `log`. Each such value records the handles it
  passes, as `HandleUse(raw, acquired)`, with their state at the moment of the call.
- The answer to a call is `respond(log-before, call)`: a kind, a count, an id, a handle,
  and an optional error context that is stored in the last-result cell.
- A ghost `trace` also records the lock steps (`AcquireStep`, `ReleaseStep`) between the
  calls. This is what lets the lock-bracketing claims be stated.

Exceptions are values:

- `Outcome` is `Pass` or `Fail(exc)`.
- `Result<T>` is `Returned(value)` or `Threw(exc)`.
- `Exc` names the exception the source throws: a general exception with the last-error
  text, `BufferBlockedException`, `KeyNotFoundException`, a duplicate-key `ArgumentException`,
  `ArgumentOutOfRangeException`, or the message exceptions for "not connected", "no such
  stream", "no read access" and "no write access".

A native panic is a `panicked` result.

Where the source is inconsistent with itself, the model follows the code as written:

- `QuinnResult.ArgumentNull()` tests for `BufferBlocked`.
- `SetWritable` is gated on the readable flag.
- `Write(byte[], offset, count)` ignores `offset`.
- `create_endpoint` assigns the id to a by-value parameter.
- Every native endpoint gets id 1.
- A drained protocol event followed by an engine reply panics in `handle_connection_events`.

Constructors whose declared arity differs from their call sites are modelled with the
declared parameters that the logic uses:

- `QuicConnection(handle, id, driver)`;
- `IncomingConnection(handle, id, driver)`;
- `ConnectionListener(endpointId, driver)`.

`DeferredTaskExecutor` is modelled as `ConnectionDriver`. The `IncomingState` enumeration
is not part of the sources: it is modelled with `Listening` first, so `Listening` is a new
connection's default state. The managed `StreamType` enumeration is not part of the sources
either: its byte encoding, bidirectional 0 and unidirectional 1, is taken to match the
native `Dir as u8` (rust/src/ffi/bindings.rs:233-238), and the model depends on that.

## Model

| member | source | states |
|---|---|---|
| Primitives.TruncateU32 | rust/src/proto_impl/connection.rs:100-102 | `as u32` keeps an index below 2^32 and otherwise agrees with it modulo 2^32 |
| QuinnResults.FromOrdinal | dotnet/DotQuic.Native/Types/ResultKind.cs:3-10 | exactly the ordinals 0 to 4 name a `ResultKind`, and the kind named has that ordinal |
| QuinnResults.ResultPredicates | dotnet/DotQuic.Native/Types/QuinnResult.cs:11-34 | `Erroneous`, `Successful`, `IsBufferTooSmall` and `IsBufferBlocked` hold exactly for ordinals 1, 0, 2 and 3; `ArgumentNull()` coincides with `IsBufferBlocked` and is false for the `ArgumentNull` kind itself |
| QuinnResults.Unwrap | dotnet/DotQuic.Native/Types/QuinnResult.cs:36-46 | throws exactly for Error and BufferBlocked; Error throws a general exception carrying the last-error text; BufferBlocked throws `BufferBlockedException`; the `ArgumentNullException` branch is never reached |
| RustResult.KindsAgree | rust/src/ffi/quinn_result.rs:66-72 | each native `Kind` has the ordinal of the managed `ResultKind` of the same name, and none of them is read as BufferBlocked or ArgumentNull on the managed side |
| RustResult.NewQuinnError | rust/src/ffi/quinn_result.rs:81-88 | `QuinnError::new` panics exactly when the reason contains a NUL byte; otherwise it keeps the code and the reason |
| RustResult.LastResultCell.constructor | rust/src/ffi/quinn_result.rs:8-10 | the thread-local cell starts empty, with no error recorded |
| RustResult.LastResultCell.StoredError | rust/src/ffi/quinn_result.rs:49-63 | `with_last_result` sees an error exactly when a last result with an error is stored, and sees that error |
| RustResult.LastResultCell.Context | rust/src/ffi/quinn_result.rs:40-47 | `context` returns the result kind unchanged and replaces the stored last result with the given error |
| Handles.Handle.constructor | dotnet/DotQuic.Native/Handles/ConnectionHandle.cs:16-19 | stores the pointer, unlocked; the handle is invalid exactly when the pointer is zero |
| Handles.Handle.Acquire | dotnet/DotQuic.Native/Handles/ConnectionHandle.cs:24-29 | sets the lock flag and returns the stored pointer unchanged; nothing but the lock flag changes |
| Handles.Handle.Release | dotnet/DotQuic.Native/Handles/ConnectionHandle.cs:31-35 | clears the lock flag and keeps the pointer; nothing but the lock flag changes |
| Handles.Handle.ReleaseHandle | dotnet/DotQuic.Native/Handles/ConnectionHandle.cs:37-45 | always succeeds and leaves the pointer zero, so the handle is invalid; a second call changes nothing; the lock flag is untouched |
| RustAddr.FromSocketAddr | rust/src/proto_impl/addr.rs:16-28 | a V6 address panics; a V4 address keeps its port and its four octets in order, and converting back gives the same address |
| RustAddr.IntoSocketAddr | rust/src/proto_impl/addr.rs:30-42 | yields a V4 address with the same port and the same octets |
| RustAddr.IpAddrRoundTrip | rust/src/proto_impl/addr.rs:16-42 | IpAddr to SocketAddr and back is the identity |
| RustAddr.RecordBytes | rust/src/proto_impl/addr.rs:10-14 | the `repr(C)` record is six bytes: the port's two bytes in machine order, then the four address bytes in order |
| RustAddr.U16BytesRoundTrip | rust/src/proto_impl/addr.rs:12 | reading a port back from its two bytes in machine order gives the port |
| AddressHelpers.Swap16Involution | dotnet/Quic.Native/QuicAddressHelpers.cs:17 | the byte swap of `NetworkToHostOrder` undoes itself |
| AddressHelpers.ToIpEndpoint | dotnet/Quic.Native/QuicAddressHelpers.cs:15-19 | the address is the four stored bytes in order; the port is the stored port on a big-endian machine and byte-swapped on a little-endian one |
| AddressHelpers.TryWriteBytes | dotnet/Quic.Native/QuicAddressHelpers.cs:26 | writes the address bytes exactly when they fit the span (4 bytes for IPv4, 16 for IPv6), and nothing otherwise |
| AddressHelpers.SetPort | dotnet/Quic.Native/QuicAddressHelpers.cs:33-37 | stores the original host-order port and keeps the address; the network-order value computed is not used |
| AddressHelpers.ToNative | dotnet/Quic.Native/QuicAddressHelpers.cs:21-31 | the address bytes of an IPv4 address, all zeros for `Any`, `IPv6Any` or any IPv6 address; the port as given |
| AddressHelpers.NativeRoundTrip | dotnet/Quic.Native/QuicAddressHelpers.cs:15-31 | `ToIpEndpoint(ToNative(ep))` keeps an IPv4 address; it keeps the port on big-endian hosts and byte-swaps it on little-endian ones |
| AddressHelpers.SockaddrBytes | dotnet/Quic.Native/QuicAddressHelpers.cs:6-11 | the managed record is six bytes: the port's two bytes in machine order at offset 0, then the four address bytes in order |
| AddressHelpers.LayoutsAgree | dotnet/Quic.Native/QuicAddressHelpers.cs:6-11 | the native `IpAddr` bytes read as a `SockaddrInV4` give the same port and octets, and both records have identical bytes |
| RustProto.DirByte | rust/src/ffi/bindings.rs:233-238 | `dir as u8` is 0 exactly for Bi and 1 exactly for Uni |
| RustCallbacks.Callbacks.constructor | rust/src/ffi/bindings.rs:158-168 | all eleven slots start empty and nothing has been invoked |
| RustCallbacks.Callbacks.SetOn | rust/src/ffi/bindings.rs:253-328 | `set_on_*` stores the callback in its slot, replacing an earlier one, and invokes nothing |
| RustCallbacks.Callbacks.Fire | rust/src/ffi/bindings.rs:170-238 | `on_*` invokes exactly the callback stored in the slot, once, with the arguments given |
| RustCallbacks.Callbacks.OnTransmit | rust/src/ffi/bindings.rs:240-251 | panics exactly for an IPv6 destination; otherwise invokes the transmit callback once with the endpoint id, the contents and the converted address |
| RustConnection.EndpointChannel.constructor | rust/src/proto_impl/endpoint.rs:49 | a new channel is empty and has a live receiver |
| RustConnection.EndpointChannel.Send | rust/src/proto_impl/connection.rs:41-49 | a send succeeds exactly when the receiver is alive, and then appends the item at the back |
| RustConnection.EndpointChannel.TryRecv | rust/src/proto_impl/endpoint.rs:104 | `try_recv` takes the oldest item (FIFO), or nothing when the channel is empty |
| RustConnection.EndpointChannel.DropReceiver | rust/src/proto_impl/endpoint.rs:42 | once the endpoint owning the receiver is dropped, the receiver is dead (every later send fails) and the queued items are gone |
| RustConnection.ConnectedAmongIsExists | rust/src/proto_impl/connection.rs:64-67 | the running "connected" flag of the event loop is set exactly when some handled event is `Connected` |
| RustConnection.InvocationsCarryId | rust/src/proto_impl/connection.rs:57-98 | every callback a connection invokes is the one stored in its slot and carries that connection's id |
| RustConnection.OneInvocationPerEvent | rust/src/proto_impl/connection.rs:57-98 | without HandshakeDataReady there is exactly one callback per event, in event order, of the event's own kind; stream events pass `id.index()`, and Opened passes `dir as u8` |
| RustConnection.InvocationsOfPrefix | rust/src/proto_impl/connection.rs:58 | the callbacks for the first n events depend on those events only |
| RustConnection.HandshakeProducesNothing | rust/src/proto_impl/connection.rs:61-63 | a HandshakeDataReady event invokes no callback |
| RustConnection.ConnectionInner.constructor | rust/src/proto_impl/endpoint.rs:82-88 | a new connection is not connected, has its handle, and sends on the endpoint's channel |
| RustConnection.ConnectionInner.ConnectionId | rust/src/proto_impl/connection.rs:100-102 | the id is the handle index truncated to 32 bits |
| RustConnection.ConnectionInner.HandleAppEvents | rust/src/proto_impl/connection.rs:57-98 | drains every pending application event in order, invoking the callbacks `Invocations` gives; `connected` becomes true exactly when a `Connected` event was among them, and nothing else sets it |
| RustConnection.ConnectionInner.HandleAppEvent | rust/src/proto_impl/connection.rs:60-96 | one match arm: the event's callback, if any; only `Connected` sets `connected` |
| RustConnection.ConnectionInner.Poll | rust/src/proto_impl/connection.rs:35-55 | sends the endpoint event before the transmit and only then handles application events; a failed send returns the error at once, with no callbacks and no later sends |
| RustEndpoint.NextEndpointId | rust/src/proto_impl/endpoint.rs:51 | `wrapping_add(1)` on a byte: one more, and 255 wraps to 0 |
| RustEndpoint.PumpStep | rust/src/proto_impl/endpoint.rs:105-126 | one channel item: a drained protocol event removes its handle, and a reply for a removed handle panics; a transmit goes to `on_transmit`, which panics for IPv6; other handles are untouched and no handle is added |
| RustEndpoint.DrainTakesAll | rust/src/proto_impl/endpoint.rs:103-128 | without a panic the pump takes every queued item, in FIFO order, and invokes only the transmit callbacks, in queue order |
| RustEndpoint.DrainNoPanicOnlyV4 | rust/src/proto_impl/endpoint.rs:123-125 | when the pump ends without a panic, every queued transmit had an IPv4 destination |
| RustEndpoint.DrainNeverAdds | rust/src/proto_impl/endpoint.rs:103-128 | the pump never adds a connection to the table |
| RustEndpoint.DrainedThenReplyPanics | rust/src/proto_impl/endpoint.rs:107-121 | a drained protocol event whose engine reply is `Some` always ends the pump in a panic, wherever it sits in the queue |
| RustEndpoint.EndpointInner.constructor | rust/src/proto_impl/endpoint.rs:48-60 | an empty connection table, a fresh channel, and id `ENDPOINT_ID + 1`, which is 1 because the counter is never stored back |
| RustEndpoint.EndpointInner.NotifyTransmit | rust/src/proto_impl/endpoint.rs:70-72 | passes the transmit to `on_transmit` with this endpoint's id |
| RustEndpoint.EndpointInner.AddConnection | rust/src/proto_impl/endpoint.rs:74-89 | inserts a sender under the handle, replacing an earlier one, and returns an unconnected connection with that handle on this endpoint's channel |
| RustEndpoint.EndpointInner.ForwardEventToConnection | rust/src/proto_impl/endpoint.rs:91-101 | panics exactly on an unknown handle; otherwise the event is sent to that handle's connection and to no other |
| RustEndpoint.EndpointInner.HandleItem | rust/src/proto_impl/endpoint.rs:105-126 | the loop body has the effect `PumpStep` describes |
| RustEndpoint.EndpointInner.HandleConnectionEvents | rust/src/proto_impl/endpoint.rs:103-128 | takes items off the channel until it is empty or a panic, with the effect of the `Drain` specification; what is left in the channel is the untaken suffix |
| RustEndpoint.EndpointInner.Poll | rust/src/proto_impl/endpoint.rs:62-68 | at most one engine transmit goes out first, then the channel is pumped; an IPv6 transmit panics before the pump |
| RustBindings.LastError | rust/src/ffi/bindings.rs:116-142 | with a recorded error it reports the message length first; then it answers BufferToSmall without writing when the buffer is too short, and otherwise copies the message and answers Ok; with no error it writes nothing and answers Ok |
| RustBindings.CreateEndpoint | rust/src/ffi/bindings.rs:34-50 | answers Ok with a new empty endpoint of id 1; the caller's `endpoint_id` is not written |
| RustBindings.PollEndpoint | rust/src/ffi/bindings.rs:52-58 | polls the endpoint and always answers Ok |
| RustBindings.HandleDatagram | rust/src/ffi/bindings.rs:60-90 | a new connection is added and announced by `on_new_connection` with the truncated handle index; a connection event is forwarded, panicking on an unknown handle; nothing happens otherwise; the answer is always Ok |
| RustBindings.PollConnection | rust/src/ffi/bindings.rs:100-108 | Ok exactly when the connection's sends succeed, with its callbacks invoked; otherwise Error, with a code-0 error carrying the send error's text recorded and no callbacks |
| NativeApi.Engine.constructor | dotnet/DotQuic.Native/QuinnApiFFI.cs:55-147 | no foreign call has been made yet |
| NativeApi.Engine.Invoke | dotnet/DotQuic.Native/QuinnApiFFI.cs:55-147 | a foreign call is logged once, its answer depends only on the earlier calls, and an error context it carries replaces the stored last result |
| LastErrorFetch.FillLastResult | dotnet/DotQuic.Native/QuinnFFIHelpers.cs:94-108 | against the native `last_error`, yields code 0 and exactly the stored message; it tries the given length once, and again with exactly the message length only when the message did not fit |
| LastErrorFetch.LastError | dotnet/DotQuic.Native/QuinnFFIHelpers.cs:89-92 | the first attempt uses 1024 bytes; there are at most two attempts, and a second only for a message longer than 1024 bytes, with exactly its length |
| LastErrorFetch.Unwrap | dotnet/DotQuic.Native/Types/QuinnResult.cs:36-46 | `Unwrap` with the error text fetched from the native side throws what the pure `Unwrap` gives for the recorded message |
| QuinnApi.RegistrationsCoverEverySlot | dotnet/DotQuic.Native/Events/ConnectionEvents.cs:18-42 | the connection and endpoint registrations together name every callback slot, and none twice |
| QuinnApi.Api.constructor | dotnet/DotQuic.Native/QuinnAPI.cs:43 | the initialisation flag starts false |
| QuinnApi.Api.Initialize | dotnet/DotQuic.Native/QuinnAPI.cs:45-54 | registers the connection callbacks and then the endpoint callbacks only when not yet initialised, then sets the flag; later calls make no foreign call; a registration that throws propagates before the flag is set |
| QuinnApi.Api.Register | dotnet/DotQuic.Native/Events/ConnectionEvents.cs:20-22 | one registration call, unwrapped |
| QuinnApi.Api.RegisterAll | dotnet/DotQuic.Native/Events/ConnectionEvents.cs:18-42 | registrations in the order given, each unwrapped; the first that throws ends the run, so the calls made are a prefix of the list |
| QuinnApi.Api.RegisterConnectionEvents | dotnet/DotQuic.Native/Events/ConnectionEvents.cs:18-42 | the nine connection callbacks, in source order, each unwrapped |
| QuinnApi.Api.RegisterEndpointEvents | dotnet/DotQuic.Native/Events/EndpointEvents.cs:14-24 | the new-connection, transmit and pollable callbacks, in that order, each unwrapped |
| QuinnApi.Api.Bracketed | dotnet/DotQuic.Native/QuinnAPI.cs:102-108 | acquire, then the call made with the handle held, then release; the answer is returned unchanged and the pointer is kept |
| QuinnApi.Api.ConnectClient | dotnet/DotQuic.Native/QuinnAPI.cs:78-94 | the endpoint is released only when the unwrap does not throw, so a thrown error leaves it acquired; on success the new handle and id are the call's out-values |
| QuinnApi.Api.PollConnection | dotnet/DotQuic.Native/QuinnAPI.cs:102-108 | the bracketed `poll_connection`, its answer returned unchanged |
| QuinnApi.Api.FreeConnection | dotnet/DotQuic.Native/QuinnAPI.cs:117-125 | acquires the endpoint then the connection, calls with both held, and releases the connection then the endpoint |
| QuinnApi.Api.CloseConnection | dotnet/DotQuic.Native/QuinnAPI.cs:130-144 | the connection is released only when the unwrap does not throw |
| QuinnApi.Api.SetCallback | dotnet/DotQuic.Native/QuinnAPI.cs:225-361 | each `SetOn*` makes its registration call and returns the answer unchanged |
| QuinnApi.Api.PollEndpoint | dotnet/DotQuic.Native/QuinnAPI.cs:374-380 | the bracketed `poll_endpoint`, its answer returned unchanged |
| QuinnApi.Api.CreateServerEndpoint | dotnet/DotQuic.Native/QuinnAPI.cs:388-395 | bracketed on the configuration handle; the endpoint id and a new unlocked endpoint handle are the call's out-values |
| QuinnApi.Api.CreateClientEndpoint | dotnet/DotQuic.Native/QuinnAPI.cs:403-410 | as the server variant, on a client configuration |
| QuinnApi.Api.ReadStream | dotnet/DotQuic.Native/QuinnAPI.cs:424-431 | bracketed on the connection; passes the capacity; the count read is the out-value |
| QuinnApi.Api.WriteStream | dotnet/DotQuic.Native/QuinnAPI.cs:441-448 | bracketed on the connection; offers the first `bufferLength` bytes; the count written is the out-value |
| QuinnApi.Api.AcceptStream | dotnet/DotQuic.Native/QuinnAPI.cs:457-464 | bracketed on the connection; the stream id is the out-value |
| QuinnApi.Api.OpenStream | dotnet/DotQuic.Native/QuinnAPI.cs:473-480 | bracketed on the connection; the new stream id is the out-value |
| QuinnApi.Api.HandleDatagram | dotnet/DotQuic.Native/QuinnAPI.cs:490-497 | bracketed on the endpoint; passes exactly the first `length` bytes and the address record |
| FfiHelpers.HandleDatagram | dotnet/DotQuic.Native/QuinnFFIHelpers.cs:21-31 | passes exactly the datagram's bytes and the converted address, and unwraps the answer |
| FfiHelpers.WriteToStream | dotnet/DotQuic.Native/QuinnFFIHelpers.cs:40-57 | offers the whole buffer and returns the native count written, which may be smaller, or throws what `Unwrap` throws |
| FfiHelpers.ReadFromStream | dotnet/DotQuic.Native/QuinnFFIHelpers.cs:66-83 | passes the buffer length as the capacity and returns the native count read, or throws what `Unwrap` throws |
| EventBridge.EventHub.Delivery | dotnet/DotQuic.Native/Events/ConnectionEvents.cs:72-75 | `?.Invoke` delivers the event exactly when it has subscribers |
| EventBridge.EventHub.Raise | dotnet/DotQuic.Native/Events/ConnectionEvents.cs:72-75 | raising appends the event to what was delivered when it has subscribers, and changes nothing otherwise |
| EventBridge.EventHub.OnConnected | dotnet/DotQuic.Native/Events/ConnectionEvents.cs:72-75 | raises `ConnectionInitialized` with the same id; a no-op without subscribers |
| EventBridge.EventHub.OnConnectionLost | dotnet/DotQuic.Native/Events/ConnectionEvents.cs:77-80 | raises `ConnectionLost` with the same id |
| EventBridge.EventHub.OnStreamOpened | dotnet/DotQuic.Native/Events/ConnectionEvents.cs:82-85 | raises `StreamOpened` with the connection id and the byte cast to a stream type |
| EventBridge.EventHub.OnStreamAvailable | dotnet/DotQuic.Native/Events/ConnectionEvents.cs:87-90 | raises `StreamAvailable` with the connection id and the cast stream type |
| EventBridge.EventHub.OnStreamWritable | dotnet/DotQuic.Native/Events/ConnectionEvents.cs:92-95 | raises `StreamWritable` with both ids unchanged and the cast stream type |
| EventBridge.EventHub.OnStreamReadable | dotnet/DotQuic.Native/Events/ConnectionEvents.cs:97-100 | raises `StreamReadable` with both ids unchanged and the cast stream type |
| EventBridge.EventHub.OnStreamStopped | dotnet/DotQuic.Native/Events/ConnectionEvents.cs:102-105 | raises `StreamStopped` with both ids unchanged and the cast stream type |
| EventBridge.EventHub.OnStreamFinished | dotnet/DotQuic.Native/Events/ConnectionEvents.cs:107-110 | raises `StreamFinished` with both ids unchanged and the cast stream type |
| EventBridge.EventHub.OnDatagramReceived | dotnet/DotQuic.Native/Events/ConnectionEvents.cs:112-115 | raises `DatagramReceived` with the same id |
| EventBridge.EventHub.OnConnectionPollable | dotnet/DotQuic.Native/Events/EndpointEvents.cs:30-33 | raises `ConnectionPollable` with the same id |
| EventBridge.EventHub.OnNewConnection | dotnet/DotQuic.Native/Events/EndpointEvents.cs:35-38 | wraps the raw pointer in a new unlocked handle and raises `NewConnection` with the id unchanged and the default endpoint id 1 |
| EventBridge.EventHub.OnTransmit | dotnet/DotQuic.Native/Events/EndpointEvents.cs:41-48 | copies exactly `bufferLength` native bytes into a new array and raises `TransmitReady` with it, the converted destination and the native endpoint id |
| Streams.ToInt32 | dotnet/DotQuic/QuicStream.cs:145 | `(int)` on a `uint` is congruent modulo 2^32, lies in the 32-bit signed range, and keeps values below 2^31 |
| Streams.QuicStream.constructor | dotnet/DotQuic/QuicStream.cs:39-50 | keeps the handle, type, id and access flags; no read token and no write signal yet |
| Streams.QuicStream.QueueReadEvent | dotnet/DotQuic/QuicStream.cs:200-204 | adds one token only on a readable stream, so afterwards `CanRead` holds exactly when the stream is readable |
| Streams.QuicStream.SetWritable | dotnet/DotQuic/QuicStream.cs:206-210 | sets the write signal when the stream is readable, not when it is writable |
| Streams.QuicStream.Read | dotnet/DotQuic/QuicStream.cs:142-146 | one read of the whole buffer; throws exactly when the answer kind throws, otherwise returns the count cast to `int` |
| Streams.QuicStream.ReadAsync | dotnet/DotQuic/QuicStream.cs:110-134 | refuses a non-readable stream before taking a token or calling; otherwise each read takes one token; every read before the last answered BufferBlocked; it returns the count of the first read that does not block, throws a non-blocking error, or waits once the tokens run out |
| Streams.QuicStream.ReadArray | dotnet/DotQuic/QuicStream.cs:99-102 | `ReadAsync` into the whole array, whatever `offset` and `count` say |
| Streams.QuicStream.Write | dotnet/DotQuic/QuicStream.cs:177-181 | checks write access before any call, then offers the whole buffer and unwraps the answer |
| Streams.QuicStream.WriteRange | dotnet/DotQuic/QuicStream.cs:190-195 | checks write access before any call; a `count` outside the array is out of range; otherwise offers `buffer[..count]`, ignoring `offset` |
| Driver.Effects | dotnet/DotQuic/QuicConnection.cs:236-240 | the remote-open action raises `StreamInitiated` before `DataReceived` for the same stream; every action raises one or two events |
| Driver.AllEffectsAppend | dotnet/DotQuic/ConnectionDriver.cs:59-63 | running two runs of actions one after the other raises their events one after the other |
| Driver.AllEffectsLength | dotnet/DotQuic/ConnectionDriver.cs:59-63 | a run of n actions raises between n and 2n events |
| Driver.ConnectionDriver.constructor | dotnet/DotQuic/ConnectionDriver.cs:34-43 | both queues start empty; not cancelled |
| Driver.ConnectionDriver.OnConnectionPollable | dotnet/DotQuic/ConnectionDriver.cs:75-78 | one poll task per signal, queued last, with no coalescing |
| Driver.ConnectionDriver.Schedule | dotnet/DotQuic/ConnectionDriver.cs:70-73 | queues the action last; nothing runs inline |
| Driver.ConnectionDriver.Dispose | dotnet/DotQuic/ConnectionDriver.cs:80-85 | requests cancellation and leaves the queues alone |
| Driver.ConnectionDriver.RunAction | dotnet/DotQuic/ConnectionDriver.cs:61-62 | an announcing action raises its events; a lost-connection action calls `FreeConnection` on the endpoint and the connection first, then raises `ConnectionClose` |
| Driver.ConnectionDriver.RunNext | dotnet/DotQuic/ConnectionDriver.cs:61-62 | dequeues exactly the oldest action and runs it: its events are raised and its one `free_connection` call, if any, is made with the pointers its handles held; the poll queue is untouched |
| Driver.ConnectionDriver.Drain | dotnet/DotQuic/ConnectionDriver.cs:59-63 | runs every queued action, oldest first, until none is left; the events raised are those of all the actions, in schedule order; the foreign calls made are exactly one `free_connection` per lost-connection action, in schedule order, with the pointers its handles held |
| Driver.FreeCall | dotnet/DotQuic/QuicListener.cs:117-121 | a lost-connection action makes exactly one foreign call, an announcing action none |
| Driver.ConnectionDriver.Step | dotnet/DotQuic/ConnectionDriver.cs:48-66 | a cancelled worker does nothing; otherwise it takes the oldest poll task and polls the handle the lookup gives for that id, as the first foreign call; then it drains all actions before the next task, and the log grows by exactly the poll call followed by the drained actions' `free_connection` calls; an unknown id ends the worker with `KeyNotFoundException` before any foreign call |
| Connections.QuicConnection.constructor | dotnet/DotQuic/QuicConnection.cs:31-50 | both registries empty, not connected |
| Connections.QuicConnection.SetState | dotnet/DotQuic/QuicConnection.cs:271-274 | sets the state; `IsConnected` holds exactly when the new state is `Connected`; the registries are untouched |
| Connections.QuicConnection.GetBiStream | dotnet/DotQuic/QuicConnection.cs:142-148 | returns the registered bidirectional stream exactly when the id is registered, else throws naming the id |
| Connections.QuicConnection.GetUniStream | dotnet/DotQuic/QuicConnection.cs:156-162 | returns the registered unidirectional stream exactly when the id is registered, else throws naming the id |
| Connections.QuicConnection.StreamFor | dotnet/DotQuic/QuicConnection.cs:169-181 | the handlers' lookup by type finds the same stream as the getters; a missing id throws `KeyNotFoundException`, and another type throws `ArgumentOutOfRangeException` |
| Connections.QuicConnection.OpenBiDirectionalStream | dotnet/DotQuic/QuicConnection.cs:104-115 | refused before any call unless connected; a throwing answer throws; a read/write stream is added under the returned id, and an id already present throws |
| Connections.QuicConnection.OpenUniDirectionalStream | dotnet/DotQuic/QuicConnection.cs:123-133 | as the bidirectional case, but the stream is write-only and goes into the unidirectional registry |
| Connections.QuicConnection.OnStreamWritable | dotnet/DotQuic/QuicConnection.cs:164-182 | ignores other connections; otherwise sets the write signal of the stream looked up by type and id, or throws what the lookup throws |
| Connections.QuicConnection.OnStreamReadable | dotnet/DotQuic/QuicConnection.cs:189-209 | ignores other connections; otherwise queues one read token on the stream looked up and schedules exactly one `DataReceived` announcement for it; a failed lookup schedules nothing |
| Connections.QuicConnection.OnStreamOpened | dotnet/DotQuic/QuicConnection.cs:211-241 | ignores other connections; a remote uni stream is read-only and a bi stream read/write; it is added to its registry with one read token, and `StreamInitiated` then `DataReceived` is scheduled; a present id or an unknown type throws with nothing changed |
| Connections.QuicConnection.OnStreamFinished | dotnet/DotQuic/QuicConnection.cs:243-253 | ignores other connections; removes the id from the uni registry when there, else from the bi one, and raises `StreamClosed` at once; afterwards the unidirectional getter throws for that id, and so does the bidirectional one unless the id was unidirectional |
| Listener.IncomingConnection.constructor | dotnet/DotQuic/IncomingConnection.cs:23-32 | starts `Listening`, unsignalled, with no connection |
| Listener.IncomingConnection.OnConnectionInitialized | dotnet/DotQuic/IncomingConnection.cs:34-39 | sets the signal only for this id while `Listening`; setting it twice is the same as once |
| Listener.IncomingConnection.ProcessIncoming | dotnet/DotQuic/IncomingConnection.cs:45-51 | back to `Listening`; a new connection on this handle and id, set to `Connecting`, with empty registries |
| Listener.IncomingConnection.Resume | dotnet/DotQuic/IncomingConnection.cs:65-72 | the connection becomes `Connected` and is the task's result exactly when the signal is set; before that nothing changes |
| Listener.IncomingConnection.WaitAsync | dotnet/DotQuic/IncomingConnection.cs:80-83 | a result exists only after the signal, and it is the connection that was made |
| Listener.ConnectionListener.constructor | dotnet/DotQuic/ConnectionListener.cs:16-23 | an empty incoming queue for this endpoint id |
| Listener.ConnectionListener.OnNewConnection | dotnet/DotQuic/ConnectionListener.cs:33-42 | ignores other endpoint ids; otherwise makes exactly one incoming connection, starts it, and queues it last |
| Listener.ConnectionListener.NextAsync | dotnet/DotQuic/ConnectionListener.cs:25-31 | takes the incoming connections in arrival order |
| Listener.QuicListener.constructor | dotnet/DotQuic/QuicListener.cs:44-52 | keeps the id and endpoint handle; an empty registry; a driver and a listener for this endpoint id |
| Listener.QuicListener.Open | dotnet/DotQuic/QuicListener.cs:37-60 | initialises, then creates the server endpoint and unwraps; throws exactly when the last answer throws, and otherwise keeps the returned id byte and handle |
| Listener.QuicListener.AcceptAsync | dotnet/DotQuic/QuicListener.cs:77-80 | the listener's next incoming connection, in arrival order |
| Listener.QuicListener.ConnectionHandle | dotnet/DotQuic/QuicListener.cs:98-101 | exactly the stored handle for a recorded id; an unrecorded id throws `KeyNotFoundException` |
| Listener.QuicListener.OnTransmitReady | dotnet/DotQuic/QuicListener.cs:103-111 | the packet is sent exactly when the event's endpoint id is this listener's |
| Listener.QuicListener.OnConnectionLost | dotnet/DotQuic/QuicListener.cs:113-122 | a recorded id is removed, and one free-then-close action is scheduled with its handle; an unrecorded id, including one already lost, throws at the lookup with nothing scheduled, so the free happens at most once per id |
| Listener.QuicListener.DriverStep | dotnet/DotQuic/QuicListener.cs:49 | the driver looks ids up in this listener's own registry: a poll task for an id no longer recorded (a lost connection) faults with `KeyNotFoundException` before any foreign call; a recorded id is polled with its stored handle, then the queued actions' `free_connection` calls follow; the registry is unchanged |
| Listener.QuicListener.OnNewConnection | dotnet/DotQuic/QuicListener.cs:124-130 | ignores other endpoint ids; otherwise stores or overwrites the id's handle and raises `Incoming` with the event |

## Left out

- The quinn_proto engine, the sockets and the timers are outside the model.
  - The engine's answers are function parameters (`EngineReply`, `EngineHandle`) or the
    event sequences a poll yields.
  - The managed side's foreign calls are the `Engine` oracle.
  - `Instant::now()` and `poll_timeout` are not modelled.
- Socket I/O is not modelled: the UDP receive loop of `Endpoint.cs`, `StartReceivingAsync`,
  and the `UdpClient` send in `OnTransmitReady`. The model records the packets handed to
  the socket instead.
- TLS and certificate configuration are not modelled: `server_config.rs`,
  `ServerConfig`/`ClientConfig`, and the file reads behind `CreateServerConfig`. A
  configuration is an opaque handle.
- `SetLogFilter`/`enable_log` and `create_test_certificate` configure logging and test
  material only.
- `QuicClient` and `ConnectAsync` are not modelled (asynchronous connection setup over the
  same wrappers). Neither is `Endpoint.cs` beyond its id filter.
- Concurrency is not modelled. `Task.Run`, `BufferBlock` awaiting, cancellation tokens and
  the handle's `Mutex` are explicit steps instead:
  - the mutex is the lock flag;
  - a queue is a sequence;
  - an await is a separate method (`Resume`, `Step`, `NextAsync`);
  - `ReadAsync` ends `Waiting` where the source would block for the next token.
- Listener.IncomingConnection.ProcessIncoming: cancellation of the accept token is not
  modelled. The listener's token is never cancelled in the source.
- The native callbacks are not nested. A callback that fires during a foreign call is
  modelled as a separate handler call, and the event bridge records what it delivers.
- Subscriber lists of the connection-level events are not modelled. These events are
  `DataReceived`, `StreamInitiated`, `StreamClosed`, `ConnectionClose` and `Incoming`. The
  model records each event as raised, so which handlers run is left out.
- `QuicConnection`'s handlers for `StreamStopped`, `StreamAvailable`, `DatagramReceived` and
  `ConnectionLost` only filter by id and have no effect, so they are not modelled.
- The `WriteAsync` overloads are not modelled. They run `Write` on another task.
- `Seek`, `SetLength`, `Flush` and the `Stream` property overrides are not modelled. They
  are not supported or constant.
- `QuicListener.Accept` blocks on `AcceptAsync`, which is modelled.
- `get_connection` and `throw_error` have no observable effect and are not modelled. The
  native `connect_client`, `close_connection`, `read_stream`, `write_stream`,
  `accept_stream`, `open_stream` and `free_connection` bodies are not part of this model.
  Their answers come from the `Engine` oracle.
- The unsafe Rust pointer wrappers (`handle_exclusive.rs` and siblings) and
  `rust/src/result.rs` are not part of this model. The boxed connection handed to
  `on_new_connection` is an opaque number.
- Quinn's `ConnectionEvent`/`EndpointEvent` payloads are opaque tags; only `is_drained` is
  read.
- The managed and native callback signatures disagree, and the model keeps each side's own
  signature without relating the two:
  - Rust `on_stream_opened` passes no stream id, and C# `OnNewConnection` receives a
    handle pointer.
  - Rust `set_on_stream_readable`, `_writable`, `_finished` and `_stopped` take an
    `extern "C" fn(u32, u64)` (rust/src/ffi/bindings.rs:274-300), while the C# delegates
    read a third `byte direction` (dotnet/DotQuic.Native/QuinnAPI.cs:22-30,
    dotnet/DotQuic.Native/Events/ConnectionEvents.cs:92-110) that Rust never passes.
    `QuicConnection.OnStreamReadable` and `OnStreamWritable` switch on that unsupplied
    byte (dotnet/DotQuic/QuicConnection.cs:194); the model treats it as a parameter.
  - `on_transmit` passes a `*const IpAddr` pointer (rust/src/ffi/bindings.rs:324), while
    the C# `OnTransmit` takes a `SockaddrInV4` by value
    (dotnet/DotQuic.Native/QuinnAPI.cs:32). The model relates the two records' bytes
    (`LayoutsAgree`) but not the pointer-versus-value passing.
- Text encodings are not modelled. A reason string is its bytes, so UTF-8 decoding is the
  identity. `to_string` of the closed-channel send error is its ASCII text.
- Driver.ConnectionDriver.RunAction: an action's exception is not modelled, because the
  actions the source schedules do not throw once their lookups have succeeded. The answer
  of `FreeConnection` is ignored, as in the source.
- Listener.QuicListener.Open: the endpoint id byte is the out-value modulo 256. Registering
  the listener's handlers and starting the receive and poll loops are not modelled.
- Streams.QuicStream.ReadArray: only the first read call is stated; the rest is
  `ReadAsync`'s contract.
