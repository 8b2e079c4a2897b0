/**
 * `QuinnFFIHelpers`: the buffer plumbing around the stream and datagram wrappers. Each
 * passes a whole managed buffer by its length, and unwraps the answer.
 */
module FfiHelpers {
  import opened Primitives
  import opened QuinnResults
  import opened Handles
  import opened RustAddr
  import opened AddressHelpers
  import opened NativeApi
  import opened QuinnApi
  import LastErrorFetch

  /**
   * `HandleDatagram`: hands all of `data` and the endpoint converted with `ToNative` to
   * `handle_datagram`, and throws what `Unwrap` makes of the answer.
   */
  method HandleDatagram(api: Api, endpoint: Handle, data: array<byte>, remote: IPEndPoint, e: Endian)
    returns (o: Outcome)
    modifies endpoint, api.engine, api.engine.cell
    ensures endpoint.raw == old(endpoint.raw) && !endpoint.isAcquired
    ensures var c := HandleDatagramCall(HandleUse(old(endpoint.raw), true), data[..], NativeOf(remote));
      api.engine.log == old(api.engine.log) + [c]
      && o == Unwrap(api.engine.respond(old(api.engine.log), c).kind, LastErrorFetch.StoredReason(api.engine.cell))
  {
    var native := ToNative(remote, e);
    var k := api.HandleDatagram(endpoint, data, data.Length, native);
    assert data[..data.Length] == data[..];
    o := LastErrorFetch.Unwrap(k, api.engine.cell);
  }

  /**
   * `WriteToStream`: offers the whole buffer to `write_stream` and returns the count the
   * native side took, which may be less than the buffer's length.
   */
  method WriteToStream(api: Api, conn: Handle, streamId: int, buffer: array<byte>) returns (o: Result<u32>)
    requires buffer.Length < 0x8000_0000
    modifies conn, api.engine, api.engine.cell
    ensures conn.raw == old(conn.raw) && !conn.isAcquired
    ensures var c := WriteStreamCall(HandleUse(old(conn.raw), true), streamId, buffer[..]);
      var r := api.engine.respond(old(api.engine.log), c);
      api.engine.log == old(api.engine.log) + [c]
      && (o.Threw? <==> Throws(r.kind))
      && (o.Threw? ==> Fail(o.exc) == Unwrap(r.kind, LastErrorFetch.StoredReason(api.engine.cell)))
      && (o.Returned? ==> o.value == r.count)
  {
    var k, bytesWritten := api.WriteStream(conn, streamId, buffer, buffer.Length);
    assert buffer[..buffer.Length] == buffer[..];
    var u := LastErrorFetch.Unwrap(k, api.engine.cell);
    if u.Fail? {
      return Threw(u.exc);
    }
    o := Returned(bytesWritten);
  }

  /**
   * `ReadFromStream`: lets `read_stream` fill the buffer, with the buffer's length as the
   * capacity, and returns the length the native side reports.
   */
  method ReadFromStream(api: Api, conn: Handle, streamId: int, buffer: array<byte>) returns (o: Result<u32>)
    requires buffer.Length < 0x8000_0000
    modifies conn, api.engine, api.engine.cell, buffer
    ensures conn.raw == old(conn.raw) && !conn.isAcquired
    ensures var c := ReadStreamCall(HandleUse(old(conn.raw), true), streamId, buffer.Length);
      var r := api.engine.respond(old(api.engine.log), c);
      var n := if |r.data| < buffer.Length then |r.data| else buffer.Length;
      api.engine.log == old(api.engine.log) + [c]
      && buffer[..n] == r.data[..n] && buffer[n..] == old(buffer[n..])
      && (o.Threw? <==> Throws(r.kind))
      && (o.Threw? ==> Fail(o.exc) == Unwrap(r.kind, LastErrorFetch.StoredReason(api.engine.cell)))
      && (o.Returned? ==> o.value == r.count)
  {
    var k, actualMessageLen := api.ReadStream(conn, streamId, buffer, buffer.Length);
    var u := LastErrorFetch.Unwrap(k, api.engine.cell);
    if u.Fail? {
      return Threw(u.exc);
    }
    o := Returned(actualMessageLen);
  }
}
