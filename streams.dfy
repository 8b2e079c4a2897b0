/**
 * `QuicStream`: one stream of a connection, with the access rights fixed when it was made,
 * a queue of read-ready tokens posted by the connection, and a write signal.
 */
module Streams {
  import opened Primitives
  import opened QuinnResults
  import opened Handles
  import opened NativeApi
  import opened QuinnApi
  import FfiHelpers
  import LastErrorFetch

  /** `(int)` applied to a `uint`: unchecked, so values from 2^31 on wrap to negatives. */
  function ToInt32(x: u32): (r: int)
    ensures -0x8000_0000 <= r < 0x8000_0000
    ensures (r - x) % 0x1_0000_0000 == 0
    ensures x < 0x8000_0000 ==> r == x
  {
    if x < 0x8000_0000 then x else x - 0x1_0000_0000
  }

  /** `n` copies of the same call. */
  function Repeat(c: FfiCall, n: nat): (cs: seq<FfiCall>)
    ensures |cs| == n && forall i :: 0 <= i < n ==> cs[i] == c
  {
    seq(n, _ => c)
  }

  /** The answer to the `j`-th of a run of identical calls made after `log0`. */
  function NthReply(respond: (seq<FfiCall>, FfiCall) -> Reply, log0: seq<FfiCall>, c: FfiCall, j: nat): Reply
  {
    respond(log0 + Repeat(c, j), c)
  }

  /** How a `ReadAsync` ends: with a count, with an exception, or waiting for the next read token. */
  datatype ReadOutcome = Completed(count: int) | Failed(exc: Exc) | Waiting

  class QuicStream {
    /** The connection the stream belongs to. */
    const handle: Handle
    const streamType: StreamType
    const streamId: int
    const readable: bool
    const writable: bool
    /** How many read-ready tokens are queued (`_readableEvents`). */
    var readTokens: nat
    /** The write signal (`_writeManualResetEvent`). */
    var writeSignal: bool

    /** Only a readable stream ever holds read tokens. */
    ghost predicate Valid()
      reads this
    {
      !readable ==> readTokens == 0
    }

    constructor(handle: Handle, streamType: StreamType, streamId: int, readable: bool, writable: bool)
      ensures this.handle == handle && this.streamType == streamType && this.streamId == streamId
      ensures this.readable == readable && this.writable == writable
      ensures readTokens == 0 && !writeSignal && Valid()
    {
      this.handle := handle;
      this.streamType := streamType;
      this.streamId := streamId;
      this.readable := readable;
      this.writable := writable;
      readTokens := 0;
      writeSignal := false;
    }

    /** `CanRead`: readable, with a read token queued. */
    predicate CanRead()
      reads this
    {
      readTokens != 0 && readable
    }

    /** `CanWrite`: the flag the stream was made with. */
    predicate CanWrite()
    {
      writable
    }

    predicate IsBiStream()
    {
      streamType == BiStream
    }

    predicate IsUniStream()
    {
      streamType == UniStream
    }

    /** `QueueReadEvent`: posts one token, but only on a readable stream. */
    method QueueReadEvent()
      requires Valid()
      modifies this
      ensures Valid()
      ensures readTokens == old(readTokens) + (if readable then 1 else 0) && writeSignal == old(writeSignal)
      ensures CanRead() <==> readable
    {
      if readable {
        readTokens := readTokens + 1;
      }
    }

    /** `SetWritable`: sets the write signal, gated on the readable flag rather than the writable one. */
    method SetWritable()
      modifies this
      ensures writeSignal == (old(writeSignal) || readable) && readTokens == old(readTokens)
    {
      if readable {
        writeSignal := true;
      }
    }

    /** The call a read makes with a buffer of `capacity` bytes. */
    function ReadCall(capacity: u32): FfiCall
      reads handle
    {
      ReadStreamCall(HandleUse(handle.raw, true), streamId, capacity)
    }

    /** `Read(Span<byte>)`: one `ReadFromStream` into the whole buffer, the count cast to `int`. */
    method Read(api: Api, buffer: array<byte>) returns (o: Result<int>)
      requires buffer.Length < 0x8000_0000
      modifies handle, api.engine, api.engine.cell, buffer
      ensures handle.raw == old(handle.raw) && !handle.isAcquired
      ensures var r := api.engine.respond(old(api.engine.log), ReadCall(buffer.Length));
        api.engine.log == old(api.engine.log) + [ReadCall(buffer.Length)]
        && (o.Threw? <==> Throws(r.kind))
        && (o.Threw? ==> Fail(o.exc) == Unwrap(r.kind, LastErrorFetch.StoredReason(api.engine.cell)))
        && (o.Returned? ==> o.value == ToInt32(r.count))
    {
      var bytesRead := FfiHelpers.ReadFromStream(api, handle, streamId, buffer);
      match bytesRead
      case Returned(n) => o := Returned(ToInt32(n));
      case Threw(e) => o := Threw(e);
    }

    /**
     * `ReadAsync`: refuses a stream that is not readable before touching anything; otherwise
     * repeatedly takes one read token and reads, going round again only while the read
     * answers BufferBlocked. It ends with the count of the first read that does not block,
     * with the exception of one that throws otherwise, or waiting once the tokens run out.
     * `attempts` is how many reads were made: every one but the last answered BufferBlocked
     * (all of them, when it ends waiting).
     */
    method ReadAsync(api: Api, buffer: array<byte>) returns (r: ReadOutcome, ghost attempts: nat)
      requires buffer.Length < 0x8000_0000
      modifies this, handle, api.engine, api.engine.cell, buffer
      ensures handle.raw == old(handle.raw) && writeSignal == old(writeSignal)
      ensures !readable ==>
        r == Failed(NoReadAccess) && attempts == 0 && readTokens == old(readTokens) && api.engine.log == old(api.engine.log)
      ensures readable ==>
        attempts <= old(readTokens) && readTokens == old(readTokens) - attempts
        && api.engine.log == old(api.engine.log) + Repeat(ReadCall(buffer.Length), attempts)
      ensures readable ==> forall j :: 0 <= j < attempts && (j < attempts - 1 || r.Waiting?) ==>
        NthReply(api.engine.respond, old(api.engine.log), ReadCall(buffer.Length), j).kind == BufferBlocked
      ensures r.Waiting? ==> readable && attempts == old(readTokens)
      ensures r.Completed? ==>
        readable && attempts > 0
        && var last := NthReply(api.engine.respond, old(api.engine.log), ReadCall(buffer.Length), attempts - 1);
        !Throws(last.kind) && r.count == ToInt32(last.count)
      ensures r.Failed? && readable ==>
        attempts > 0
        && NthReply(api.engine.respond, old(api.engine.log), ReadCall(buffer.Length), attempts - 1).kind == Error
        && r.exc == General(LastErrorFetch.StoredReason(api.engine.cell))
    {
      if !readable {
        return Failed(NoReadAccess), 0;
      }
      attempts := 0;
      ghost var log0 := api.engine.log;
      ghost var c := ReadCall(buffer.Length);
      while true
        invariant handle.raw == old(handle.raw) && writeSignal == old(writeSignal)
        invariant ReadCall(buffer.Length) == c
        invariant readTokens + attempts == old(readTokens)
        invariant api.engine.log == log0 + Repeat(c, attempts)
        invariant forall j :: 0 <= j < attempts ==> NthReply(api.engine.respond, log0, c, j).kind == BufferBlocked
        decreases readTokens
      {
        if readTokens == 0 {
          return Waiting, attempts;
        }
        readTokens := readTokens - 1;
        var o := Read(api, buffer);
        assert log0 + Repeat(c, attempts + 1) == log0 + Repeat(c, attempts) + [c];
        attempts := attempts + 1;
        match o {
          case Returned(n) =>
            return Completed(n), attempts;
          case Threw(e) =>
            if e != BufferBlockedExc {
              return Failed(e), attempts;
            }
        }
      }
    }

    /** `Read(byte[], offset, count)`: `ReadAsync` into the whole array; `offset` and `count` are not used. */
    method ReadArray(api: Api, buffer: array<byte>, offset: int, count: int) returns (r: ReadOutcome)
      requires buffer.Length < 0x8000_0000
      modifies this, handle, api.engine, api.engine.cell, buffer
      ensures !readable ==> r == Failed(NoReadAccess) && api.engine.log == old(api.engine.log)
      ensures readable && old(readTokens) > 0 ==>
        |api.engine.log| > |old(api.engine.log)| && api.engine.log[|old(api.engine.log)|] == ReadCall(buffer.Length)
    {
      ghost var attempts;
      r, attempts := ReadAsync(api, buffer);
      if readable && old(readTokens) > 0 {
        assert attempts > 0;
        assert api.engine.log[|old(api.engine.log)|] == Repeat(ReadCall(buffer.Length), attempts)[0];
      }
    }

    /** `Write(ReadOnlySpan<byte>)`: checks write access, then offers the whole buffer; the count written is dropped. */
    method Write(api: Api, buffer: array<byte>) returns (o: Outcome)
      requires buffer.Length < 0x8000_0000
      modifies handle, api.engine, api.engine.cell
      ensures !writable ==> o == Fail(NoWriteAccess) && api.engine.log == old(api.engine.log)
      ensures writable ==>
        var c := WriteStreamCall(HandleUse(old(handle.raw), true), streamId, buffer[..]);
        var k := api.engine.respond(old(api.engine.log), c).kind;
        api.engine.log == old(api.engine.log) + [c] && o == Unwrap(k, LastErrorFetch.StoredReason(api.engine.cell))
    {
      if !writable {
        return Fail(NoWriteAccess);
      }
      var written := FfiHelpers.WriteToStream(api, handle, streamId, buffer);
      o := if written.Threw? then Fail(written.exc) else Pass;
    }

    /**
     * `Write(byte[], offset, count)`: checks write access, then writes the first `count`
     * bytes; `offset` is not used. A `count` outside the array fails the range.
     */
    method WriteRange(api: Api, buffer: array<byte>, offset: int, count: int) returns (o: Outcome)
      requires buffer.Length < 0x8000_0000
      modifies handle, api.engine, api.engine.cell
      ensures !writable ==> o == Fail(NoWriteAccess) && api.engine.log == old(api.engine.log)
      ensures writable && !(0 <= count <= buffer.Length) ==> o == Fail(ArgumentOutOfRange) && api.engine.log == old(api.engine.log)
      ensures writable && 0 <= count <= buffer.Length ==>
        var c := WriteStreamCall(HandleUse(old(handle.raw), true), streamId, buffer[..count]);
        var k := api.engine.respond(old(api.engine.log), c).kind;
        api.engine.log == old(api.engine.log) + [c] && o == Unwrap(k, LastErrorFetch.StoredReason(api.engine.cell))
    {
      if !writable {
        return Fail(NoWriteAccess);
      }
      if !(0 <= count <= buffer.Length) {
        return Fail(ArgumentOutOfRange);
      }
      var slice := new byte[count];
      forall i | 0 <= i < count {
        slice[i] := buffer[i];
      }
      assert slice[..] == buffer[..count];
      var written := FfiHelpers.WriteToStream(api, handle, streamId, slice);
      o := if written.Threw? then Fail(written.exc) else Pass;
    }
  }
}
