/**
 * `QuicConnection`: a connection's two stream registries (unidirectional and bidirectional,
 * each keyed by stream id), its handshake state, and the handlers that keep the registries
 * in step with the native stream events addressed to this connection.
 */
module Connections {
  import opened Primitives
  import opened QuinnResults
  import opened Handles
  import opened NativeApi
  import opened QuinnApi
  import opened Streams
  import opened Driver
  import LastErrorFetch

  /** `IncomingState`; a connection starts in the first of them. */
  datatype IncomingState = Listening | Connecting | Connected

  /** The payload of a stream event (`StreamEventArgs`). */
  datatype StreamArgs = StreamArgs(connectionId: int, streamId: int, streamType: StreamType)

  class QuicConnection {
    const handle: Handle
    const connectionId: int
    const driver: ConnectionDriver
    var uniStreams: map<int, QuicStream>
    var biStreams: map<int, QuicStream>
    var state: IncomingState
    /** The `StreamClosed` events raised so far, in order. */
    var closed: seq<StreamArgs>

    /** Every stream the connection holds keeps the stream invariant. */
    ghost predicate Valid()
      reads this, uniStreams.Values, biStreams.Values
    {
      (forall s :: s in uniStreams.Values ==> s.Valid())
      && (forall s :: s in biStreams.Values ==> s.Valid())
    }

    constructor(handle: Handle, connectionId: int, driver: ConnectionDriver)
      ensures this.handle == handle && this.connectionId == connectionId && this.driver == driver
      ensures uniStreams == map[] && biStreams == map[] && state == Listening && closed == []
      ensures Valid() && !IsConnected()
    {
      this.handle := handle;
      this.connectionId := connectionId;
      this.driver := driver;
      uniStreams := map[];
      biStreams := map[];
      state := Listening;
      closed := [];
    }

    predicate IsConnected()
      reads this
    {
      state == Connected
    }

    predicate IsUniStream(streamId: int)
      reads this
    {
      streamId in uniStreams
    }

    predicate IsBiStream(streamId: int)
      reads this
    {
      streamId in biStreams
    }

    predicate IsThisConnection(id: int)
    {
      id == connectionId
    }

    /** `SetState`: the one operation that changes the state. */
    method SetState(s: IncomingState)
      modifies this
      ensures state == s && (IsConnected() <==> s == Connected)
      ensures uniStreams == old(uniStreams) && biStreams == old(biStreams) && closed == old(closed)
    {
      state := s;
    }

    /** `GetBiStream`: the stream under that id in the bidirectional registry, or an exception. */
    function GetBiStream(streamId: int): (o: Result<QuicStream>)
      reads this
      ensures o.Returned? <==> IsBiStream(streamId)
      ensures o.Returned? ==> o.value == biStreams[streamId]
      ensures o.Threw? ==> o.exc == NoSuchStream(streamId)
    {
      if streamId in biStreams then Returned(biStreams[streamId]) else Threw(NoSuchStream(streamId))
    }

    /** `GetUniStream`: the stream under that id in the unidirectional registry, or an exception. */
    function GetUniStream(streamId: int): (o: Result<QuicStream>)
      reads this
      ensures o.Returned? <==> IsUniStream(streamId)
      ensures o.Returned? ==> o.value == uniStreams[streamId]
      ensures o.Threw? ==> o.exc == NoSuchStream(streamId)
    {
      if streamId in uniStreams then Returned(uniStreams[streamId]) else Threw(NoSuchStream(streamId))
    }

    /**
     * The stream-type switch of the readable and writable handlers: the registry of that
     * type, indexed by the id (a missing id throws); any other type is out of range. It
     * finds the same stream as the getters, but fails differently.
     */
    function StreamFor(streamId: int, streamType: StreamType): (o: Result<QuicStream>)
      reads this
      ensures streamType == UniStream && IsUniStream(streamId) ==> o == GetUniStream(streamId)
      ensures streamType == BiStream && IsBiStream(streamId) ==> o == GetBiStream(streamId)
      ensures o.Threw? ==> o.exc == (if streamType == UniStream || streamType == BiStream then KeyNotFound else ArgumentOutOfRange)
    {
      if streamType == UniStream then
        if streamId in uniStreams then Returned(uniStreams[streamId]) else Threw(KeyNotFound)
      else if streamType == BiStream then
        if streamId in biStreams then Returned(biStreams[streamId]) else Threw(KeyNotFound)
      else
        Threw(ArgumentOutOfRange)
    }

    /** The stream a readable or writable event for that id and type would touch, if any. */
    function Targeted(streamId: int, streamType: StreamType): set<object>
      reads this
    {
      var o := StreamFor(streamId, streamType);
      if o.Returned? then {o.value} else {}
    }

    /** A stream just made for this connection, with no tokens and no write signal yet. */
    predicate Made(s: QuicStream, streamId: int, streamType: StreamType, readable: bool, writable: bool)
      reads s
    {
      s.handle == handle && s.streamId == streamId && s.streamType == streamType
      && s.readable == readable && s.writable == writable && !s.writeSignal
    }

    /**
     * `OpenBiDirectionalStream`: refused before any foreign call unless connected; otherwise
     * `open_stream` for a bidirectional stream, unwrapped, and the new read/write stream is
     * added to the bidirectional registry under the id the call returned.
     */
    method OpenBiDirectionalStream(api: Api) returns (o: Result<QuicStream>)
      requires Valid()
      modifies this, handle, api.engine, api.engine.cell
      ensures Valid()
      ensures state == old(state) && closed == old(closed) && uniStreams == old(uniStreams)
      ensures !old(IsConnected()) ==> o == Threw(NotConnected) && biStreams == old(biStreams) && api.engine.log == old(api.engine.log)
      ensures old(IsConnected()) ==>
        var c := OpenStreamCall(HandleUse(old(handle.raw), true), BiStream);
        var r := api.engine.respond(old(api.engine.log), c);
        api.engine.log == old(api.engine.log) + [c]
        && (Throws(r.kind) ==>
              o.Threw? && Fail(o.exc) == Unwrap(r.kind, LastErrorFetch.StoredReason(api.engine.cell)) && biStreams == old(biStreams))
        && (!Throws(r.kind) && r.id in old(biStreams) ==> o == Threw(DuplicateKey) && biStreams == old(biStreams))
        && (!Throws(r.kind) && r.id !in old(biStreams) ==>
              o.Returned? && Made(o.value, r.id, BiStream, true, true) && o.value.readTokens == 0
              && biStreams == old(biStreams)[r.id := o.value])
      ensures o.Returned? ==> fresh(o.value)
    {
      if !IsConnected() {
        return Threw(NotConnected);
      }
      var k, streamId := api.OpenStream(handle, BiStream);
      var u := LastErrorFetch.Unwrap(k, api.engine.cell);
      if u.Fail? {
        return Threw(u.exc);
      }
      var stream := new QuicStream(handle, BiStream, streamId, true, true);
      if streamId in biStreams {
        return Threw(DuplicateKey);
      }
      biStreams := biStreams[streamId := stream];
      o := Returned(stream);
    }

    /**
     * `OpenUniDirectionalStream`: as the bidirectional one, but the new stream is write-only
     * and goes into the unidirectional registry.
     */
    method OpenUniDirectionalStream(api: Api) returns (o: Result<QuicStream>)
      requires Valid()
      modifies this, handle, api.engine, api.engine.cell
      ensures Valid()
      ensures state == old(state) && closed == old(closed) && biStreams == old(biStreams)
      ensures !old(IsConnected()) ==> o == Threw(NotConnected) && uniStreams == old(uniStreams) && api.engine.log == old(api.engine.log)
      ensures old(IsConnected()) ==>
        var c := OpenStreamCall(HandleUse(old(handle.raw), true), UniStream);
        var r := api.engine.respond(old(api.engine.log), c);
        api.engine.log == old(api.engine.log) + [c]
        && (Throws(r.kind) ==>
              o.Threw? && Fail(o.exc) == Unwrap(r.kind, LastErrorFetch.StoredReason(api.engine.cell)) && uniStreams == old(uniStreams))
        && (!Throws(r.kind) && r.id in old(uniStreams) ==> o == Threw(DuplicateKey) && uniStreams == old(uniStreams))
        && (!Throws(r.kind) && r.id !in old(uniStreams) ==>
              o.Returned? && Made(o.value, r.id, UniStream, false, true) && o.value.readTokens == 0
              && uniStreams == old(uniStreams)[r.id := o.value])
      ensures o.Returned? ==> fresh(o.value)
    {
      if !IsConnected() {
        return Threw(NotConnected);
      }
      var k, streamId := api.OpenStream(handle, UniStream);
      var u := LastErrorFetch.Unwrap(k, api.engine.cell);
      if u.Fail? {
        return Threw(u.exc);
      }
      var stream := new QuicStream(handle, UniStream, streamId, false, true);
      if streamId in uniStreams {
        return Threw(DuplicateKey);
      }
      uniStreams := uniStreams[streamId := stream];
      o := Returned(stream);
    }

    /** `OnStreamWritable`: for this connection, sets the write signal of the stream the event names. */
    method OnStreamWritable(connectionId: int, streamId: int, streamType: StreamType) returns (o: Outcome)
      requires Valid()
      modifies Targeted(streamId, streamType)
      ensures Valid()
      ensures !IsThisConnection(connectionId) ==> o == Pass && unchanged(Targeted(streamId, streamType))
      ensures IsThisConnection(connectionId) && StreamFor(streamId, streamType).Threw? ==>
        o == Fail(StreamFor(streamId, streamType).exc)
      ensures IsThisConnection(connectionId) && StreamFor(streamId, streamType).Returned? ==>
        var s := StreamFor(streamId, streamType).value;
        o == Pass && s.writeSignal == (old(s.writeSignal) || s.readable) && s.readTokens == old(s.readTokens)
    {
      if !IsThisConnection(connectionId) {
        return Pass;
      }
      var found := StreamFor(streamId, streamType);
      if found.Threw? {
        return Fail(found.exc);
      }
      found.value.SetWritable();
      o := Pass;
    }

    /**
     * `OnStreamReadable`: for this connection, queues one read token on the stream the event
     * names, and then schedules the `DataReceived` announcement for it.
     */
    method OnStreamReadable(connectionId: int, streamId: int, streamType: StreamType) returns (o: Outcome)
      requires Valid()
      modifies Targeted(streamId, streamType), driver
      ensures Valid()
      ensures !IsThisConnection(connectionId) ==> o == Pass && unchanged(Targeted(streamId, streamType)) && unchanged(driver)
      ensures IsThisConnection(connectionId) && StreamFor(streamId, streamType).Threw? ==>
        o == Fail(StreamFor(streamId, streamType).exc) && unchanged(driver)
      ensures IsThisConnection(connectionId) && StreamFor(streamId, streamType).Returned? ==>
        var s := StreamFor(streamId, streamType).value;
        o == Pass && s.readTokens == old(s.readTokens) + (if s.readable then 1 else 0) && s.writeSignal == old(s.writeSignal)
        && driver.scheduled == old(driver.scheduled) + [AnnounceData(s)]
        && driver.pollTasks == old(driver.pollTasks) && driver.notices == old(driver.notices)
    {
      if !IsThisConnection(connectionId) {
        return Pass;
      }
      var found := StreamFor(streamId, streamType);
      if found.Threw? {
        return Fail(found.exc);
      }
      found.value.QueueReadEvent();
      driver.Schedule(AnnounceData(found.value));
      o := Pass;
    }

    /**
     * `OnStreamOpened`: for this connection, makes the remotely opened stream (read-only when
     * unidirectional, read/write when bidirectional), adds it to the registry of its type,
     * gives it one read token, and schedules `StreamInitiated` followed by `DataReceived`.
     * A stream id already registered, or a type that is neither, throws.
     */
    method OnStreamOpened(connectionId: int, streamId: int, streamType: StreamType) returns (o: Outcome)
      requires Valid()
      modifies this, driver
      ensures Valid()
      ensures state == old(state) && closed == old(closed)
      ensures !IsThisConnection(connectionId) ==> o == Pass && unchanged(this, driver)
      ensures IsThisConnection(connectionId) && streamType != UniStream && streamType != BiStream ==>
        o == Fail(ArgumentOutOfRange) && unchanged(this, driver)
      ensures IsThisConnection(connectionId) && streamType == UniStream && streamId in old(uniStreams) ==>
        o == Fail(DuplicateKey) && unchanged(this, driver)
      ensures IsThisConnection(connectionId) && streamType == BiStream && streamId in old(biStreams) ==>
        o == Fail(DuplicateKey) && unchanged(this, driver)
      ensures IsThisConnection(connectionId) && streamType == UniStream && streamId !in old(uniStreams) ==>
        streamId in uniStreams
        && var s := uniStreams[streamId];
        o == Pass && fresh(s) && uniStreams == old(uniStreams)[streamId := s] && biStreams == old(biStreams)
        && Made(s, streamId, streamType, true, false) && s.readTokens == 1
        && driver.scheduled == old(driver.scheduled) + [AnnounceStream(connectionId, streamId, streamType, s)]
        && driver.pollTasks == old(driver.pollTasks) && driver.notices == old(driver.notices)
      ensures IsThisConnection(connectionId) && streamType == BiStream && streamId !in old(biStreams) ==>
        streamId in biStreams
        && var s := biStreams[streamId];
        o == Pass && fresh(s) && biStreams == old(biStreams)[streamId := s] && uniStreams == old(uniStreams)
        && Made(s, streamId, streamType, true, true) && s.readTokens == 1
        && driver.scheduled == old(driver.scheduled) + [AnnounceStream(connectionId, streamId, streamType, s)]
        && driver.pollTasks == old(driver.pollTasks) && driver.notices == old(driver.notices)
    {
      if !IsThisConnection(connectionId) {
        return Pass;
      }
      var newStream;
      if streamType == UniStream {
        newStream := new QuicStream(handle, streamType, streamId, true, false);
        if streamId in uniStreams {
          return Fail(DuplicateKey);
        }
        uniStreams := uniStreams[streamId := newStream];
      } else if streamType == BiStream {
        newStream := new QuicStream(handle, streamType, streamId, true, true);
        if streamId in biStreams {
          return Fail(DuplicateKey);
        }
        biStreams := biStreams[streamId := newStream];
      } else {
        return Fail(ArgumentOutOfRange);
      }
      newStream.QueueReadEvent();
      driver.Schedule(AnnounceStream(connectionId, streamId, streamType, newStream));
      o := Pass;
    }

    /**
     * `OnStreamFinished`: for this connection, drops the id from the unidirectional registry
     * when it is there, and otherwise from the bidirectional one; then raises `StreamClosed`
     * at once, not through the driver. Afterwards neither getter finds the stream, unless
     * the id was in both registries, in which case the bidirectional entry stays.
     */
    method OnStreamFinished(connectionId: int, streamId: int, streamType: StreamType)
      requires Valid()
      modifies this
      ensures Valid()
      ensures state == old(state)
      ensures !IsThisConnection(connectionId) ==> unchanged(this)
      ensures IsThisConnection(connectionId) ==>
        (if old(IsUniStream(streamId))
         then uniStreams == old(uniStreams) - {streamId} && biStreams == old(biStreams)
         else uniStreams == old(uniStreams) && biStreams == old(biStreams) - {streamId})
        && closed == old(closed) + [StreamArgs(connectionId, streamId, streamType)]
        && GetUniStream(streamId).Threw? && (!old(IsUniStream(streamId)) ==> GetBiStream(streamId).Threw?)
    {
      if !IsThisConnection(connectionId) {
        return;
      }
      if IsUniStream(streamId) {
        uniStreams := uniStreams - {streamId};
      } else if IsBiStream(streamId) {
        biStreams := biStreams - {streamId};
      }
      closed := closed + [StreamArgs(connectionId, streamId, streamType)];
    }
  }
}
