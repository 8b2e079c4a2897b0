/**
 * `ConnectionDriver`: the worker that polls connections. Pollable signals queue poll tasks
 * (connection ids) and handlers queue deferred actions; the worker takes one poll task at a
 * time, polls that connection, and then runs every queued action, in order, before it takes
 * the next poll task.
 */
module Driver {
  import opened Primitives
  import opened QuinnResults
  import opened Handles
  import opened NativeApi
  import opened QuinnApi
  import opened Streams

  /** The managed events the deferred actions raise. */
  datatype Notice =
    | DataReady(stream: QuicStream)                                       // `DataReceived`
    | StreamInitiated(connectionId: int, streamId: int, streamType: StreamType)
    | ConnectionClosed(connectionId: int)                                 // `ConnectionClose`

  /** The closures handed to `Schedule`. */
  datatype Action =
    | AnnounceData(stream: QuicStream)                    // `QuicConnection.OnStreamReadable`
    | AnnounceStream(connectionId: int, streamId: int, streamType: StreamType, stream: QuicStream)
                                                          // `QuicConnection.OnStreamOpened`
    | FreeThenClose(endpoint: Handle, connection: Handle, connectionId: int)
                                                          // `QuicListener.OnConnectionLost`

  /** The events one action raises, in order. */
  function Effects(a: Action): (ns: seq<Notice>)
    ensures 1 <= |ns| <= 2
    ensures a.AnnounceStream? ==> ns == [StreamInitiated(a.connectionId, a.streamId, a.streamType), DataReady(a.stream)]
  {
    match a
    case AnnounceData(s) => [DataReady(s)]
    case AnnounceStream(c, i, t, s) => [StreamInitiated(c, i, t), DataReady(s)]
    case FreeThenClose(_, _, c) => [ConnectionClosed(c)]
  }

  /** The events a run of actions raises, action by action. */
  function AllEffects(actions: seq<Action>): seq<Notice>
  {
    if actions == [] then [] else AllEffects(actions[..|actions| - 1]) + Effects(actions[|actions| - 1])
  }

  /** Running two runs of actions one after the other raises their events one after the other. */
  lemma {:induction false} AllEffectsAppend(a: seq<Action>, b: seq<Action>)
    ensures AllEffects(a + b) == AllEffects(a) + AllEffects(b)
    decreases |b|
  {
    if b == [] {
      assert a + b == a;
    } else {
      var b' := b[..|b| - 1];
      assert (a + b)[..|a + b| - 1] == a + b';
      AllEffectsAppend(a, b');
    }
  }

  /** Every action raises at least one event, so a run of `n` actions raises at least `n`. */
  lemma {:induction false} AllEffectsLength(actions: seq<Action>)
    ensures |actions| <= |AllEffects(actions)| <= 2 * |actions|
  {
    if actions != [] {
      AllEffectsLength(actions[..|actions| - 1]);
    }
  }

  /** The handles an action's foreign call uses. */
  function ActionHandles(a: Action): set<Handle>
  {
    if a.FreeThenClose? then {a.endpoint, a.connection} else {}
  }

  function HandlesOf(actions: seq<Action>): set<Handle>
  {
    set a, h | a in actions && h in ActionHandles(a) :: h
  }

  /** The foreign call one action makes: `free_connection` for a lost connection, none otherwise. */
  function FreeCall(a: Action): (cs: seq<FfiCall>)
    reads ActionHandles(a)`raw
    ensures |cs| == (if a.FreeThenClose? then 1 else 0)
  {
    if a.FreeThenClose? then [FreeConnectionCall(HandleUse(a.endpoint.raw, true), HandleUse(a.connection.raw, true))] else []
  }

  /** The foreign calls a run of actions makes, action by action. */
  function FreeCalls(actions: seq<Action>): seq<FfiCall>
    reads HandlesOf(actions)`raw
  {
    if actions == [] then [] else FreeCalls(actions[..|actions| - 1]) + FreeCall(actions[|actions| - 1])
  }

  /** How one turn of the worker ends. */
  datatype PollOutcome =
    | Polled(connectionId: int, kind: ResultKind)  // polled, and every queued action run
    | Idle                                         // waiting for a poll task
    | Stopped                                      // the worker has ended
    | Faulted(exc: Exc)                            // the id had no handle; the worker ends

  class ConnectionDriver {
    /** Ids of connections signalled pollable, oldest first (`_pollTasks`). */
    var pollTasks: seq<int>
    /** Deferred actions, oldest first (`_scheduledTasks`). */
    var scheduled: seq<Action>
    /** Whether `Dispose` has requested cancellation. */
    var cancelled: bool
    /** Whether the worker ended with an exception. */
    var faulted: bool
    /** The events raised by the actions run so far, in order. */
    var notices: seq<Notice>

    constructor()
      ensures pollTasks == [] && scheduled == [] && !cancelled && !faulted && notices == []
    {
      pollTasks := [];
      scheduled := [];
      cancelled := false;
      faulted := false;
      notices := [];
    }

    /** `OnConnectionPollable`: one poll task per signal, with no coalescing. */
    method OnConnectionPollable(connectionId: int)
      modifies this
      ensures pollTasks == old(pollTasks) + [connectionId]
      ensures scheduled == old(scheduled) && notices == old(notices)
      ensures cancelled == old(cancelled) && faulted == old(faulted)
    {
      pollTasks := pollTasks + [connectionId];
    }

    /** `Schedule`: queues the action; it does not run here. */
    method Schedule(a: Action)
      modifies this
      ensures scheduled == old(scheduled) + [a]
      ensures pollTasks == old(pollTasks) && notices == old(notices)
      ensures cancelled == old(cancelled) && faulted == old(faulted)
    {
      scheduled := scheduled + [a];
    }

    /** `Dispose`: requests cancellation, which the worker sees at its next turn. */
    method Dispose()
      modifies this
      ensures cancelled
      ensures pollTasks == old(pollTasks) && scheduled == old(scheduled) && notices == old(notices)
      ensures faulted == old(faulted)
    {
      cancelled := true;
    }

    /**
     * Runs one action: the announcing ones raise their events; the one queued for a lost
     * connection frees it through `FreeConnection` (whose answer is not looked at) and then
     * raises `ConnectionClose`.
     */
    method RunAction(api: Api, a: Action)
      modifies this, api.engine, api.engine.cell, ActionHandles(a)`isAcquired
      ensures notices == old(notices) + Effects(a)
      ensures pollTasks == old(pollTasks) && scheduled == old(scheduled)
      ensures cancelled == old(cancelled) && faulted == old(faulted)
      ensures api.engine.log == old(api.engine.log) + old(FreeCall(a))
    {
      if a.FreeThenClose? {
        var _ := api.FreeConnection(a.endpoint, a.connection);
      }
      notices := notices + Effects(a);
    }

    /** One pass of the inner loop: dequeues the oldest action and runs it. */
    method RunNext(api: Api)
      requires scheduled != []
      modifies this, api.engine, api.engine.cell, ActionHandles(scheduled[0])`isAcquired
      ensures scheduled == old(scheduled)[1..] && notices == old(notices) + Effects(old(scheduled)[0])
      ensures pollTasks == old(pollTasks) && cancelled == old(cancelled) && faulted == old(faulted)
      ensures api.engine.log == old(api.engine.log) + old(FreeCall(scheduled[0]))
    {
      var a := scheduled[0];
      scheduled := scheduled[1..];
      RunAction(api, a);
    }

    /** The inner loop of the worker: runs the queued actions, oldest first, until none is left. */
    method Drain(api: Api)
      modifies this, api.engine, api.engine.cell, HandlesOf(scheduled)`isAcquired
      ensures scheduled == [] && notices == old(notices) + AllEffects(old(scheduled))
      ensures pollTasks == old(pollTasks) && cancelled == old(cancelled) && faulted == old(faulted)
      ensures api.engine.log == old(api.engine.log) + old(FreeCalls(scheduled))
    {
      ghost var s0 := scheduled;
      ghost var i := 0;
      while scheduled != []
        invariant 0 <= i <= |s0| && scheduled == s0[i..]
        invariant notices == old(notices) + AllEffects(s0[..i])
        invariant pollTasks == old(pollTasks) && cancelled == old(cancelled) && faulted == old(faulted)
        invariant api.engine.log == old(api.engine.log) + old(FreeCalls(s0[..i]))
        decreases |scheduled|
      {
        assert scheduled[0] == s0[i] && s0[..i + 1][..i] == s0[..i];
        assert old(FreeCalls(s0[..i + 1])) == old(FreeCalls(s0[..i])) + old(FreeCall(s0[i]));
        assert FreeCall(s0[i]) == old(FreeCall(s0[i]));
        assert ActionHandles(s0[i]) <= HandlesOf(s0);
        RunNext(api);
        i := i + 1;
      }
      assert s0[..i] == s0;
    }

    /**
     * One turn of `StartPollingAsync`'s loop. A cancelled or ended worker does nothing more;
     * with no poll task it waits. Otherwise it takes the oldest poll task, looks up that
     * connection's handle (a missing id throws, which ends the worker), polls it, ignoring
     * the answer's kind beyond reporting it, and then drains every queued action.
     */
    method Step(api: Api, connections: map<int, Handle>) returns (p: PollOutcome)
      modifies this, api.engine, api.engine.cell, connections.Values`isAcquired, HandlesOf(scheduled)`isAcquired
      ensures old(cancelled || faulted) ==>
        p == Stopped && pollTasks == old(pollTasks) && scheduled == old(scheduled) && notices == old(notices)
        && faulted == old(faulted) && api.engine.log == old(api.engine.log)
      ensures !old(cancelled || faulted) && old(pollTasks) == [] ==>
        p == Idle && pollTasks == [] && scheduled == old(scheduled) && notices == old(notices)
        && !faulted && api.engine.log == old(api.engine.log)
      ensures !old(cancelled || faulted) && old(pollTasks) != [] && old(pollTasks)[0] !in connections ==>
        p == Faulted(KeyNotFound) && faulted && pollTasks == old(pollTasks)[1..]
        && scheduled == old(scheduled) && notices == old(notices) && api.engine.log == old(api.engine.log)
      ensures !old(cancelled || faulted) && old(pollTasks) != [] && old(pollTasks)[0] in connections ==>
        var id := old(pollTasks)[0];
        var c := PollConnectionCall(HandleUse(old(connections[id].raw), true));
        p == Polled(id, api.engine.respond(old(api.engine.log), c).kind)
        && !faulted && pollTasks == old(pollTasks)[1..]
        && scheduled == [] && notices == old(notices) + AllEffects(old(scheduled))
        && api.engine.log == old(api.engine.log) + [c] + old(FreeCalls(scheduled))
      ensures cancelled == old(cancelled)
    {
      if cancelled || faulted {
        return Stopped;
      }
      if pollTasks == [] {
        return Idle;
      }
      var id := pollTasks[0];
      pollTasks := pollTasks[1..];
      if id !in connections {
        faulted := true;
        return Faulted(KeyNotFound);
      }
      var k := api.PollConnection(connections[id]);
      Drain(api);
      p := Polled(id, k);
    }
  }
}
