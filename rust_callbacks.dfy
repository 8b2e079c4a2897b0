/**
 * The native callback table (`bindings::callbacks`): eleven static slots, each set once by
 * the managed side through a `set_on_*` entry point and invoked by the matching `on_*`.
 */
module RustCallbacks {
  import opened Primitives
  import opened RustAddr
  import opened RustProto

  datatype Slot =
    | NewConnectionSlot
    | ConnectedSlot
    | ConnectionLostSlot
    | StreamWritableSlot
    | StreamReadableSlot
    | StreamFinishedSlot
    | StreamStoppedSlot
    | StreamAvailableSlot
    | DatagramReceivedSlot
    | StreamOpenedSlot
    | TransmitSlot

  /** A managed function pointer handed to a `set_on_*` entry point. */
  type FnPtr = nat

  /** The arguments of one callback invocation, by signature. */
  datatype Args =
    | NewConnectionArgs(boxed: nat, con: u32)       // the allocated `ConnectionHandle` and the id
    | ConnArgs(con: u32)
    | StreamArgs(con: u32, streamId: u64)
    | DirArgs(con: u32, dir: byte)
    | TransmitArgs(endpointId: byte, contents: seq<byte>, addr: IpAddr)

  datatype Invocation = Invocation(slot: Slot, target: FnPtr, args: Args)

  /** The slots `on_*` reads without checking: the native side relies on all of them being set. */
  predicate AllSet(slots: map<Slot, FnPtr>)
  {
    forall s: Slot :: s in slots
  }

  class Callbacks {
    var slots: map<Slot, FnPtr>
    /** Every callback invoked so far, in order. */
    var invoked: seq<Invocation>

    constructor()
      ensures slots == map[] && invoked == []
    {
      slots := map[];
      invoked := [];
    }

    /** `set_on_*`: stores the callback in its slot, replacing any earlier one. */
    method SetOn(s: Slot, cb: FnPtr)
      modifies this
      ensures slots == old(slots)[s := cb]
      ensures invoked == old(invoked)
    {
      slots := slots[s := cb];
    }

    /**
     * `on_*` for the callbacks that pass their arguments straight through: invokes the
     * stored callback with them. The slot is read with `unwrap_unchecked`, so it must be set.
     */
    method Fire(s: Slot, a: Args)
      requires s in slots
      modifies this
      ensures slots == old(slots)
      ensures invoked == old(invoked) + [Invocation(s, slots[s], a)]
    {
      invoked := invoked + [Invocation(s, slots[s], a)];
    }

    /**
     * `on_transmit`: converts the destination to an `IpAddr` (which panics on an IPv6
     * destination) and invokes the transmit callback with the endpoint id and the contents.
     */
    method OnTransmit(endpointId: byte, t: Transmit) returns (panicked: bool)
      requires TransmitSlot in slots
      modifies this
      ensures slots == old(slots)
      ensures panicked <==> t.destination.SockV6?
      ensures !panicked ==> invoked == old(invoked) + [Invocation(TransmitSlot, slots[TransmitSlot],
        TransmitArgs(endpointId, t.contents, FromSocketAddr(t.destination).value))]
      ensures panicked ==> invoked == old(invoked)
    {
      var addr := FromSocketAddr(t.destination);
      if addr.None? {
        return true;
      }
      Fire(TransmitSlot, TransmitArgs(endpointId, t.contents, addr.value));
      return false;
    }
  }
}
