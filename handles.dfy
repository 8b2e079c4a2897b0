/**
 * The managed wrapper around a native pointer (`Handle`). Connection, endpoint and
 * configuration handles are identical subclasses of it, so one class stands for all four.
 * The mutex a handle carries is modelled by its `isAcquired` flag alone.
 */
module Handles {

  class Handle {
    /** The wrapped native pointer; zero is the invalid handle. */
    var raw: int
    var isAcquired: bool

    /** `Handle(IntPtr)`: stores the pointer it is given. */
    constructor(ptr: int)
      ensures raw == ptr && !isAcquired
      ensures IsInvalid() <==> ptr == 0
    {
      raw := ptr;
      isAcquired := false;
    }

    predicate IsInvalid()
      reads this
    {
      raw == 0
    }

    /** Takes the handle's lock and returns the stored pointer. */
    method Acquire() returns (p: int)
      modifies this`isAcquired
      ensures isAcquired
      ensures p == raw && raw == old(raw)
    {
      isAcquired := true;
      p := raw;
    }

    /** Gives the handle's lock back; the pointer stays. */
    method Release()
      modifies this`isAcquired
      ensures !isAcquired
      ensures raw == old(raw)
    {
      isAcquired := false;
    }

    /**
     * `ReleaseHandle`: always reports success and leaves the pointer at zero. It frees
     * nothing on the native side (it changes only this object), and a second call finds
     * zero and changes nothing.
     */
    method ReleaseHandle() returns (ok: bool)
      modifies this
      ensures ok
      ensures raw == 0 && IsInvalid()
      ensures isAcquired == old(isAcquired)
      ensures old(raw) == 0 ==> unchanged(this)
    {
      if raw == 0 {
        return true;
      }
      var h := raw;
      raw := 0;
      return true;
    }
  }
}
