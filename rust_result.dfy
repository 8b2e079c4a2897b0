/**
 * The native result type (`QuinnResult`, `Kind`, `QuinnError`) and the thread-local
 * `LAST_RESULT` cell that `context` writes and `with_last_result` reads.
 */
module RustResult {
  import opened Primitives
  import QuinnResults

  /** The native result kinds, `#[repr(C)]`, in declaration order. */
  datatype Kind = Ok | Error | BufferToSmall

  function KindOrdinal(k: Kind): nat
  {
    match k
    case Ok => 0
    case Error => 1
    case BufferToSmall => 2
  }

  /** The managed kind with the same name as a native kind. */
  function SameNamed(k: Kind): QuinnResults.ResultKind
  {
    match k
    case Ok => QuinnResults.Ok
    case Error => QuinnResults.Error
    case BufferToSmall => QuinnResults.BufferToSmall
  }

  /**
   * The two enums agree across the boundary: the managed side, reading the native
   * discriminant, sees the kind of the same name; and no native kind reads as
   * BufferBlocked or ArgumentNull.
   */
  lemma KindsAgree(k: Kind)
    ensures QuinnResults.FromOrdinal(KindOrdinal(k)) == Some(SameNamed(k))
    ensures !QuinnResults.IsBufferBlocked(SameNamed(k)) && SameNamed(k) != QuinnResults.ResultKind.ArgumentNull
  {
    match k
    case Ok =>
    case Error =>
    case BufferToSmall =>
  }

  /** A native error: a numeric code and the bytes of a C string. */
  datatype QuinnError = QuinnError(code: u64, reason: seq<byte>)

  /**
   * `QuinnError::new`: `CString::new(reason).unwrap()` panics when the text holds a NUL
   * byte; `None` stands for that panic.
   */
  function NewQuinnError(code: u64, reason: seq<byte>): (r: Option<QuinnError>)
    ensures r.None? <==> exists i :: 0 <= i < |reason| && reason[i] == 0
    ensures r.Some? ==> r.value.code == code && r.value.reason == reason
  {
    if 0 in reason then None else Some(QuinnError(code, reason))
  }

  datatype LastResult = LastResult(err: Option<QuinnError>)

  /** The thread-local `LAST_RESULT: RefCell<Option<LastResult>>`. */
  class LastResultCell {
    var last: Option<LastResult>

    constructor()
      ensures last == None && StoredError() == None
    {
      last := None;
    }

    /** `with_last_result`: the error the closure receives, `None` when nothing was recorded. */
    function StoredError(): (r: Option<QuinnError>)
      reads this
      ensures r.Some? <==> last.Some? && last.value.err.Some?
      ensures r.Some? ==> Some(r.value) == last.value.err
    {
      match last
      case None => None
      case Some(l) => l.err
    }

    /** `QuinnResult::context`: replaces the recorded result with `e` and hands back the result unchanged. */
    method Context(k: Kind, e: QuinnError) returns (r: Kind)
      modifies this
      ensures r == k
      ensures last == Some(LastResult(Some(e)))
      ensures StoredError() == Some(e)
    {
      last := Some(LastResult(Some(e)));
      r := k;
    }
  }
}
