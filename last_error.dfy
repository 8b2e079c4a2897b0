/**
 * The managed half of the last-error protocol (`QuinnFFIHelpers.LastError`,
 * `FillLastResult`) run against the native `last_error`, and `QuinnResult.Unwrap`, which
 * fetches the error text when it throws.
 */
module LastErrorFetch {
  import opened Primitives
  import opened QuinnResults
  import opened RustResult
  import RustBindings

  /** The managed `QuinnError`: a code and the decoded reason. */
  datatype ManagedError = ManagedError(code: int, reason: seq<byte>)

  /** The first buffer size `LastError` tries. */
  const FirstBufferLength: nat := 1024

  /** The text of the recorded error, empty when none is recorded. */
  function StoredReason(cell: LastResultCell): (r: seq<byte>)
    reads cell
    ensures cell.StoredError().Some? ==> r == cell.StoredError().value.reason
    ensures cell.StoredError().None? ==> r == []
  {
    if cell.StoredError().Some? then cell.StoredError().value.reason else []
  }

  /**
   * `FillLastResult`: calls `last_error` with a fresh buffer of `bufferLength` bytes; on
   * BufferTooSmall it starts over with a buffer of exactly the reported length, otherwise
   * it decodes the first `actualMessageLen` bytes as the reason, with code 0. `attempts`
   * lists the buffer lengths tried: one attempt when the message fits, two otherwise, the
   * second of exactly the message's length.
   */
  method FillLastResult(cell: LastResultCell, bufferLength: nat) returns (e: ManagedError, attempts: seq<nat>)
    decreases if cell.StoredError().Some? && bufferLength < |cell.StoredError().value.reason| then 1 else 0
    ensures e == ManagedError(0, StoredReason(cell))
    ensures attempts == if |StoredReason(cell)| <= bufferLength then [bufferLength] else [bufferLength, |StoredReason(cell)|]
  {
    var buffer := new byte[bufferLength];
    var result, written := RustBindings.LastError(cell, buffer, bufferLength);
    // `out var actualMessageLen` starts at zero and keeps it when nothing is written.
    var actualMessageLen := if written.Some? then written.value else 0;
    if IsBufferTooSmall(SameNamed(result)) {
      var retried, more := FillLastResult(cell, actualMessageLen);
      return retried, [bufferLength] + more;
    }
    e := ManagedError(0, buffer[..actualMessageLen]);
    attempts := [bufferLength];
  }

  /** `LastError`: the protocol started with a 1024-byte buffer; it never needs more than two attempts. */
  method LastError(cell: LastResultCell) returns (e: ManagedError, attempts: seq<nat>)
    ensures e == ManagedError(0, StoredReason(cell))
    ensures 1 <= |attempts| <= 2 && attempts[0] == FirstBufferLength
    ensures |attempts| == 2 <==> |StoredReason(cell)| > FirstBufferLength
    ensures |attempts| == 2 ==> attempts[1] == |StoredReason(cell)|
  {
    e, attempts := FillLastResult(cell, FirstBufferLength);
  }

  /**
   * `QuinnResult.Unwrap` with the error text fetched from the native side: throws exactly
   * what the pure `Unwrap` says for the text currently recorded.
   */
  method Unwrap(k: ResultKind, cell: LastResultCell) returns (o: Outcome)
    ensures o == QuinnResults.Unwrap(k, StoredReason(cell))
  {
    if Erroneous(k) {
      var e, _ := LastError(cell);
      return Fail(General(e.reason));
    }
    if IsBufferBlocked(k) {
      return Fail(BufferBlockedExc);
    }
    if IsArgumentNull(k) {
      var e, _ := LastError(cell);
      return Fail(ArgumentNullExc(e.reason));
    }
    return Pass;
  }
}
