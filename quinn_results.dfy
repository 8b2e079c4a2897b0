/**
 * The managed view of a native result (`ResultKind`, `QuinnResult`) and the exceptions the
 * managed layer raises. `Unwrap` turns a result kind into "returns normally" or "throws".
 */
module QuinnResults {
  import opened Primitives

  /** The managed result kinds in declaration order: Ok = 0 .. ArgumentNull = 4. */
  datatype ResultKind = Ok | Error | BufferToSmall | BufferBlocked | ArgumentNull

  function Ordinal(k: ResultKind): nat
  {
    match k
    case Ok => 0
    case Error => 1
    case BufferToSmall => 2
    case BufferBlocked => 3
    case ArgumentNull => 4
  }

  /** Reading a native `uint` as a `ResultKind`; a value past the last member names no kind. */
  function FromOrdinal(n: nat): (r: Option<ResultKind>)
    ensures r.Some? <==> n < 5
    ensures r.Some? ==> Ordinal(r.value) == n
  {
    if n == 0 then Some(Ok)
    else if n == 1 then Some(Error)
    else if n == 2 then Some(BufferToSmall)
    else if n == 3 then Some(BufferBlocked)
    else if n == 4 then Some(ResultKind.ArgumentNull)
    else None
  }

  predicate Erroneous(k: ResultKind) { k == Error }
  predicate Successful(k: ResultKind) { k == Ok }
  predicate IsBufferTooSmall(k: ResultKind) { k == BufferToSmall }
  predicate IsBufferBlocked(k: ResultKind) { k == BufferBlocked }

  /** `ArgumentNull()`: as written, this compares against `BufferBlocked`, not against `ArgumentNull`. */
  predicate IsArgumentNull(k: ResultKind) { k == BufferBlocked }

  /** The result predicates: each names exactly one kind, and `ArgumentNull()` is `IsBufferBlocked()`. */
  lemma ResultPredicates(k: ResultKind)
    ensures Erroneous(k) <==> Ordinal(k) == 1
    ensures Successful(k) <==> Ordinal(k) == 0
    ensures IsBufferTooSmall(k) <==> Ordinal(k) == 2
    ensures IsBufferBlocked(k) <==> Ordinal(k) == 3
    ensures IsArgumentNull(k) <==> IsBufferBlocked(k)
    ensures k == ResultKind.ArgumentNull ==> !IsArgumentNull(k)
  {
  }

  /** The exceptions the managed layer throws. */
  datatype Exc =
    | General(reason: seq<byte>)         // `new Exception(LastError().Reason)` and other plain exceptions
    | BufferBlockedExc                   // `BufferBlockedException`
    | ArgumentNullExc(reason: seq<byte>) // `ArgumentNullException(LastError().Reason)`
    | KeyNotFound                        // a dictionary indexer on a missing key
    | DuplicateKey                       // `Dictionary.Add` on a present key
    | ArgumentOutOfRange                 // the `default:` arm of a stream-type switch
    | NotConnected                       // "Connection is not yet fully initialized."
    | NoSuchStream(streamId: int)        // `Get*Stream` on an id the connection does not hold
    | NoReadAccess                       // `AssertReadAccess`
    | NoWriteAccess                      // `AssertWriteAccess`

  /** The outcome of a managed call that returns nothing. */
  datatype Outcome = Pass | Fail(exc: Exc)

  /** The outcome of a managed call that returns a value. */
  datatype Result<+T> = Returned(value: T) | Threw(exc: Exc)

  /**
   * `QuinnResult.Unwrap`, given the text `LastError()` would return. Error is tested first, then
   * BufferBlocked; the third test (`ArgumentNull()`) is the BufferBlocked test again and so never fires.
   */
  function Unwrap(k: ResultKind, lastError: seq<byte>): (o: Outcome)
    ensures o.Fail? <==> k == Error || k == BufferBlocked
    ensures k == Error ==> o == Fail(General(lastError))
    ensures k == BufferBlocked ==> o == Fail(BufferBlockedExc)
    ensures o.Fail? ==> !o.exc.ArgumentNullExc?
  {
    if Erroneous(k) then Fail(General(lastError))
    else if IsBufferBlocked(k) then Fail(BufferBlockedExc)
    else if IsArgumentNull(k) then Fail(ArgumentNullExc(lastError))
    else Pass
  }

  /** Whether `Unwrap` throws on a kind, independent of the error text. */
  predicate Throws(k: ResultKind) { k == Error || k == BufferBlocked }
}
