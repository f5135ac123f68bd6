/**
 * The error kinds a serial operation reports (the negated E_* codes of the
 * C interface) and the classification of the errno reported by open(2).
 */
module Errors {

  import opened Wrappers

  /** The result kinds of the E_* codes; a successful call returns no kind. */
  datatype ErrorKind =
    | AccessDenied     // E_ACCESS_DENIED
    | NoSuchPort       // E_NO_PORT
    | Busy             // E_BUSY
    | InvalidSettings  // E_INVALID_SETTINGS
    | Interrupted      // E_INTERRUPT
    | IoError          // E_IO

  /** A call either succeeds with a value or fails with one error kind. */
  datatype Result<T> = Ok(value: T) | Err(kind: ErrorKind)
  {
    function Error(): Option<ErrorKind>
    {
      if Err? then Some(kind) else None
    }
  }

  /** The errno values open(2) can report; OtherErrno stands for every value but EACCES and ENOENT. */
  datatype Errno = EACCES | ENOENT | OtherErrno(code: int)

  /** How serial_open classifies a failed open(2). */
  function OpenErrorKind(e: Errno): (k: ErrorKind)
    ensures k == AccessDenied <==> e == EACCES
    ensures k == NoSuchPort <==> e == ENOENT
    ensures k == IoError <==> e.OtherErrno?
  {
    match e
    case EACCES => AccessDenied
    case ENOENT => NoSuchPort
    case OtherErrno(_) => IoError
  }

  /**
   * The index of the first failing step of a sequence of steps, or the
   * number of steps when none fails: an operation that runs its steps in
   * order and returns at the first failure stops at this index.
   */
  function FirstFailure(fails: seq<bool>): (k: nat)
    ensures k <= |fails|
    ensures forall j :: 0 <= j < k ==> !fails[j]
    ensures k < |fails| ==> fails[k]
  {
    if fails == [] then 0
    else if fails[0] then 0
    else 1 + FirstFailure(fails[1..])
  }

  /** The first failing step is the only index with both properties. */
  lemma FirstFailureUnique(fails: seq<bool>, k: nat)
    requires k <= |fails|
    requires forall j :: 0 <= j < k ==> !fails[j]
    requires k < |fails| ==> fails[k]
    ensures FirstFailure(fails) == k
  {
  }
}
