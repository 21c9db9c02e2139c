/** Small value wrappers shared by every module of the model. */
module Wrappers {
  /** A value that may be missing (Python `None`, or a Mongo lookup that found nothing). */
  datatype Option<T> = None | Some(value: T)

  /**
   * A dictionary slot as Python sees it: the key is missing, the key is
   * present and holds `None`, or the key holds a value. `d.get(k, dflt)`
   * gives `dflt` only for a missing key.
   */
  datatype Slot<T> = Absent | Null | Present(value: T)

  /** The outcome of a step that either yields a value or raises an error. */
  datatype Result<T, E> = Success(value: T) | Failure(error: E)

  function GetOr<T>(s: Slot<T>, dflt: T): (r: Option<T>)
    ensures s.Absent? ==> r == Some(dflt)
    ensures s.Null? ==> r == None
    ensures s.Present? ==> r == Some(s.value)
  {
    match s
    case Absent => Some(dflt)
    case Null => None
    case Present(v) => Some(v)
  }
}
