/** Small value types shared by the models of the clinic back end. */
module Common {

  /** A value that may be absent (Python's `None`, a nullable column, a missing request field). */
  datatype Option<+T> = None | Some(value: T) {
    function GetOr(default: T): T {
      match this
      case Some(v) => v
      case None => default
    }
  }

  /** The outcome of an operation that either produces a value or is rejected with an error. */
  datatype Result<+R, +E> = Success(value: R) | Failure(error: E)

  /** The outcome of an operation that produces nothing but may be rejected. */
  datatype Outcome<+E> = Pass | Fail(error: E)

  /** Primary keys are UUIDs generated by the database layer; the model receives them as parameters. */
  type Uuid = string

  /** A calendar date as stored by a Django `DateField`. */
  datatype Date = Date(year: int, month: int, day: int)

  /** The display name `f"{first} {last}"` used for staff and clients throughout the back end. */
  function FullName(first: string, last: string): (r: string)
    ensures |r| == |first| + 1 + |last|
    ensures r[..|first|] == first && r[|first|] == ' ' && r[|first| + 1..] == last
  {
    first + " " + last
  }
}
