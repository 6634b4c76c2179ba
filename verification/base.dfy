/** Small shared datatypes: optional values, fallible results and the
    values that travel as positional SQL arguments. */
module Base {

  /** An optional value; `None` stands for Go's nil / absent. */
  datatype Option<+T> = None | Some(value: T) {

    /** The held value, or `default` when there is none. */
    function GetOr(default: T): (r: T)
      ensures Some? ==> r == value
      ensures None? ==> r == default
    {
      match this
      case Some(v) => v
      case None => default
    }
  }

  /** The outcome of a call that may fail with an error message. */
  datatype Result<+T> = Success(value: T) | Failure(error: string)

  /** A value bound to a `?` placeholder (Go's `interface{}` argument). */
  datatype Value = Text(s: string) | Number(n: int) | Flag(b: bool) | Null
}
