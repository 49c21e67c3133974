/** Small datatypes shared by every module of the model. */
module Common {

  /** A value that may be absent, as Python's `None`-or-value. */
  datatype Option<+T> = None | Some(value: T)

  /** The value held, or `d` when there is none. */
  function OrElse<T>(o: Option<T>, d: T): T
  {
    if o.Some? then o.value else d
  }

  /** What a call into an external service did: it returned a value, or it
      raised an exception whose `str(e)` is `msg`. */
  datatype Outcome<+T> = Ok(value: T) | Fail(msg: string)

  /** Python's float format specifications, which the model does not compute:
      `fixed2(x)` is `f"{x:.2f}"` and `percent1(x)` is `f"{x:.1%}"`. */
  datatype Formatter = Formatter(fixed2: real -> string, percent1: real -> string)
}
