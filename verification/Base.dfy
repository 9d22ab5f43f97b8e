/** Shared value types. */
module Base {

  /** An optional field or a lookup that may miss. */
  datatype Option<+T> = None | Some(value: T)

  /** The first present value, as the `??` operator picks it. */
  function OrElse<T>(first: Option<T>, second: Option<T>): Option<T> {
    if first.Some? then first else second
  }
}
