/** Optional values and panicking calls, as the Rust code uses them. */
module Options {

  /** A value that may be absent, like Rust's `Option`. */
  datatype Option<+T> = None | Some(value: T)

  /** The outcome of a call that either returns a value or panics,
      as `unwrap` does when it meets a `None`. */
  datatype Outcome<+T> = Returned(value: T) | Panicked(reason: string)

  /** The message Rust's `Option::unwrap` panics with. */
  const UnwrapNonePanic: string := "called `Option::unwrap()` on a `None` value"
}
