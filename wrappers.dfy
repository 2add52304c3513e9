/** Small failure-carrying datatypes shared by every module of the model. */
module Wrappers {

  /** Rust's Option. */
  datatype Option<+T> = None | Some(value: T)

  /** Rust's Result: a value or an error. */
  datatype Result<+T, +E> = Ok(value: T) | Err(error: E)

  /**
   * The outcome of a step that returns `Result<()>` in the source but may also
   * panic (`todo!()`, `unimplemented!()`, `unwrap()` on `None`, an index out of
   * bounds, an unsigned underflow).  A panic ends the program.
   */
  datatype Outcome<+E> = Pass | Fail(error: E) | Panic(reason: string)

  /** A state after a step, together with how the step ended; a step that fails may have changed part of the state. */
  datatype Stepped<S> = Stepped(state: S, outcome: Outcome<string>)
}
