/**
 * The tag records of the library: `Ok`, `Err`, `Some` and `None` become the
 * constructors of two closed datatypes. Every other module works over these.
 * The module also holds the shapes the combinators take as arguments: the
 * two-handler matchers, the outcome of a call that may throw, and the values
 * the library itself throws.
 */
module Variants {

  /** A finished computation that succeeded with `value` or failed with `error`. */
  datatype Result<T, E> = Ok(value: T) | Err(error: E)

  /** A value that may be absent. */
  datatype Option<T> = Some(value: T) | None

  /** The object handed to `Result.match`: one handler per variant. */
  datatype ResultMatcher<!T, !E, U> = ResultMatcher(onOk: T -> U, onErr: E -> U)

  /** The object handed to `Option.match`: one handler per variant. */
  datatype OptionMatcher<!T, U> = OptionMatcher(onNone: () -> U, onSome: T -> U)

  /**
   * How a call that may throw ends: it returns a value or it throws one.
   * A caller-supplied operation (`Result.from(op)`) is modelled by this outcome.
   */
  datatype Outcome<T, X> = Returned(value: T) | Threw(thrown: X)

  /** The exceptions the library throws itself, with their messages. */
  datatype Thrown = Error(message: string) | TypeError(message: string)
}
