/** Failure-carrying result types shared by every component.

    The Python components signal a broken precondition with `assert`, an
    `IndexError` or a `StopIteration`; each of those becomes an `Err` here.
 */
module Wrappers {

  datatype Option<+T> = None | Some(value: T)

  datatype Result<+T> = Ok(value: T) | Err(msg: string)
}
