/**
 * The error taxonomy that every fallible operation on a JSON value reports.
 * (The crate root that defines `JsonError` and `JsonResult` is not part of this
 * model; only the three cases that the value module raises are modelled.)
 */
module JsonErrors {

  /** Why an operation on a JSON value failed. */
  datatype Error =
    | WrongType(expected: string)   // the value is not of the variant the operation needs
    | Undefined(key: string)        // an object lookup found no such key
    | ArrayIndexOutOfBounds         // an array lookup was past the end

  /** The outcome of a fallible operation. */
  datatype Result<T> = Ok(value: T) | Err(error: Error)
}
