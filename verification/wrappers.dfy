/** Option and Result, used instead of the source's placeholder process and
    instead of the exceptions its parser can raise. */
module Wrappers {

  /** `None` stands for "no process" wherever the source uses an empty-named
      placeholder process. */
  datatype Option<+T> = None | Some(value: T)

  /** The outcome of an operation that the source lets raise an exception. */
  datatype Result<+T, +E> = Ok(value: T) | Err(error: E)
}
