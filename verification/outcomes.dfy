/** Optional values and the outcome of a call that may raise a Python exception. */
module Outcomes {

  datatype Option<T> = None | Some(value: T)

  /** `Raised(e)` stands for an exception whose `str()` is `e` propagating out of the call. */
  datatype Try<T> = Ok(value: T) | Raised(error: string)
}
