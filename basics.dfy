/** Small value types shared by every module of the model. */
module Basics {

  /** Python's `None` versus a present value. */
  datatype Option<+T> = None | Some(value: T)

  /** The outcome of a call into code outside the model (an engine, a library,
      the file system): it either returns a value or raises an exception whose
      message is `reason`. */
  datatype Attempt<+T> = Ok(value: T) | Raised(reason: string)

  /** Python truthiness of an optional string: `None` and `""` are false. */
  predicate Truthy(s: Option<string>) {
    s.Some? && s.value != ""
  }
}
