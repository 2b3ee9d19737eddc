/** Failure-compatible wrappers shared by every module of the model: an
    optional value (a null pointer, `std::optional`, Python's `None`) and a
    result that is either a value or an error message (`std::expected`, a
    thrown exception whose `what()` becomes the JSON error text). */
module Wrappers {

  datatype Option<+T> = None | Some(value: T)

  datatype Result<+T> = Ok(value: T) | Err(error: string)

}
