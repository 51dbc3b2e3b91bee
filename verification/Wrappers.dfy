/** Option, Result and the outcomes of a write, shared by the models of the quota and metering code. */
module Wrappers {

  datatype Option<+T> = None | Some(value: T)

  datatype Result<+R, +E> = Success(value: R) | Failure(error: E)

  /** A nil list counts as an empty one. */
  function OrEmpty<T>(list: Option<seq<T>>): seq<T>
  {
    if list.None? then [] else list.value
  }

  /** A write succeeds, is lost, or is stored although the caller gets an error. */
  datatype Outcome = Stored | Lost | StoredButFailed
}
