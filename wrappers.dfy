/** Option and Result, the two failure-carrying datatypes the model uses. */
module Wrappers {

  datatype Option<+T> = None | Some(value: T)

  /** The outcome of a selection: a configuration, or the message the app returns instead. */
  datatype Result<+T, +E> = Ok(value: T) | Err(error: E)

  /** Turns a missing lookup into the given error. */
  function ToResult<T, E>(o: Option<T>, error: E): (r: Result<T, E>)
    ensures r.Ok? <==> o.Some?
    ensures r.Ok? ==> r.value == o.value
    ensures r.Err? ==> r.error == error
  {
    match o
    case Some(v) => Ok(v)
    case None => Err(error)
  }
}
