/** Optional values, results, and the Python exceptions the model raises. */
module Wrappers {

  datatype Option<T> = None | Some(value: T)

  datatype Result<T, E> = Ok(value: T) | Err(error: E) {
    predicate IsFailure() {
      Err?
    }

    function PropagateFailure<U>(): Result<U, E>
      requires Err?
    {
      Err(error)
    }

    function Extract(): T
      requires Ok?
    {
      value
    }
  }

  /** The Python exceptions that the modelled code raises or catches. */
  datatype Exc =
    | KeyError          // a missing dictionary key
    | TypeError         // a wrong argument shape, or an unhashable key
    | AttributeError    // a missing method, such as `.values()` on a list
    | ValueError        // a value of the right type but the wrong content
    | RemoteError       // a failed xmlrpc or HTTP call
}
