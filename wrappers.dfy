/** Optional values and fallible results, used for the source's optional schema fields,
    its `null` states and the outcome of every external call. */
module Wrappers {

  datatype Option<+T> = None | Some(value: T) {
    predicate IsFailure() {
      None?
    }

    function PropagateFailure<U>(): Option<U>
      requires None?
    {
      None
    }

    function Extract(): T
      requires Some?
    {
      value
    }
  }

  /** The outcome of an external collaborator (a language-model call, a file read):
      `Err` carries a description of the failure. */
  datatype Result<+T> = Ok(value: T) | Err(error: string)
}
