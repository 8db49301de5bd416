/** Result and option types shared by every module of the model. A C++ `assert(...)` that the
  * source relies on is modelled as an `Err` result: the caller sees a contract violation instead
  * of the undefined continuation a release build would take. */
module Wrappers {
  datatype Option<T> = None | Some(value: T)

  datatype Result<T> = Ok(value: T) | Err(error: string)
  {
    predicate IsFailure()
    {
      Err?
    }

    function PropagateFailure<U>(): Result<U>
      requires Err?
    {
      Err(error)
    }

    function Extract(): T
      requires Ok?
    {
      value
    }
  }

  /** The result of a step that produces no value. */
  datatype Outcome = Pass | Fail(error: string)
}
