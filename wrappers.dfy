/** Option and Result values used throughout the model.
  * `Option<T>` stands for a C# reference that may be null; `Result<T, E>`
  * stands for an operation that either returns a value or throws `E`. */
module Wrappers {

  datatype Option<T> = None | Some(value: T)
  {
    /** C#'s `??` operator: the value when present, otherwise the fallback. */
    function OrElse(fallback: T): T
    {
      match this
      case None => fallback
      case Some(v) => v
    }
  }

  datatype Result<T, E> = Ok(value: T) | Err(error: E)
  {
    /** Whether `:-` passes this result on as an exception. */
    predicate IsFailure()
    {
      Err?
    }

    function PropagateFailure<U>(): Result<U, E>
      requires Err?
    {
      Err(error)
    }

    function Extract(): T
      requires Ok?
    {
      value
    }
  }
}
