// Option and Result, the two wrapper types every other module uses.
// A C++ `Error(...)` call throws; in this model it is the `Fail` case of a
// `Result`, so every error path of the engine is an ordinary value.
module Wrappers {

  datatype Option<T> = None | Some(value: T)
  {
    predicate IsSome() { Some? }
  }

  datatype Result<T, E> = Ok(value: T) | Fail(error: E)
  {
    predicate IsFailure() { Fail? }

    function PropagateFailure<U>(): Result<U, E>
      requires Fail?
    {
      Fail(error)
    }

    function Extract(): T
      requires Ok?
    {
      value
    }
  }
}
