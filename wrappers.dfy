/** Failure-carrying values shared by every module of the model: `Option` for
    the source's `Option<T>` and for decoders that may reject their input,
    `Result` for the source's `anyhow::Result<T>`, with an error type chosen
    by each module. Both support Dafny's `:-` so that a decoder reads like the
    `?` chains of the source. */
module Wrappers {

  datatype Option<+T> = None | Some(value: T) {
    predicate IsFailure() { None? }

    function PropagateFailure<U>(): Option<U>
      requires None?
    {
      None
    }

    function Extract(): T
      requires Some?
    {
      value
    }
  }

  datatype Result<+T, +E> = Ok(value: T) | Err(error: E) {
    predicate IsFailure() { Err? }

    function PropagateFailure<U>(): Result<U, E>
      requires Err?
    {
      Err(error)
    }

    function Extract(): T
      requires Ok?
    {
      value
    }
  }
}
