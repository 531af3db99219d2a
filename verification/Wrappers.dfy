/** The two result types the rest of the project uses: a value that may be absent, and an
    operation that either answers or refuses. */
module Wrappers {

  datatype Option<+T> = None | Some(value: T)

  /** A refusal carries no text here: only whether, never how, something was refused matters to the model. */
  datatype Result<+T> = Ok(value: T) | Refused {
    predicate IsFailure() { Refused? }
    function PropagateFailure<U>(): Result<U>
      requires Refused?
    {
      Refused
    }
    function Extract(): T
      requires Ok?
    {
      value
    }
  }
}
