/** Result types shared by every component of the model. */
module Outcomes {

  datatype Option<+T> = None | Some(value: T)

  /** A computed value, or the error the program raises in its place. */
  datatype Result<+T, +E> = Ok(value: T) | Err(error: E) {
    predicate IsFailure() { Err? }

    function PropagateFailure<U>(): Result<U, E>
      requires Err?
    {
      Err(error)
    }

    function Extract(): T
      requires Ok?
    {
      value
    }
  }

  /**
   * A content digest. SHA-256 over canonical JSON is taken to be injective, so
   * a digest is represented by the payload it was computed from.
   */
  datatype Digest<+T> = Sha256(of: T)
}
