/** Rust's `Option`, `anyhow::Result` and the errors the storages can raise. */
module Wrappers {

  datatype Option<+T> = None | Some(value: T)

  /** What can go wrong reading the aggregate back from a storage. */
  datatype Error =
    | FileNotFound(path: string)   // `File::open` failed
    | Undecodable(path: string)    // the file holds no well-formed document

  datatype Result<+T> = Ok(value: T) | Err(error: Error) {

    predicate IsFailure() {
      Err?
    }

    function PropagateFailure<U>(): Result<U>
      requires Err?
    {
      Err(error)
    }

    function Extract(): T
      requires Ok?
    {
      value
    }
  }
}
