/** Option and Result values shared by every module of the model:
    `Option` stands for a TypeScript `T | null` or an optional property,
    `Result` for an operation that either succeeds or reports an error. */
module Wrappers {

  datatype Option<+T> = None | Some(value: T) {
    function GetOr(default: T): T {
      match this
      case Some(v) => v
      case None => default
    }
  }

  datatype Result<+T, +E> = Success(value: T) | Failure(error: E)
}
