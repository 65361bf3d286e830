/** Option and Result: the model's stand-ins for Python's None and for raised exceptions. */
module Wrappers {

  datatype Option<+T> = None | Some(value: T) {
    function GetOr(default: T): T {
      match this
      case Some(v) => v
      case None => default
    }
  }

  /** Why an operation of the model failed; each case names the Python exception or guard it stands for. */
  datatype ErrorKind =
    | NotFound          // ValueError "... not found", or a guard returning None/False
    | InvalidName       // AttributeError from getattr(Enum, name) with a name that is not a member
    | Integrity         // a commit rejected by a primary-key or unique constraint
    | NoCoordinator     // ValueError "No coordinator agent found"

  datatype Result<+T> = Ok(value: T) | Err(error: ErrorKind)
}
