/** Option and Result values used where the source returns null or throws. */
module Wrappers {

  /** A value that may be absent; `None` stands for Java's null. */
  datatype Option<+T> = None | Some(value: T) {
    function GetOr(default: T): T {
      match this
      case Some(v) => v
      case None => default
    }
  }

  /** The error kinds the modelled code raises through its assertion helpers. */
  datatype Error =
    | NullArgument(what: string)
    | IllegalArgument(what: string)
    | NoSuchElement

  /** The outcome of an operation that either yields a value or throws. */
  datatype Result<+T> = Ok(value: T) | Err(error: Error)
}
