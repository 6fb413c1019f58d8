/** Absence (a C# null) and thrown exceptions, shared by every module. */
module Wrappers {
  datatype Option<T> = None | Some(value: T) {
    /** The C# `x ?? fallback`. */
    function GetOr(fallback: T): T { if Some? then value else fallback }
  }

  /** The outcome of a call that may throw: `Err` describes the exception. */
  datatype Result<T> = Ok(value: T) | Err(error: string)
}
