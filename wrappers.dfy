/** Option and result types shared by the model. A fatal error of the compiler
    (report_fatal_error, which ends the process) is the `Fatal` case of `Result`. */
module Wrappers {

  datatype Option<+T> = None | Some(value: T) {
    /** The carried value, or `default` when there is none. */
    function GetOr(default: T): T {
      match this
      case Some(v) => v
      case None => default
    }
  }

  datatype Result<+T> = Ok(value: T) | Fatal(message: string)
}
