/** Option and Result values shared by the telemetry pipeline model. */
module Wrappers {

  datatype Option<+T> = None | Some(value: T)

  /** The outcome of a step that can raise: either its value or the error it raised. */
  datatype Result<+T, +E> = Ok(value: T) | Err(error: E)

  /** The exceptions the script can raise in the modelled part. */
  datatype Error =
    | ValueError(line: nat)   // float() refused a token on this line of the concatenated data
    | IndexError              // a list was indexed past its end
}
