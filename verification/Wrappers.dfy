/** Result types shared by the panel's modules. */
module Wrappers {
  datatype Option<+T> = None | Some(value: T)

  /** A call that either answers or is refused with an HTTP status. */
  datatype Result<+T> = Ok(value: T) | Refused(status: nat)
}
