/** The exceptions the core raises, and the outcome of a call that may raise one. */
module Errors {

  datatype Exception =
    /** EmailServiceConfigError, carrying the accumulated error list. */
    | ConfigError(messages: seq<string>)
    /** EmailServiceAttachmentError. */
    | AttachmentError(message: string)
    | ValueError(message: string)
    | RuntimeError(message: string)

  /** A Python call either returns a value or raises. */
  datatype Outcome<+T> = Returned(value: T) | Raised(exception: Exception)
}
