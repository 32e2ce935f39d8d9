/** The exception classes the core raises or lets through, and the texts it puts in them. */
module Errors {
  import opened Text

  /** Exception classes, by the name the Ruby code gives them. */
  datatype Kind =
    | TrackdownError          // Trackdown::Error
    | InvalidIp               // Trackdown::IpValidator::InvalidIpError < Trackdown::Error
    | LocatorTimeout          // Trackdown::IpLocator::TimeoutError < Trackdown::Error
    | LocatorDatabase         // Trackdown::IpLocator::DatabaseError < Trackdown::Error
    | ProviderTimeout         // Trackdown::Providers::MaxmindProvider::TimeoutError < Trackdown::Error
    | ProviderDatabase        // Trackdown::Providers::MaxmindProvider::DatabaseError < Trackdown::Error
    | InvalidAddress          // IPAddr::InvalidAddressError < ArgumentError
    | Argument                // ArgumentError
    | NotImplemented          // NotImplementedError < ScriptError
    | Standard                // any other StandardError raised by a library call

  /** Subclasses of `Trackdown::Error`. */
  predicate IsTrackdownError(k: Kind) {
    k in {TrackdownError, InvalidIp, LocatorTimeout, LocatorDatabase, ProviderTimeout, ProviderDatabase}
  }

  /** Subclasses of `StandardError`; `NotImplementedError` is a `ScriptError` and is not one. */
  predicate IsStandardError(k: Kind) {
    k != NotImplemented
  }

  /** A raised exception: its class and its message. */
  datatype Error = Error(kind: Kind, message: string)

  /** The text that `"... after #{timeout} seconds"` interpolates for an integer timeout. */
  function TimeoutMessage(timeout: int): string {
    "MaxMind database lookup timed out after " + IntToString(timeout) + " seconds"
  }
}
