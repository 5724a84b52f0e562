/** The part of Java's exception hierarchy the model needs to route failures. */
module Throwables {

  /** Where an exception raised by code outside the model sits in the Throwable hierarchy. */
  datatype Kind =
    | Runtime               // a RuntimeException
    | ServiceConfiguration  // java.util.ServiceConfigurationError (an Error)
    | Linkage               // a LinkageError, e.g. a class missing on a Java 5 runtime
    | OtherError            // any other Error
    | Checked               // a checked exception

  /** An exception instance. `Raised` instances come from outside the model and are told
      apart by `id`, so "the very same instance" is plain equality. */
  datatype Throwable =
    | Raised(kind: Kind, id: nat)
    | IllegalState(cause: Throwable)          // a new IllegalStateException wrapping `cause`
    | UnsupportedOperation(cause: Throwable)  // a new UnsupportedOperationException wrapping `cause`
    | NullPointer(message: string)            // a new NullPointerException

  predicate IsRuntimeException(e: Throwable) {
    !e.Raised? || e.kind == Runtime
  }

  predicate IsError(e: Throwable) {
    e.Raised? && e.kind in {ServiceConfiguration, Linkage, OtherError}
  }

  predicate IsLinkageError(e: Throwable) {
    e.Raised? && e.kind == Linkage
  }

  /** Unchecked exceptions: the only ones Java lets a method throw without declaring them. */
  predicate IsUnchecked(e: Throwable) {
    IsRuntimeException(e) || IsError(e)
  }
}
