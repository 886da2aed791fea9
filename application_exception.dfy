/** The checked exception every operation of the application throws: a
    message and a cause handed to the base exception, and an error code that
    is fixed when the exception is built. Java's `Exception` keeps the
    message and the cause; `super(cause)` derives the message from the
    cause's `toString()`, and from nothing when the cause is null. */
module ApplicationExceptions {
  import opened Wrappers
  import opened Beans

  /** Error classification. Only the codes this model raises are named; any
      other code of the application's enumeration is `OtherCode`. */
  datatype ErrorCode = Unknown | SpatialIndexesNotActivated | OtherCode(name: string)

  datatype ApplicationException = ApplicationException(
    errorCode: ErrorCode,
    message: Option<string>,
    cause: Option<Cause>)
  {
    /** The error code is a final field: this is the only reader, and no
        operation of the model builds an exception from another one. */
    function GetErrorCode(): (code: ErrorCode)
      ensures code == errorCode
    {
      errorCode
    }
  }

  /** Message that `Exception(Throwable cause)` derives from its cause. */
  function MessageOfCause(cause: Option<Cause>): (m: Option<string>)
    ensures cause.None? <==> m.None?
    ensures cause.Some? ==> m == Some(cause.value.description)
  {
    match cause
    case None => None
    case Some(c) => Some(c.description)
  }

  // The four constructors that take an error code.

  function WithCode(code: ErrorCode): (e: ApplicationException)
    ensures e.errorCode == code && e.message.None? && e.cause.None?
  {
    ApplicationException(code, None, None)
  }

  function WithCodeAndMessage(code: ErrorCode, message: Option<string>): (e: ApplicationException)
    ensures e.errorCode == code && e.message == message && e.cause.None?
  {
    ApplicationException(code, message, None)
  }

  function WithCodeMessageAndCause(code: ErrorCode, message: Option<string>, cause: Option<Cause>): (e: ApplicationException)
    ensures e.errorCode == code && e.message == message && e.cause == cause
  {
    ApplicationException(code, message, cause)
  }

  function WithCodeAndCause(code: ErrorCode, cause: Option<Cause>): (e: ApplicationException)
    ensures e.errorCode == code && e.cause == cause
    ensures e.message == MessageOfCause(cause)
  {
    ApplicationException(code, MessageOfCause(cause), cause)
  }

  // The four constructors without an error code delegate with UNKNOWN.

  function NoArguments(): (e: ApplicationException)
    ensures e.errorCode == Unknown && e.message.None? && e.cause.None?
  {
    WithCode(Unknown)
  }

  function WithMessage(message: Option<string>): (e: ApplicationException)
    ensures e.errorCode == Unknown && e.message == message && e.cause.None?
  {
    WithCodeAndMessage(Unknown, message)
  }

  function WithMessageAndCause(message: Option<string>, cause: Option<Cause>): (e: ApplicationException)
    ensures e.errorCode == Unknown && e.message == message && e.cause == cause
  {
    WithCodeMessageAndCause(Unknown, message, cause)
  }

  function WithCause(cause: Option<Cause>): (e: ApplicationException)
    ensures e.errorCode == Unknown && e.cause == cause
    ensures e.message == MessageOfCause(cause)
  {
    WithCodeAndCause(Unknown, cause)
  }

  /** Every constructor that is not given an error code classifies the
      exception as UNKNOWN; every one that is given a code keeps exactly it. */
  lemma ErrorCodeClassification(code: ErrorCode, message: Option<string>, cause: Option<Cause>)
    ensures NoArguments().GetErrorCode() == Unknown
    ensures WithMessage(message).GetErrorCode() == Unknown
    ensures WithMessageAndCause(message, cause).GetErrorCode() == Unknown
    ensures WithCause(cause).GetErrorCode() == Unknown
    ensures WithCode(code).GetErrorCode() == code
    ensures WithCodeAndMessage(code, message).GetErrorCode() == code
    ensures WithCodeMessageAndCause(code, message, cause).GetErrorCode() == code
    ensures WithCodeAndCause(code, cause).GetErrorCode() == code
  {
  }
}
