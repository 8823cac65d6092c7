/**
 * Classifying a throwable into a user-facing message. `Context.getString` is abstracted to the
 * string-resource key plus its format argument.
 */
module ErrorHandler {
  import opened Wrappers

  /**
   * The exception classes in play. The first three are the top-level classes declared next to the
   * handler; the `App...` kinds are the nested classes of the sealed `AppException`, which are distinct
   * types although they share the simple names. `Constraint` is the storage layer's constraint
   * violation (a foreign key or a duplicate primary key).
   */
  datatype ExceptionKind =
    | NetworkException
    | DatabaseException
    | ValidationException
    | AppNetworkException
    | AppDatabaseException
    | AppValidationException
    | AppFileException
    | Constraint
    | OtherException

  /** A thrown exception: its class and its (nullable) `message`. */
  datatype Throwable = Throwable(kind: ExceptionKind, message: Option<string>)

  /** The string resources `error_network`, `error_database`, `error_validation`, `error_unknown`. */
  datatype MessageKey = ErrorNetwork | ErrorDatabase | ErrorValidation | ErrorUnknown

  /** `getString(key)` or `getString(key, arg)` */
  datatype Message = Message(key: MessageKey, formatArgs: seq<Option<string>>)

  function GetErrorMessage(t: Throwable): (m: Message)
    ensures m.key == ErrorNetwork <==> t.kind == NetworkException
    ensures m.key == ErrorDatabase <==> t.kind == DatabaseException
    ensures m.key == ErrorValidation <==> t.kind == ValidationException
    ensures m.key == ErrorValidation ==> m.formatArgs == [t.message]
    ensures m.key != ErrorValidation ==> m.formatArgs == []
  {
    match t.kind
    case NetworkException => Message(ErrorNetwork, [])
    case DatabaseException => Message(ErrorDatabase, [])
    case ValidationException => Message(ErrorValidation, [t.message])
    case _ => Message(ErrorUnknown, [])
  }

  /** The `AppException` subclasses are not the handler's classes: all of them read as unknown errors. */
  lemma AppExceptionsAreUnknown(msg: Option<string>)
    ensures GetErrorMessage(Throwable(AppNetworkException, msg)).key == ErrorUnknown
    ensures GetErrorMessage(Throwable(AppDatabaseException, msg)).key == ErrorUnknown
    ensures GetErrorMessage(Throwable(AppValidationException, msg)).key == ErrorUnknown
    ensures GetErrorMessage(Throwable(AppFileException, msg)).key == ErrorUnknown
  {
  }
}
