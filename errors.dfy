/**
 * The error taxonomy: every domain error carries a name, a status code and a
 * message, and the payload error also carries the list of validation issues.
 * Two older revisions of the e-mail deletion error are kept beside the current one.
 */
module Errors {
  import opened Wrappers
  import opened Issues

  datatype ErrorKind =
    | InvalidPayload
    | UserNotFound
    | UserAlreadyExists
    | InvalidEmailDeletion
    | RouteNotFound
    | LegacyInvalidEmailDeletion
    | EmailDeletion
      /** Any other thrown error (a storage failure, a TypeError): it has no status code. */
    | Untyped(typeName: string)
  {
    /** The `name` property the constructor sets. */
    function Name(): string {
      match this
      case InvalidPayload => "InvalidPayloadError"
      case UserNotFound => "UserNotFoundError"
      case UserAlreadyExists => "UserAlreadyExists"
      case InvalidEmailDeletion => "InvalidEmailDeletionError"
      case RouteNotFound => "RouteNotFoundError"
      case LegacyInvalidEmailDeletion => "InvalidEmailDeletionError"
      case EmailDeletion => "EmailDeletionError"
      case Untyped(n) => n
    }

    /** The `statusCode` property; untyped errors have none. */
    function StatusCode(): Option<int> {
      match this
      case UserNotFound => Some(404)
      case RouteNotFound => Some(404)
      case Untyped(_) => None
      case _ => Some(400)
    }

    /** The message used when the constructor is given none. */
    function DefaultMessage(): string {
      match this
      case InvalidPayload => "Invalid payload"
      case UserNotFound => "User not found"
      case UserAlreadyExists => "A user with the same id already exists"
      case InvalidEmailDeletion => "Deleting an email address is not allowed"
      case RouteNotFound => "Route not found"
      case LegacyInvalidEmailDeletion => "Deleting an email is not allowed"
      case EmailDeletion => "Deleting an email is not allowed"
      case Untyped(_) => ""
    }
  }

  /** A thrown error as the error handler sees it: its kind and the three fields it reads. */
  datatype AppError = AppError(kind: ErrorKind, message: string, errors: Option<seq<Issue>>) {
    function Name(): string { kind.Name() }
    function StatusCode(): Option<int> { kind.StatusCode() }
  }

  function InvalidPayloadError(errors: Option<seq<Issue>>, message: Option<string>): (e: AppError)
    ensures e.Name() == "InvalidPayloadError" && e.StatusCode() == Some(400)
    ensures message.None? ==> e.message == "Invalid payload"
    ensures message.Some? ==> e.message == message.value
    ensures e.errors == errors
  {
    AppError(InvalidPayload, message.GetOr(InvalidPayload.DefaultMessage()), errors)
  }

  function UserNotFoundError(message: Option<string>): (e: AppError)
    ensures e.Name() == "UserNotFoundError" && e.StatusCode() == Some(404) && e.errors.None?
    ensures e.message == if message.Some? then message.value else "User not found"
  {
    AppError(UserNotFound, message.GetOr(UserNotFound.DefaultMessage()), None)
  }

  function UserAlreadyExistsError(message: Option<string>): (e: AppError)
    ensures e.Name() == "UserAlreadyExists" && e.StatusCode() == Some(400) && e.errors.None?
    ensures e.message == if message.Some? then message.value else "A user with the same id already exists"
  {
    AppError(UserAlreadyExists, message.GetOr(UserAlreadyExists.DefaultMessage()), None)
  }

  function InvalidEmailDeletionError(message: Option<string>): (e: AppError)
    ensures e.Name() == "InvalidEmailDeletionError" && e.StatusCode() == Some(400) && e.errors.None?
    ensures e.message == if message.Some? then message.value else "Deleting an email address is not allowed"
  {
    AppError(InvalidEmailDeletion, message.GetOr(InvalidEmailDeletion.DefaultMessage()), None)
  }

  function RouteNotFoundError(message: Option<string>): (e: AppError)
    ensures e.Name() == "RouteNotFoundError" && e.StatusCode() == Some(404) && e.errors.None?
    ensures e.message == if message.Some? then message.value else "Route not found"
  {
    AppError(RouteNotFound, message.GetOr(RouteNotFound.DefaultMessage()), None)
  }

  /** The older revision of InvalidEmailDeletionError: same name and status, shorter default message. */
  function LegacyInvalidEmailDeletionError(message: Option<string>): (e: AppError)
    ensures e.Name() == "InvalidEmailDeletionError" && e.StatusCode() == Some(400) && e.errors.None?
    ensures e.message == if message.Some? then message.value else "Deleting an email is not allowed"
  {
    AppError(LegacyInvalidEmailDeletion, message.GetOr(LegacyInvalidEmailDeletion.DefaultMessage()), None)
  }

  function EmailDeletionError(message: Option<string>): (e: AppError)
    ensures e.Name() == "EmailDeletionError" && e.StatusCode() == Some(400) && e.errors.None?
    ensures e.message == if message.Some? then message.value else "Deleting an email is not allowed"
  {
    AppError(EmailDeletion, message.GetOr(EmailDeletion.DefaultMessage()), None)
  }

  /** A thrown error of another type (a storage failure is a plain `Error`). */
  function UntypedError(typeName: string, message: string): (e: AppError)
    ensures e.Name() == typeName && e.StatusCode().None? && e.message == message && e.errors.None?
  {
    AppError(Untyped(typeName), message, None)
  }

  /** The two revisions of the e-mail deletion error differ only in their default message. */
  lemma EmailDeletionRevisionsDiffer(message: Option<string>)
    ensures InvalidEmailDeletionError(message).Name() == LegacyInvalidEmailDeletionError(message).Name()
    ensures InvalidEmailDeletionError(message).StatusCode() == LegacyInvalidEmailDeletionError(message).StatusCode()
    ensures (InvalidEmailDeletionError(message).message == LegacyInvalidEmailDeletionError(message).message) <==> message.Some?
  {
    var current, legacy := "Deleting an email address is not allowed", "Deleting an email is not allowed";
    assert current[18] == 'a' && legacy[18] == 'i';
  }
}
