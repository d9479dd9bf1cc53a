/**
 * The error values of the backend: the ErrorResponse a handler passes to `next`
 * (a message and an HTTP status), the error objects thrown by the database layer,
 * and what a wrapped request handler finally hands back to Express.
 */
module Errors {
  import opened Wrappers

  /** A message: a key of the application's message table (the table's texts are
      not part of this model), or a literal text built by a handler. */
  datatype Message = Named(key: string) | Text(text: string)

  datatype ErrorResponse = ErrorResponse(message: Message, statusCode: int)

  /** A thrown JavaScript error, reduced to the properties the error translation reads:
      `name`, `message`, `code`, the messages of `errors` in order, the keys of
      `keyValue` in order, and a cast error's `path` and `value`. */
  datatype Thrown = Thrown(
    name: string,
    message: string,
    code: Option<int>,
    errorMessages: seq<string>,
    keyValueKeys: seq<string>,
    path: string,
    value: string)

  /** A schema validation failure carrying one message per failing path. */
  function ValidationErrorOf(messages: seq<string>): Thrown {
    Thrown("ValidationError", "Validation failed", None, messages, [], "", "")
  }

  /** A unique-index violation (code 11000) on the given keys. */
  function DuplicateKeyOf(keys: seq<string>): Thrown {
    Thrown("MongoServerError", "E11000 duplicate key error", Some(11000), [], keys, "", "")
  }

  /** A failed cast of `value` to the type of `path` (a malformed ObjectId, say). */
  function CastErrorOf(path: string, value: string): Thrown {
    Thrown("CastError", "Cast to ObjectId failed", None, [], [], path, value)
  }

  function TypeErrorOf(message: string): Thrown {
    Thrown("TypeError", message, None, [], [], "", "")
  }

  /** What a wrapped handler hands back to Express. */
  datatype Outcome<T> =
    | Ok(statusCode: int, value: T)   // a JSON success reply
    | Err(response: ErrorResponse)    // next(new ErrorResponse(...))
    | Unhandled(error: Thrown)        // next(error): left to the generic error middleware
    | Escaped(error: Thrown)          // thrown from inside the catch block itself

  /** What the inner handler does: it returns normally, or it throws. */
  datatype Execution<T> = Returned(outcome: Outcome<T>) | Threw(error: Thrown)

  // The ErrorResponses the handlers build directly, by message key and status.
  const RequiredFields := ErrorResponse(Named("REQUIRED_FIELDS"), 400)
  const EmailExists := ErrorResponse(Named("EMAIL_EXISTS"), 400)
  const InvalidCredentials := ErrorResponse(Named("INVALID_CREDENTIALS"), 401)
  const UserNotFound := ErrorResponse(Named("USER_NOT_FOUND"), 404)
  const InvalidToken := ErrorResponse(Named("INVALID_TOKEN"), 400)
  const OrderNotFound := ErrorResponse(Named("ORDER_NOT_FOUND"), 404)
  const Unauthorized := ErrorResponse(Named("UNAUTHORIZED"), 403)
  const CannotCancelOrder := ErrorResponse(Named("CANNOT_CANCEL_ORDER"), 400)
  const InvalidStatus := ErrorResponse(Named("INVALID_STATUS"), 400)
  const InvalidPaymentStatus := ErrorResponse(Named("INVALID_PAYMENT_STATUS"), 400)
}
