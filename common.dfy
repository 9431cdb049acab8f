/** Value types shared by the server and client models: optional values,
    results, the JavaScript error object that Express middlewares pass to
    `next(err)`, and the few string operations the source relies on. */
module Common {

  datatype Option<+T> = None | Some(value: T)

  datatype Result<+R, +E> = Success(value: R) | Failure(error: E)

  /** A JavaScript error object as the error handlers see it: `statusCode`
      and `status` as `ApiError` sets them (a number and a status word), absent
      on plain and Sequelize errors; `errors` holds the messages of the
      nested items of a Sequelize validation error (empty otherwise). Errors
      whose `status` is a number are not represented. */
  datatype ErrorValue = ErrorValue(
    statusCode: Option<int>,
    status: Option<string>,
    message: string,
    errors: seq<string>)

  /** `new Error(message)`: no status code, no status, no nested errors. */
  function PlainError(message: string): (e: ErrorValue)
    ensures e.statusCode == None && e.status == None
    ensures e.message == message && e.errors == []
  {
    ErrorValue(None, None, message, [])
  }

  /** The message Sequelize gives every validation and unique-constraint error. */
  const ValidationMessage: string := "Validation error"

  /** `s.startsWith(p)` */
  predicate StartsWith(s: string, p: string) {
    |p| <= |s| && s[..|p|] == p
  }

  /** JavaScript truthiness of an optional string: absent and "" are falsy. */
  predicate Truthy(s: Option<string>) {
    s.Some? && s.value != ""
  }

  /** `a || b` on optional strings. */
  function OrElse(a: Option<string>, b: string): (r: string)
    ensures Truthy(a) ==> r == a.value
    ensures !Truthy(a) ==> r == b
  {
    if Truthy(a) then a.value else b
  }
}
