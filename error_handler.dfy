/** The three global Express error handlers. Each turns the error that
    reached `next(err)` into one JSON response: an HTTP status, a status
    word and a message, where a Sequelize validation error is reported by
    the message of its first nested item. */
module ErrorHandlers {
  import opened Common
  import opened ApiErrors

  /** The JSON body written by an error handler; `error` is the original
      error object, present only in the server variant. */
  datatype ErrorBody = ErrorBody(status: string, message: string, error: Option<ErrorValue>)

  /** What a handler does with an error: it writes one response, or the
      lookup `err.errors[0].message` throws a TypeError (a "Validation
      error" whose `errors` list is empty or absent). */
  datatype Handled = Responded(statusCode: int, body: ErrorBody) | Crashed

  /** `err.message === "Validation error" ? err.errors[0].message : err.message`,
      with the TypeError that the lookup raises when there is no nested item. */
  function ReportedMessage(err: ErrorValue): (m: Option<string>)
    ensures err.message != ValidationMessage ==> m == Some(err.message)
    ensures err.message == ValidationMessage && err.errors != [] ==> m == Some(err.errors[0])
    ensures m == None <==> err.message == ValidationMessage && err.errors == []
  {
    if err.message != ValidationMessage then Some(err.message)
    else if err.errors == [] then None
    else Some(err.errors[0])
  }

  /** `err.statusCode || 500`: an absent or zero code falls back to 500. */
  function StatusCodeOr500(err: ErrorValue): (code: int)
    ensures err.statusCode.Some? && err.statusCode.value != 0 ==> code == err.statusCode.value
    ensures err.statusCode.None? || err.statusCode == Some(0) ==> code == 500
  {
    if err.statusCode.Some? && err.statusCode.value != 0 then err.statusCode.value else 500
  }

  /** server/src/middlewares/errorHandler.ts */
  function ServerErrorHandler(err: ErrorValue): (h: Handled)
    ensures h.Crashed? <==> err.message == ValidationMessage && err.errors == []
    ensures h.Responded? ==> h.statusCode != 0 && h.body.status != "" && h.body.error == Some(err)
  {
    match ReportedMessage(err)
    case None => Crashed
    case Some(m) => Responded(StatusCodeOr500(err), ErrorBody(OrElse(err.status, "error"), m, Some(err)))
  }

  /** src/middlewares/errorHandler.ts: the same computation, without the
      `error` field in the body. */
  function SrcErrorHandler(err: ErrorValue): (h: Handled)
    ensures h.Crashed? <==> err.message == ValidationMessage && err.errors == []
    ensures h.Responded? ==> h.statusCode != 0 && h.body.status != "" && h.body.error == None
  {
    match ReportedMessage(err)
    case None => Crashed
    case Some(m) => Responded(StatusCodeOr500(err), ErrorBody(OrElse(err.status, "error"), m, None))
  }

  /** src/middlewares/errorHandler.js: always 500 and "error". */
  function JsErrorHandler(err: ErrorValue): (h: Handled)
    ensures h.Crashed? <==> err.message == ValidationMessage && err.errors == []
    ensures h.Responded? ==> h.statusCode == 500 && h.body.status == "error" && h.body.error == None
  {
    match ReportedMessage(err)
    case None => Crashed
    case Some(m) => Responded(500, ErrorBody("error", m, None))
  }

  /** The response of the server handler: the error's own non-zero code or
      500, its own non-empty status or "error", its message unless it is a
      validation error (then the first nested message), and the error itself;
      it fails only on a validation error without nested items. */
  lemma ServerErrorHandlerResponse(err: ErrorValue)
    ensures ServerErrorHandler(err).Crashed? <==> err.message == ValidationMessage && err.errors == []
    ensures var h := ServerErrorHandler(err);
            h.Responded? ==>
              && (err.statusCode.Some? && err.statusCode.value != 0 ==> h.statusCode == err.statusCode.value)
              && (err.statusCode.None? || err.statusCode == Some(0) ==> h.statusCode == 500)
              && (Truthy(err.status) ==> h.body.status == err.status.value)
              && (!Truthy(err.status) ==> h.body.status == "error")
              && (err.message != ValidationMessage ==> h.body.message == err.message)
              && (err.message == ValidationMessage ==> h.body.message == err.errors[0])
              && h.body.error == Some(err)
  {
  }

  /** The two `src` handlers answer exactly as the server one, minus the
      `error` field (the .ts one) and with the code and status pinned to 500 and
      "error" (the .js one). */
  lemma HandlersAgree(err: ErrorValue)
    ensures ServerErrorHandler(err).Crashed? <==> SrcErrorHandler(err).Crashed?
    ensures ServerErrorHandler(err).Crashed? <==> JsErrorHandler(err).Crashed?
    ensures var s, t, j := ServerErrorHandler(err), SrcErrorHandler(err), JsErrorHandler(err);
            s.Responded? ==>
              && t == Responded(s.statusCode, s.body.(error := None))
              && j == Responded(500, ErrorBody("error", s.body.message, None))
  {
  }

  /** The .js handler ignores the error's own code and status: every
      response it writes is a 500 "error", with the same message rule. */
  lemma JsErrorHandlerResponse(err: ErrorValue)
    ensures JsErrorHandler(err).Crashed? <==> err.message == ValidationMessage && err.errors == []
    ensures var h := JsErrorHandler(err);
            h.Responded? ==>
              && h.statusCode == 500 && h.body.status == "error" && h.body.error == None
              && (err.message != ValidationMessage ==> h.body.message == err.message)
              && (err.message == ValidationMessage ==> h.body.message == err.errors[0])
  {
  }

  /** An ApiError reaches the client intact: the response carries its code,
      its "fail"/"error" status and its message. */
  lemma ApiErrorResponse(statusCode: int, message: string)
    requires statusCode != 0 && message != ValidationMessage
    ensures var e := NewApiError(statusCode, message);
            ServerErrorHandler(e) == Responded(statusCode, ErrorBody(StatusFor(statusCode), message, Some(e)))
            && SrcErrorHandler(e) == Responded(statusCode, ErrorBody(StatusFor(statusCode), message, None))
  {
    var e := NewApiError(statusCode, message);
    assert e.status == Some(StatusFor(statusCode));
    assert Truthy(e.status);
  }

  /** A plain `Error` (no code, no status) is reported as a 500 "error". */
  lemma PlainErrorResponse(message: string)
    requires message != ValidationMessage
    ensures ServerErrorHandler(PlainError(message)) == Responded(500, ErrorBody("error", message, Some(PlainError(message))))
    ensures SrcErrorHandler(PlainError(message)) == Responded(500, ErrorBody("error", message, None))
    ensures JsErrorHandler(PlainError(message)) == Responded(500, ErrorBody("error", message, None))
  {
  }
}
