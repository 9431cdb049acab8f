/** What a client sees when a controller raises: the rejection goes through
    `next(err)` to the global error handler of the same tree. */
module ControllerErrors {
  import opened Common
  import opened Records
  import ErrorHandlers
  import TsControllers
  import JsControllers

  /** A missing row is a 400 "fail" from the .ts factory, but a 500 "error"
      from the .js factory, whose plain Error carries no status code; the
      message is "Record Not Found" either way. */
  lemma MissingRowResponses()
    ensures ErrorHandlers.SrcErrorHandler(TsControllers.NotFoundError)
            == ErrorHandlers.Responded(400, ErrorHandlers.ErrorBody("fail", RecordNotFound, None))
    ensures ErrorHandlers.SrcErrorHandler(JsControllers.NotFoundError)
            == ErrorHandlers.Responded(500, ErrorHandlers.ErrorBody("error", RecordNotFound, None))
  {
    TsControllers.NotFoundIsClientFailure();
    ErrorHandlers.ApiErrorResponse(400, RecordNotFound);
    ErrorHandlers.PlainErrorResponse(RecordNotFound);
  }

  /** A duplicate key on `create` is a Sequelize validation error: the
      handler reports its nested message with a 500. */
  lemma DuplicateKeyResponse()
    ensures ErrorHandlers.SrcErrorHandler(UniqueViolation)
            == ErrorHandlers.Responded(500, ErrorHandlers.ErrorBody("error", "id must be unique", None))
  {
  }
}
