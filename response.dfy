/**
 * Message texts of the `constants` package. Its source is not part of this
 * model, so each constant is a placeholder that carries the constant's own
 * name; the `%s` constants are functions of the object kind they are
 * formatted with.
 */
module Constants {
  const FAILED_BEGIN_TRANSACTION: string := "FAILED_BEGIN_TRANSACTION"
  const FAILED_SCAN: string := "FAILED_SCAN"
  const INVALID_EMAILID: string := "INVALID_EMAILID"
  const INVALID_PASSWORD: string := "INVALID_PASSWORD"

  /** `fmt.Sprintf(constants.FAILED_TO_UPDATE_OBJ, kind)` */
  function FailedToUpdateObj(kind: string): string { "FAILED_TO_UPDATE_OBJ:" + kind }
  /** `fmt.Sprintf(constants.FAILED_TO_CREATE_OBJ, kind)` */
  function FailedToCreateObj(kind: string): string { "FAILED_TO_CREATE_OBJ:" + kind }
  /** `fmt.Sprintf(constants.COMMIT_FAILED, kind)` */
  function CommitFailed(kind: string): string { "COMMIT_FAILED:" + kind }
  /** `fmt.Sprintf(constants.NO_ROWS_AFFECTED, kind)` */
  function NoRowsAffected(kind: string): string { "NO_ROWS_AFFECTED:" + kind }
  /** `fmt.Sprintf(constants.EMPTY_FIELD, field)` */
  function EmptyField(field: string): string { "EMPTY_FIELD:" + field }
}

/** `internal/app/utils/response.go`: the error value every core operation returns. */
module Response {
  import opened Wrappers

  const StatusOK := 200
  const StatusBadRequest := 400
  const StatusNotFound := 404
  const StatusInternalServerError := 500

  /** `utils.ErrorMessage`; a Go `nil` `*ErrorMessage` is `None` of `Option<ErrorMessage>`. */
  datatype ErrorMessage = ErrorMessage(statusCode: int, message: string) {
    /** `(*ErrorMessage).Error()`: the message alone. */
    function Error(): (s: string)
      ensures s == message
    {
      message
    }
  }

  lemma ErrorIgnoresStatus(message: string, s1: int, s2: int)
    ensures ErrorMessage(s1, message).Error() == ErrorMessage(s2, message).Error() == message
  {
  }

  function NewValidationErrorMessage(message: string): (e: ErrorMessage)
    ensures e.statusCode == StatusBadRequest && e.Error() == message
  {
    ErrorMessage(StatusBadRequest, message)
  }

  function NewErrorMessage(message: string): (e: ErrorMessage)
    ensures e.statusCode == StatusInternalServerError && e.Error() == message
  {
    ErrorMessage(StatusInternalServerError, message)
  }

  /** A value of a log record field. */
  datatype Field = IntField(n: int) | TextField(text: string)

  /**
   * What `ErrorResponse` does with the request: the fields of the one error
   * log record it writes, and the status and JSON body it aborts with.
   */
  datatype Aborted = Aborted(status: int, body: map<string, string>, logged: map<string, Field>)

  /**
   * `ErrorResponse`. `requestId` is the `RequestID` value of the context when
   * one is set; `httpMethod` and `path` are the request's.
   */
  function ErrorResponse(statusCode: int, message: string, httpMethod: string, path: string,
                         requestId: Option<string>): (r: Aborted)
    ensures r.status == statusCode
    ensures r.body.Keys == {"error"} && r.body["error"] == message
    ensures "RequestId" in r.logged <==> requestId.Some?
    ensures requestId.Some? ==> r.logged["RequestId"] == TextField(requestId.value)
    ensures r.logged.Keys - {"RequestId"} == {"status", "method", "path", "message"}
    ensures r.logged["status"] == IntField(statusCode) && r.logged["method"] == TextField(httpMethod)
    ensures r.logged["path"] == TextField(path) && r.logged["message"] == TextField(message)
  {
    var common := map["status" := IntField(statusCode), "method" := TextField(httpMethod),
                      "path" := TextField(path), "message" := TextField(message)];
    var logged := match requestId
      case Some(id) => common["RequestId" := TextField(id)]
      case None => common;
    Aborted(statusCode, map["error" := message], logged)
  }

  /** The request id reaches the log only: the status and body sent back are the same with or without it. */
  lemma ErrorResponseIgnoresRequestId(statusCode: int, message: string, httpMethod: string, path: string, id: string)
    ensures var a := ErrorResponse(statusCode, message, httpMethod, path, Some(id));
            var b := ErrorResponse(statusCode, message, httpMethod, path, None);
            a.status == b.status && a.body == b.body && a.logged == b.logged["RequestId" := TextField(id)]
  {
  }
}
