/** The error-handling middleware: any error reaching it becomes one JSON
    reply whose `statusCode` is the HTTP status sent. */
module ErrorHandler {
  import opened Basics
  import opened JsValues
  import opened UserValidation
  import opened Exceptions

  /** The errors the handler tells apart, tested in this order: a schema
      validation error, one of the application exceptions, anything else. */
  datatype HandledError =
    | ValidationError(issues: seq<Issue>)
    | Custom(exception: AppException)
    | Other(message: string, stack: Option<string>)

  /** The `error` field of the reply. */
  datatype ErrorDetail =
    | NoDetail
    | IssuesDetail(issues: seq<Issue>)
    | ContextDetail(context: Context)
    | StackDetail(stack: string)

  /** The reply: HTTP status and the body's fields (the timestamp and the
      request's path and method are not modelled). */
  datatype ErrorReply = ErrorReply(httpStatus: int, statusCode: int, status: string, message: string, error: ErrorDetail)

  /** `APP_ENV` is "qa" or "dev": the deployments that see error details. */
  predicate ExposesDetails(appEnv: Option<string>) {
    appEnv == Some("qa") || appEnv == Some("dev")
  }

  /** The detail an application exception exposes: its context when that has
      properties (lodash `isEmpty` is false), else its stack. */
  function ExceptionDetail(e: AppException): (r: ErrorDetail)
    ensures r == ContextDetail(e.context) <==> e.context != []
    ensures r == StackDetail(e.stack) <==> e.context == []
  {
    var entry := e.Errors()[0];
    if entry.context != [] then ContextDetail(entry.context) else StackDetail(e.stack)
  }

  /** The middleware's reply to `err` under the deployment `appEnv`. */
  function Handle(err: HandledError, appEnv: Option<string>): (r: ErrorReply)
    ensures r.statusCode == r.httpStatus
    ensures r.error != NoDetail ==> err.ValidationError? || ExposesDetails(appEnv)
    ensures err.Custom? ==> r.message == err.exception.message
    ensures err.Other? ==> r.message == err.message
    ensures err.ValidationError? ==> r == ErrorReply(422, 422, "Error", "Unprocessable Entity", IssuesDetail(err.issues))
    ensures err.Custom? ==> r.httpStatus == err.exception.Code() && r.status == err.exception.Errors()[0].status
    ensures err.Other? ==> r.httpStatus == 500 && r.status == "INTERNAL_SERVER_ERROR"
    ensures err.Other? ==> r.error == (if ExposesDetails(appEnv) && err.stack.Some? then StackDetail(err.stack.value) else NoDetail)
  {
    match err
    case ValidationError(issues) =>
      ErrorReply(422, 422, "Error", "Unprocessable Entity", IssuesDetail(issues))
    case Custom(e) =>
      var entry := e.Errors()[0];
      var status := if entry.status != "" then entry.status else "Error";
      ErrorReply(e.Code(), e.Code(), status, e.message, if ExposesDetails(appEnv) then ExceptionDetail(e) else NoDetail)
    case Other(message, stack) =>
      var detail := if ExposesDetails(appEnv) && stack.Some? then StackDetail(stack.value) else NoDetail;
      ErrorReply(500, 500, "INTERNAL_SERVER_ERROR", message, detail)
  }

  /** An application exception is answered with its class's status code and
      status name, so the class can be read back from the reply. */
  lemma CustomReplyIdentifiesKind(e: AppException, appEnv: Option<string>)
    ensures var r := Handle(Custom(e), appEnv);
      && r.httpStatus == StatusCode(e.kind)
      && r.status == StatusName(e.kind)
      && KindOfStatus(r.httpStatus) == Some(e.kind)
  {
    StatusCodeIdentifiesKind(e.kind);
  }

  /** Details are shown exactly in the qa and dev deployments: elsewhere an
      exception or other error carries no detail, there it always carries its
      context or its stack (when the runtime gave one). */
  lemma DetailsOnlyInQaAndDev(err: HandledError, appEnv: Option<string>)
    requires !err.ValidationError?
    ensures Handle(err, appEnv).error != NoDetail <==>
      ExposesDetails(appEnv) && (err.Custom? || err.stack.Some?)
  {
  }

  /** An exception built without a context exposes its stack in qa/dev. */
  lemma NoContextExposesStack(kind: Kind, params: Option<Params>, stack: string, appEnv: Option<string>)
    requires params.None? || params.value.context.None? || params.value.context == Some([])
    requires ExposesDetails(appEnv)
    ensures Handle(Custom(Create(kind, params, stack)), appEnv).error == StackDetail(stack)
  {
  }

  /** An exception built with a non-empty context exposes that context in qa/dev. */
  lemma ContextExposed(kind: Kind, params: Params, stack: string, appEnv: Option<string>)
    requires params.context.Some? && params.context.value != []
    requires ExposesDetails(appEnv)
    ensures Handle(Custom(Create(kind, Some(params), stack)), appEnv).error == ContextDetail(params.context.value)
  {
  }

  /** Every status the middleware sends is 422, 500 or one of the classes' codes. */
  lemma RepliesAreErrorStatuses(err: HandledError, appEnv: Option<string>)
    ensures var r := Handle(err, appEnv);
      r.httpStatus == 422 || r.httpStatus == 500 || KindOfStatus(r.httpStatus).Some?
  {
    if err.Custom? {
      StatusCodeIdentifiesKind(err.exception.kind);
    }
  }
}
