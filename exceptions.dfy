/** The nine application exceptions. Each class fixes an HTTP status code
    (section 15 of RFC 9110), a status name and a default message, and
    otherwise carries the same data; here they are one tagged union. */
module Exceptions {
  import opened Basics
  import opened JsValues

  /** Which of the nine exception classes. */
  datatype Kind =
    | UnprocessableEntity
    | ServiceUnavailable
    | InternalServer
    | PreCondition
    | GatewayTimeout
    | RequestTimeout
    | Unauthorize
    | BadRequest
    | NotFound

  /** The status code each class reports. */
  function StatusCode(kind: Kind): (r: int)
    ensures 400 <= r < 600
    ensures r >= 500 <==> kind in {ServiceUnavailable, InternalServer, GatewayTimeout}
  {
    match kind
    case UnprocessableEntity => 422
    case ServiceUnavailable => 503
    case InternalServer => 500
    case PreCondition => 412
    case GatewayTimeout => 504
    case RequestTimeout => 408
    case Unauthorize => 401
    case BadRequest => 400
    case NotFound => 404
  }

  /** The status name each class puts in its error entry. */
  function StatusName(kind: Kind): (r: string)
    ensures r != ""
    ensures forall i :: 0 <= i < |r| ==> 'A' <= r[i] <= 'Z' || r[i] == '_'
  {
    match kind
    case UnprocessableEntity => "UNPROCESSABLE_ENTITY"
    case ServiceUnavailable => "SERVICE_UNAVAILABLE"
    case InternalServer => "INTERNAL_SERVER_ERROR"
    case PreCondition => "PRECONDITION_FAILED"
    case GatewayTimeout => "GATEWAY_TIMEOUT"
    case RequestTimeout => "REQUEST_TIMEOUT"
    case Unauthorize => "UNAUTHORIZED"
    case BadRequest => "BAD_REQUEST"
    case NotFound => "NOT_FOUND"
  }

  /** The message used when none (or an empty one) is given, spelled as the
      classes spell it. */
  function DefaultMessage(kind: Kind): (r: string)
    ensures r != "" && 'A' <= r[0] <= 'Z'
  {
    match kind
    case UnprocessableEntity => "Unprocessable entity"
    case ServiceUnavailable => "Service unvailable"
    case InternalServer => "Internal server error"
    case PreCondition => "Precondition failed"
    case GatewayTimeout => "Gateway timeout"
    case RequestTimeout => "Request timeout"
    case Unauthorize => "Unauthorized"
    case BadRequest => "Bad request"
    case NotFound => "Not found"
  }

  /** The class whose status code is `code`, if any: the inverse of `StatusCode`. */
  function KindOfStatus(code: int): (r: Option<Kind>)
    ensures r.Some? ==> StatusCode(r.value) == code
  {
    match code
    case 422 => Some(UnprocessableEntity)
    case 503 => Some(ServiceUnavailable)
    case 500 => Some(InternalServer)
    case 412 => Some(PreCondition)
    case 504 => Some(GatewayTimeout)
    case 408 => Some(RequestTimeout)
    case 401 => Some(Unauthorize)
    case 400 => Some(BadRequest)
    case 404 => Some(NotFound)
    case _ => None
  }

  /** An object used as an exception's context: its own properties. */
  type Context = Props

  /** The optional constructor argument `{ code?, message?, logging?, context? }`. */
  datatype Params = Params(code: Option<int>, message: Option<string>, logging: Option<bool>, context: Option<Context>)

  /** One entry of the `errors` getter. */
  datatype ErrorEntry = ErrorEntry(status: string, message: string, context: Context)

  /** A constructed exception: its class, the message passed to the `Error`
      base, the logging flag, the context and the stack captured at
      construction (supplied by the runtime). */
  datatype AppException = AppException(kind: Kind, message: string, logging: bool, context: Context, stack: string)
  {
    /** The `statusCode` getter. */
    function Code(): (r: int)
      ensures KindOfStatus(r) == Some(kind)
    {
      StatusCode(kind)
    }

    /** The `errors` getter: exactly one entry. */
    function Errors(): (r: seq<ErrorEntry>)
      ensures |r| == 1
      ensures r[0].status == StatusName(kind) && r[0].status != ""
      ensures r[0].message == message && r[0].context == context
    {
      [ErrorEntry(StatusName(kind), message, context)]
    }
  }

  /** `new XException(params)`: `message || default`, `logging || false`,
      `params?.context || {}`; the `code` parameter is read by no one. */
  function Create(kind: Kind, params: Option<Params>, stack: string): (e: AppException)
    ensures e.kind == kind && e.stack == stack
    ensures e.message != ""
    ensures e.message == DefaultMessage(kind) <==>
      params.None? || params.value.message.None? || params.value.message.value in {"", DefaultMessage(kind)}
    ensures e.logging <==> params.Some? && params.value.logging == Some(true)
    ensures e.context == [] <==> params.None? || params.value.context.None? || params.value.context == Some([])
    ensures params.Some? && params.value.message.Some? && params.value.message.value != "" ==>
      e.message == params.value.message.value
    ensures params.Some? && params.value.context.Some? ==> e.context == params.value.context.value
  {
    var message :=
      if params.Some? && params.value.message.Some? && params.value.message.value != "" then params.value.message.value
      else DefaultMessage(kind);
    var logging := params.Some? && params.value.logging == Some(true);
    var context := if params.Some? && params.value.context.Some? then params.value.context.value else [];
    AppException(kind, message, logging, context, stack)
  }

  /** The constants one class fixes: its status code, the status name of its
      single error entry and its default message; `Create` states the rest. */
  predicate ConstructedAs(e: AppException, code: int, status: string, defaultMessage: string)
  {
    && e.Code() == code
    && |e.Errors()| == 1 && e.Errors()[0].status == status
    && DefaultMessage(e.kind) == defaultMessage
  }

  lemma UnprocessableEntityException(params: Option<Params>, stack: string)
    ensures ConstructedAs(Create(UnprocessableEntity, params, stack), 422, "UNPROCESSABLE_ENTITY", "Unprocessable entity")
  {
  }

  lemma ServiceUnavailableException(params: Option<Params>, stack: string)
    ensures ConstructedAs(Create(ServiceUnavailable, params, stack), 503, "SERVICE_UNAVAILABLE", "Service unvailable")
  {
  }

  lemma InternalServerException(params: Option<Params>, stack: string)
    ensures ConstructedAs(Create(InternalServer, params, stack), 500, "INTERNAL_SERVER_ERROR", "Internal server error")
  {
  }

  lemma PreConditionException(params: Option<Params>, stack: string)
    ensures ConstructedAs(Create(PreCondition, params, stack), 412, "PRECONDITION_FAILED", "Precondition failed")
  {
  }

  lemma GatewayTimeoutException(params: Option<Params>, stack: string)
    ensures ConstructedAs(Create(GatewayTimeout, params, stack), 504, "GATEWAY_TIMEOUT", "Gateway timeout")
  {
  }

  lemma RequestTimeoutException(params: Option<Params>, stack: string)
    ensures ConstructedAs(Create(RequestTimeout, params, stack), 408, "REQUEST_TIMEOUT", "Request timeout")
  {
  }

  lemma UnauthorizeException(params: Option<Params>, stack: string)
    ensures ConstructedAs(Create(Unauthorize, params, stack), 401, "UNAUTHORIZED", "Unauthorized")
  {
  }

  lemma BadRequestException(params: Option<Params>, stack: string)
    ensures ConstructedAs(Create(BadRequest, params, stack), 400, "BAD_REQUEST", "Bad request")
  {
  }

  lemma NotFoundException(params: Option<Params>, stack: string)
    ensures ConstructedAs(Create(NotFound, params, stack), 404, "NOT_FOUND", "Not found")
  {
  }

  /** The status code is the class's whatever `code` is passed. */
  lemma CodeParameterIgnored(kind: Kind, p: Params, code: Option<int>, stack: string)
    ensures Create(kind, Some(p.(code := code)), stack) == Create(kind, Some(p), stack)
    ensures Create(kind, Some(p), stack).Code() == StatusCode(kind)
  {
  }

  /** The status code identifies the class: `KindOfStatus` inverts it, and
      every code is a client or server error code. */
  lemma StatusCodeIdentifiesKind(kind: Kind)
    ensures KindOfStatus(StatusCode(kind)) == Some(kind)
    ensures 400 <= StatusCode(kind) < 600
  {
  }

  /** Distinct classes have distinct codes and distinct status names. */
  lemma KindsDistinguishable(k1: Kind, k2: Kind)
    requires k1 != k2
    ensures StatusCode(k1) != StatusCode(k2)
    ensures StatusName(k1) != StatusName(k2)
  {
    StatusCodeIdentifiesKind(k1);
    StatusCodeIdentifiesKind(k2);
  }

  /** Rebuilding an exception from its own message, logging flag and context
      gives it back: construction loses nothing it keeps. */
  lemma RecreateIsIdentity(kind: Kind, params: Option<Params>, stack: string)
    ensures var e := Create(kind, params, stack);
      Create(e.kind, Some(Params(None, Some(e.message), Some(e.logging), Some(e.context))), e.stack) == e
  {
  }
}
