/** The outbound HTTP client: a fixed configuration, the retry predicate and
    delay handed to the retry layer, the form body it builds, and the
    normalisation that turns every request failure into a `{status, data}`
    reply instead of an exception. */
module HttpClient {
  import opened Basics
  import opened JsValues

  const ApiDefaultTimeout: nat := 10000
  const ApiDefaultDelay: nat := 1000
  const ApiDefaultRetry: nat := 3

  /** The error code of a request aborted by its timeout. */
  const ConnAborted := "ECONNABORTED"

  /** Statuses the retry predicate retries: 408, 429, 500 and 401. */
  const RetryableStatuses: set<int> := {408, 429, 500, 401}

  type Headers = map<string, string>

  datatype Credentials = Credentials(username: string, password: string)

  /** The request payload: the JSON body as given (possibly none), or the
      form body as the name/value pairs appended to it, in order. */
  datatype RequestData = NoBody | JsonBody(body: Props) | FormBody(pairs: seq<(string, string)>)

  /** The request configuration handed to the transport. */
  datatype RequestConfig = RequestConfig(
    baseUrl: string, url: string, verb: string, timeout: nat, headers: Headers,
    data: RequestData, params: Option<Props>, auth: Option<Credentials>)

  /** A response; `status` may be missing from what the transport reports. */
  datatype HttpResponse = HttpResponse(status: Option<int>, data: JsValue, headers: Headers)

  /** A request failure, as the fields the client reads from it. */
  datatype RequestError = RequestError(
    config: Option<RequestConfig>, response: Option<HttpResponse>, request: Option<JsValue>,
    code: Option<string>, message: Option<string>)

  /** What the transport (including its retries) ends with. */
  datatype Outcome = Responded(response: HttpResponse) | Threw(error: RequestError)

  /** The `data` of a normalised failure, one shape per branch. The stacks are
      copies of the error (the serialiser is treated as a faithful copy). */
  datatype FailureData =
    | ResponseMessage(response: HttpResponse)
    | CodeMessageStack(code: string, message: string, stack: RequestError)
    | RequestMessage(request: JsValue)
    | MessageStack(errorMessage: Option<string>, stack: RequestError)

  /** What `fetch` returns: the transport's response, or a normalised failure. */
  datatype FetchReply = Delivered(response: HttpResponse) | Failed(status: int, data: FailureData)

  /** `get(error, "response.status", 404)`: the response's status, or 404
      when there is no response or it has no status. */
  function StatusOr404(e: RequestError): (r: int)
    ensures e.response.Some? && e.response.value.status.Some? ==> r == e.response.value.status.value
    ensures e.response.None? || e.response.value.status.None? ==> r == 404
  {
    if e.response.Some? && e.response.value.status.Some? then e.response.value.status.value else 404
  }

  /** The retry predicate: a failure is retried only when it carries its
      request configuration and either has a retryable status or was aborted
      by the timeout. */
  function RetryCondition(e: RequestError): (r: bool)
    ensures r ==> e.config.Some?
    ensures e.config.Some? && e.code == Some(ConnAborted) ==> r
    ensures r && e.code != Some(ConnAborted) ==> e.response.Some? && e.response.value.status.Some?
  {
    var status := StatusOr404(e);
    var code := if e.code.Some? then e.code.value else "Unknown";
    e.config.Some? &&
    (status == 408 || status == 429 || status == 500 || status == 401 || code == ConnAborted)
  }

  /** The predicate retries exactly the configured failures with a retryable
      status or the abort code. */
  lemma RetryConditionIff(e: RequestError)
    ensures RetryCondition(e) <==> e.config.Some? && (StatusOr404(e) in RetryableStatuses || e.code == Some(ConnAborted))
  {
  }

  /** A failure without a status (read as 404) is not retried unless aborted;
      neither is a 503, nor a 404 or 400 answer. */
  lemma NonRetryableStatuses(e: RequestError)
    requires e.code != Some(ConnAborted)
    requires StatusOr404(e) in {400, 404, 503}
    ensures !RetryCondition(e)
  {
  }

  /** The delay before retry number `retryCount` (1 for the first retry). */
  function RetryDelay(retryCount: nat): (r: nat)
    ensures r % ApiDefaultDelay == 0 && r / ApiDefaultDelay == retryCount
  {
    retryCount * ApiDefaultDelay
  }

  /** The delays grow linearly: each retry waits one base delay longer. */
  lemma RetryDelayLinear(n: nat)
    ensures RetryDelay(n + 1) == RetryDelay(n) + ApiDefaultDelay
    ensures RetryDelay(0) == 0
  {
  }

  /** The total time spent waiting over the first `n` retries. */
  function TotalRetryDelay(n: nat): nat {
    if n == 0 then 0 else TotalRetryDelay(n - 1) + RetryDelay(n)
  }

  /** The waits add up to `base * n * (n + 1) / 2`: six seconds for the
      default three retries. */
  lemma {:induction false} TotalRetryDelayClosedForm(n: nat)
    ensures 2 * TotalRetryDelay(n) == ApiDefaultDelay * n * (n + 1)
  {
    if n > 0 {
      TotalRetryDelayClosedForm(n - 1);
    }
  }

  lemma DefaultRetryBudget()
    ensures TotalRetryDelay(ApiDefaultRetry) == 6000
  {
    TotalRetryDelayClosedForm(ApiDefaultRetry);
  }

  /** `omit(stack, ["config.headers.Authorization"])`. */
  function WithoutAuthorization(e: RequestError): (r: RequestError)
    ensures r.config.Some? <==> e.config.Some?
    ensures r.config.Some? ==> "Authorization" !in r.config.value.headers
    ensures r.config.Some? ==> forall h :: h in e.config.value.headers && h != "Authorization" ==>
      h in r.config.value.headers && r.config.value.headers[h] == e.config.value.headers[h]
    ensures r.(config := e.config) == e
  {
    if e.config.Some? then
      e.(config := Some(e.config.value.(headers := e.config.value.headers - {"Authorization"})))
    else e
  }

  /** The catch block: the four shapes are tested in order, a response
      first, then a code with a message, then a bare request, then anything
      else; only the second sets the status itself. */
  function Normalise(e: RequestError): (r: FetchReply)
    ensures r.Failed?
    ensures r.data.ResponseMessage? <==> e.response.Some?
    ensures r.data.CodeMessageStack? <==> e.response.None? && e.code.Some? && e.message.Some?
    ensures r.data.RequestMessage? <==> e.response.None? && !(e.code.Some? && e.message.Some?) && e.request.Some?
    ensures e.response.Some? && e.response.value.status.Some? ==> r.status == e.response.value.status.value
    ensures e.response.None? ==> (r.status == 408 <==> e.code == Some(ConnAborted) && e.message.Some?)
    ensures e.response.None? ==> r.status in {404, 408}
    ensures e.response.Some? ==> r == Failed(StatusOr404(e), ResponseMessage(e.response.value))
    ensures e.response.None? && e.code.Some? && e.message.Some? ==>
      r.data == CodeMessageStack(e.code.value, e.message.value, WithoutAuthorization(e))
    ensures r.data.RequestMessage? ==> r == Failed(404, RequestMessage(e.request.value))
    ensures r.data.MessageStack? ==> r == Failed(404, MessageStack(e.message, e))
  {
    var status := StatusOr404(e);
    if e.response.Some? then
      Failed(status, ResponseMessage(e.response.value))
    else if e.code.Some? && e.message.Some? then
      var stack := WithoutAuthorization(e);
      Failed(if e.code.value == ConnAborted then 408 else 404,
             CodeMessageStack(e.code.value, e.message.value, stack))
    else if e.request.Some? then
      Failed(status, RequestMessage(e.request.value))
    else
      Failed(status, MessageStack(e.message, e))
  }

  /** The code-and-message shape never carries the Authorization header in
      its stack, while the last shape carries the error unredacted. */
  lemma RedactionOnlyWithCode(e: RequestError)
    ensures Normalise(e).data.CodeMessageStack? ==>
      var s := Normalise(e).data.stack; s.config.Some? ==> "Authorization" !in s.config.value.headers
    ensures Normalise(e).data.MessageStack? ==> Normalise(e).data.stack == e
  {
  }

  /** A timed-out request (abort code, no response) is retried when it has
      its configuration, and once retries end it is reported as 408. */
  lemma TimeoutRetriedThenReported408(e: RequestError)
    requires e.response.None? && e.code == Some(ConnAborted) && e.message.Some?
    ensures RetryCondition(e) <==> e.config.Some?
    ensures Normalise(e).status == 408
  {
  }

  /** The form body: one `(key, String(value))` pair per property of the
      body, in enumeration order. */
  function FormPairs(props: Props): (pairs: seq<(string, string)>)
  {
    seq(|props|, k requires 0 <= k < |props| => (props[k].0, ToJsString(props[k].1)))
  }

  /** Every property of a body object is appended exactly once, under its own
      name, and string values are sent as they are. */
  lemma FormAppendsEachKeyOnce(props: Props, k: nat)
    requires DistinctKeys(props) && k < |props|
    ensures var pairs := FormPairs(props);
      && |pairs| == |props|
      && pairs[k].0 == props[k].0
      && (props[k].1.Str? ==> pairs[k].1 == props[k].1.s)
      && forall j :: 0 <= j < |pairs| && pairs[j].0 == props[k].0 ==> j == k
  {
  }

  /** The payload `fetch` sends: the form when `isForm` (empty without a
      body), the body unchanged otherwise. */
  function PayloadFor(body: Option<Props>, isForm: bool): (d: RequestData)
    ensures isForm ==> d.FormBody? && (body.None? ==> d.pairs == [])
    ensures isForm && body.Some? ==> d == FormBody(FormPairs(body.value))
    ensures !isForm ==> (d.NoBody? <==> body.None?) && (body.Some? ==> d == JsonBody(body.value))
  {
    if isForm then FormBody(if body.Some? then FormPairs(body.value) else [])
    else if body.Some? then JsonBody(body.value) else NoBody
  }

  /** What `fetch` makes of the transport's outcome: a response is passed
      on, a failure is normalised; nothing is rethrown. */
  function ReplyTo(outcome: Outcome): (r: FetchReply)
    ensures outcome.Responded? ==> r == Delivered(outcome.response)
    ensures outcome.Threw? ==> r == Normalise(outcome.error) && r.Failed?
  {
    match outcome
    case Responded(response) => Delivered(response)
    case Threw(e) => Normalise(e)
  }

  /** The client; its configuration is fixed when it is built. */
  class Client {
    const timeout: nat
    const retryDelay: nat
    const retryCount: nat

    constructor ()
      ensures timeout == ApiDefaultTimeout && retryDelay == ApiDefaultDelay && retryCount == ApiDefaultRetry
    {
      timeout := ApiDefaultTimeout;
      retryDelay := ApiDefaultDelay;
      retryCount := ApiDefaultRetry;
    }

    /** Builds the request (the form body with a loop over the body's
      properties), hands it to the transport `send` and replies with what it
      returns; `send` stands for the network and the retry layer. */
    method Fetch(baseUrl: string, url: string, verb: string, headers: Headers, body: Option<Props>,
                 auth: Option<Credentials>, queryParams: Option<Props>, isForm: bool,
                 send: RequestConfig -> Outcome)
      returns (reply: FetchReply)
      ensures reply == ReplyTo(send(RequestConfig(baseUrl, url, verb, timeout, headers,
                                                  PayloadFor(body, isForm), queryParams, auth)))
    {
      var formData: seq<(string, string)> := [];
      if body.Some? && isForm {
        var props := body.value;
        var i := 0;
        while i < |props|
          invariant 0 <= i <= |props|
          invariant |formData| == i
          invariant forall k :: 0 <= k < i ==> formData[k] == (props[k].0, ToJsString(props[k].1))
        {
          formData := formData + [(props[i].0, ToJsString(props[i].1))];
          i := i + 1;
        }
        assert formData == FormPairs(props);
      }
      var data := if isForm then FormBody(formData) else if body.Some? then JsonBody(body.value) else NoBody;
      var config := RequestConfig(baseUrl, url, verb, timeout, headers, data, queryParams, auth);
      var outcome := send(config);
      match outcome {
        case Responded(response) =>
          reply := Delivered(response);
        case Threw(e) =>
          reply := Normalise(e);
      }
    }
  }
}
