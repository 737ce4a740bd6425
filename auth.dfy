/** The API-key gate: a request goes on only when its `x-api-key` header
    equals the configured `API_KEY`; otherwise it is answered 403. */
module Auth {
  import opened Basics

  /** The `x-api-key` header as the middleware reads it; a `null` header is
      turned into `undefined` by `?? undefined`. */
  datatype Header = Missing | NullHeader | Present(value: string)

  /** The forbidden reply's body (the timestamp and the request's path and
      method are not modelled). */
  datatype Rejection = Rejection(httpStatus: int, statusCode: int, status: string, message: string, error: string)

  /** What the middleware does with the request. */
  datatype Decision = Next | Forbidden(reply: Rejection)

  const Forbidden403 := 403

  /** The key after `req.headers["x-api-key"] ?? undefined`. */
  function ApiKeyOf(header: Header): (r: Option<string>)
    ensures r.Some? <==> header.Present?
    ensures r.Some? ==> r.value == header.value
  {
    if header.Present? then Some(header.value) else None
  }

  /** A 403 reply with the given message. */
  function Reject(message: string): Rejection {
    Rejection(Forbidden403, Forbidden403, "FORBIDDEN", message, "Error")
  }

  /** The three-way decision, its branches tested in order; `apiKeyEnv` is
      `process.env.API_KEY`. */
  function Authorize(header: Header, apiKeyEnv: Option<string>): (d: Decision)
    ensures d.Next? <==> header.Present? && apiKeyEnv == Some(header.value)
    ensures d.Forbidden? ==> d.reply.httpStatus == d.reply.statusCode == 403
    ensures d.Forbidden? ==> d.reply.status == "FORBIDDEN" && d.reply.error == "Error"
    ensures d.Forbidden? ==>
      (d.reply.message == "Missing API Key" <==> ApiKeyOf(header) in {None, Some("")})
    ensures d.Forbidden? ==> d.reply.message in {"Missing API Key", "API Key invalid"}
  {
    var apiKey := ApiKeyOf(header);
    if apiKey == apiKeyEnv && apiKey.Some? then Next
    else if apiKey.None? || apiKey == Some("") then Forbidden(Reject("Missing API Key"))
    else Forbidden(Reject("API Key invalid"))
  }

  /** With `API_KEY` unset every request is refused, whatever its header. */
  lemma UnsetKeyRejectsAll(header: Header)
    ensures Authorize(header, None).Forbidden?
  {
  }

  /** The pass test comes first: an empty header goes through when `API_KEY`
      is the empty string, and is refused as missing otherwise. */
  lemma EmptyHeaderPassesOnlyEmptyKey(apiKeyEnv: Option<string>)
    ensures Authorize(Present(""), apiKeyEnv).Next? <==> apiKeyEnv == Some("")
    ensures apiKeyEnv != Some("") ==> Authorize(Present(""), apiKeyEnv) == Forbidden(Reject("Missing API Key"))
  {
  }

  /** A `null` header is treated exactly like an absent one. */
  lemma NullHeaderIsMissing(apiKeyEnv: Option<string>)
    ensures Authorize(NullHeader, apiKeyEnv) == Authorize(Missing, apiKeyEnv) == Forbidden(Reject("Missing API Key"))
  {
  }

  /** Only the configured key passes: two headers that both pass are equal. */
  lemma OnlyTheConfiguredKeyPasses(h1: Header, h2: Header, apiKeyEnv: Option<string>)
    requires Authorize(h1, apiKeyEnv).Next? && Authorize(h2, apiKeyEnv).Next?
    ensures h1 == h2 == Present(apiKeyEnv.value)
  {
  }
}
