/**
 * The response constructors of `responses.js`, used by the older router and
 * handlers: `ApiResponse` always sends JSON, `ApiError` fills in defaults
 * without checking the status.
 */
module LegacyResponses {
  import opened Js
  import opened Responses

  /**
   * `new ApiResponse(body, options)` (responses.js): the content type is JSON
   * whatever the caller gave, the body is always stringified, and the
   * status and status text are passed on as given.
   */
  function ApiResponse(body: Json, init: Init): (r: Response)
    ensures r.headers.Keys == init.headers.Keys + {"content-type"}
    ensures r.headers["content-type"] == JsonType
    ensures forall k :: k in init.headers && k != "content-type" ==> r.headers[k] == init.headers[k]
    ensures r.body == Stringify(body)
    ensures r.status == init.status && r.statusText == init.statusText
  {
    Response(init.status, init.statusText, init.headers + map["content-type" := JsonType], Stringify(body))
  }

  /** A handler's non-`Response` value, wrapped with no options. */
  function Wrap(v: Json): (r: Response)
    ensures r.status == None
    ensures r.headers == map["content-type" := JsonType] && r.body == Stringify(v)
  {
    ApiResponse(v, Init(None, None, map[]))
  }

  /**
   * `new ApiError(options)` (responses.js): status 400, code 0 and message
   * 'Bad Request' unless the caller gives them, any status accepted, the
   * body being the metadata under `status`, `code` and `message`.
   */
  function ApiError(init: ErrorInit): (r: Response)
    ensures r.status == Some(init.status.GetOr(400))
    ensures "content-type" in r.headers && r.headers["content-type"] == JsonType
    ensures r.body == Stringified(JObject(ErrorBody(init.metadata, init.code.GetOr(0),
                                                    Some(init.message.GetOr("Bad Request")), init.status.GetOr(400))))
  {
    var status := init.status.GetOr(400);
    var body := ErrorBody(init.metadata, init.code.GetOr(0), Some(init.message.GetOr("Bad Request")), status);
    ApiResponse(JObject(body), Init(Some(status), init.statusText, init.headers))
  }

  /** Unlike the current `ApiError`, the legacy one builds a response for any status. */
  lemma LegacyErrorAcceptsAnyStatus(status: int, codes: map<int, string>)
    requires status < 400 || 600 <= status
    ensures Responses.ApiError(StatusOnly(status, map[]), codes).Err?
    ensures ApiError(StatusOnly(status, map[])).status == Some(status)
  {
  }

  /**
   * The legacy routers' normalisation: a response passes through untouched,
   * anything else is wrapped by the legacy `ApiResponse`, which sets no status.
   */
  function Normalise(r: Returned): (reply: Reply)
    ensures r.IsResponse? ==> reply == r.reply
    ensures r.Value? ==> reply.Api? && reply.response.status == None && reply.response.body == Stringify(r.v)
  {
    if r.IsResponse? then r.reply else Api(Wrap(r.v))
  }

  /** `new ApiError({status: 500, metadata: {error: String(error)}})` of the legacy routers. */
  function ServerError(error: string): (r: Response)
    ensures r.status == Some(500)
    ensures r.body.Stringified? && r.body.value.JObject?
    ensures "error" in r.body.value.fields && r.body.value.fields["error"] == JStr(error)
  {
    ApiError(StatusOnly(500, map["error" := JStr(error)]))
  }
}
