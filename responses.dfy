/**
 * The response constructors of `responses.ts`: `ApiResponse`, `ApiError` and
 * `ApiRedirect`.
 *
 * A response is recorded as the body and the init object the constructor
 * hands to the host `Response` constructor. `JSON.stringify` is not
 * interpreted: a stringified body is `Stringified(v)`, except that
 * `JSON.stringify(undefined)` is `undefined`, i.e. no body. A property
 * that is absent from an options object is `None`; `headers` absent is the
 * empty map.
 */
module Responses {
  import opened Js

  /** The body handed to the host `Response`. */
  datatype Body = NoBody | Stringified(value: Json) | Raw(value: Json)

  /** What a response constructor hands to `super(body, init)`. */
  datatype Response = Response(
    status: Option<int>,
    statusText: Option<string>,
    headers: map<string, string>,
    body: Body)

  /** `ResponseInit` as passed by a caller. */
  datatype Init = Init(status: Option<int>, statusText: Option<string>, headers: map<string, string>)

  /** `ApiErrorInit`: a `ResponseInit` with `code`, `message` and `metadata`. */
  datatype ErrorInit = ErrorInit(
    status: Option<int>,
    statusText: Option<string>,
    headers: map<string, string>,
    code: Option<int>,
    message: Option<string>,
    metadata: map<string, Json>)

  const JsonType: string := "application/json"

  /** `JSON.stringify(v)` as a body. */
  function Stringify(v: Json): (b: Body)
    ensures b == NoBody <==> v == JUndefined
  {
    if v == JUndefined then NoBody else Stringified(v)
  }

  /** A body passed through unchanged. */
  function RawBody(v: Json): (b: Body)
    ensures b == NoBody <==> v == JUndefined
  {
    if v == JUndefined then NoBody else Raw(v)
  }

  /** `statusText` when the caller gave none: the status table's text, if any. */
  function DefaultText(statusText: Option<string>, status: int, codes: map<int, string>): (t: Option<string>)
    ensures statusText.Some? ==> t == statusText
    ensures statusText.None? ==> (t.Some? <==> status in codes)
    ensures statusText.None? && status in codes ==> t == Some(codes[status])
  {
    if statusText.None? && status in codes then Some(codes[status]) else statusText
  }

  /** The JSON content type under the caller's headers: the caller's entries win. */
  function JsonHeaders(headers: map<string, string>): (h: map<string, string>)
    ensures h.Keys == headers.Keys + {"content-type"}
    ensures forall k :: k in headers ==> h[k] == headers[k]
    ensures "content-type" !in headers ==> h["content-type"] == JsonType
  {
    map["content-type" := JsonType] + headers
  }

  /**
   * `new ApiResponse(body, options)` (responses.ts): a falsy status becomes
   * 200, the status text comes from the table when absent, the caller's
   * content type overrides the JSON default, and the body is stringified
   * exactly when the content type is JSON.
   */
  function ApiResponse(body: Json, init: Init, codes: map<int, string>): (r: Response)
    ensures r.status.Some?
    ensures init.status.Some? && init.status.value != 0 ==> r.status == init.status
    ensures init.status.None? || init.status == Some(0) ==> r.status == Some(200)
    ensures r.statusText == DefaultText(init.statusText, r.status.value, codes)
    ensures r.headers.Keys == init.headers.Keys + {"content-type"}
    ensures forall k :: k in init.headers ==> r.headers[k] == init.headers[k]
    ensures "content-type" !in init.headers ==> r.headers["content-type"] == JsonType
    ensures r.headers["content-type"] == JsonType ==> r.body == Stringify(body)
    ensures r.headers["content-type"] != JsonType ==> r.body == RawBody(body)
  {
    var headers := JsonHeaders(init.headers);
    var status := if init.status.None? || init.status == Some(0) then 200 else init.status.value;
    var text := DefaultText(init.statusText, status, codes);
    Response(Some(status), text, headers,
             if headers["content-type"] == JsonType then Stringify(body) else RawBody(body))
  }

  /** A handler's non-`Response` value, wrapped with no options. */
  function Wrap(v: Json, codes: map<int, string>): (r: Response)
    ensures r.status == Some(200)
    ensures r.headers == map["content-type" := JsonType]
    ensures r.body == Stringify(v)
  {
    ApiResponse(v, Init(None, None, map[]), codes)
  }

  /** The body of an error: the metadata with `code`, `message` and `status` laid over it. */
  function ErrorBody(metadata: map<string, Json>, code: int, message: Option<string>, status: int): (b: map<string, Json>)
    ensures b.Keys == metadata.Keys + {"code", "message", "status"}
    ensures b["code"] == JNum(code) && b["status"] == JNum(status)
    ensures b["message"] == (if message.Some? then JStr(message.value) else JUndefined)
    ensures forall k :: k in metadata && k !in {"code", "message", "status"} ==> b[k] == metadata[k]
  {
    metadata + map["code" := JNum(code),
                   "message" := (if message.Some? then JStr(message.value) else JUndefined),
                   "status" := JNum(status)]
  }

  const ErrorRange: string := "Error: Invalid Status Code, Errors should be equal to or between 400 and 599."
  const RedirectRange: string := "Error: Invalid Status Code, Redirects should be equal to or between 300 and 399."

  /**
   * `new ApiError(options)` (responses.ts): status 400 and code 0 by default,
   * a status outside 400..599 throws, the message defaults to the status
   * text, and the body is the metadata under the fixed keys.
   */
  function ApiError(init: ErrorInit, codes: map<int, string>): (r: Result<Response>)
    ensures r.Ok? <==> 400 <= init.status.GetOr(400) < 600
    ensures r.Err? ==> r.error == ErrorRange
    ensures r.Ok? ==>
      var status := init.status.GetOr(400);
      var text := DefaultText(init.statusText, status, codes);
      var message := if init.message.Some? then init.message else text;
      && r.value.status == Some(status)
      && r.value.statusText == text
      && r.value.headers == JsonHeaders(init.headers)
      && (r.value.headers["content-type"] == JsonType ==>
            r.value.body == Stringified(JObject(ErrorBody(init.metadata, init.code.GetOr(0), message, status))))
  {
    var status := init.status.GetOr(400);
    if status < 400 || 600 <= status then Err(ErrorRange)
    else
      var text := DefaultText(init.statusText, status, codes);
      var message := if init.message.Some? then init.message else text;
      var body := JObject(ErrorBody(init.metadata, init.code.GetOr(0), message, status));
      Ok(ApiResponse(body, Init(Some(status), text, init.headers), codes))
  }

  /** An `ErrorInit` carrying only a status (and possibly metadata). */
  function StatusOnly(status: int, metadata: map<string, Json>): ErrorInit {
    ErrorInit(Some(status), None, map[], None, None, metadata)
  }

  /** The statuses the router itself raises construct without throwing. */
  lemma RouterStatusesAreErrors(status: int, metadata: map<string, Json>, codes: map<int, string>)
    requires status in {404, 405, 500}
    ensures ApiError(StatusOnly(status, metadata), codes).Ok?
    ensures ApiError(StatusOnly(status, metadata), codes).value.status == Some(status)
    ensures ApiError(StatusOnly(status, metadata), codes).value.headers == map["content-type" := JsonType]
  {
  }

  /**
   * `new ApiRedirect(url, options)`: status 302 by default, a status outside
   * 300..399 throws, the `location` header is `url` whatever the caller
   * gave, and there is no body.
   */
  function ApiRedirect(url: string, init: Init, codes: map<int, string>): (r: Result<Response>)
    ensures r.Ok? <==> 300 <= init.status.GetOr(302) < 400
    ensures r.Err? ==> r.error == RedirectRange
    ensures r.Ok? ==>
      && r.value.status == Some(init.status.GetOr(302))
      && "location" in r.value.headers && r.value.headers["location"] == url
      && r.value.body == NoBody
      && r.value.headers.Keys == init.headers.Keys + {"location", "content-type"}
      && (forall k :: k in init.headers && k != "location" ==> r.value.headers[k] == init.headers[k])
  {
    var status := init.status.GetOr(302);
    if status < 300 || 400 <= status then Err(RedirectRange)
    else
      Ok(ApiResponse(JUndefined, Init(Some(status), init.statusText, init.headers + map["location" := url]), codes))
  }

  // ---------------------------------------------------------------------
  // What the routers hand back to the host

  /**
   * A response object: one a handler or hook built itself (a host `Response`,
   * known by identity) or one built by the constructors above.
   */
  datatype Reply = HostResponse(id: nat) | Api(response: Response)

  /** What a handler or a hook returns: a `Response` instance or any other value. */
  datatype Returned = IsResponse(reply: Reply) | Value(v: Json)

  /**
   * `response instanceof Response ? response : new ApiResponse(response)`:
   * a response passes through untouched, anything else becomes a 200 JSON
   * response of that value.
   */
  function Normalise(r: Returned, codes: map<int, string>): (reply: Reply)
    ensures r.IsResponse? ==> reply == r.reply
    ensures r.Value? ==>
      reply.Api? && reply.response.status == Some(200) && reply.response.body == Stringify(r.v)
  {
    if r.IsResponse? then r.reply else Api(Wrap(r.v, codes))
  }

  /** `new ApiError({status})` for the statuses the router raises itself. */
  function StatusError(status: int, metadata: map<string, Json>, codes: map<int, string>): (r: Response)
    requires status in {404, 405, 500}
    ensures r.status == Some(status)
    ensures r.headers == map["content-type" := JsonType]
    ensures r.body == Stringified(JObject(ErrorBody(metadata, 0, DefaultText(None, status, codes), status)))
  {
    RouterStatusesAreErrors(status, metadata, codes);
    ApiError(StatusOnly(status, metadata), codes).value
  }
}
