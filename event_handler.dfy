/**
 * `EventHandler` of eventhandler.js: request handlers registered under
 * exact hosts in a plain object, and dispatch on the request URL's `host`.
 *
 * A request handler is known by its identity; its `onRequest` is the
 * caller-given `serve`, applied to the handler and the request.
 */
module EventHandlers {
  import opened Js
  import opened Responses
  import LegacyResponses

  /** `requestHandler.onRequest(request)` for a handler and a request, by identity. */
  type Serve = (nat, nat) -> Result<Returned>

  const NotARequestHandler: string := "Error: Handler needs to be a request handler type"

  function AlreadyRegistered(domain: string): string {
    "Error: Domain already registed: " + domain
  }

  /** The property names every plain object inherits from `Object.prototype`. */
  const PrototypeNames: set<string> := {
    "constructor", "__proto__", "hasOwnProperty", "isPrototypeOf", "propertyIsEnumerable",
    "toLocaleString", "toString", "valueOf",
    "__defineGetter__", "__defineSetter__", "__lookupGetter__", "__lookupSetter__"}

  /** What calling `onRequest` on an inherited property throws. */
  const NotAHandler: string := "TypeError: this.domains[url.host].onRequest is not a function"

  /**
   * `hasDomain(domain)` as written: `domain in this.domains` also finds the
   * names the object inherits.
   */
  function HasDomainAsWritten(domains: map<string, nat>, domain: string): bool {
    domain in domains || domain in PrototypeNames
  }

  /** `hasDomain(domain)` as intended: only hosts that were registered. */
  function HasDomain(domains: map<string, nat>, domain: string): (b: bool)
    ensures b ==> HasDomainAsWritten(domains, domain)
    ensures domain !in PrototypeNames ==> b == HasDomainAsWritten(domains, domain)
  {
    domain in domains
  }

  /**
   * `addDomain(domain, handler)` with a given `hasDomain`: `handler` is the
   * identity of a `RequestHandler`, or `None` for any other value, which
   * throws; a host already present throws; otherwise exactly that host is
   * added.
   */
  function AddedWith(domains: map<string, nat>, domain: string, handler: Option<nat>, present: bool)
    : (r: Result<map<string, nat>>)
    ensures handler.None? ==> r == Err(NotARequestHandler)
    ensures handler.Some? && present ==> r == Err(AlreadyRegistered(domain))
    ensures r.Ok? ==>
      && r.value.Keys == domains.Keys + {domain}
      && r.value[domain] == handler.value
      && forall d :: d in domains && d != domain ==> r.value[d] == domains[d]
  {
    if handler.None? then Err(NotARequestHandler)
    else if present then Err(AlreadyRegistered(domain))
    else Ok(domains[domain := handler.value])
  }

  function AddedAsWritten(domains: map<string, nat>, domain: string, handler: Option<nat>): Result<map<string, nat>> {
    AddedWith(domains, domain, handler, HasDomainAsWritten(domains, domain))
  }

  function Added(domains: map<string, nat>, domain: string, handler: Option<nat>): Result<map<string, nat>> {
    AddedWith(domains, domain, handler, HasDomain(domains, domain))
  }

  /** A host is registered at most once: a second registration fails and changes nothing. */
  lemma AddTwiceFails(domains: map<string, nat>, domain: string, first: nat, second: nat)
    requires Added(domains, domain, Some(first)).Ok?
    ensures var once := Added(domains, domain, Some(first)).value;
      && once[domain] == first
      && Added(once, domain, Some(second)) == Err(AlreadyRegistered(domain))
  {
  }

  /** `new ApiError({metadata: {error}})`: status 400 with the error in the body. */
  function BadRequest(error: string): (r: Response)
    ensures r.status == Some(400)
    ensures r.body.Stringified? && r.body.value.JObject?
    ensures "error" in r.body.value.fields && r.body.value.fields["error"] == JStr(error)
  {
    LegacyResponses.ApiError(ErrorInit(None, None, map[], None, None, map["error" := JStr(error)]))
  }

  /**
   * `onRequest(request)`, with `host` the parsed URL's host or the error
   * parsing threw: a registered host's handler answers, its result
   * returned unchanged; an unknown host is a 400 'Unknown Host', and any
   * exception a 400 carrying it. `present` is the `hasDomain` in use.
   */
  function AnswerWith(domains: map<string, nat>, host: Result<string>, request: nat, serve: Serve,
                      present: string -> bool): (r: Returned)
    ensures host.Ok? && host.value in domains && present(host.value) && serve(domains[host.value], request).Ok? ==>
      r == serve(domains[host.value], request).value
    ensures host.Ok? && !present(host.value) ==> r == IsResponse(Api(BadRequest("Unknown Host")))
    ensures host.Err? ==> r == IsResponse(Api(BadRequest(host.error)))
    ensures host.Ok? && host.value in domains && present(host.value) && serve(domains[host.value], request).Err? ==>
      r == IsResponse(Api(BadRequest(serve(domains[host.value], request).error)))
    ensures host.Ok? && host.value !in domains && present(host.value) ==> r == IsResponse(Api(BadRequest(NotAHandler)))
  {
    if host.Err? then IsResponse(Api(BadRequest(host.error)))
    else if !present(host.value) then IsResponse(Api(BadRequest("Unknown Host")))
    else
      var outcome := if host.value in domains then serve(domains[host.value], request) else Err(NotAHandler);
      match outcome
      case Ok(v) => v
      case Err(e) => IsResponse(Api(BadRequest(e)))
  }

  function AnswerAsWritten(domains: map<string, nat>, host: Result<string>, request: nat, serve: Serve): Returned {
    AnswerWith(domains, host, request, serve, d => HasDomainAsWritten(domains, d))
  }

  function Answer(domains: map<string, nat>, host: Result<string>, request: nat, serve: Serve): Returned {
    AnswerWith(domains, host, request, serve, d => HasDomain(domains, d))
  }

  /**
   * With `hasDomain` as written, a host named after an inherited property
   * is taken as registered: it cannot be added, and a request for it gets
   * the exception of calling a missing `onRequest`, not 'Unknown Host'. The
   * intended check adds it, and answers 'Unknown Host' before that.
   */
  lemma PrototypeHostAsWritten(handler: nat, request: nat, serve: Serve)
    ensures AddedAsWritten(map[], "toString", Some(handler)) == Err(AlreadyRegistered("toString"))
    ensures Added(map[], "toString", Some(handler)) == Ok(map["toString" := handler])
    ensures AnswerAsWritten(map[], Ok("constructor"), request, serve) == IsResponse(Api(BadRequest(NotAHandler)))
    ensures Answer(map[], Ok("constructor"), request, serve) == IsResponse(Api(BadRequest("Unknown Host")))
  {
    assert "toString" in PrototypeNames;
    assert "constructor" in PrototypeNames;
  }

  /** Away from the inherited names, the code as written and as intended agree. */
  lemma AgreeOffPrototype(domains: map<string, nat>, domain: string, handler: Option<nat>, request: nat, serve: Serve)
    requires domain !in PrototypeNames
    ensures AddedAsWritten(domains, domain, handler) == Added(domains, domain, handler)
    ensures AnswerAsWritten(domains, Ok(domain), request, serve) == Answer(domains, Ok(domain), request, serve)
  {
  }

  /** `EventHandler` of eventhandler.js. */
  class EventHandler {
    var domains: map<string, nat>

    constructor()
      ensures domains == map[]
    {
      domains := map[];
    }

    /** `addDomain(domain, handler)`: the method that `Added` specifies. */
    method AddDomain(domain: string, handler: Option<nat>) returns (r: Result<bool>)
      modifies this
      ensures r.Ok? <==> Added(old(domains), domain, handler).Ok?
      ensures r.Err? ==> r.error == Added(old(domains), domain, handler).error && domains == old(domains)
      ensures r.Ok? ==> domains == Added(old(domains), domain, handler).value
    {
      if handler.None? {
        return Err(NotARequestHandler);
      }
      if HasDomain(domains, domain) {
        return Err(AlreadyRegistered(domain));
      }
      domains := domains[domain := handler.value];
      return Ok(true);
    }

    /** `onRequest(request)`: the method that `Answer` specifies; it changes nothing. */
    method OnRequest(host: Result<string>, request: nat, serve: Serve) returns (r: Returned)
      ensures r == Answer(domains, host, request, serve)
      ensures host.Ok? && host.value !in domains ==> r == IsResponse(Api(BadRequest("Unknown Host")))
    {
      if host.Err? {
        return IsResponse(Api(BadRequest(host.error)));
      }
      if !HasDomain(domains, host.value) {
        return IsResponse(Api(BadRequest("Unknown Host")));
      }
      var outcome := serve(domains[host.value], request);
      match outcome
      case Ok(v) => r := v;
      case Err(e) => r := IsResponse(Api(BadRequest(e)));
    }
  }
}
