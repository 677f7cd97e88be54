/**
 * Request dispatch: `FetchRouter.onFetch`, `onRoute` and `_beforeResponse`
 * of routers.ts, `Route.handle` of helpers.ts, and the single-`try`
 * `onFetchEvent` of routers.js.
 *
 * Handlers and the `beforeResponse` hook are functions given by the caller:
 * a handler is known by its identity and called with what it can see of the
 * event; either may return a value or throw. `decodeURIComponent` is the
 * parameter `decode` (`None` when it throws), and `codes` is the status-text
 * table.
 */
module Dispatch {
  import opened Js
  import opened Regex
  import opened Sorting
  import opened Routes
  import opened Registry
  import opened Parameters
  import opened Events
  import opened Responses
  import LegacyResponses

  /** What a handler or the hook sees of the event: its route, method and parameters. */
  datatype View = View(route: string, verb: string, parameters: map<string, string>)

  /** A route handler, called with its identity and the event. */
  type Invoke = (nat, View) -> Result<Returned>

  /** `beforeResponse(response, event)`. */
  type Hook = (Reply, View) -> Result<Returned>

  /**
   * How `onFetch` ends: a response handed to `respondWith`, a return without
   * `respondWith` (the host then forwards the request), or an exception that
   * escapes the router.
   */
  datatype Outcome = Respond(reply: Reply) | Passed | Escaped(error: string)

  /** The route the dispatcher settles on, or why there is none. */
  datatype Verdict = NotFound | MethodNotAllowed | Pass(route: Route) | Handle(route: Route)

  /** `routes[i]` lists `verb`, and no route before it does. */
  predicate FirstAllowedAt(routes: seq<Route>, verb: string, i: int) {
    0 <= i < |routes| && verb in routes[i].methods && forall j :: 0 <= j < i ==> verb !in routes[j].methods
  }

  /**
   * `routes.filter((route) => route.methods.includes(verb))`: the routes
   * listing the method, in their order; the first of them is the first
   * route of `routes` that lists it.
   */
  function Allowed(routes: seq<Route>, verb: string): (rs: seq<Route>)
    ensures forall r :: r in rs <==> r in routes && verb in r.methods
    ensures rs != [] ==> exists i :: FirstAllowedAt(routes, verb, i) && routes[i] == rs[0]
    ensures rs == [] <==> forall r :: r in routes ==> verb !in r.methods
    decreases |routes|
  {
    if routes == [] then []
    else
      var rest := Allowed(routes[1..], verb);
      assert forall r :: r in routes <==> r == routes[0] || r in routes[1..];
      if verb in routes[0].methods then
        assert FirstAllowedAt(routes, verb, 0);
        [routes[0]] + rest
      else
        if rest != [] then
          var i :| FirstAllowedAt(routes[1..], verb, i) && routes[1..][i] == rest[0];
          assert FirstAllowedAt(routes, verb, i + 1);
          rest
        else rest
  }

  /**
   * The decision of `onFetch` on what `findAll` returned: not found when
   * nothing matched, method not allowed when nothing that matched lists the
   * method, otherwise the first route that lists it, passed on or handled
   * as its `pass` flag says.
   */
  function Select(found: seq<Route>, verb: string): (v: Verdict)
    ensures v == NotFound <==> found == []
    ensures v == MethodNotAllowed <==> found != [] && forall r :: r in found ==> verb !in r.methods
    ensures v.Pass? || v.Handle? ==>
      && (exists i :: FirstAllowedAt(found, verb, i) && found[i] == v.route)
      && v.Pass? == v.route.pass
  {
    if found == [] then NotFound
    else
      var allowed := Allowed(found, verb);
      if allowed == [] then MethodNotAllowed
      else if allowed[0].pass then Pass(allowed[0])
      else Handle(allowed[0])
  }

  /** The first route listing the method is the one that comes first. */
  lemma FirstAllowedUnique(routes: seq<Route>, verb: string, i: nat, j: nat)
    requires FirstAllowedAt(routes, verb, i) && FirstAllowedAt(routes, verb, j)
    ensures i == j
  {
  }

  /**
   * The winner outranks every other matching route that lists the method:
   * by priority and then key length in the current generation, by key
   * length in the earlier one. Filtering after sorting cannot let a
   * lower-ranked route win.
   */
  lemma WinnerOutranks(m: RouteMap, url: string, d: nat, verb: string)
    requires Bounded(m, d)
    ensures var found := Found(m, url, d);
      var v := Select(found, verb);
      (v.Pass? || v.Handle?) ==>
        forall r :: r in found && verb in r.methods ==>
          && (m.generation == Current ==> LexAbove(v.route, r, Priority, KeyLength))
          && (m.generation == Legacy ==> KeyLength(v.route) >= KeyLength(r))
  {
    var found := Found(m, url, d);
    FoundOrdered(m, url, d);
    if m.generation == Current {
      SelectedOutranksLex(found, verb);
    } else {
      SelectedOutranks(found, verb);
    }
  }

  /** On a list ordered by priority and then key length, the selected route outranks every allowed one. */
  lemma SelectedOutranksLex(found: seq<Route>, verb: string)
    requires LexSortedDesc(found, Priority, KeyLength)
    ensures var v := Select(found, verb);
      (v.Pass? || v.Handle?) ==>
        forall r :: r in found && verb in r.methods ==> LexAbove(v.route, r, Priority, KeyLength)
  {
    var v := Select(found, verb);
    if v.Pass? || v.Handle? {
      var i :| FirstAllowedAt(found, verb, i) && found[i] == v.route;
      forall r | r in found && verb in r.methods
        ensures LexAbove(v.route, r, Priority, KeyLength)
      {
        var j :| 0 <= j < |found| && found[j] == r;
        if j != i {
          assert i < j;
        }
      }
    }
  }

  /** On a list ordered by key length, the selected route has the longest key of the allowed ones. */
  lemma SelectedOutranks(found: seq<Route>, verb: string)
    requires SortedDesc(found, KeyLength)
    ensures var v := Select(found, verb);
      (v.Pass? || v.Handle?) ==>
        forall r :: r in found && verb in r.methods ==> KeyLength(v.route) >= KeyLength(r)
  {
    var v := Select(found, verb);
    if v.Pass? || v.Handle? {
      var i :| FirstAllowedAt(found, verb, i) && found[i] == v.route;
      forall r | r in found && verb in r.methods
        ensures KeyLength(v.route) >= KeyLength(r)
      {
        var j :| 0 <= j < |found| && found[j] == r;
        if j != i {
          assert i < j;
        }
      }
    }
  }

  /**
   * Nothing is found exactly when no route of the map matches and no
   * sub-router finds anything; a route that matches but lacks the method
   * gives method-not-allowed, never not-found.
   */
  lemma NotFoundExactly(m: RouteMap, url: string, d: nat, verb: string)
    requires Bounded(m, d)
    ensures Select(Found(m, url, d), verb) == NotFound <==>
      && (forall r :: r in m.routes ==> !r.Matches(url))
      && (forall i :: 0 <= i < |m.routers| ==> Found(m.routers[i].router.routes, url, d - 1) == [])
    ensures forall r :: r in m.routes && r.Matches(url) && verb !in r.methods ==>
      Select(Found(m, url, d), verb) != NotFound
  {
    FoundMembers(m, url, d);
    var found := Found(m, url, d);
    if found != [] {
      var r := found[0];
      assert r in found;
    }
    forall i | 0 <= i < |m.routers| && Found(m.routers[i].router.routes, url, d - 1) != []
      ensures found != []
    {
      var sub := Found(m.routers[i].router.routes, url, d - 1);
      var r := sub[0];
      assert r in sub;
      assert exists k :: 0 <= k < |m.routers| && r in Found(m.routers[k].router.routes, url, d - 1);
      assert r in found;
    }
  }

  // ---------------------------------------------------------------------
  // Route.handle

  /** Calls the route's handler; a route without one gives `undefined` (helpers.ts). */
  function Call(route: Route, view: View, invoke: Invoke): Result<Returned> {
    if route.handler.Some? then invoke(route.handler.value, view) else Ok(Value(JUndefined))
  }

  /**
   * `route.handle(event)`: the route's expression is matched against the
   * event's route again, the decoded captures are written into the
   * parameters, and the handler is called with them. Returns the handler's
   * result and the parameters afterwards; a capture that does not decode
   * throws before the handler runs.
   */
  function Handled(route: Route, view: View, decode: string -> Option<string>, invoke: Invoke)
    : (Result<Returned>, map<string, string>)
  {
    var m := Search(route.toks, view.route);
    if m.None? || |m.value| != |route.variables| then (Call(route, view, invoke), view.parameters)
    else
      var w := Written(view.parameters, route.variables, m.value, decode);
      if !w.1 then (Err(MalformedUri), w.0)
      else (Call(route, view.(parameters := w.0), invoke), w.0)
  }

  /**
   * For a route that matches, handling writes one decoded capture per
   * variable over the old parameters (keeping every other key) and calls
   * the handler with exactly those parameters.
   */
  lemma HandledWritesCaptures(route: Route, view: View, decode: string -> Option<string>, invoke: Invoke)
    requires WellFormed(route) && route.Matches(view.route)
    requires AllDecode(Search(route.toks, view.route).value, decode)
    ensures var cs := Search(route.toks, view.route).value;
      var (result, params) := Handled(route, view, decode, invoke);
      && |cs| == |route.variables|
      && result == Call(route, view.(parameters := params), invoke)
      && (forall k :: k in params <==> k in view.parameters || k in route.variables)
      && (forall k :: k in view.parameters && k !in route.variables ==> params[k] == view.parameters[k])
      && (forall i :: 0 <= i < |cs| && LastWrite(route.variables, i) ==>
            params[route.variables[i]] == decode(cs[i]).value)
  {
    CapturesPerVariable(route, view.route);
    var cs := Search(route.toks, view.route).value;
    WrittenMeaning(view.parameters, route.variables, cs, decode);
  }

  /** `Route.handle` on the event object: the method that `Handled` specifies. */
  method HandleRoute(route: Route, ev: RouterEvent, decode: string -> Option<string>, invoke: Invoke)
    returns (r: Result<Returned>)
    modifies ev.parameters
    ensures (r, ev.parameters.values) == Handled(route, View(ev.route, ev.verb, old(ev.parameters.values)), decode, invoke)
  {
    var found := Search(route.toks, ev.route);
    var extracted := ExtractParameters(found, route.variables, ev.parameters, decode);
    if extracted.Err? {
      return Err(extracted.error);
    }
    r := Call(route, View(ev.route, ev.verb, ev.parameters.values), invoke);
  }

  // ---------------------------------------------------------------------
  // FetchRouter of routers.ts

  /** `!!Object.assign({showServerError: true}, options).showServerError` */
  function ShowServerError(option: Option<Json>): (show: bool)
    ensures option.None? ==> show
    ensures option.Some? ==> (show <==> Truthy(option.value))
  {
    option.None? || Truthy(option.value)
  }

  /**
   * `_beforeResponse(response, event)`: without a hook, or when the hook
   * returns something falsy, the response stands; a `Response` it returns
   * replaces it and any other truthy value is wrapped. An exception from the
   * hook is not caught.
   */
  function BeforeResponse(hook: Option<Hook>, response: Reply, view: View, codes: map<int, string>): (r: Result<Reply>)
    ensures hook.None? ==> r == Ok(response)
    ensures hook.Some? && hook.value(response, view).Err? ==> r == Err(hook.value(response, view).error)
    ensures hook.Some? && hook.value(response, view).Ok? ==>
      var back := hook.value(response, view).value;
      && (back.IsResponse? ==> r == Ok(back.reply))
      && (back.Value? && Truthy(back.v) ==> r == Ok(Api(Wrap(back.v, codes))))
      && (back.Value? && !Truthy(back.v) ==> r == Ok(response))
  {
    match hook
    case None => Ok(response)
    case Some(f) =>
      match f(response, view)
      case Err(e) => Err(e)
      case Ok(IsResponse(x)) => Ok(x)
      case Ok(Value(v)) => Ok(if Truthy(v) then Api(Wrap(v, codes)) else response)
  }

  /** `respondWith(_beforeResponse(response, event))` */
  function Finish(hook: Option<Hook>, response: Reply, view: View, codes: map<int, string>): (o: Outcome)
    ensures hook.None? ==> o == Respond(response)
    ensures o.Respond? || o.Escaped?
  {
    match BeforeResponse(hook, response, view, codes)
    case Ok(x) => Respond(x)
    case Err(e) => Escaped(e)
  }

  /** The metadata of the 500 response: the error only when `showServerError` is set. */
  function ErrorMeta(error: string, show: bool): map<string, Json> {
    if show then map["error" := JStr(error)] else map[]
  }

  /**
   * The `try`/`catch` of `onRoute`: the handler's result, normalised, or a
   * 500 error whose body carries the error exactly when `show` is set.
   */
  function HandlerReply(result: Result<Returned>, show: bool, codes: map<int, string>): (r: Reply)
    ensures result.Ok? ==> r == Normalise(result.value, codes)
    ensures result.Err? ==>
      && r.Api? && r.response.status == Some(500)
      && r.response.body.Stringified? && r.response.body.value.JObject?
      && ("error" in r.response.body.value.fields <==> show)
      && (show ==> r.response.body.value.fields["error"] == JStr(result.error))
  {
    match result
    case Ok(v) => Normalise(v, codes)
    case Err(e) => Api(StatusError(500, ErrorMeta(e, show), codes))
  }

  /** `onRoute(event, route)`: handle, normalise or turn the exception into a 500, then the hook. */
  function OnRouteOutcome(route: Route, view: View, show: bool, decode: string -> Option<string>,
                          invoke: Invoke, hook: Option<Hook>, codes: map<int, string>): Outcome
  {
    var (result, params) := Handled(route, view, decode, invoke);
    Finish(hook, HandlerReply(result, show, codes), view.(parameters := params), codes)
  }

  /**
   * `onFetch` once the event exists and `findAll` returned `found`: 404 when
   * nothing matched, 405 when nothing matching lists the method (both
   * through the hook), nothing at all for a pass route, `onRoute` otherwise.
   */
  function FetchOutcome(found: seq<Route>, request: Incoming, show: bool, decode: string -> Option<string>,
                        invoke: Invoke, hook: Option<Hook>, codes: map<int, string>): Outcome
  {
    var view := View(RouteString(request), request.verb, map[]);
    match Select(found, request.verb)
    case NotFound => Finish(hook, Api(StatusError(404, map[], codes)), view, codes)
    case MethodNotAllowed => Finish(hook, Api(StatusError(405, map[], codes)), view, codes)
    case Pass(_) => Passed
    case Handle(route) => OnRouteOutcome(route, view, show, decode, invoke, hook, codes)
  }

  /** Without a hook, an empty `findAll` answers 404 and a method mismatch 405. */
  lemma FetchStatuses(found: seq<Route>, request: Incoming, show: bool, decode: string -> Option<string>,
                      invoke: Invoke, codes: map<int, string>)
    ensures var o := FetchOutcome(found, request, show, decode, invoke, None, codes);
      && (found == [] ==> o.Respond? && o.reply.Api? && o.reply.response.status == Some(404))
      && (found != [] && (forall r :: r in found ==> request.verb !in r.methods) ==>
            o.Respond? && o.reply.Api? && o.reply.response.status == Some(405))
  {
  }

  /**
   * A pass route that wins makes `onFetch` return without responding,
   * whatever the handlers and the hook would do: neither is consulted.
   */
  lemma PassSkipsHandler(found: seq<Route>, request: Incoming, show: bool, decode: string -> Option<string>,
                         invoke: Invoke, other: Invoke, hook: Option<Hook>, otherHook: Option<Hook>,
                         codes: map<int, string>)
    requires Select(found, request.verb).Pass?
    ensures FetchOutcome(found, request, show, decode, invoke, hook, codes) == Passed
    ensures FetchOutcome(found, request, show, decode, other, otherHook, codes) == Passed
  {
  }

  /**
   * Otherwise `onFetch` always responds or lets the hook's exception out; a
   * handler's exception becomes a 500 response, and its `Response` passes
   * through untouched when there is no hook.
   */
  lemma HandledOutcome(found: seq<Route>, request: Incoming, show: bool, decode: string -> Option<string>,
                       invoke: Invoke, codes: map<int, string>)
    requires Select(found, request.verb).Handle?
    ensures var route := Select(found, request.verb).route;
      var view := View(RouteString(request), request.verb, map[]);
      var o := FetchOutcome(found, request, show, decode, invoke, None, codes);
      && o.Respond?
      && (Handled(route, view, decode, invoke).0.Err? ==> o.reply.Api? && o.reply.response.status == Some(500))
      && (Handled(route, view, decode, invoke).0.Ok? && Handled(route, view, decode, invoke).0.value.IsResponse? ==>
            o.reply == Handled(route, view, decode, invoke).0.value.reply)
  {
  }

  /** `onRoute`: the method that `OnRouteOutcome` specifies. */
  method OnRoute(ev: RouterEvent, route: Route, show: bool, decode: string -> Option<string>,
                 invoke: Invoke, hook: Option<Hook>, codes: map<int, string>) returns (o: Outcome)
    modifies ev.parameters
    ensures o == OnRouteOutcome(route, View(ev.route, ev.verb, old(ev.parameters.values)), show, decode, invoke, hook, codes)
    ensures ev.parameters.values == Handled(route, View(ev.route, ev.verb, old(ev.parameters.values)), decode, invoke).1
  {
    var result := HandleRoute(route, ev, decode, invoke);
    var response := HandlerReply(result, show, codes);
    o := Finish(hook, response, View(ev.route, ev.verb, ev.parameters.values), codes);
  }

  /**
   * `FetchRouter.onFetch(fetchEvent)`: builds the event (an exception there
   * escapes), asks the router's map for every matching route, and ends as
   * `FetchOutcome` says.
   */
  method OnFetch(router: Router, request: Result<Incoming>, ghost d: nat, decode: string -> Option<string>,
                 invoke: Invoke, hook: Option<Hook>, codes: map<int, string>) returns (o: Outcome)
    requires router.kind.Fetch? && Bounded(router.routes, d)
    ensures request.Err? ==> o == Escaped(request.error)
    ensures request.Ok? ==>
      o == FetchOutcome(old(Found(router.routes, RouteString(request.value), d)), request.value,
                        router.kind.showServerError, decode, invoke, hook, codes)
  {
    if request.Err? {
      return Escaped(request.error);
    }
    var routes := router.routes.FindAll(RouteString(request.value), d);
    assert routes == old(Found(router.routes, RouteString(request.value), d));
    var ev := new RouterEvent(request.value);
    var view := View(ev.route, ev.verb, ev.parameters.values);
    if |routes| == 0 {
      return Finish(hook, Api(StatusError(404, map[], codes)), view, codes);
    }
    var allowed := Allowed(routes, ev.verb);
    if |allowed| == 0 {
      return Finish(hook, Api(StatusError(405, map[], codes)), view, codes);
    }
    var route := allowed[0];
    if route.pass {
      return Passed;
    }
    o := OnRoute(ev, route, router.kind.showServerError, decode, invoke, hook, codes);
  }

  // ---------------------------------------------------------------------
  // FetchRouter of routers.js

  /** `this.handler(event)`: the earlier `Route.handle` calls the handler unconditionally. */
  function LegacyCall(route: Route, view: View, invoke: Invoke): Result<Returned> {
    if route.handler.Some? then invoke(route.handler.value, view)
    else Err("TypeError: this.handler is not a function")
  }

  /** `route.handle(event)` of helpers.js. */
  function LegacyHandled(route: Route, view: View, decode: string -> Option<string>, invoke: Invoke)
    : (Result<Returned>, map<string, string>)
  {
    var m := Search(route.toks, view.route);
    if m.None? || |m.value| != |route.variables| then (LegacyCall(route, view, invoke), view.parameters)
    else
      var w := Written(view.parameters, route.variables, m.value, decode);
      if !w.1 then (Err(MalformedUri), w.0)
      else (LegacyCall(route, view.(parameters := w.0), invoke), w.0)
  }

  /**
   * `onFetchEvent` once the event exists and `findAll` returned `found`: 404,
   * 405, or the first route listing the method handled and its result
   * normalised; an exception anywhere becomes a 500 carrying the error.
   * There is no pass flag and no hook.
   */
  function LegacyFetchOutcome(found: seq<Route>, request: Incoming, decode: string -> Option<string>,
                              invoke: Invoke): (r: Reply)
    ensures found == [] ==> r == Api(LegacyResponses.ApiError(StatusOnly(404, map[])))
    ensures found != [] && (forall x :: x in found ==> request.verb !in x.methods) ==>
      r == Api(LegacyResponses.ApiError(StatusOnly(405, map[])))
    ensures Select(found, request.verb).Pass? || Select(found, request.verb).Handle? ==>
      var handled := LegacyHandled(Select(found, request.verb).route, View(RouteString(request), request.verb, map[]),
                                   decode, invoke).0;
      && (handled.Ok? ==> r == LegacyResponses.Normalise(handled.value))
      && (handled.Err? ==> r == Api(LegacyResponses.ServerError(handled.error)))
  {
    var view := View(RouteString(request), request.verb, map[]);
    if found == [] then Api(LegacyResponses.ApiError(StatusOnly(404, map[])))
    else
      var allowed := Allowed(found, request.verb);
      if allowed == [] then Api(LegacyResponses.ApiError(StatusOnly(405, map[])))
      else
        match LegacyHandled(allowed[0], view, decode, invoke).0
        case Ok(v) => LegacyResponses.Normalise(v)
        case Err(e) => Api(LegacyResponses.ServerError(e))
  }

  /**
   * The earlier router differs from the current one only in what it does
   * with the outcome: for a non-pass winner it handles the same route, and a
   * failure of the handler is a 500 in both, the earlier one always
   * carrying the error.
   */
  lemma LegacyHandlesSameRoute(found: seq<Route>, request: Incoming, decode: string -> Option<string>,
                               invoke: Invoke, codes: map<int, string>)
    requires Select(found, request.verb).Handle? && Select(found, request.verb).route.handler.Some?
    ensures var route := Select(found, request.verb).route;
      var view := View(RouteString(request), request.verb, map[]);
      var r := LegacyFetchOutcome(found, request, decode, invoke);
      && LegacyHandled(route, view, decode, invoke) == Handled(route, view, decode, invoke)
      && (Handled(route, view, decode, invoke).0.Err? ==>
            r.Api? && r.response.status == Some(500)
            && r.response.body.value.fields["error"] == JStr(Handled(route, view, decode, invoke).0.error))
  {
    var route := Select(found, request.verb).route;
    var view := View(RouteString(request), request.verb, map[]);
    assert found != [] && Allowed(found, request.verb) != [] && Allowed(found, request.verb)[0] == route;
    LegacyHandledAgrees(route, view, decode, invoke);
  }

  /** For a route with a handler, both generations of `handle` do the same. */
  lemma LegacyHandledAgrees(route: Route, view: View, decode: string -> Option<string>, invoke: Invoke)
    requires route.handler.Some?
    ensures LegacyHandled(route, view, decode, invoke) == Handled(route, view, decode, invoke)
  {
    assert forall v :: LegacyCall(route, v, invoke) == Call(route, v, invoke);
  }

  /** `route.handle(event)` of helpers.js on the event object. */
  method LegacyHandleRoute(route: Route, ev: LegacyRouterEvent, decode: string -> Option<string>, invoke: Invoke)
    returns (r: Result<Returned>)
    modifies ev.parameters
    ensures (r, ev.parameters.values) == LegacyHandled(route, View(ev.route, ev.verb, old(ev.parameters.values)), decode, invoke)
  {
    var found := Search(route.toks, ev.route);
    var extracted := ExtractParameters(found, route.variables, ev.parameters, decode);
    if extracted.Err? {
      return Err(extracted.error);
    }
    r := LegacyCall(route, View(ev.route, ev.verb, ev.parameters.values), invoke);
  }

  /**
   * `onFetchEvent(fetchEvent)` of routers.js: everything, the construction
   * of the event included, runs inside one `try`, so the result is always a
   * response.
   */
  method LegacyOnFetchEvent(router: Router, request: Result<Incoming>, copy: nat, ghost d: nat,
                            decode: string -> Option<string>, invoke: Invoke) returns (r: Reply)
    requires router.kind.Fetch? && Bounded(router.routes, d)
    ensures request.Err? ==> r == Api(LegacyResponses.ServerError(request.error))
    ensures request.Ok? ==>
      r == LegacyFetchOutcome(old(Found(router.routes, RouteString(request.value), d)), request.value, decode, invoke)
  {
    if request.Err? {
      return Api(LegacyResponses.ServerError(request.error));
    }
    var routes := router.routes.FindAll(RouteString(request.value), d);
    assert routes == old(Found(router.routes, RouteString(request.value), d));
    var ev := new LegacyRouterEvent(request.value, copy);
    if |routes| == 0 {
      return Api(LegacyResponses.ApiError(StatusOnly(404, map[])));
    }
    var allowed := Allowed(routes, ev.verb);
    if |allowed| == 0 {
      return Api(LegacyResponses.ApiError(StatusOnly(405, map[])));
    }
    var result := LegacyHandleRoute(allowed[0], ev, decode, invoke);
    match result
    case Ok(v) => r := LegacyResponses.Normalise(v);
    case Err(e) => r := Api(LegacyResponses.ServerError(e));
  }
}
