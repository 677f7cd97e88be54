/**
 * `Route` (helpers.ts, and its earlier form in helpers.js): a compiled
 * pattern with its methods, handler and registry key.
 *
 * A handler function is known by its identity; `handler` is `None` when the
 * route was given no function (only a pass route may be). Both generations
 * compile the pattern with `UrlToRegexpFixed`, the `urlToRegexp` whose
 * `...` test reads the string it rewrites.
 */
module Routes {
  import opened Js
  import opened Regex
  import opened Pattern
  import opened HttpMethods
  import opened Sorting

  datatype Route = Route(
    handler: Option<nat>,
    methods: seq<string>,
    toks: seq<Tok>,
    variables: seq<string>,
    key: string,
    pass: bool,
    priority: int)
  {
    /** `route.matches(url)` */
    predicate Matches(url: string) {
      Search(toks, url).Some?
    }
  }

  /** The `pass` and `priority` an options argument supplies; anything but an object supplies neither. */
  function OptionsOf(a: Arg): (o: (bool, int))
    ensures !a.AObj? ==> o == (false, 0)
  {
    if a.AObj? then (a.pass, a.priority) else (false, 0)
  }

  /** `methods.join('.') + '#' + regexp` */
  function Key(methods: seq<string>, toks: seq<Tok>): string {
    Join(methods, ".") + "#" + RegexString(toks)
  }

  const HandlerOrPass: string :=
    "TypeError: Handler has to be of function type or options must have pass as true"
  const HandlerNotFunction: string := "TypeError: Handler has to be of function type"

  /** A compiled route with the given parts. */
  function Build(url: string, handler: Option<nat>, methods: seq<string>, pass: bool, priority: int): (r: Route)
    ensures r.toks == UrlToRegexpFixed(url).toks && r.variables == UrlToRegexpFixed(url).variables
    ensures r.key == Key(methods, r.toks)
    ensures r.handler == handler && r.methods == methods && r.pass == pass && r.priority == priority
  {
    var c := UrlToRegexpFixed(url);
    Route(handler, methods, c.toks, c.variables, Key(methods, c.toks), pass, priority)
  }

  /** `typeof(x) === 'object'`: an object literal, an array or `null`. */
  predicate IsObject(a: Arg) {
    a.AObj? || a.AList? || a.ANull?
  }

  /** `typeof(methods) === 'object' && !Array.isArray(methods)`: the options stand in for the methods. */
  predicate OptionsInPlace(methods: Arg) {
    methods.AObj? || methods.ANull?
  }

  /** Whether the constructor normalises its `methods` argument, which is then neither handler nor options. */
  predicate MethodsGiven(methods: Arg) {
    !methods.AFunc? && !OptionsInPlace(methods)
  }

  /** The argument the constructor keeps as the handler: a function in the methods' place wins. */
  function HandlerArg(methods: Arg, handler: Arg): Arg {
    if methods.AFunc? then methods else handler
  }

  /**
   * The argument the constructor reads `pass` and `priority` from: the one
   * after a function in the methods' place, an options object in the
   * methods' place, an object (or array) in the handler's place, and
   * otherwise the fourth argument.
   */
  function OptionsArg(methods: Arg, handler: Arg, options: Arg): Arg {
    if methods.AFunc? then handler
    else if OptionsInPlace(methods) then methods
    else if IsObject(handler) then handler
    else options
  }

  /**
   * `new Route(url, methods, handler, options)` (helpers.ts). A function in
   * place of the methods is the handler and the next argument the options;
   * an object (or `null`) in place of the methods is the options; otherwise
   * the methods are normalised and an object handler is the options. The
   * methods default to `['GET']`, and a route without a function handler
   * must be a pass route.
   */
  function NewRoute(url: string, methods: Arg, handler: Arg, options: Arg): (r: Result<Route>)
    ensures r.Ok? <==>
      && (MethodsGiven(methods) ==> CheckHttpMethods(methods).Ok?)
      && (HandlerArg(methods, handler).AFunc? || OptionsOf(OptionsArg(methods, handler, options)).0)
    ensures r.Err? ==>
      r.error == if MethodsGiven(methods) && CheckHttpMethods(methods).Err? then CheckHttpMethods(methods).error
                 else HandlerOrPass
    ensures r.Ok? ==>
      && r.value.methods == (if MethodsGiven(methods) then CheckHttpMethods(methods).value else ["GET"])
      && r.value.handler == (if HandlerArg(methods, handler).AFunc? then Some(HandlerArg(methods, handler).id) else None)
      && (r.value.pass, r.value.priority) == OptionsOf(OptionsArg(methods, handler, options))
      && r.value.key == Key(r.value.methods, r.value.toks)
      && r.value.toks == UrlToRegexpFixed(url).toks && r.value.variables == UrlToRegexpFixed(url).variables
  {
    var (checked, h, o) :=
      if methods.AFunc? then (Ok(["GET"]), methods, handler)
      else if methods.AObj? || methods.ANull? then (Ok(["GET"]), handler, methods)
      else (CheckHttpMethods(methods), handler, if IsObject(handler) then handler else options);
    match checked
    case Err(e) => Err(e)
    case Ok(ms) =>
      var (pass, priority) := OptionsOf(o);
      if !h.AFunc? && !pass then Err(HandlerOrPass)
      else Ok(Build(url, if h.AFunc? then Some(h.id) else None, ms, pass, priority))
  }

  /**
   * `new Route(url, methods, handler)` (helpers.js): a function in place of
   * the methods is the handler, with `['GET']`; otherwise the handler must be
   * a function and the methods are normalised. There is no pass flag and
   * no priority.
   */
  function NewLegacyRoute(url: string, methods: Arg, handler: Arg): (r: Result<Route>)
    ensures r.Ok? <==> methods.AFunc? || (handler.AFunc? && CheckHttpMethods(methods).Ok?)
    ensures r.Err? ==> r.error == if !handler.AFunc? then HandlerNotFunction else CheckHttpMethods(methods).error
    ensures r.Ok? ==>
      && r.value.methods == (if methods.AFunc? then ["GET"] else CheckHttpMethods(methods).value)
      && r.value.handler == Some(HandlerArg(methods, handler).id)
      && !r.value.pass && r.value.priority == 0
      && r.value.key == Key(r.value.methods, r.value.toks)
      && r.value.toks == UrlToRegexpFixed(url).toks && r.value.variables == UrlToRegexpFixed(url).variables
  {
    if methods.AFunc? then Ok(Build(url, Some(methods.id), ["GET"], false, 0))
    else if !handler.AFunc? then Err(HandlerNotFunction)
    else
      match CheckHttpMethods(methods)
      case Err(e) => Err(e)
      case Ok(ms) => Ok(Build(url, Some(handler.id), ms, false, 0))
  }

  /**
   * What every constructed route satisfies: recognised methods in strictly
   * ascending order, a function handler unless it is a pass route, and an
   * anchored expression with one group per variable.
   */
  ghost predicate WellFormed(r: Route) {
    && r.methods != [] && (forall m :: m in r.methods ==> IsMethod(m)) && StrictlyAscending(r.methods)
    && (r.handler.None? ==> r.pass)
    && |r.toks| >= 2 && r.toks[0] == Lit('^')
    && GroupNames(r.toks) == r.variables
  }

  /** What every constructed route satisfies: see `WellFormed`. */
  lemma NewRouteWellFormed(url: string, methods: Arg, handler: Arg, options: Arg)
    ensures NewRoute(url, methods, handler, options).Ok? ==>
      && WellFormed(NewRoute(url, methods, handler, options).value)
      && NewRoute(url, methods, handler, options).value.toks == UrlToRegexpFixed(url).toks
  {
    CheckHttpMethodsMeaning(methods);
  }

  /** Every route the earlier constructor builds is well formed and compiled by the corrected compiler. */
  lemma NewLegacyRouteWellFormed(url: string, methods: Arg, handler: Arg)
    ensures NewLegacyRoute(url, methods, handler).Ok? ==>
      && WellFormed(NewLegacyRoute(url, methods, handler).value)
      && NewLegacyRoute(url, methods, handler).value.toks == UrlToRegexpFixed(url).toks
  {
    CheckHttpMethodsMeaning(methods);
  }

  /** A route given the one-method list `[verb]` has exactly that method. */
  lemma NewRouteVerb(url: string, verb: string, handler: Arg, options: Arg)
    requires IsMethod(verb)
    ensures NewRoute(url, AList([verb]), handler, options).Ok? ==>
      NewRoute(url, AList([verb]), handler, options).value.methods == [verb]
  {
    OneMethodList(verb);
  }

  lemma NewLegacyRouteVerb(url: string, verb: string, handler: Arg)
    requires IsMethod(verb)
    ensures NewLegacyRoute(url, AList([verb]), handler).Ok? ==>
      NewLegacyRoute(url, AList([verb]), handler).value.methods == [verb]
  {
    OneMethodList(verb);
  }

  /**
   * An anchored route matches exactly the strings its expression accepts
   * from the start.
   */
  lemma MatchesLanguage(r: Route, url: string)
    requires WellFormed(r)
    ensures r.Matches(url) <==> Accepts(r.toks, url, 0)
    ensures r.Matches(url) ==> Search(r.toks, url) == Captures(r.toks, url, 0)
  {
    AnchoredSearch(r.toks, url);
    CapturesAgree(r.toks, url, 0);
  }

  lemma {:induction false} GroupCount(toks: seq<Tok>)
    ensures |Groups(toks)| == |GroupNames(toks)|
  {
    if toks != [] {
      GroupCount(toks[1..]);
    }
  }

  /** A matching route captures exactly one value per variable. */
  lemma CapturesPerVariable(r: Route, url: string)
    requires WellFormed(r) && r.Matches(url)
    ensures |Search(r.toks, url).value| == |r.variables|
  {
    GroupCount(r.toks);
  }
}
