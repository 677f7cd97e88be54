/**
 * `RouteMap` and `Router` (helpers.ts, helpers.js) with the router kinds of
 * routers.ts / routers.js: a keyed registry of routes and of sub-routers,
 * and the registration calls that fill it.
 *
 * The current and the earlier generation share one class each; the
 * `generation` constant selects where they differ (the key a sub-router
 * needs, the order of `findAll`, the `Route` constructor and whether a
 * domain router checks a single path). Sub-routers are held by reference,
 * so routes added to a router after it was mounted are seen through every
 * map that holds it. A map that (indirectly) holds itself makes `findAll`
 * recurse forever; `Bounded` is the absence of such a cycle.
 */
module Registry {
  import opened Js
  import opened Regex
  import opened HttpMethods
  import opened Routes
  import opened Sorting

  datatype Generation = Current | Legacy

  /** `Router`, `FetchRouter`, `DomainRouter` or `BlueprintRouter`. */
  datatype Kind = Plain | Fetch(showServerError: bool) | Domain(domain: string) | Blueprint(path: string)

  /** An entry of `routers`, under the key the router had when it was added. */
  datatype Mount = Mount(key: string, router: Router)

  /** The argument of `RouteMap.add`, by its `instanceof`. */
  datatype Entry = RouteEntry(route: Route) | RouterEntry(router: Router) | OtherEntry

  /** The url argument of `route`: one pattern or an array of them. */
  datatype Urls = One(url: string) | Many(urls: seq<string>) {
    function List(): seq<string> {
      if One? then [url] else urls
    }
  }

  /** The arguments of `route` after the url. */
  datatype Call = Call(methods: Arg, handler: Arg, options: Arg)

  predicate HasRoute(routes: seq<Route>, key: string) {
    exists i :: 0 <= i < |routes| && routes[i].key == key
  }

  predicate HasMount(mounts: seq<Mount>, key: string) {
    exists i :: 0 <= i < |mounts| && mounts[i].key == key
  }

  /** No two routes share a key. */
  predicate UniqueKeys(routes: seq<Route>) {
    forall i, j :: 0 <= i < j < |routes| ==> routes[i].key != routes[j].key
  }

  function DuplicateRoute(key: string): string {
    "TypeError: Route " + key + " already exists"
  }

  function DuplicateRouter(key: string): string {
    "TypeError: Router with key " + key + " already exists"
  }

  const NoKey: string := "TypeError: Router must have a key"
  const NotRouteOrRouter: string := "TypeError: Route must be of type Route or Router"
  const NotAPath: string := "TypeError: DomainRouter routes need to be paths!"
  const NotABlueprint: string := "TypeError: Blueprint must be of type BlueprintRouter"

  /** Whether a sub-router key is accepted: truthy now, merely defined before. */
  predicate KeyAccepted(g: Generation, key: Option<string>) {
    key.Some? && (g == Current ==> key.value != "")
  }

  /** `key || domain` / `key || path`; the other kinds start without a key. */
  function InitialKey(kind: Kind, key: Option<string>): (k: Option<string>)
    ensures kind.Domain? || kind.Blueprint? ==> k.Some?
    ensures (kind.Domain? || kind.Blueprint?) && key.Some? && key.value != "" ==> k == key
    ensures kind.Plain? || kind.Fetch? ==> k.None?
  {
    match kind
    case Domain(d) => if key.None? || key.value == "" then Some(d) else key
    case Blueprint(p) => if key.None? || key.value == "" then Some(p) else key
    case _ => None
  }

  class RouteMap {
    const generation: Generation
    /** The map's values in insertion order (`this.values()`). */
    var routes: seq<Route>
    /** `this.routers`, in insertion order. */
    var routers: seq<Mount>

    /** The map's keys are unique, and so are the sub-router keys. */
    predicate Valid()
      reads this
    {
      && UniqueKeys(routes)
      && (forall i, j :: 0 <= i < j < |routers| ==> routers[i].key != routers[j].key)
    }

    constructor(generation: Generation)
      ensures this.generation == generation && routes == [] && routers == []
      ensures Valid()
    {
      this.generation := generation;
      routes := [];
      routers := [];
    }

    /**
     * `add(route)`: a route under a key not yet present, or a router whose
     * key is accepted and not yet present among the routers; anything else
     * throws and leaves the map as it was.
     */
    method Add(entry: Entry) returns (r: Result<()>)
      requires Valid()
      modifies this
      ensures Valid()
      ensures r.Err? ==> routes == old(routes) && routers == old(routers)
      ensures entry.OtherEntry? ==> r == Err(NotRouteOrRouter)
      ensures entry.RouteEntry? ==>
        if HasRoute(old(routes), entry.route.key)
        then r == Err(DuplicateRoute(entry.route.key))
        else r == Ok(()) && routes == old(routes) + [entry.route] && routers == old(routers)
      ensures entry.RouterEntry? ==>
        var key := entry.router.key;
        if !KeyAccepted(generation, key) then r == Err(NoKey)
        else if HasMount(old(routers), key.value) then r == Err(DuplicateRouter(key.value))
        else r == Ok(()) && routers == old(routers) + [Mount(key.value, entry.router)] && routes == old(routes)
    {
      match entry
      case RouteEntry(route) =>
        if exists i :: 0 <= i < |routes| && routes[i].key == route.key {
          return Err(DuplicateRoute(route.key));
        }
        routes := routes + [route];
        return Ok(());
      case RouterEntry(router) =>
        var key := router.key;
        if !KeyAccepted(generation, key) {
          return Err(NoKey);
        }
        if exists i :: 0 <= i < |routers| && routers[i].key == key.value {
          return Err(DuplicateRouter(key.value));
        }
        routers := routers + [Mount(key.value, router)];
        return Ok(());
      case OtherEntry =>
        return Err(NotRouteOrRouter);
    }

    /**
     * `findAll(url)`: the matching routes of this map, then what each
     * sub-router's map finds, ordered as `Order` says.
     */
    method FindAll(url: string, ghost d: nat) returns (found: seq<Route>)
      requires Bounded(this, d)
      ensures found == Found(this, url, d)
      decreases d, 1
    {
      var own := OwnMatches(url);
      var sub := FindInRouters(url, d);
      found := Order(generation, own + sub);
    }

    /** The matching routes of this map, in insertion order. */
    method OwnMatches(url: string) returns (collected: seq<Route>)
      ensures collected == Matching(routes, url)
    {
      collected := [];
      var i := 0;
      while i < |routes|
        invariant 0 <= i <= |routes|
        invariant collected == Matching(routes[..i], url)
      {
        assert routes[..i + 1][..i] == routes[..i];
        var route := routes[i];
        if route.Matches(url) {
          collected := collected + [route];
        }
        i := i + 1;
      }
      assert routes[..i] == routes;
    }

    /** What each sub-router's map finds, in the order the routers were added. */
    method FindInRouters(url: string, ghost d: nat) returns (collected: seq<Route>)
      requires Bounded(this, d)
      ensures collected == FoundIn(routers, url, d - 1)
      decreases d, 0
    {
      collected := [];
      var j := 0;
      while j < |routers|
        invariant 0 <= j <= |routers|
        invariant collected == FoundIn(routers[..j], url, d - 1)
      {
        assert routers[..j + 1][..j] == routers[..j];
        var sub := routers[j].router.routes.FindAll(url, d - 1);
        if |sub| > 0 {
          collected := collected + sub;
        }
        j := j + 1;
      }
      assert routers[..j] == routers;
    }
  }

  class Router {
    const generation: Generation
    const kind: Kind
    const routes: RouteMap
    var key: Option<string>

    /** The router's map belongs to its generation and is valid. */
    predicate Valid()
      reads this, routes
    {
      routes.generation == generation && routes.Valid()
    }

    /**
     * `new Router()`, `new FetchRouter(options)`, `new DomainRouter(domain, key)`
     * or `new BlueprintRouter(path, key)`, by `kind`.
     */
    constructor(generation: Generation, kind: Kind, key: Option<string>)
      ensures this.generation == generation && this.kind == kind
      ensures this.key == InitialKey(kind, key)
      ensures fresh(routes) && routes.routes == [] && routes.routers == []
      ensures Valid()
    {
      this.generation := generation;
      this.kind := kind;
      this.key := InitialKey(kind, key);
      routes := new RouteMap(generation);
    }

    /**
     * `route(url, methods, handler, options)`: one route per url, in order,
     * each prefixed by the router's domain or path; the first failure
     * throws, and the routes registered before it stay.
     */
    method Route(urls: Urls, call: Call) returns (r: Result<()>)
      requires Valid()
      modifies routes
      ensures Valid() && routes.routers == old(routes.routers)
      ensures (routes.routes, r) == Register(old(routes.routes), Built(generation, kind, urls, call))
    {
      var built := Built(generation, kind, urls, call);
      var i := 0;
      while i < |built|
        invariant 0 <= i <= |built|
        invariant Valid() && routes.routers == old(routes.routers)
        invariant Register(old(routes.routes), built) == Register(routes.routes, built[i..])
      {
        assert built[i..][0] == built[i] && built[i..][1..] == built[i + 1..];
        var route := built[i];
        if route.Err? {
          return Err(route.error);
        }
        var added := routes.Add(RouteEntry(route.value));
        if added.Err? {
          return added;
        }
        i := i + 1;
      }
      return Ok(());
    }

    /** `delete(url, handler, options)`: `route` with `[HttpMethods.DELETE]`. */
    method Delete(urls: Urls, handler: Arg, options: Arg) returns (r: Result<()>)
      requires Valid()
      modifies routes
      ensures Valid() && routes.routers == old(routes.routers)
      ensures (routes.routes, r)
           == Register(old(routes.routes), Built(generation, kind, urls, Call(AList(["DELETE"]), handler, options)))
    {
      r := Route(urls, Call(AList(["DELETE"]), handler, options));
    }

    /** `get(url, handler, options)`: `route` with `[HttpMethods.GET]`. */
    method Get(urls: Urls, handler: Arg, options: Arg) returns (r: Result<()>)
      requires Valid()
      modifies routes
      ensures Valid() && routes.routers == old(routes.routers)
      ensures (routes.routes, r)
           == Register(old(routes.routes), Built(generation, kind, urls, Call(AList(["GET"]), handler, options)))
    {
      r := Route(urls, Call(AList(["GET"]), handler, options));
    }

    /** `head(url, handler, options)`: `route` with `[HttpMethods.HEAD]`. */
    method Head(urls: Urls, handler: Arg, options: Arg) returns (r: Result<()>)
      requires Valid()
      modifies routes
      ensures Valid() && routes.routers == old(routes.routers)
      ensures (routes.routes, r)
           == Register(old(routes.routes), Built(generation, kind, urls, Call(AList(["HEAD"]), handler, options)))
    {
      r := Route(urls, Call(AList(["HEAD"]), handler, options));
    }

    /** `options(url, handler, options)`: `route` with `[HttpMethods.OPTIONS]`. */
    method Options(urls: Urls, handler: Arg, options: Arg) returns (r: Result<()>)
      requires Valid()
      modifies routes
      ensures Valid() && routes.routers == old(routes.routers)
      ensures (routes.routes, r)
           == Register(old(routes.routes), Built(generation, kind, urls, Call(AList(["OPTIONS"]), handler, options)))
    {
      r := Route(urls, Call(AList(["OPTIONS"]), handler, options));
    }

    /** `post(url, handler, options)`: `route` with `[HttpMethods.POST]`. */
    method Post(urls: Urls, handler: Arg, options: Arg) returns (r: Result<()>)
      requires Valid()
      modifies routes
      ensures Valid() && routes.routers == old(routes.routers)
      ensures (routes.routes, r)
           == Register(old(routes.routes), Built(generation, kind, urls, Call(AList(["POST"]), handler, options)))
    {
      r := Route(urls, Call(AList(["POST"]), handler, options));
    }

    /** `put(url, handler, options)`: `route` with `[HttpMethods.PUT]`. */
    method Put(urls: Urls, handler: Arg, options: Arg) returns (r: Result<()>)
      requires Valid()
      modifies routes
      ensures Valid() && routes.routers == old(routes.routers)
      ensures (routes.routes, r)
           == Register(old(routes.routes), Built(generation, kind, urls, Call(AList(["PUT"]), handler, options)))
    {
      r := Route(urls, Call(AList(["PUT"]), handler, options));
    }

    /** `FetchRouter.addRouter(router)`: mounts any router. */
    method AddRouter(router: Router) returns (r: Result<()>)
      requires kind.Fetch? && Valid()
      modifies routes
      ensures Valid() && routes.routes == old(routes.routes)
      ensures
        if !KeyAccepted(generation, router.key) then r == Err(NoKey)
        else if HasMount(old(routes.routers), router.key.value) then r == Err(DuplicateRouter(router.key.value))
        else r == Ok(()) && routes.routers == old(routes.routers) + [Mount(router.key.value, router)]
    {
      r := routes.Add(RouterEntry(router));
    }

    /**
     * `DomainRouter.addBlueprint(blueprint)`: mounts a blueprint router as it
     * is, without the domain prefix; anything else throws.
     */
    method AddBlueprint(entry: Entry) returns (r: Result<()>)
      requires kind.Domain? && Valid()
      modifies routes
      ensures Valid() && routes.routes == old(routes.routes)
      ensures !(entry.RouterEntry? && entry.router.kind.Blueprint?) ==>
        r == Err(NotABlueprint) && routes.routers == old(routes.routers)
      ensures entry.RouterEntry? && entry.router.kind.Blueprint? ==>
        var key := entry.router.key;
        if !KeyAccepted(generation, key) then r == Err(NoKey)
        else if HasMount(old(routes.routers), key.value) then r == Err(DuplicateRouter(key.value))
        else r == Ok(()) && routes.routers == old(routes.routers) + [Mount(key.value, entry.router)]
      ensures entry.RouterEntry? && entry.router.routes != routes ==>
        entry.router.routes.routes == old(entry.router.routes.routes)
    {
      if !(entry.RouterEntry? && entry.router.kind.Blueprint?) {
        return Err(NotABlueprint);
      }
      r := routes.Add(entry);
    }
  }

  // ---------------------------------------------------------------------
  // Registration

  /** The prefix a router puts before each pattern. */
  function Prefix(kind: Kind): string {
    match kind
    case Domain(d) => d
    case Blueprint(p) => p
    case _ => ""
  }

  /**
   * The route one url of a `route` call builds: a domain router refuses a
   * url that is not a path (for each element of an array; a single string
   * only in the earlier generation), then the prefixed pattern is compiled.
   */
  function Attempt(g: Generation, kind: Kind, many: bool, url: string, call: Call): (r: Result<Route>)
    ensures kind.Domain? && (many || g == Legacy) && !StartsWith(url, "/") ==> r == Err(NotAPath)
  {
    if kind.Domain? && (many || g == Legacy) && !StartsWith(url, "/") then Err(NotAPath)
    else if g == Legacy then NewLegacyRoute(Prefix(kind) + url, call.methods, call.handler)
    else NewRoute(Prefix(kind) + url, call.methods, call.handler, call.options)
  }

  /** Every registered route is well formed and compiled from the prefixed url. */
  lemma AttemptWellFormed(g: Generation, kind: Kind, many: bool, url: string, call: Call)
    ensures var r := Attempt(g, kind, many, url, call);
      r.Ok? ==> WellFormed(r.value) && r.value.toks == Pattern.UrlToRegexpFixed(Prefix(kind) + url).toks
  {
    var u := Prefix(kind) + url;
    if kind.Domain? && (many || g == Legacy) && !StartsWith(url, "/") {
    } else if g == Legacy {
      NewLegacyRouteWellFormed(u, call.methods, call.handler);
    } else {
      NewRouteWellFormed(u, call.methods, call.handler, call.options);
    }
  }

  const UrlNotString: string := "TypeError: url.startsWith is not a function"

  /**
   * The routes a `route` call builds. The earlier generation has no array
   * case: a domain router's `url.startsWith` throws on the array, a
   * blueprint router's `this.path + url` joins it with commas into one url,
   * and any other router's constructor throws in `urlToRegexp` once the
   * methods and handler pass.
   */
  function Built(g: Generation, kind: Kind, urls: Urls, call: Call): seq<Result<Route>> {
    if g == Current || urls.One? then Attempts(g, kind, urls.Many?, urls.List(), call)
    else if kind.Domain? then [Err(UrlNotString)]
    else if kind.Blueprint? then [Attempt(g, kind, false, Join(urls.urls, ","), call)]
    else
      match NewLegacyRoute("", call.methods, call.handler)
      case Err(e) => [Err(e)]
      case Ok(_) => [Err(UrlNotString)]
  }

  /**
   * An array of urls in the earlier generation: a domain router or a plain
   * one registers nothing and throws; a blueprint router registers at most
   * the one route of the comma-joined url.
   */
  lemma LegacyArrayUrls(routes: seq<Route>, kind: Kind, urls: seq<string>, call: Call)
    ensures var out := Register(routes, Built(Legacy, kind, Many(urls), call));
      && (!kind.Blueprint? ==> out.0 == routes && out.1.Err?)
      && (kind.Domain? ==> out.1 == Err(UrlNotString))
      && (kind.Blueprint? ==>
            out == Register(routes, [NewLegacyRoute(Prefix(kind) + Join(urls, ","), call.methods, call.handler)]))
  {
  }

  /** The route each url builds, in order. */
  function Attempts(g: Generation, kind: Kind, many: bool, urls: seq<string>, call: Call): seq<Result<Route>> {
    MapUrls((u: string) => Attempt(g, kind, many, u, call), urls)
  }

  function MapUrls(f: string -> Result<Route>, urls: seq<string>): seq<Result<Route>>
    decreases |urls|
  {
    if urls == [] then [] else [f(urls[0])] + MapUrls(f, urls[1..])
  }

  lemma {:induction false} MapUrlsIndex(f: string -> Result<Route>, urls: seq<string>)
    ensures |MapUrls(f, urls)| == |urls|
    ensures forall i :: 0 <= i < |urls| ==> MapUrls(f, urls)[i] == f(urls[i])
    decreases |urls|
  {
    if urls != [] {
      MapUrlsIndex(f, urls[1..]);
      forall i | 0 < i < |urls| ensures MapUrls(f, urls)[i] == f(urls[i]) {
        assert urls[1..][i - 1] == urls[i];
      }
    }
  }

  /**
   * The routes after registering the built routes in order, and whether
   * one failed: the first route that could not be built or whose key is
   * taken stops it.
   */
  function Register(routes: seq<Route>, built: seq<Result<Route>>): (seq<Route>, Result<()>)
    decreases |built|
  {
    if built == [] then (routes, Ok(()))
    else
      match built[0]
      case Err(e) => (routes, Err(e))
      case Ok(route) =>
        if HasRoute(routes, route.key) then (routes, Err(DuplicateRoute(route.key)))
        else Register(routes + [route], built[1..])
  }

  /**
   * Registration appends one route per url, in order, the route built
   * from that url; it succeeds exactly when every url was registered, and a
   * failure keeps the routes registered before it.
   */
  lemma {:induction false} RegisterMeaning(routes: seq<Route>, built: seq<Result<Route>>)
    ensures var out := Register(routes, built).0;
      && |routes| <= |out| <= |routes| + |built|
      && out[..|routes|] == routes
      && (forall i :: 0 <= i < |out| - |routes| ==> built[i].Ok? && out[|routes| + i] == built[i].value)
    ensures Register(routes, built).1.Ok? <==> |Register(routes, built).0| == |routes| + |built|
    decreases |built|
  {
    if built != [] && built[0].Ok? && !HasRoute(routes, built[0].value.key) {
      var rs := routes + [built[0].value];
      RegisterMeaning(rs, built[1..]);
      var out := Register(rs, built[1..]).0;
      assert out[..|routes|] == routes by {
        assert out[..|rs|] == rs;
        assert out[..|routes|] == out[..|rs|][..|routes|];
      }
      forall i | 0 <= i < |out| - |routes|
        ensures built[i].Ok? && out[|routes| + i] == built[i].value
      {
        if i == 0 {
          assert out[|routes|] == out[..|rs|][|routes|];
        } else {
          assert built[1..][i - 1] == built[i];
        }
      }
    }
  }

  /**
   * A `route` call registers, for its first urls in order, the route each
   * one builds, and fails exactly when it did not get through all of them.
   */
  lemma RegisterUrls(routes: seq<Route>, g: Generation, kind: Kind, many: bool, urls: seq<string>, call: Call)
    ensures var out := Register(routes, Attempts(g, kind, many, urls, call));
      && |routes| <= |out.0| <= |routes| + |urls|
      && out.0[..|routes|] == routes
      && (forall i :: 0 <= i < |out.0| - |routes| ==>
            Attempt(g, kind, many, urls[i], call).Ok? && out.0[|routes| + i] == Attempt(g, kind, many, urls[i], call).value)
      && (out.1.Ok? <==> |out.0| == |routes| + |urls|)
  {
    MapUrlsIndex((u: string) => Attempt(g, kind, many, u, call), urls);
    RegisterMeaning(routes, Attempts(g, kind, many, urls, call));
  }

  /** A registration keeps the keys unique. */
  lemma {:induction false} RegisterKeepsKeysUnique(routes: seq<Route>, built: seq<Result<Route>>)
    requires UniqueKeys(routes)
    ensures UniqueKeys(Register(routes, built).0)
    decreases |built|
  {
    if built != [] && built[0].Ok? && !HasRoute(routes, built[0].value.key) {
      var rs := routes + [built[0].value];
      forall i, j | 0 <= i < j < |rs| ensures rs[i].key != rs[j].key {
        if j == |routes| {
          assert routes[i].key != built[0].value.key;
        }
      }
      RegisterKeepsKeysUnique(rs, built[1..]);
      assert Register(routes, built) == Register(rs, built[1..]);
    } else {
      assert Register(routes, built).0 == routes;
    }
  }

  /** Each verb helper registers routes with exactly its one method. */
  lemma VerbMethod(g: Generation, kind: Kind, many: bool, url: string, verb: string, handler: Arg, options: Arg)
    requires IsMethod(verb)
    ensures Attempt(g, kind, many, url, Call(AList([verb]), handler, options)).Ok? ==>
      Attempt(g, kind, many, url, Call(AList([verb]), handler, options)).value.methods == [verb]
  {
    var u := Prefix(kind) + url;
    var a := Attempt(g, kind, many, url, Call(AList([verb]), handler, options));
    NewRouteVerb(u, verb, handler, options);
    NewLegacyRouteVerb(u, verb, handler);
    if kind.Domain? && (many || g == Legacy) && !StartsWith(url, "/") {
    } else if g == Legacy {
      assert a == NewLegacyRoute(u, AList([verb]), handler);
    } else {
      assert a == NewRoute(u, AList([verb]), handler, options);
    }
  }

  // ---------------------------------------------------------------------
  // findAll

  /** Nesting of sub-routers is less than `d` deep, so `findAll` ends. */
  ghost predicate Bounded(m: RouteMap, d: nat)
    reads *
    decreases d
  {
    d > 0 && forall i :: 0 <= i < |m.routers| ==> Bounded(m.routers[i].router.routes, d - 1)
  }

  /** The routes that match `url`, in their order. */
  function Matching(routes: seq<Route>, url: string): seq<Route>
    decreases |routes|
  {
    if routes == [] then []
    else
      var last := routes[|routes| - 1];
      Matching(routes[..|routes| - 1], url) + (if last.Matches(url) then [last] else [])
  }

  lemma {:induction false} MatchingMembers(routes: seq<Route>, url: string)
    ensures forall r :: r in Matching(routes, url) <==> r in routes && r.Matches(url)
    decreases |routes|
  {
    if routes != [] {
      MatchingMembers(routes[..|routes| - 1], url);
      assert forall r :: r in routes <==> r in routes[..|routes| - 1] || r == routes[|routes| - 1];
    }
  }

  function KeyLength(r: Route): int {
    |r.key|
  }

  function Priority(r: Route): int {
    r.priority
  }

  /**
   * The order of `findAll`: a stable sort by key length, descending, then
   * (current generation only) a stable sort by priority, descending.
   */
  function Order(g: Generation, xs: seq<Route>): seq<Route> {
    if g == Legacy then SortDesc(xs, KeyLength) else SortDesc(SortDesc(xs, KeyLength), Priority)
  }

  /** The routes `findAll` collects before sorting: own matches, then each sub-router's result. */
  ghost function Collected(m: RouteMap, url: string, d: nat): seq<Route>
    reads *
    requires Bounded(m, d)
    decreases d, 1
  {
    Matching(m.routes, url) + FoundIn(m.routers, url, d - 1)
  }

  ghost function FoundIn(mounts: seq<Mount>, url: string, d: nat): seq<Route>
    reads *
    requires forall i :: 0 <= i < |mounts| ==> Bounded(mounts[i].router.routes, d)
    decreases d, 3, |mounts|
  {
    if mounts == [] then []
    else
      FoundIn(mounts[..|mounts| - 1], url, d) + Found(mounts[|mounts| - 1].router.routes, url, d)
  }

  ghost function Found(m: RouteMap, url: string, d: nat): seq<Route>
    reads *
    requires Bounded(m, d)
    decreases d, 2
  {
    Order(m.generation, Collected(m, url, d))
  }

  /** `findAll` returns a permutation of what it collects. */
  lemma FoundPermutes(m: RouteMap, url: string, d: nat)
    requires Bounded(m, d)
    ensures multiset(Found(m, url, d)) == multiset(Collected(m, url, d))
  {
    var c := Collected(m, url, d);
    SortDescPermutation(c, KeyLength);
    SortDescPermutation(SortDesc(c, KeyLength), Priority);
  }

  /**
   * The current `findAll` orders by priority and then by key length, the
   * earlier one by key length alone, both descending.
   */
  lemma FoundOrdered(m: RouteMap, url: string, d: nat)
    requires Bounded(m, d)
    ensures m.generation == Current ==> LexSortedDesc(Found(m, url, d), Priority, KeyLength)
    ensures m.generation == Legacy ==> SortedDesc(Found(m, url, d), KeyLength)
  {
    var c := Collected(m, url, d);
    SortDescSorted(c, KeyLength);
    if m.generation == Current {
      SortAfterSortIsLex(SortDesc(c, KeyLength), Priority, KeyLength);
    }
  }

  /**
   * Both sorts are stable: routes of equal priority keep the key-length
   * order, and routes of equal key length keep the order they were
   * collected in (own routes first, then each sub-router's).
   */
  lemma FoundStable(m: RouteMap, url: string, d: nat, k: int)
    requires Bounded(m, d)
    ensures var c := Collected(m, url, d);
      && Ties(SortDesc(c, KeyLength), KeyLength, k) == Ties(c, KeyLength, k)
      && (m.generation == Current ==>
            Ties(Found(m, url, d), Priority, k) == Ties(SortDesc(c, KeyLength), Priority, k))
      && (m.generation == Legacy ==> Ties(Found(m, url, d), KeyLength, k) == Ties(c, KeyLength, k))
  {
    var c := Collected(m, url, d);
    SortDescStable(c, KeyLength, k);
    SortDescStable(SortDesc(c, KeyLength), Priority, k);
  }

  /** A route one sub-router's map finds is among those of all sub-routers. */
  lemma {:induction false} FoundInHas(mounts: seq<Mount>, url: string, d: nat, i: nat, r: Route)
    requires forall k :: 0 <= k < |mounts| ==> Bounded(mounts[k].router.routes, d)
    requires i < |mounts| && r in Found(mounts[i].router.routes, url, d)
    ensures r in FoundIn(mounts, url, d)
    decreases |mounts|
  {
    if i < |mounts| - 1 {
      var init := mounts[..|mounts| - 1];
      assert init[i] == mounts[i];
      FoundInHas(init, url, d, i, r);
    }
  }

  /** A route found among all sub-routers comes from one of them. */
  lemma {:induction false} FoundInFrom(mounts: seq<Mount>, url: string, d: nat, r: Route) returns (i: nat)
    requires forall k :: 0 <= k < |mounts| ==> Bounded(mounts[k].router.routes, d)
    requires r in FoundIn(mounts, url, d)
    ensures i < |mounts| && r in Found(mounts[i].router.routes, url, d)
    decreases |mounts|
  {
    var init := mounts[..|mounts| - 1];
    if r in FoundIn(init, url, d) {
      i := FoundInFrom(init, url, d, r);
      assert init[i] == mounts[i];
    } else {
      i := |mounts| - 1;
    }
  }

  /** `findAll` returns the same routes it collected. */
  lemma FoundSameRoutes(m: RouteMap, url: string, d: nat)
    requires Bounded(m, d)
    ensures forall r :: r in Found(m, url, d) <==> r in Collected(m, url, d)
  {
    FoundPermutes(m, url, d);
    forall r ensures r in Found(m, url, d) <==> r in Collected(m, url, d) {
      assert r in Found(m, url, d) <==> r in multiset(Found(m, url, d));
      assert r in Collected(m, url, d) <==> r in multiset(Collected(m, url, d));
    }
  }

  /**
   * `findAll` returns exactly the matching routes of this map and what the
   * sub-routers' maps find.
   */
  lemma FoundMembers(m: RouteMap, url: string, d: nat)
    requires Bounded(m, d)
    ensures forall r :: r in Found(m, url, d) <==>
      (r in m.routes && r.Matches(url)) ||
      exists i :: 0 <= i < |m.routers| && r in Found(m.routers[i].router.routes, url, d - 1)
  {
    FoundSameRoutes(m, url, d);
    MatchingMembers(m.routes, url);
    forall r ensures r in Found(m, url, d) <==>
      (r in m.routes && r.Matches(url)) ||
      exists i :: 0 <= i < |m.routers| && r in Found(m.routers[i].router.routes, url, d - 1)
    {
      FoundInMember(m.routers, url, d - 1, r);
    }
  }

  lemma FoundInMember(mounts: seq<Mount>, url: string, d: nat, r: Route)
    requires forall k :: 0 <= k < |mounts| ==> Bounded(mounts[k].router.routes, d)
    ensures r in FoundIn(mounts, url, d) <==>
      exists i :: 0 <= i < |mounts| && r in Found(mounts[i].router.routes, url, d)
  {
    if r in FoundIn(mounts, url, d) {
      var i := FoundInFrom(mounts, url, d, r);
    }
    if exists i :: 0 <= i < |mounts| && r in Found(mounts[i].router.routes, url, d) {
      var i :| 0 <= i < |mounts| && r in Found(mounts[i].router.routes, url, d);
      FoundInHas(mounts, url, d, i, r);
    }
  }

  /** Every route `findAll` returns matches the url. */
  lemma {:induction false} FoundMatch(m: RouteMap, url: string, d: nat)
    requires Bounded(m, d)
    ensures forall r :: r in Found(m, url, d) ==> r.Matches(url)
    decreases d
  {
    FoundMembers(m, url, d);
    forall i | 0 <= i < |m.routers| ensures forall r :: r in Found(m.routers[i].router.routes, url, d - 1) ==> r.Matches(url) {
      FoundMatch(m.routers[i].router.routes, url, d - 1);
    }
  }
}
