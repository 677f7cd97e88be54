/**
 * `DomainHandler` of domainhandler.js: the routes of one domain, kept in a
 * `Map` keyed by `methods.join('#') + '#' + regexp`, looked up first-match
 * in insertion order with `'*'` standing for every method.
 *
 * A `Map` is a sequence of entries with distinct keys in insertion order:
 * `set` on a present key replaces the value where it stands, on a new key
 * appends, and `delete` drops the entry.
 */
module Domains {
  import opened Js
  import opened Regex
  import opened Pattern
  import opened HttpMethods
  import opened Sorting
  import opened Parameters
  import opened Events
  import opened Responses
  import LegacyResponses
  import Dispatch

  /** The value stored for a route: `{handler, methods, regexp, variables}`. */
  datatype DomainRoute = DomainRoute(handler: nat, methods: seq<string>, toks: seq<Tok>, variables: seq<string>)

  /** One entry of the `routes` map. */
  datatype Entry = Entry(key: string, route: DomainRoute)

  const NotAFunction: string := "Error: Handler must be a function!"

  /** `methods.join('#') + '#' + regexp` */
  function RouteKey(methods: seq<string>, toks: seq<Tok>): string {
    Join(methods, "#") + "#" + RegexString(toks)
  }

  /** The keys of the map, in insertion order. */
  function Keys(entries: seq<Entry>): (ks: seq<string>)
    ensures |ks| == |entries| && forall i :: 0 <= i < |entries| ==> ks[i] == entries[i].key
  {
    if entries == [] then [] else [entries[0].key] + Keys(entries[1..])
  }

  predicate DistinctKeys(entries: seq<Entry>) {
    forall i, j :: 0 <= i < j < |entries| ==> entries[i].key != entries[j].key
  }

  /** `map.get(key)` */
  function Lookup(entries: seq<Entry>, key: string): (r: Option<DomainRoute>)
    ensures r.Some? <==> key in Keys(entries)
    ensures r.Some? ==> exists i :: 0 <= i < |entries| && entries[i] == Entry(key, r.value)
  {
    if entries == [] then None
    else if entries[0].key == key then Some(entries[0].route)
    else
      var r := Lookup(entries[1..], key);
      if r.Some? then
        var i :| 0 <= i < |entries[1..]| && entries[1..][i] == Entry(key, r.value);
        assert entries[i + 1] == Entry(key, r.value);
        r
      else r
  }

  /** `map.set(key, value)` */
  function MapSet(entries: seq<Entry>, key: string, value: DomainRoute): seq<Entry> {
    if entries == [] then [Entry(key, value)]
    else if entries[0].key == key then [Entry(key, value)] + entries[1..]
    else [entries[0]] + MapSet(entries[1..], key, value)
  }

  /** `map.delete(key)` */
  function MapDelete(entries: seq<Entry>, key: string): seq<Entry> {
    if entries == [] then []
    else if entries[0].key == key then MapDelete(entries[1..], key)
    else [entries[0]] + MapDelete(entries[1..], key)
  }

  lemma ConsKeys(e: Entry, rest: seq<Entry>)
    ensures Keys([e] + rest) == [e.key] + Keys(rest)
  {
    assert ([e] + rest)[1..] == rest;
  }

  lemma ConsLookup(e: Entry, rest: seq<Entry>, k: string)
    ensures Lookup([e] + rest, k) == if e.key == k then Some(e.route) else Lookup(rest, k)
  {
    assert ([e] + rest)[1..] == rest;
  }

  /** `set` keeps the key order, appending a key it did not hold. */
  lemma {:induction false} MapSetKeys(entries: seq<Entry>, key: string, value: DomainRoute)
    ensures key in Keys(entries) ==> Keys(MapSet(entries, key, value)) == Keys(entries)
    ensures key !in Keys(entries) ==> Keys(MapSet(entries, key, value)) == Keys(entries) + [key]
  {
    if entries != [] {
      var e, rest := entries[0], entries[1..];
      assert entries == [e] + rest;
      ConsKeys(e, rest);
      if e.key == key {
        ConsKeys(Entry(key, value), rest);
      } else {
        MapSetKeys(rest, key, value);
        ConsKeys(e, MapSet(rest, key, value));
        assert key in Keys(entries) <==> key in Keys(rest);
      }
    }
  }

  /** After `set` the key gives the new value and every other key what it gave before. */
  lemma {:induction false} MapSetLookup(entries: seq<Entry>, key: string, value: DomainRoute, k: string)
    ensures Lookup(MapSet(entries, key, value), k) == if k == key then Some(value) else Lookup(entries, k)
  {
    if entries != [] {
      var e, rest := entries[0], entries[1..];
      assert entries == [e] + rest;
      ConsLookup(e, rest, k);
      if e.key == key {
        ConsLookup(Entry(key, value), rest, k);
      } else {
        MapSetLookup(rest, key, value, k);
        ConsLookup(e, MapSet(rest, key, value), k);
      }
    }
  }

  /** `set` keeps the keys distinct. */
  lemma MapSetDistinct(entries: seq<Entry>, key: string, value: DomainRoute)
    requires DistinctKeys(entries)
    ensures DistinctKeys(MapSet(entries, key, value))
  {
    var r := MapSet(entries, key, value);
    MapSetKeys(entries, key, value);
    forall i, j | 0 <= i < j < |r| ensures r[i].key != r[j].key {
      assert r[i].key == Keys(r)[i] && r[j].key == Keys(r)[j];
      if j < |entries| {
        assert Keys(r)[i] == Keys(entries)[i] && Keys(r)[j] == Keys(entries)[j];
      } else {
        assert Keys(r)[i] == Keys(entries)[i];
        assert Keys(entries)[i] in Keys(entries);
      }
    }
  }

  /**
   * `set` keeps the key order (appending a new key at the end), makes the
   * key give the new value, leaves every other key as it was, and keeps the
   * keys distinct.
   */
  lemma MapSetMeaning(entries: seq<Entry>, key: string, value: DomainRoute)
    ensures key in Keys(entries) ==> Keys(MapSet(entries, key, value)) == Keys(entries)
    ensures key !in Keys(entries) ==> Keys(MapSet(entries, key, value)) == Keys(entries) + [key]
    ensures Lookup(MapSet(entries, key, value), key) == Some(value)
    ensures forall k :: k != key ==> Lookup(MapSet(entries, key, value), k) == Lookup(entries, k)
    ensures DistinctKeys(entries) ==> DistinctKeys(MapSet(entries, key, value))
  {
    MapSetKeys(entries, key, value);
    forall k ensures Lookup(MapSet(entries, key, value), k) == if k == key then Some(value) else Lookup(entries, k) {
      MapSetLookup(entries, key, value, k);
    }
    if DistinctKeys(entries) {
      MapSetDistinct(entries, key, value);
    }
  }

  /** `delete` removes the key, leaves every other key as it was, and keeps the keys distinct. */
  lemma MapDeleteMeaning(entries: seq<Entry>, key: string)
    ensures Lookup(MapDelete(entries, key), key) == None
    ensures forall k :: k != key ==> Lookup(MapDelete(entries, key), k) == Lookup(entries, k)
    ensures forall e :: e in MapDelete(entries, key) ==> e in entries
    ensures DistinctKeys(entries) ==> DistinctKeys(MapDelete(entries, key))
  {
    forall k ensures Lookup(MapDelete(entries, key), k) == if k == key then None else Lookup(entries, k) {
      MapDeleteLookup(entries, key, k);
    }
    MapDeleteMembers(entries, key);
    if DistinctKeys(entries) {
      MapDeleteDistinct(entries, key);
    }
  }

  lemma {:induction false} MapDeleteLookup(entries: seq<Entry>, key: string, k: string)
    ensures Lookup(MapDelete(entries, key), k) == if k == key then None else Lookup(entries, k)
  {
    if entries != [] {
      var e, rest := entries[0], entries[1..];
      assert entries == [e] + rest;
      MapDeleteLookup(rest, key, k);
      ConsLookup(e, rest, k);
      if e.key != key {
        ConsLookup(e, MapDelete(rest, key), k);
      }
    }
  }

  /** `delete` keeps only entries it had, none of them under the key. */
  lemma {:induction false} MapDeleteMembers(entries: seq<Entry>, key: string)
    ensures forall e :: e in MapDelete(entries, key) ==> e in entries && e.key != key
  {
    if entries != [] {
      MapDeleteMembers(entries[1..], key);
      assert forall e :: e in entries[1..] ==> e in entries;
    }
  }

  /** Distinct keys of a list with a given head: the head's key is not among the rest. */
  lemma ConsDistinct(e: Entry, rest: seq<Entry>)
    ensures DistinctKeys([e] + rest) <==> (forall x :: x in rest ==> x.key != e.key) && DistinctKeys(rest)
  {
    var r := [e] + rest;
    if DistinctKeys(r) {
      forall x | x in rest ensures x.key != e.key {
        var m :| 0 <= m < |rest| && rest[m] == x;
        assert r[0] == e && r[m + 1] == x;
        assert r[0].key != r[m + 1].key;
      }
      forall i, j | 0 <= i < j < |rest| ensures rest[i].key != rest[j].key {
        assert rest[i] == r[i + 1] && rest[j] == r[j + 1];
      }
    }
    if (forall x :: x in rest ==> x.key != e.key) && DistinctKeys(rest) {
      forall i, j | 0 <= i < j < |r| ensures r[i].key != r[j].key {
        assert r[j] == rest[j - 1];
        if i > 0 {
          assert r[i] == rest[i - 1];
        }
      }
    }
  }

  lemma {:induction false} MapDeleteDistinct(entries: seq<Entry>, key: string)
    requires DistinctKeys(entries)
    ensures DistinctKeys(MapDelete(entries, key))
  {
    if entries != [] {
      var e, rest := entries[0], entries[1..];
      assert entries == [e] + rest;
      ConsDistinct(e, rest);
      MapDeleteDistinct(rest, key);
      if e.key != key {
        MapDeleteMembers(rest, key);
        ConsDistinct(e, MapDelete(rest, key));
      }
    }
  }

  /**
   * The entry `addRoute(route, methods, handler)` stores: a function in
   * place of the methods is the handler for every method (`['*']`), a
   * handler that is not a function throws, and the methods are normalised
   * by `checkHttpMethods` (with its intended filter).
   */
  function Registration(route: string, methods: Arg, handler: Arg): (r: Result<Entry>)
    ensures methods.AFunc? ==> r.Ok? && r.value.route.methods == ["*"] && r.value.route.handler == methods.id
    ensures !methods.AFunc? && !handler.AFunc? ==> r == Err(NotAFunction)
    ensures !methods.AFunc? && handler.AFunc? ==>
      && (r.Ok? <==> CheckHttpMethodsLegacyFixed(methods).Ok?)
      && (r.Err? ==> r.error == CheckHttpMethodsLegacyFixed(methods).error)
      && (r.Ok? ==> r.value.route.methods == CheckHttpMethodsLegacyFixed(methods).value && r.value.route.handler == handler.id)
    ensures r.Ok? ==>
      && r.value.route.toks == RouteToRegexp(route).toks
      && r.value.route.variables == RouteToRegexp(route).variables
      && r.value.key == RouteKey(r.value.route.methods, r.value.route.toks)
  {
    var (ms, h) := if methods.AFunc? then (AList(["*"]), methods) else (methods, handler);
    if !h.AFunc? then Err(NotAFunction)
    else
      StarAlone();
      match CheckHttpMethodsLegacyFixed(ms)
      case Err(e) => Err(e)
      case Ok(checked) =>
        var c := RouteToRegexp(route);
        Ok(Entry(RouteKey(checked, c.toks), DomainRoute(h.id, checked, c.toks, c.variables)))
  }

  /** `checkHttpMethods(['*'])` is `['*']`. */
  lemma StarAlone()
    ensures CheckHttpMethodsLegacyFixed(AList(["*"])) == Ok(["*"])
  {
    assert ToUpper("*") == "*";
    assert UpperAll(["*"]) == ["*"];
    assert Dedup(["*"]) == ["*"];
    assert OnlyMethodsOrStar(["*"]) == ["*"];
    assert CollapseStar(["*"]) == ["*"];
    assert SortStrings(["*"]) == ["*"];
  }

  /** A verb helper registers exactly its one method. */
  lemma VerbRegistration(verb: string, route: string, handler: Arg)
    requires IsMethod(verb)
    ensures !handler.AFunc? ==> Registration(route, AList([verb]), handler) == Err(NotAFunction)
    ensures handler.AFunc? ==> Registration(route, AList([verb]), handler) == Ok(VerbEntry(verb, route, handler.id))
  {
    NamesAreUpperCase();
    FixedKeepsMethod(verb);
    assert ListedLegacy(AList([verb])) == ListedLegacy(AStr(verb));
  }

  /** The entry a verb helper stores for `route`. */
  function VerbEntry(verb: string, route: string, handler: nat): Entry {
    var c := RouteToRegexp(route);
    Entry(RouteKey([verb], c.toks), DomainRoute(handler, [verb], c.toks, c.variables))
  }

  /**
   * The key `removeRoute(route, methods)` deletes: the methods default to
   * `['*']` and are normalised as on registration.
   */
  function RemovalKey(route: string, methods: Arg): (r: Result<string>)
    ensures methods.AUndefined? ==> r == Ok(RouteKey(["*"], RouteToRegexp(route).toks))
  {
    var ms := if methods.AUndefined? then AList(["*"]) else methods;
    StarAlone();
    match CheckHttpMethodsLegacyFixed(ms)
    case Err(e) => Err(e)
    case Ok(checked) => Ok(RouteKey(checked, RouteToRegexp(route).toks))
  }

  /**
   * Removing with the route and methods a registration used finds the key it
   * stored, so the route is gone afterwards and every other key is untouched.
   */
  lemma RemoveUndoesAdd(entries: seq<Entry>, route: string, methods: seq<string>, handler: nat)
    requires Registration(route, AList(methods), AFunc(handler)).Ok?
    ensures var e := Registration(route, AList(methods), AFunc(handler)).value;
      && RemovalKey(route, AList(methods)) == Ok(e.key)
      && Lookup(MapDelete(MapSet(entries, e.key, e.route), e.key), e.key) == None
      && forall k :: k != e.key ==> Lookup(MapDelete(MapSet(entries, e.key, e.route), e.key), k) == Lookup(entries, k)
  {
    var e := Registration(route, AList(methods), AFunc(handler)).value;
    MapSetMeaning(entries, e.key, e.route);
    MapDeleteMeaning(MapSet(entries, e.key, e.route), e.key);
  }

  /** The route serves the method (or every method) and its expression matches somewhere in the route. */
  predicate Serves(r: DomainRoute, verb: string, route: string) {
    ("*" in r.methods || verb in r.methods) && Search(r.toks, route).Some?
  }

  /** The index of the first entry from `i` on that serves the request. */
  function FirstServing(entries: seq<Entry>, verb: string, route: string, i: nat): (r: Option<nat>)
    requires i <= |entries|
    ensures r.Some? ==>
      && i <= r.value < |entries| && Serves(entries[r.value].route, verb, route)
      && forall j :: i <= j < r.value ==> !Serves(entries[j].route, verb, route)
    ensures r.None? ==> forall j :: i <= j < |entries| ==> !Serves(entries[j].route, verb, route)
    decreases |entries| - i
  {
    if i == |entries| then None
    else if Serves(entries[i].route, verb, route) then Some(i)
    else FirstServing(entries, verb, route, i + 1)
  }

  /** What `extractParameters` leaves in the holder, and whether every capture decoded. */
  function Extracted(h: map<string, string>, found: Option<seq<string>>, variables: seq<string>,
                     decode: string -> Option<string>): (r: (map<string, string>, bool))
    ensures found.None? || |found.value| != |variables| ==> r == (h, true)
    ensures found.Some? && |found.value| == |variables| ==> (r.1 <==> AllDecode(found.value, decode))
  {
    if found.None? || |found.value| != |variables| then (h, true)
    else
      WrittenMeaning(h, variables, found.value, decode);
      Written(h, variables, found.value, decode)
  }

  /**
   * `domainHandler.onRequest(request)` once `matches` has left `params` in
   * the request: the first entry serving it is handled with its parameters
   * added, or a 404 `ApiError` when there is none. Returns the result and
   * the parameters afterwards.
   */
  function Served(entries: seq<Entry>, route: string, verb: string, params: map<string, string>,
                  decode: string -> Option<string>, invoke: Dispatch.Invoke): (Result<Returned>, map<string, string>)
  {
    match FirstServing(entries, verb, route, 0)
    case None => (Ok(IsResponse(Api(LegacyResponses.ApiError(StatusOnly(404, map[]))))), params)
    case Some(i) =>
      var r := entries[i].route;
      var (after, ok) := Extracted(params, Search(r.toks, route), r.variables, decode);
      if !ok then (Err(MalformedUri), after)
      else (invoke(r.handler, Dispatch.View(route, verb, after)), after)
  }

  /**
   * A request no entry serves gets the 404 and no parameter is written; one
   * that some entry serves calls the handler of the first such entry in
   * insertion order, whatever later entries would match.
   */
  lemma ServedFirstEntry(entries: seq<Entry>, route: string, verb: string, params: map<string, string>,
                         decode: string -> Option<string>, invoke: Dispatch.Invoke, i: nat)
    requires i < |entries| && Serves(entries[i].route, verb, route)
    requires forall j :: 0 <= j < i ==> !Serves(entries[j].route, verb, route)
    requires AllDecode(Search(entries[i].route.toks, route).value, decode)
    requires |Search(entries[i].route.toks, route).value| == |entries[i].route.variables|
    ensures var (result, after) := Served(entries, route, verb, params, decode, invoke);
      result == invoke(entries[i].route.handler, Dispatch.View(route, verb, after))
  {
    assert FirstServing(entries, verb, route, 0) == Some(i);
    var e := entries[i].route;
    WrittenMeaning(params, e.variables, Search(e.toks, route).value, decode);
  }

  /** `DomainHandler` of domainhandler.js. */
  class DomainHandler {
    const domain: seq<Tok>
    const variables: seq<string>
    var routes: seq<Entry>

    /** The routes map has distinct keys. */
    ghost predicate Valid()
      reads this
    {
      DistinctKeys(routes)
    }

    /** `new DomainHandler(domain)`: the domain compiled by `routeToRegexp`, no routes. */
    constructor(name: string)
      ensures domain == RouteToRegexp(name).toks && variables == RouteToRegexp(name).variables
      ensures routes == [] && Valid()
    {
      var c := RouteToRegexp(name);
      domain := c.toks;
      variables := c.variables;
      routes := [];
    }

    /** `addRoute(route, methods, handler)` */
    method AddRoute(route: string, methods: Arg, handler: Arg) returns (r: Result<bool>)
      requires Valid()
      modifies this
      ensures Valid()
      ensures r.Ok? <==> Registration(route, methods, handler).Ok?
      ensures r.Err? ==> r.error == Registration(route, methods, handler).error && routes == old(routes)
      ensures r.Ok? ==>
        var e := Registration(route, methods, handler).value;
        routes == MapSet(old(routes), e.key, e.route)
    {
      var registration := Registration(route, methods, handler);
      if registration.Err? {
        return Err(registration.error);
      }
      MapSetMeaning(routes, registration.value.key, registration.value.route);
      routes := MapSet(routes, registration.value.key, registration.value.route);
      return Ok(true);
    }

    /** `removeRoute(route, methods)`: deleting an absent key changes nothing. */
    method RemoveRoute(route: string, methods: Arg) returns (r: Result<bool>)
      requires Valid()
      modifies this
      ensures Valid()
      ensures r.Ok? <==> RemovalKey(route, methods).Ok?
      ensures r.Err? ==> r.error == RemovalKey(route, methods).error && routes == old(routes)
      ensures r.Ok? ==> routes == MapDelete(old(routes), RemovalKey(route, methods).value)
    {
      var key := RemovalKey(route, methods);
      if key.Err? {
        return Err(key.error);
      }
      MapDeleteMeaning(routes, key.value);
      routes := MapDelete(routes, key.value);
      return Ok(true);
    }

    /** The verb helpers: `addRoute(route, [verb], handler)`. */
    method AddVerb(verb: string, route: string, handler: Arg) returns (r: Result<bool>)
      requires Valid() && IsMethod(verb)
      modifies this
      ensures Valid()
      ensures r.Ok? <==> handler.AFunc?
      ensures r.Err? ==> r.error == NotAFunction && routes == old(routes)
      ensures r.Ok? ==> routes == MapSet(old(routes), VerbEntry(verb, route, handler.id).key, VerbEntry(verb, route, handler.id).route)
    {
      VerbRegistration(verb, route, handler);
      r := AddRoute(route, AList([verb]), handler);
    }

    /** `delete(route, handler)`: `addRoute` with `[HttpMethods.DELETE]`. */
    method Delete(route: string, handler: Arg) returns (r: Result<bool>)
      requires Valid()
      modifies this
      ensures Valid()
      ensures r.Ok? <==> handler.AFunc?
      ensures r.Err? ==> r.error == NotAFunction && routes == old(routes)
      ensures r.Ok? ==> routes == MapSet(old(routes), VerbEntry("DELETE", route, handler.id).key, VerbEntry("DELETE", route, handler.id).route)
    {
      r := AddVerb("DELETE", route, handler);
    }

    /** `get(route, handler)`: `addRoute` with `[HttpMethods.GET]`. */
    method Get(route: string, handler: Arg) returns (r: Result<bool>)
      requires Valid()
      modifies this
      ensures Valid()
      ensures r.Ok? <==> handler.AFunc?
      ensures r.Err? ==> r.error == NotAFunction && routes == old(routes)
      ensures r.Ok? ==> routes == MapSet(old(routes), VerbEntry("GET", route, handler.id).key, VerbEntry("GET", route, handler.id).route)
    {
      r := AddVerb("GET", route, handler);
    }

    /** `head(route, handler)`: `addRoute` with `[HttpMethods.HEAD]`. */
    method Head(route: string, handler: Arg) returns (r: Result<bool>)
      requires Valid()
      modifies this
      ensures Valid()
      ensures r.Ok? <==> handler.AFunc?
      ensures r.Err? ==> r.error == NotAFunction && routes == old(routes)
      ensures r.Ok? ==> routes == MapSet(old(routes), VerbEntry("HEAD", route, handler.id).key, VerbEntry("HEAD", route, handler.id).route)
    {
      r := AddVerb("HEAD", route, handler);
    }

    /** `options(route, handler)`: `addRoute` with `[HttpMethods.OPTIONS]`. */
    method Options(route: string, handler: Arg) returns (r: Result<bool>)
      requires Valid()
      modifies this
      ensures Valid()
      ensures r.Ok? <==> handler.AFunc?
      ensures r.Err? ==> r.error == NotAFunction && routes == old(routes)
      ensures r.Ok? ==> routes == MapSet(old(routes), VerbEntry("OPTIONS", route, handler.id).key, VerbEntry("OPTIONS", route, handler.id).route)
    {
      r := AddVerb("OPTIONS", route, handler);
    }

    /** `post(route, handler)`: `addRoute` with `[HttpMethods.POST]`. */
    method Post(route: string, handler: Arg) returns (r: Result<bool>)
      requires Valid()
      modifies this
      ensures Valid()
      ensures r.Ok? <==> handler.AFunc?
      ensures r.Err? ==> r.error == NotAFunction && routes == old(routes)
      ensures r.Ok? ==> routes == MapSet(old(routes), VerbEntry("POST", route, handler.id).key, VerbEntry("POST", route, handler.id).route)
    {
      r := AddVerb("POST", route, handler);
    }

    /** `put(route, handler)`: `addRoute` with `[HttpMethods.PUT]`. */
    method Put(route: string, handler: Arg) returns (r: Result<bool>)
      requires Valid()
      modifies this
      ensures Valid()
      ensures r.Ok? <==> handler.AFunc?
      ensures r.Err? ==> r.error == NotAFunction && routes == old(routes)
      ensures r.Ok? ==> routes == MapSet(old(routes), VerbEntry("PUT", route, handler.id).key, VerbEntry("PUT", route, handler.id).route)
    {
      r := AddVerb("PUT", route, handler);
    }

    /**
     * `findRouteMatch(request)`: the first entry, in insertion order, that
     * serves the request; only its captures are written into the request's
     * parameters, and a capture that does not decode throws.
     */
    method FindRouteMatch(request: FetchRequest, decode: string -> Option<string>) returns (r: Result<Option<DomainRoute>>)
      modifies request.parameters
      ensures var i := FirstServing(routes, request.verb, request.route, 0);
        && (i.None? ==> r == Ok(None) && request.parameters.values == old(request.parameters.values))
        && (i.Some? ==>
              var e := routes[i.value].route;
              var (after, ok) := Extracted(old(request.parameters.values), Search(e.toks, request.route), e.variables, decode);
              request.parameters.values == after && r == (if ok then Ok(Some(e)) else Err(MalformedUri)))
    {
      var i := 0;
      while i < |routes|
        invariant 0 <= i <= |routes|
        invariant FirstServing(routes, request.verb, request.route, 0) == FirstServing(routes, request.verb, request.route, i)
        invariant request.parameters.values == old(request.parameters.values)
      {
        var e := routes[i].route;
        if !(request.verb in e.methods) && !("*" in e.methods) {
          i := i + 1;
          continue;
        }
        var found := Search(e.toks, request.route);
        if found.None? {
          i := i + 1;
          continue;
        }
        var extracted := ExtractParameters(found, e.variables, request.parameters, decode);
        if extracted.Err? {
          return Err(extracted.error);
        }
        return Ok(Some(e));
      }
      return Ok(None);
    }

    /**
     * `matches(request)`: whether the hostname matches the domain; on a
     * match the domain's parameters are written into the request.
     */
    method Matches(request: FetchRequest, decode: string -> Option<string>) returns (r: Result<bool>)
      modifies request.parameters
      ensures Search(domain, request.hostname).None? ==>
        r == Ok(false) && request.parameters.values == old(request.parameters.values)
      ensures Search(domain, request.hostname).Some? ==>
        var (after, ok) := Extracted(old(request.parameters.values), Search(domain, request.hostname), variables, decode);
        request.parameters.values == after && r == (if ok then Ok(true) else Err(MalformedUri))
    {
      var found := Search(domain, request.hostname);
      if found.None? {
        return Ok(false);
      }
      var extracted := ExtractParameters(found, variables, request.parameters, decode);
      if extracted.Err? {
        return Err(extracted.error);
      }
      return Ok(true);
    }

    /** `onRequest(request)`: the method that `Served` specifies. */
    method OnRequest(request: FetchRequest, decode: string -> Option<string>, invoke: Dispatch.Invoke)
      returns (r: Result<Returned>)
      modifies request.parameters
      ensures (r, request.parameters.values) ==
        Served(routes, request.route, request.verb, old(request.parameters.values), decode, invoke)
    {
      var found := FindRouteMatch(request, decode);
      if found.Err? {
        return Err(found.error);
      }
      if found.value.None? {
        return Ok(IsResponse(Api(LegacyResponses.ApiError(StatusOnly(404, map[])))));
      }
      r := invoke(found.value.value.handler, Dispatch.View(request.route, request.verb, request.parameters.values));
    }
  }
}
