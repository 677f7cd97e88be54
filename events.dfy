/**
 * The per-request objects: `RouterEvent` of helpers.ts, its earlier form in
 * helpers.js, and `FetchRequest` of fetchhandler.js.
 *
 * The host request is reduced to what the router reads from it: the URL's
 * `hostname` and `pathname`, the method, the headers (by lower-case name)
 * and its identity. A `Request` object the event creates is known by the
 * identity the caller gives it.
 */
module Events {
  import opened Js
  import opened Parameters

  /** A request as the host hands it over, its URL already parsed. */
  datatype Incoming = Incoming(
    hostname: string,
    pathname: string,
    verb: string,
    headers: map<string, string>,
    id: nat)

  /** `s` without its leading run of `/`. */
  function DropSlashes(s: string): (r: string)
    ensures |r| <= |s| && r == s[|s| - |r|..]
    ensures r == [] || r[0] != '/'
    ensures forall k :: 0 <= k < |s| - |r| ==> s[k] == '/'
  {
    if s != [] && s[0] == '/' then DropSlashes(s[1..]) else s
  }

  /** `pathname.replace(/^\/+/, '/')`: a leading run of `/` becomes a single one. */
  function CollapseSlashes(path: string): (p: string)
    ensures !StartsWith(path, "/") ==> p == path
    ensures StartsWith(path, "/") ==> 1 <= |p| <= |path| && p[0] == '/' && p[1..] == DropSlashes(path)
    ensures StartsWith(path, "/") ==> !StartsWith(p, "//")
  {
    if StartsWith(path, "/") then
      var p := "/" + DropSlashes(path);
      assert p[1..] == DropSlashes(path);
      p
    else path
  }

  /** Collapsing the leading slashes twice changes nothing more. */
  lemma CollapseSlashesIdempotent(path: string)
    ensures CollapseSlashes(CollapseSlashes(path)) == CollapseSlashes(path)
  {
    if StartsWith(path, "/") {
      var d := DropSlashes(path);
      var p := CollapseSlashes(path);
      assert p == "/" + d;
      assert p[1..] == d;
      DropSlashesFixed(d);
      assert DropSlashes(p) == d;
      assert CollapseSlashes(p) == "/" + d;
    }
  }

  lemma DropSlashesFixed(s: string)
    requires s == [] || s[0] != '/'
    ensures DropSlashes(s) == s
  {
  }

  /** `RouterEvent.route` (both generations): the hostname, then the collapsed path. */
  function RouteString(r: Incoming): (route: string)
    ensures |route| >= |r.hostname| && route[..|r.hostname|] == r.hostname
    ensures route[|r.hostname|..] == CollapseSlashes(r.pathname)
  {
    r.hostname + CollapseSlashes(r.pathname)
  }

  /** `FetchRequest.route`: the collapsed path alone, without the host. */
  function PathRoute(r: Incoming): (route: string)
    ensures RouteString(r) == r.hostname + route
  {
    CollapseSlashes(r.pathname)
  }

  /** `headers.get(name)`: `null` when the header is absent. */
  function Header(headers: map<string, string>, name: string): (v: Option<string>)
    ensures v.Some? <==> name in headers
    ensures v.Some? ==> v.value == headers[name]
  {
    if name in headers then Some(headers[name]) else None
  }

  /** The header is present and not empty, so `||` keeps it. */
  predicate Given(headers: map<string, string>, name: string) {
    name in headers && headers[name] != ""
  }

  /**
   * `RouterEvent.ip` (helpers.ts): `cf-connecting-ip`, else `x-real-ip`, else
   * the empty string; an empty header counts as absent.
   */
  function Ip(headers: map<string, string>): (ip: string)
    ensures Given(headers, "cf-connecting-ip") ==> ip == headers["cf-connecting-ip"]
    ensures !Given(headers, "cf-connecting-ip") && Given(headers, "x-real-ip") ==> ip == headers["x-real-ip"]
    ensures ip != "" <==> Given(headers, "cf-connecting-ip") || Given(headers, "x-real-ip")
  {
    if Given(headers, "cf-connecting-ip") then headers["cf-connecting-ip"]
    else if Given(headers, "x-real-ip") then headers["x-real-ip"]
    else ""
  }

  /**
   * `FetchRequest.ip` (fetchhandler.js): `cf-connecting-ip`, else whatever
   * `headers.get('x-real-ip')` gives, `null` included: there is no `''` default.
   */
  function LegacyIp(headers: map<string, string>): (ip: Option<string>)
    ensures Given(headers, "cf-connecting-ip") ==> ip == Some(headers["cf-connecting-ip"])
    ensures !Given(headers, "cf-connecting-ip") ==> ip == Header(headers, "x-real-ip")
    ensures ip.None? <==> !Given(headers, "cf-connecting-ip") && "x-real-ip" !in headers
  {
    if Given(headers, "cf-connecting-ip") then Some(headers["cf-connecting-ip"])
    else Header(headers, "x-real-ip")
  }

  /** The two `ip` getters agree, except that the legacy one may give `null` where the current gives `''`. */
  lemma IpGenerationsAgree(headers: map<string, string>)
    ensures Ip(headers) == LegacyIp(headers).GetOr("")
    ensures LegacyIp(headers).Some? && LegacyIp(headers).value != "" ==> Ip(headers) == LegacyIp(headers).value
  {
  }

  /**
   * `RouterEvent` of helpers.ts. `parameters` is the object that route
   * handling writes into; `clone` is `_request`, the copy of the original
   * request made on the first read of `request` and kept from then on.
   */
  class RouterEvent {
    const route: string
    const verb: string
    const headers: map<string, string>
    const original: nat
    const parameters: Holder
    var clone: Option<nat>

    constructor(r: Incoming)
      ensures route == RouteString(r) && verb == r.verb && headers == r.headers && original == r.id
      ensures fresh(parameters) && parameters.values == map[]
      ensures clone == None
    {
      route := RouteString(r);
      verb := r.verb;
      headers := r.headers;
      original := r.id;
      parameters := new Holder();
      clone := None;
    }

    /**
     * The `request` getter: the clone made on the first read (identified by
     * `next`), returned again on every later read.
     */
    method Request(next: nat) returns (req: nat)
      modifies this
      ensures old(clone).Some? ==> req == old(clone).value && clone == old(clone)
      ensures old(clone).None? ==> req == next && clone == Some(next)
    {
      if clone.Some? {
        return clone.value;
      }
      clone := Some(next);
      return next;
    }

    /** The request `pass()` fetches: the clone once one was made, else the original. */
    function PassTarget(): (target: nat)
      reads this
      ensures clone.None? ==> target == original
      ensures clone.Some? ==> target == clone.value
    {
      if clone.Some? then clone.value else original
    }
  }

  /** Two reads of `request` give the same object; the second creates nothing. */
  method RequestReadTwice(ev: RouterEvent, first: nat, second: nat) returns (a: nat, b: nat)
    modifies ev
    ensures a == b
    ensures old(ev.clone).None? ==> a == first && ev.clone == Some(first)
  {
    a := ev.Request(first);
    b := ev.Request(second);
  }

  /**
   * `RouterEvent` of helpers.js: the request is copied eagerly (its identity
   * given by `copy`), and `pass()` fetches the original request.
   */
  class LegacyRouterEvent {
    const route: string
    const headers: map<string, string>
    const original: nat
    const request: nat
    const verb: string
    const parameters: Holder

    constructor(r: Incoming, copy: nat)
      ensures route == RouteString(r) && verb == r.verb && headers == r.headers
      ensures original == r.id && request == copy
      ensures fresh(parameters) && parameters.values == map[]
    {
      route := RouteString(r);
      headers := r.headers;
      original := r.id;
      request := copy;
      verb := r.verb;
      parameters := new Holder();
    }
  }

  const NoEventProperty: string := "TypeError: Cannot read properties of undefined (reading 'request')"

  /**
   * The `ip` getter of helpers.js as written: it reads `this.event`, a
   * property the constructor never sets (it sets `fetchEvent`), so every
   * read throws.
   */
  function LegacyEventIpAsWritten(ev: LegacyRouterEvent): (ip: Result<Option<string>>)
    ensures ip.Err?
  {
    Err(NoEventProperty)
  }

  /** The same getter reading the event the constructor does keep. */
  function LegacyEventIp(ev: LegacyRouterEvent): (ip: Result<Option<string>>)
    ensures ip.Ok? && ip.value == LegacyIp(ev.headers)
  {
    Ok(LegacyIp(ev.headers))
  }

  /**
   * A request carrying `cf-connecting-ip` still gets an exception from the
   * getter as written, and its address from the corrected one.
   */
  lemma LegacyEventIpThrows(ev: LegacyRouterEvent)
    requires Given(ev.headers, "cf-connecting-ip")
    ensures LegacyEventIpAsWritten(ev) == Err(NoEventProperty)
    ensures LegacyEventIp(ev) == Ok(Some(ev.headers["cf-connecting-ip"]))
  {
  }

  /** `FetchRequest` of fetchhandler.js: the route is the path alone. */
  class FetchRequest {
    const route: string
    const hostname: string
    const verb: string
    const headers: map<string, string>
    const parameters: Holder

    constructor(r: Incoming)
      ensures route == PathRoute(r) && hostname == r.hostname && verb == r.verb && headers == r.headers
      ensures fresh(parameters) && parameters.values == map[]
    {
      route := PathRoute(r);
      hostname := r.hostname;
      verb := r.verb;
      headers := r.headers;
      parameters := new Holder();
    }
  }
}
