/**
 * `FetchHandler` of fetchhandler.js: a list of domain handlers kept sorted
 * by the length of their domain expression, longest first, and dispatch to
 * the first one whose domain matches the request's hostname.
 */
module FetchHandlers {
  import opened Js
  import opened Regex
  import opened Sorting
  import opened Parameters
  import opened Events
  import opened Responses
  import LegacyResponses
  import Dispatch
  import opened Domains

  /** `domain.toString().length`, the sort key of `addDomain`. */
  function DomainRank(h: DomainHandler): int {
    |RegexString(h.domain)|
  }

  /** What dispatch reads of a domain handler. */
  datatype Site = Site(domain: seq<Tok>, variables: seq<string>, routes: seq<Entry>)

  function SiteRank(s: Site): int {
    |RegexString(s.domain)|
  }

  /** The current state of the domain handlers, in list order. */
  function Sites(hs: seq<DomainHandler>): (sites: seq<Site>)
    reads hs
    ensures |sites| == |hs|
    ensures forall i :: 0 <= i < |hs| ==>
      sites[i] == Site(hs[i].domain, hs[i].variables, hs[i].routes)
  {
    if hs == [] then [] else [Site(hs[0].domain, hs[0].variables, hs[0].routes)] + Sites(hs[1..])
  }

  /** A domain list sorted as `addDomain` keeps it gives sites sorted the same way. */
  lemma SitesSorted(hs: seq<DomainHandler>)
    requires SortedDesc(hs, DomainRank)
    ensures SortedDesc(Sites(hs), SiteRank)
  {
    var sites := Sites(hs);
    forall i, j | 0 <= i < j < |sites| ensures SiteRank(sites[i]) >= SiteRank(sites[j]) {
      assert SiteRank(sites[i]) == DomainRank(hs[i]);
      assert SiteRank(sites[j]) == DomainRank(hs[j]);
    }
  }

  /**
   * `addDomain` appends and re-sorts with a stable sort: the list grows by
   * the one handler, keeps every earlier one, is ordered longest domain
   * first, and handlers of equal length keep their registration order.
   */
  lemma AddDomainSorted(domains: seq<DomainHandler>, h: DomainHandler)
    ensures var r := SortDesc(domains + [h], DomainRank);
      && |r| == |domains| + 1
      && multiset(r) == multiset(domains) + multiset{h}
      && SortedDesc(r, DomainRank)
      && forall k :: Ties(r, DomainRank, k) == Ties(domains, DomainRank, k) + (if DomainRank(h) == k then [h] else [])
  {
    SortDescPermutation(domains + [h], DomainRank);
    SortDescSorted(domains + [h], DomainRank);
    forall k ensures Ties(SortDesc(domains + [h], DomainRank), DomainRank, k)
                  == Ties(domains, DomainRank, k) + (if DomainRank(h) == k then [h] else [])
    {
      SortDescStable(domains + [h], DomainRank, k);
      TiesAppend(domains, [h], DomainRank, k);
    }
  }

  /** The index of the first site from `i` on whose domain matches the hostname. */
  function FirstHost(sites: seq<Site>, hostname: string, i: nat): (r: Option<nat>)
    requires i <= |sites|
    ensures r.Some? ==>
      && i <= r.value < |sites| && Search(sites[r.value].domain, hostname).Some?
      && forall j :: i <= j < r.value ==> Search(sites[j].domain, hostname).None?
    ensures r.None? ==> forall j :: i <= j < |sites| ==> Search(sites[j].domain, hostname).None?
    decreases |sites| - i
  {
    if i == |sites| then None
    else if Search(sites[i].domain, hostname).Some? then Some(i)
    else FirstHost(sites, hostname, i + 1)
  }

  /** One step of the search: the site at `i` is the answer, or the search goes on past it. */
  lemma FirstHostStep(sites: seq<Site>, hostname: string, i: nat)
    requires i < |sites|
    ensures Search(sites[i].domain, hostname).Some? ==> FirstHost(sites, hostname, i) == Some(i)
    ensures Search(sites[i].domain, hostname).None? ==> FirstHost(sites, hostname, i) == FirstHost(sites, hostname, i + 1)
  {
  }

  /** `new ApiError({status: 404, message: 'Unknown Host'})` */
  function UnknownHost(): Response {
    LegacyResponses.ApiError(ErrorInit(Some(404), None, map[], None, Some("Unknown Host"), map[]))
  }

  /**
   * How a site whose domain matches serves the request: the domain's
   * parameters, then the site's routes; a non-`Response` result is wrapped
   * and any exception becomes a 500 carrying it.
   */
  function SiteReply(s: Site, hostname: string, route: string, verb: string,
                     decode: string -> Option<string>, invoke: Dispatch.Invoke): Reply
  {
    var (params, ok) := Extracted(map[], Search(s.domain, hostname), s.variables, decode);
    if !ok then Api(LegacyResponses.ServerError(MalformedUri))
    else
      match Served(s.routes, route, verb, params, decode, invoke).0
      case Err(e) => Api(LegacyResponses.ServerError(e))
      case Ok(v) => LegacyResponses.Normalise(v)
  }

  /**
   * `onRequest(request)` once the request is parsed into its hostname, path
   * route and method: the first site whose domain matches serves it, even
   * when its routes do not; no matching site gives 404 'Unknown Host'.
   */
  function HostReply(sites: seq<Site>, hostname: string, route: string, verb: string,
                     decode: string -> Option<string>, invoke: Dispatch.Invoke): (r: Reply)
    ensures FirstHost(sites, hostname, 0).None? ==> r == Api(UnknownHost())
    ensures FirstHost(sites, hostname, 0).Some? ==>
      r == SiteReply(sites[FirstHost(sites, hostname, 0).value], hostname, route, verb, decode, invoke)
  {
    match FirstHost(sites, hostname, 0)
    case None => Api(UnknownHost())
    case Some(i) => SiteReply(sites[i], hostname, route, verb, decode, invoke)
  }

  /**
   * In a list sorted as `addDomain` keeps it, the site that serves a host
   * has the longest domain expression of all the sites matching it.
   */
  lemma LongestDomainWins(sites: seq<Site>, hostname: string)
    requires SortedDesc(sites, SiteRank)
    ensures var i := FirstHost(sites, hostname, 0);
      i.Some? ==> forall j :: 0 <= j < |sites| && Search(sites[j].domain, hostname).Some? ==>
        SiteRank(sites[i.value]) >= SiteRank(sites[j])
  {
  }

  /** `FetchHandler` of fetchhandler.js. */
  class FetchHandler {
    var domains: seq<DomainHandler>

    /** The domain list is sorted, longest domain first. */
    ghost predicate Valid()
      reads this
    {
      SortedDesc(domains, DomainRank)
    }

    constructor()
      ensures domains == [] && Valid()
    {
      domains := [];
    }

    /** `addDomain(handler)`: push, then sort by domain length, descending. */
    method AddDomain(h: DomainHandler)
      modifies this
      ensures domains == SortDesc(old(domains) + [h], DomainRank)
      ensures Valid()
    {
      AddDomainSorted(domains, h);
      domains := SortDesc(domains + [h], DomainRank);
    }

    /**
     * `onRequest(request)`: the method that `HostReply` specifies; an
     * exception building the request is caught like any other.
     */
    method OnRequest(request: Result<Incoming>, decode: string -> Option<string>, invoke: Dispatch.Invoke)
      returns (r: Reply)
      ensures request.Err? ==> r == Api(LegacyResponses.ServerError(request.error))
      ensures request.Ok? ==>
        r == HostReply(old(Sites(domains)), request.value.hostname, PathRoute(request.value), request.value.verb,
                       decode, invoke)
    {
      if request.Err? {
        return Api(LegacyResponses.ServerError(request.error));
      }
      ghost var sites := Sites(domains);
      var req := new FetchRequest(request.value);
      assert Sites(domains) == sites;
      r := FirstSite(domains, sites, req, decode, invoke);
    }
  }

  /**
   * The loop of `onRequest`: each domain handler in turn until one matches
   * the hostname, which then answers; none gives 404 'Unknown Host'.
   */
  method FirstSite(hs: seq<DomainHandler>, ghost sites: seq<Site>, req: FetchRequest,
                   decode: string -> Option<string>, invoke: Dispatch.Invoke) returns (r: Reply)
    requires sites == Sites(hs)
    requires req.parameters.values == map[]
    modifies req.parameters
    ensures r == HostReply(sites, req.hostname, req.route, req.verb, decode, invoke)
  {
    var i := 0;
    while i < |hs|
      invariant 0 <= i <= |hs| == |sites|
      invariant forall j :: 0 <= j < |hs| ==> sites[j] == Site(hs[j].domain, hs[j].variables, hs[j].routes)
      invariant FirstHost(sites, req.hostname, 0) == FirstHost(sites, req.hostname, i)
      invariant req.parameters.values == map[]
    {
      var served := SiteTurn(hs[i], sites, i, req, decode, invoke);
      if served.Some? {
        return served.value;
      }
      i := i + 1;
    }
    return Api(UnknownHost());
  }

  /** The turn of the loop at the `i`-th domain handler, described by what `HostReply` answers. */
  method SiteTurn(h: DomainHandler, ghost sites: seq<Site>, ghost i: nat, req: FetchRequest,
                  decode: string -> Option<string>, invoke: Dispatch.Invoke) returns (r: Option<Reply>)
    requires i < |sites| && sites[i] == Site(h.domain, h.variables, h.routes)
    requires FirstHost(sites, req.hostname, 0) == FirstHost(sites, req.hostname, i)
    requires req.parameters.values == map[]
    modifies req.parameters
    ensures r.Some? ==> r.value == HostReply(sites, req.hostname, req.route, req.verb, decode, invoke)
    ensures r.None? ==>
      && FirstHost(sites, req.hostname, 0) == FirstHost(sites, req.hostname, i + 1)
      && req.parameters.values == map[]
  {
    r := TrySite(h, req, decode, invoke);
    FirstHostStep(sites, req.hostname, i);
  }

  /**
   * One turn of the loop of `onRequest`: `matches`, then, on a match, the
   * domain handler's `onRequest` with its result wrapped or its exception
   * turned into a 500.
   */
  method TrySite(h: DomainHandler, req: FetchRequest, decode: string -> Option<string>, invoke: Dispatch.Invoke)
    returns (r: Option<Reply>)
    requires req.parameters.values == map[]
    modifies req.parameters
    ensures Search(h.domain, req.hostname).None? ==> r == None && req.parameters.values == map[]
    ensures Search(h.domain, req.hostname).Some? ==>
      r == Some(SiteReply(Site(h.domain, h.variables, h.routes), req.hostname, req.route, req.verb, decode, invoke))
  {
    var matched := h.Matches(req, decode);
    if matched.Err? {
      return Some(Api(LegacyResponses.ServerError(matched.error)));
    }
    if !matched.value {
      return None;
    }
    var result := h.OnRequest(req, decode, invoke);
    match result
    case Err(e) => r := Some(Api(LegacyResponses.ServerError(e)));
    case Ok(v) => r := Some(LegacyResponses.Normalise(v));
  }
}
