# cf-worker-router: a verified model of the routing engine

This project models in Dafny the routing engine of `cf-worker-router`. The
library lets a Cloudflare Worker register handlers under URL patterns and
dispatch each incoming request to one of them. Both generations of the
library are modelled:

- **The current generation** (`src/helpers.ts`, `src/routers.ts`,
  `src/responses.ts`). A route pattern such as `/users/:id` or
  `*.example.com/files/:path...` compiles to an anchored regular expression
  plus a list of variable names. Routes live in a `RouteMap` keyed by
  `methods + '#' + regexp`. Sub-routers can be mounted in the map. `findAll`
  collects the matching routes and orders them by priority, then by key
  length. `FetchRouter.onFetch` filters them by method, answers 404/405,
  skips `pass` routes, runs the handler, wraps its result, turns exceptions
  into 500 and applies the `beforeResponse` hook.
- **The earlier generation** (`src/helpers.js`, `src/routers.js`,
  `src/responses.js`). It has the same route map without priorities.
  Its `onFetchEvent` turns every exception into a 500.
- **The domain-handler API** (`src/utils.js`, `src/domainhandler.js`,
  `src/fetchhandler.js`, `src/eventhandler.js`):
  - `DomainHandler` compiles a host pattern with the unanchored
    `routeToRegexp` and keeps routes in a map keyed by
    `methods.join('#') + '#' + regexp`.
  - `FetchHandler` keeps domain handlers sorted by the length of their domain
    expression and sends a request to the first one whose domain matches.
  - `EventHandler` sends a request by exact host to a registered request
    handler.

How the model is laid out:

- **`Regex`**: the regular expressions the compilers produce, as tokens:
  - literal characters, with `^`, `$` and `.` taking their regex meaning;
  - `(?:.*)`, a segment group `([^/]+)`, a rest group `(.*)`, and the
    optional final slash `(?:\/$|$)`.

  Matching is defined twice and the two definitions are proved to agree:
  - a declarative acceptance predicate;
  - a backtracking matcher that follows JavaScript's greedy,
    left-alternative-first order.

  `RegexString` is the `/source/` text whose length orders routes and
  domains.
- **`Pattern`**: the compilers `urlToRegexp` and `routeToRegexp`, pass by
  pass.
- **`HttpMethods`**: both versions of `checkHttpMethods`.
- **`Parameters`**: `extractParameters` writes into a holder object.
- **`Routes`**: the `Route` constructor.
- **`Registry`**: `RouteMap` and `Router` as classes with their fields.
- **`Events`**: the request views `RouterEvent` and `FetchRequest`.
- **`Responses`** and **`LegacyResponses`**: the response classes of each
  generation.
- **`Dispatch`**: the two `FetchRouter`s.
- **`Domains`**, **`FetchHandlers`** and **`EventHandlers`**: the
  domain-handler API.

Route handlers, the `beforeResponse` hook, request handlers and
`decodeURIComponent` cannot be seen by the library. They are function
parameters. A handler is known by a number (its identity). A thrown
exception is the `Err` case of a `Result`. The table `HttpStatusCodes` is
the parameter `codes`.

Where the library has a defect (see "## Findings"), the code as written
and the corrected code are both modelled, and lemmas say where the two
agree. The rest of the model runs the corrected code, in three places:
- routes compile with the corrected `...` test, in both generations;
- `DomainHandler` normalises its methods with the intended filter;
- `EventHandler` counts only registered hosts as known.

So on a pattern with `...` after a `*` rewrite, on an unknown method name
given to a `DomainHandler`, and on a host named after an inherited object
property, the model answers as the library was meant to. The library does
not. "## Left out" names the members this affects.

## Model

| member | source | states |
|---|---|---|
| HttpMethods.CheckHttpMethodsMeaning | src/helpers.ts:5-22 | `'*'` means every method, and a string means a one-element list. Anything else that is not a list throws. Otherwise the result is the distinct upper-cased names that are HTTP methods, sorted. If there are none, it throws. |
| HttpMethods.CheckHttpMethodsValid | src/helpers.ts:18-21 | A successful check never returns an empty list, and every name in it is an HTTP method. |
| HttpMethods.AllMethodsFromStar | src/helpers.ts:7-8 | `'*'` gives exactly the six methods in sorted order. |
| HttpMethods.SingleMethod | src/helpers.ts:9-10 | A method name, in any case, gives the one upper-cased method. |
| HttpMethods.CheckHttpMethodsLegacyMeaning | src/utils.js:3-21 | As written: a string becomes a list. The result is the distinct upper-cased names, with nothing filtered out. It becomes `['*']` when it holds `*` among others or counts as many names as there are methods. It is sorted. A non-list throws. |
| HttpMethods.UnknownMethodSurvivesLegacy | src/utils.js:10 | As written, `'fetch'` is accepted as a method `FETCH`. |
| HttpMethods.LegacyAcceptsAnyName | src/utils.js:3-21 | As written, any single name, recognised or not, is accepted as its upper-cased self. |
| HttpMethods.CheckHttpMethodsLegacyFixedMeaning | src/utils.js:3-21 | With the filter as intended, the result holds only HTTP methods or `*`, each name once, sorted. The errors are those of the code as written. |
| HttpMethods.FixedRejectsUnknownName | src/utils.js:10-13 | With the filter as intended, a name that is neither a method nor `*` throws 'Please enter at least one valid method'. |
| HttpMethods.FixedKeepsMethod | src/utils.js:3-21 | On a real method name, the intended filter and the written one agree. |
| Pattern.UrlToRegexp | src/helpers.ts:38-59 | As written: the expression starts with `^`, and a host-less pattern continues with `(?:.*)`. It ends with the optional slash. It has one group per variable, in order, and the variables are the pattern's `:name` parameters. |
| Pattern.UrlToRegexpFixed | src/helpers.ts:50-51 | The corrected half of the first finding: the compiler with its `...` test read right after the parameter name, in the string being rewritten. Same shape as `UrlToRegexp`. |
| Pattern.RestParameter | src/helpers.ts:48-56 | With the corrected test, `:name...` anywhere becomes one rest group `(.*)` and its dots disappear. |
| Pattern.SegmentParameter | src/helpers.ts:48-55 | With the corrected test, `:name` not followed by `...` becomes one segment group `([^/]+)`. |
| Pattern.HostlessRestAsWritten | src/helpers.ts:50-51 | As written, `/…:name...` ends in a segment group followed by three any-character dots. |
| Pattern.HostlessRestCapturesNoSlash | src/helpers.js:43-44 | As written, what such a parameter captures never holds a `/`. |
| Pattern.HostlessRestFixed | src/helpers.ts:50-51 | Corrected, the same pattern ends in one rest group. |
| Pattern.AsWrittenMissedRest | src/helpers.ts:50-51 | Where the as-written `...` test looks past the end of the pattern, `:name...` stays a segment group followed by three dots. |
| Pattern.AsWrittenFalseRest | src/helpers.ts:50-51 | As written, `:a` in `/:a/bcde...` compiles to a rest group because the test finds the dots of `bcde...`. The corrected compiler gives a segment group. |
| Pattern.NoStarPatternsAgree | src/helpers.ts:38-59 | Patterns with no `*` that do not start with `/` compile to the same expression either way. |
| Pattern.RouteToRegexp | src/utils.js:36-48 | An empty first segment yields a leading `(?:.*)`. Both `:name` and `*name` become segment groups, one per variable in order. Nothing anchors the start. The end allows one optional slash. |
| Pattern.LegacyParams | src/utils.js:42-45 | Both `:name` and `*name` become segment groups, and the variables are the groups' names in order. |
| Pattern.LegacyStarStart | src/utils.js:37-39 | A pattern whose first segment is empty gets a leading `(?:.*)`. |
| Pattern.FirstSegment | src/utils.js:26 | `route.split('/').shift()`: the longest prefix without `/`. |
| Pattern.RouteHasDomain | src/utils.js:24-27 | True exactly when the first segment ends in word characters, a dot and word characters. |
| Pattern.DomainSuffix | src/utils.js:24-26 | A segment ends in `\w+\.\w+` exactly when its trailing run of word characters is preceded by a dot and a word character. |
| Regex.CapturesAgree | src/helpers.ts:120 | The backtracking matcher succeeds exactly when the expression accepts the input from that position. |
| Regex.SearchFinds | src/utils.js:41-47 | An unanchored `match` succeeds exactly when the expression accepts from some start index. |
| Regex.AnchoredSearch | src/helpers.ts:124 | For an anchored expression, `match` is the match at index 0. |
| Parameters.ExtractParameters | src/helpers.ts:24-36 | No match, or a group count different from the variable count, changes nothing. Otherwise each variable is set to its decoded capture, a later variable of the same name wins, and other keys are kept. It throws when a capture does not decode. |
| Parameters.WrittenMeaning | src/helpers.js:54-60 | The fold succeeds exactly when every capture decodes. It leaves other keys alone and stores each name's last decoded capture. |
| Routes.NewRoute | src/helpers.ts:79-117 | Fails exactly when the given methods fail the check, or when there is neither a function handler nor a truthy `pass`. The methods' error comes first. A route has the checked methods, or `['GET']` when a function or options object took their place. It has the function handler if one was given. `pass` and `priority` come from whichever argument is read as options, including an object or array in the handler's place. The key is `methods.join('.') + '#' + regexp`. |
| Routes.NewRouteWellFormed | src/helpers.ts:79-117 | Every constructed route has recognised methods in strictly ascending order. It has a function handler unless it is a pass route. Its anchored expression, from the corrected compiler, has one group per variable. |
| Routes.NewLegacyRoute | src/helpers.js:63-82 | Succeeds exactly when a function stands in for the methods, or when the handler is a function and the methods pass the check. A missing function handler is reported before bad methods. A route has `['GET']` or the checked methods and always a function handler. It has no pass flag or priority, and the key is `methods.join('.') + '#' + regexp`. |
| Routes.NewLegacyRouteWellFormed | src/helpers.js:63-82 | Every route the earlier constructor builds is well formed, with the expression the corrected compiler gives. |
| Routes.NewRouteVerb | src/helpers.ts:198-244 | A route built from the one-method list `[verb]` has exactly that method. |
| Routes.NewLegacyRouteVerb | src/helpers.js:146-168 | The same for the earlier constructor. |
| Routes.MatchesLanguage | src/helpers.ts:119-121 | `matches` holds exactly when the expression accepts the url from its start. |
| Routes.CapturesPerVariable | src/helpers.ts:124-125 | A matching route captures exactly one value per variable. |
| Registry.RouteMap.Add | src/helpers.ts:136-155 | A new key adds the route. A duplicate route key, a falsy router key (`undefined` in the earlier generation) or a duplicate router key throws and leaves the map unchanged. Keys stay unique. |
| Registry.RouteMap.constructor | src/helpers.js:95-99 | A new map has no routes and no sub-routers. |
| Registry.RouteMap.FindAll | src/helpers.ts:157-173 | Returns `Found`: own matches then each sub-router's, stably sorted by key length and then by priority. |
| Registry.RouteMap.OwnMatches | src/helpers.ts:159-163 | The first loop of `findAll` collects this map's matching routes in insertion order. |
| Registry.RouteMap.FindInRouters | src/helpers.ts:164-169 | The second loop collects what each sub-router finds, in the order the routers were added. |
| Registry.FoundSameRoutes | src/helpers.ts:170-172 | Sorting keeps exactly the routes that were collected. |
| Registry.FoundOrdered | src/helpers.ts:170-172 | The current `findAll` is sorted by priority and then by key length, both descending. The earlier one is sorted by key length alone. |
| Registry.FoundStable | src/helpers.js:133 | Routes that tie keep the order they were collected in. |
| Registry.FoundPermutes | src/helpers.js:120-134 | `findAll` returns a permutation of what it collected. |
| Registry.FoundMembers | src/helpers.ts:157-169 | The result is exactly this map's matching routes and what the sub-routers find. |
| Registry.FoundMatch | src/helpers.ts:160 | Every route found matches the url. |
| Registry.Router.constructor | src/routers.ts:81-85 | A domain or blueprint router's key is `key || domain` or `key || path`. Other routers have no key. |
| Registry.InitialKey | src/routers.ts:81-85 | A domain or blueprint router always has a key: the given key if truthy, else the domain or path. Other routers have none. |
| Registry.Router.Route | src/helpers.ts:182-196 | Registers one route per url, in order. The first failure throws and keeps the routes added before it. In the earlier generation an array of urls is handled as `LegacyArrayUrls` states. |
| Registry.LegacyArrayUrls | src/helpers.js:141-143 | An array of urls in the earlier generation: a domain router throws on `url.startsWith` and a plain router in `urlToRegexp`. Neither registers anything. A blueprint router registers at most the one route of the comma-joined url. |
| Registry.RegisterMeaning | src/helpers.ts:188-194 | Registration appends the built route of each url in order. It succeeds exactly when every url got through. |
| Registry.RegisterUrls | src/helpers.ts:188-194 | For the urls that got through, in order, the routes they build are appended after the old ones. The call fails exactly when some url did not get through. |
| Registry.RegisterKeepsKeysUnique | src/helpers.ts:138-141 | Registering keeps route keys unique. |
| Registry.Attempt | src/routers.ts:87-104 | A domain router refuses a url in an array that is not a path, and the earlier generation refuses such a url alone too. The url is prefixed with the domain or path. |
| Registry.AttemptWellFormed | src/routers.ts:124-138 | Every route a router registers is well formed and compiled from the prefixed url. |
| Registry.VerbMethod | src/helpers.ts:198-244 | Each verb helper registers routes with exactly its one method. |
| Registry.Router.Get | src/helpers.ts:206-212 | `get` is `route` with `['GET']`. |
| Registry.Router.Delete | src/helpers.ts:198-204 | `delete` is `route` with `['DELETE']`. |
| Registry.Router.Head | src/helpers.ts:214-220 | `head` is `route` with `['HEAD']`. |
| Registry.Router.Options | src/helpers.ts:222-228 | `options` is `route` with `['OPTIONS']`. |
| Registry.Router.Post | src/helpers.ts:230-236 | `post` is `route` with `['POST']`. |
| Registry.Router.Put | src/helpers.ts:238-244 | `put` is `route` with `['PUT']`. |
| Registry.Router.AddRouter | src/routers.ts:21-23 | Mounts a router. Routes are unchanged. |
| Registry.Router.AddBlueprint | src/routers.ts:106-112 | Only a blueprint router is mounted. Anything else throws 'Blueprint must be of type BlueprintRouter'. |
| Events.RouteString | src/helpers.ts:275 | The route is the hostname followed by the pathname with its leading slashes collapsed to one. |
| Events.RouterEvent.constructor | src/helpers.ts:260-276 | The event's route is `RouteString` of the request, its parameters start empty, and no clone is made yet. |
| Events.LegacyRouterEvent.constructor | src/helpers.js:172-179 | The earlier event copies the request at once, has the same route, and starts with empty parameters. |
| Events.FetchRequest.constructor | src/fetchhandler.js:5-11 | The route is the pathname with its leading slashes collapsed, without the hostname. The parameters start empty. |
| Events.CollapseSlashesIdempotent | src/helpers.ts:275 | Collapsing leading slashes twice is the same as once. |
| Events.PathRoute | src/fetchhandler.js:10 | The route of a `FetchRequest` is the event route without the hostname. |
| Events.Ip | src/helpers.ts:282-284 | `cf-connecting-ip` if non-empty, else `x-real-ip` if non-empty, else `''`. |
| Events.LegacyIp | src/fetchhandler.js:17-19 | The same choice, but `null` when neither header is present. |
| Events.IpGenerationsAgree | src/helpers.ts:282-284 | Both versions agree up to `null` versus `''`. |
| Events.RouterEvent.Request | src/helpers.ts:308-313 | The first read clones the original request. Later reads return the same clone. |
| Events.RequestReadTwice | src/helpers.ts:308-313 | Two reads of `request` give the same object; when none was made yet, the first read's clone is the one kept and returned both times. |
| Events.RouterEvent.PassTarget | src/helpers.ts:322-324 | `pass` forwards the clone if one was made, else the original request. |
| Events.LegacyEventIpAsWritten | src/helpers.js:181-183 | As written, the `ip` getter always throws. |
| Events.LegacyEventIpThrows | src/helpers.js:181-183 | The getter throws even when `cf-connecting-ip` is present. As intended, it returns that header. |
| Events.LegacyEventIp | src/helpers.js:181-183 | Corrected, the getter reads the event's request headers. |
| Responses.ApiResponse | src/responses.ts:4-22 | Status 0 or none becomes 200. The default status text comes from the status table. The JSON content type is added unless given. The body is stringified only for JSON. |
| Responses.ApiError | src/responses.ts:31-53 | Throws unless 400 ≤ status < 600 (default 400). The body is the metadata overlaid with code, message (default: the status text) and status. |
| Responses.ApiRedirect | src/responses.ts:56-67 | Throws unless 300 ≤ status < 400 (default 302). It sets the `location` header and has no body. |
| Responses.Normalise | src/routers.ts:64-66 | A `Response` is kept and any other value is wrapped in a 200 JSON response. |
| Responses.RouterStatusesAreErrors | src/routers.ts:42-52 | The statuses the router raises itself (404, 405, 500) construct an `ApiError` without throwing. |
| Responses.StatusError | src/routers.ts:44-50 | `new ApiError({status})` for those statuses: that status, a JSON content type and the default error body. |
| LegacyResponses.ApiResponse | src/responses.js:1-7 | The content type is forced to JSON, the body is always stringified, and the status is as given. |
| LegacyResponses.ApiError | src/responses.js:9-19 | The default status is 400 and the default message 'Bad Request'. The body is the metadata overlaid with status, code and message. No range check. |
| LegacyResponses.LegacyErrorAcceptsAnyStatus | src/responses.js:11 | A status outside 400-599 is accepted by the earlier `ApiError` and refused by the current one. |
| LegacyResponses.Normalise | src/fetchhandler.js:50-53 | A `Response` is returned untouched. Any other value is stringified into an `ApiResponse` that sets no status. |
| LegacyResponses.ServerError | src/fetchhandler.js:57-58 | An exception becomes a 500 whose body carries the error text under `error`. |
| Dispatch.Allowed | src/routers.ts:48 | The filter keeps exactly the routes listing the method. Its head is the first such route. |
| Dispatch.Select | src/routers.ts:42-57 | No routes gives 404, and no route allowing the method gives 405. Otherwise the winner is the first allowed route, and it is passed if and only if it is a pass route. |
| Dispatch.SelectedOutranks | src/helpers.js:133 | On a list sorted by key length, the chosen route has the longest key of all the routes allowing the method. |
| Dispatch.SelectedOutranksLex | src/helpers.ts:170-172 | On a list ordered by priority, then key length, the chosen route ranks at least as high as every route allowing the method. |
| Dispatch.WinnerOutranks | src/routers.ts:54 | The winner outranks every other allowed route. In the current generation it is ahead by priority and then key length. In the earlier one its key is at least as long. |
| Dispatch.NotFoundExactly | src/routers.ts:42-46 | 404 happens exactly when no route of the map or its sub-routers matches. A route that matches but lacks the method rules out 404. |
| Dispatch.HandledWritesCaptures | src/helpers.ts:123-129 | Handling a matching route stores each variable's decoded capture in the parameters and then calls the handler. |
| Dispatch.HandleRoute | src/helpers.ts:123-129 | `handle` updates the event's parameters and returns what the handler returns. With no handler it returns `undefined`. |
| Dispatch.ShowServerError | src/routers.ts:14-19 | `showServerError` defaults to true. Otherwise it is the truthiness of the option. |
| Dispatch.BeforeResponse | src/routers.ts:25-37 | With no hook the response is unchanged. A truthy `Response` from the hook replaces it, and another truthy value is wrapped. A falsy value keeps the response. An exception propagates. |
| Dispatch.HandlerReply | src/routers.ts:62-73 | A handler's result is normalised. An exception gives a 500 whose body carries `String(error)` exactly when errors are shown. |
| Dispatch.FetchStatuses | src/routers.ts:42-52 | Without a hook, no match answers 404 and no allowed method answers 405. |
| Dispatch.PassSkipsHandler | src/routers.ts:55-57 | A pass route leaves the event unanswered whatever the handler and hook are. |
| Dispatch.HandledOutcome | src/routers.ts:55-75 | Any other winner is answered by `onRoute` on that route. |
| Dispatch.OnRoute | src/routers.ts:60-75 | Handles the route, builds the reply and applies the hook, as `OnRouteOutcome` specifies. |
| Dispatch.OnFetch | src/routers.ts:39-58 | The outcome is `FetchOutcome` of what `findAll` returns. A request that cannot be parsed escapes. |
| Dispatch.Finish | src/routers.ts:44-45 | With no hook the response is handed to `respondWith` unchanged. Otherwise the outcome is a response or an escaped exception. |
| Dispatch.LegacyFetchOutcome | src/routers.js:14-36 | No match gives 404 and no allowed method gives 405. For the first route allowing the method, the handler's result is normalised, and an exception gives a 500 carrying the error. |
| Dispatch.LegacyHandlesSameRoute | src/routers.js:21-27 | The earlier router handles the same winning route the current one would. |
| Dispatch.LegacyHandledAgrees | src/helpers.js:88-92 | For a route with a function handler, the earlier `handle` matches, writes the parameters and calls the handler exactly as the current one does. |
| Dispatch.LegacyHandleRoute | src/helpers.js:88-92 | The earlier `handle` updates the event's parameters as `LegacyHandled` specifies. It calls the handler unconditionally, so a route without one throws. |
| Dispatch.LegacyOnFetchEvent | src/routers.js:14-36 | The earlier `onFetchEvent` answers as `LegacyFetchOutcome` specifies. A request that cannot be built gives 500. |
| Domains.Registration | src/domainhandler.js:14-26 | A function in place of the methods means `['*']`. A handler that is not a function throws 'Handler must be a function!'. Otherwise the methods are checked and the key is `methods.join('#') + '#' + regexp`. |
| Domains.StarAlone | src/domainhandler.js:15-22 | When a function stands in for the methods they become `['*']`, and the method check keeps `['*']` as it is. |
| Domains.DomainHandler.constructor | src/domainhandler.js:7-12 | The domain expression and variables are those `routeToRegexp` gives. The routes are empty. |
| Domains.DomainHandler.AddRoute | src/domainhandler.js:14-26 | A route is stored under its key, replacing any route with the same key. A failure leaves the routes unchanged. Keys stay distinct. |
| Domains.MapSetMeaning | src/domainhandler.js:25 | `Map.set` keeps insertion order for an existing key and appends a new one. The key's value becomes the new one and the other keys are unchanged. |
| Domains.MapDeleteMeaning | src/domainhandler.js:46 | `Map.delete` removes exactly that key. |
| Domains.RemovalKey | src/domainhandler.js:42-45 | The default methods are `['*']`. The key is built as on registration. |
| Domains.DomainHandler.RemoveRoute | src/domainhandler.js:42-47 | Deletes the key that `RemovalKey` gives. |
| Domains.RemoveUndoesAdd | src/domainhandler.js:42-47 | Removing with the same url and methods deletes what adding stored. |
| Domains.VerbRegistration | src/domainhandler.js:49-71 | Each verb helper registers exactly its one method, or throws for a non-function handler. |
| Domains.DomainHandler.Get | src/domainhandler.js:53-55 | `get` stores the `GET` entry, or throws for a non-function handler. |
| Domains.DomainHandler.Delete | src/domainhandler.js:49-51 | `delete` stores the `DELETE` entry, or throws for a non-function handler. |
| Domains.DomainHandler.Head | src/domainhandler.js:57-59 | `head` stores the `HEAD` entry, or throws for a non-function handler. |
| Domains.DomainHandler.Options | src/domainhandler.js:61-63 | `options` stores the `OPTIONS` entry, or throws for a non-function handler. |
| Domains.DomainHandler.Post | src/domainhandler.js:65-67 | `post` stores the `POST` entry, or throws for a non-function handler. |
| Domains.DomainHandler.Put | src/domainhandler.js:69-71 | `put` stores the `PUT` entry, or throws for a non-function handler. |
| Domains.FirstServing | src/domainhandler.js:28-40 | Finds the first route, in insertion order, that lists the method or `*` and whose expression matches the path. |
| Domains.DomainHandler.FindRouteMatch | src/domainhandler.js:28-40 | The loop returns that first serving route and writes its parameters. |
| Domains.DomainHandler.Matches | src/domainhandler.js:73-80 | False without a match. On a match, the domain's parameters are written. |
| Domains.Extracted | src/utils.js:50-56 | No match, or a group count different from the variable count, leaves the holder as it is. Otherwise extraction fails exactly when some capture does not decode. |
| Domains.DomainHandler.OnRequest | src/domainhandler.js:82-88 | The first serving route's handler answers. With none, the answer is a 404 `ApiError`. |
| Domains.ServedFirstEntry | src/domainhandler.js:82-88 | Serving decodes the first serving route's captures into the parameters and calls its handler. |
| FetchHandlers.AddDomainSorted | src/fetchhandler.js:31-34 | After `addDomain` the list grows by that handler and is a permutation. It is sorted by domain length, longest first, and equal lengths keep registration order. |
| FetchHandlers.SitesSorted | src/fetchhandler.js:33 | A domain list sorted by expression length gives sites sorted the same way. |
| FetchHandlers.FetchHandler.constructor | src/fetchhandler.js:27-29 | Starts with no domain handlers, which is sorted. |
| FetchHandlers.FetchHandler.AddDomain | src/fetchhandler.js:31-34 | Push and a stable sort. The list stays sorted. |
| FetchHandlers.FirstHost | src/fetchhandler.js:47-48 | Gives the first domain handler whose domain matches the hostname. |
| FetchHandlers.HostReply | src/fetchhandler.js:44-60 | Given the hostname, path route and method, the first matching domain answers, even when none of its routes do. No match gives 404 'Unknown Host'. |
| FetchHandlers.LongestDomainWins | src/fetchhandler.js:33 | In the sorted list, the domain that answers has the longest expression among those matching. |
| FetchHandlers.FetchHandler.OnRequest | src/fetchhandler.js:44-60 | Answers as `HostReply` specifies for the parsed request's hostname, path route and method, over the domain handlers as they were. An exception building the request gives 500. |
| FetchHandlers.FirstSite | src/fetchhandler.js:47-56 | The loop over the domain handlers answers exactly as `HostReply` specifies. |
| FetchHandlers.SiteTurn | src/fetchhandler.js:48-54 | One turn at the `i`-th handler: an answer is what `HostReply` gives, and no answer means the search continues past `i` with the parameters untouched. |
| FetchHandlers.TrySite | src/fetchhandler.js:48-53 | One loop step: no match goes on. A match answers with the normalised result, or with 500 on an exception. |
| EventHandlers.HasDomain | src/eventhandler.js:19-21 | As intended, only registered hosts count. This agrees with the code as written except on inherited property names. |
| EventHandlers.AddedWith | src/eventhandler.js:9-17 | A non-request-handler throws, and so does a host already present. Otherwise exactly that host is added. |
| EventHandlers.AddTwiceFails | src/eventhandler.js:13-14 | Registering a host twice fails the second time. |
| EventHandlers.EventHandler.AddDomain | src/eventhandler.js:9-17 | Updates the hosts as `Added` specifies. A failure leaves them unchanged. |
| EventHandlers.BadRequest | src/eventhandler.js:33 | `new ApiError({metadata: {error}})` is a 400 carrying the error. |
| EventHandlers.AnswerWith | src/eventhandler.js:27-38 | A registered host's handler answers unchanged. An unknown host gives 400 'Unknown Host'. An exception from the handler, or a known host with no handler, gives 400 carrying the error. |
| EventHandlers.EventHandler.OnRequest | src/eventhandler.js:27-38 | Answers as `Answer` specifies, and an unregistered host gets 'Unknown Host'. |
| EventHandlers.PrototypeHostAsWritten | src/eventhandler.js:19-21 | As written, `toString` cannot be registered, and a request for host `constructor` gets a TypeError instead of 'Unknown Host'. As intended, both behave normally. |
| EventHandlers.AgreeOffPrototype | src/eventhandler.js:19-21 | Away from inherited names, the written and intended versions agree. |
| EventHandlers.EventHandler.constructor | src/eventhandler.js:5-7 | Starts with no hosts registered. |
| Sorting.SortDescStable | src/helpers.ts:171-172 | The descending sort is stable. |
| Sorting.SortAfterSortIsLex | src/helpers.ts:170-172 | Sorting by key length and then by priority orders by priority first, then key length. |

## Left out

- `src/requesthandler.js`, `src/index.ts`, `example/index.js` and `webpack.config.js` are not part of this model. A request handler's `onRequest` is the parameter `serve`.
- Host I/O is not modelled:
  - `respondWith`, `fetch` in `pass()`, `onFetch` methods that only hand a promise to `respondWith`;
  - URL parsing: a request arrives parsed, as hostname, pathname, method and headers, or as the error its parsing threw;
  - `Headers` objects, which are given as maps.
- Promises and `await` are modelled as ordinary calls.
  - An exception thrown by the `beforeResponse` hook inside `onRoute`'s promise is the outcome `Escaped`, because the library does not catch it.
- `decodeURIComponent` is a parameter. `JSON.stringify` is recorded as the stringified JSON value, not as text.
- `toUpperCase` is modelled for ASCII letters only.
- Regular expressions: only the metacharacters the compilers generate, plus `^`, `$` and `.` from a pattern, have their regex meaning. Any other metacharacter written into a pattern (`?`, `+`, `[`, `(`, `|`, `\`) is matched literally.
- `FetchHandler.addRoute` (src/fetchhandler.js:36-38) has an empty body and is not modelled.
- The `ipv4`, `method`, `query` and `headers` getters are plain fields or are not modelled.
- The `environment` and `context` of a `RouterEvent` are not modelled.
- Handlers that mutate the event in other ways are not modelled. A handler sees the route, the method and the parameters.
- Dispatch.LegacyOnFetchEvent: the earlier `RouterEvent` copies the request eagerly. The copy is the parameter `copy`.
- NewRoute (`Routes.NewRoute`): compiles with the corrected `...` test, where src/helpers.ts:112 calls the compiler as written. The key and `findAll`'s order follow from that expression. For `/files/:p...` the library compiles `([^/]+)...`, which never matches `h/files/a/b`; the model compiles `(.*)` and matches.
- NewRouteWellFormed: states the expression of the corrected compiler, for the reason given for `NewRoute`.
- NewLegacyRoute (`Routes.NewLegacyRoute`): compiles with the corrected `...` test, where src/helpers.js:77 calls the compiler as written.
- NewLegacyRouteWellFormed: states the expression of the corrected compiler, for the reason given for `NewLegacyRoute`.
- Route (`Registry.Router.Route`), and the verb methods `Get`, `Delete`, `Head`, `Options`, `Post` and `Put` that call it: register routes built by `NewRoute` or `NewLegacyRoute`, so with the corrected compiler. `FindAll` and both `FetchRouter`s then see those routes.
- AttemptWellFormed: states the expression of the corrected compiler, for the reason given for `NewRoute`.
- Registration (`Domains.Registration`): normalises the methods with the intended filter (`CheckHttpMethodsLegacyFixed`), where src/domainhandler.js:22 calls `checkHttpMethods` of src/utils.js as written, which keeps every name. `addRoute('/x', 'fetch', h)` throws in the model but registers `FETCH` in the library. `['GET', 'FETCH']` keeps only `GET` in the model. Six names including an unknown one collapse to `['*']` only in the library. On HTTP method names and `*` both filters agree (`FixedKeepsMethod`, `StarAlone`).
- AddRoute (`Domains.DomainHandler.AddRoute`) and the verb methods of `DomainHandler`: store what `Registration` gives, so with the intended filter.
- RemovalKey (`Domains.RemovalKey`): builds the key with the intended filter, for the reason given for `Registration`.
- RemoveRoute (`Domains.DomainHandler.RemoveRoute`): deletes the key `RemovalKey` gives. After `addRoute('/x', ['GET', 'FETCH'], h)`, `removeRoute('/x', ['GET'])` deletes the route in the model but not in the library.
- AddDomain (`EventHandlers.EventHandler.AddDomain`): uses the intended `HasDomain`, where src/eventhandler.js:13 uses `in`. `addDomain('toString', rh)` throws in the library and succeeds in the model. `AgreeOffPrototype` shows the two agree on every other host.
- OnRequest (`EventHandlers.EventHandler.OnRequest`): answers as `Answer`, where src/eventhandler.js:30 tests `in`. For host `constructor` the library answers a 400 carrying a TypeError; the model answers 'Unknown Host'. `AgreeOffPrototype` shows the two agree on every other host.
- OptionsOf (`Routes.OptionsOf`): a `priority` is an integer. A fractional priority such as `0.5`, which src/helpers.ts:66 allows as a `number`, is not modelled.
- Registry.RouteMap.FindAll: needs the sub-router nesting to be finite (`Bounded`). A router mounted inside itself makes the source recurse forever.

## Findings

| source | as written | input that shows it | evidently intended | confidence | as-written member | corrected member |
|---|---|---|---|---|---|---|
| src/helpers.ts:50-51 (and src/helpers.js:43-44) | The `...` test reads the unrewritten `url` at an offset measured in the string after the `*` rewrite, so in a host-less pattern it looks five characters too far. | `/files/:path...` compiles to `([^/]+)...`, so `path` never captures a `/`. The reverse also happens: in `/:a/bcde...` the test finds the dots of `bcde...` and turns `:a` into `(.*)`. | `:name...` becomes the rest group `(.*)`. | not executed | Pattern.HostlessRestAsWritten | Pattern.HostlessRestFixed |
| src/helpers.js:181-183 | The earlier `RouterEvent.ip` reads `this.event`, which is never set. | Any request with `cf-connecting-ip` makes the getter throw a TypeError. | Read `this.fetchEvent.request.headers`. | not executed | Events.LegacyEventIpThrows | Events.LegacyEventIp |
| src/eventhandler.js:19-21 | `hasDomain` uses `in` on a plain object, so inherited property names count as registered hosts. | Host `toString` cannot be added, and a request for host `constructor` gets a TypeError instead of 'Unknown Host'. | Only registered hosts count. | not executed | EventHandlers.PrototypeHostAsWritten | EventHandlers.AgreeOffPrototype |
| src/utils.js:10 | The filter `HttpMethods[method] \|\| '*'` is always truthy, so nothing is filtered out. | `addRoute('/x', 'fetch', h)` registers under the method `FETCH`. | Keep only HTTP methods and `*`. | not executed | HttpMethods.UnknownMethodSurvivesLegacy | HttpMethods.FixedRejectsUnknownName |
