# Map-Backend-Reactif routing and place-search core, in Dafny

This project models the core of a reactive map backend that computes road itineraries
inside Cameroon and searches named places.

* **Route service.** A direct route between two points is first looked up in the
  adaptive cache. On a miss it is computed by the database's k-shortest-paths router
  (pgRouting), which gives up to three alternatives. When pgRouting gives no usable
  answer, the public OSRM router is asked instead. A usable answer is written back to
  the cache. A three-point "detour" route is built from two OSRM legs and is never cached.
* **Adaptive cache.** Keys for place searches and routes. Expiry (TTL) grows with a key's
  usage and with a route's length. The cache object tracks per-key usage counts and
  hit/miss counters.
* **HTTP route controller.** Validates requests, fills in defaults and maps the service's
  answer to a status code.
* **Place service.** Formats the list of place names. Runs the cached place search with
  its OpenStreetMap fallback. Checks the arguments of the closest-place lookup.

Modules, one concept each:

| module | file | contents |
|---|---|---|
| `Model` | model.dfy | the value types: points, steps, routes, responses, places |
| `Geo` | geo.dfy | the serviced rectangle and the coordinate-range check |
| `Strings` | strings.dfy | `String.join` and `String.trim` with their properties |
| `Json` | json.dfy | a parsed JSON tree and the Jackson accessors the OSRM parser uses |
| `Cache` | cache.dfy | key derivation, the TTL tables, and the `AdaptiveCache` class |
| `RouteSpec` | route_spec.dfy | what each routing step computes, as functions, and the lemmas about them |
| `RouteService` | route_service.dfy | the service's methods, each proved to compute its `RouteSpec` function |
| `RouteController` | route_controller.dfy | the two route endpoints |
| `PlaceService` | place_service.dfy | name formatting, place search, closest-place validation |

Everything outside the program is a parameter:

* `nearest` is the nearest-node SQL lookup.
* `ksp` is the k-shortest-paths query.
* `osrm` is the OSRM HTTP call, from a request (profile and waypoints) to a reply: an
  error signal, a successful reply without a body, or a body with its parsed tree.
* `find`, `osm` and `findAfterSave` are the repository queries and the OpenStreetMap search.
* `normalize` is the accent-stripping name normaliser.
* `show` is Java's `Double.toString` and `fmt4` is `%.4f`.
* `now` is the clock in seconds.
* `getFault` and `setFault` say that a cache store call fails.

The cache's store is a `map` field of the `AdaptiveCache` class. Its usage counts and
hit/miss counters are fields that only `Get` updates; `Set` writes the store alone.

A reactive stream that completes without a value is `None` in the model. An OSRM reply
without a body completes empty, and that emptiness reaches the HTTP layer: the direct
route (when pgRouting gave no usable answer), the detour and the controller's reply are
then `None`.

## Model

| member | source | states |
|---|---|---|
| Model.ErrorResponse | src/main/java/com/example/Mp_Reactif/service/RouteService.java:478-482 | an error response carries the message and no route list |
| Strings.JoinLength | src/main/java/com/example/Mp_Reactif/service/RouteService.java:315-317 | a join of n parts is the parts' total length plus n - 1 separators |
| Strings.JoinConcat | src/main/java/com/example/Mp_Reactif/service/RouteService.java:315-317 | joining keeps part order: the join of a + b is join(a), a separator, join(b) |
| Strings.JoinEnds | src/main/java/com/example/Mp_Reactif/service/PlaceService.java:42-49 | a join starts with the first part and ends with the last, with no leading or trailing separator |
| Strings.BlankIffAllWhitespace | src/main/java/com/example/Mp_Reactif/service/PlaceService.java:54 | `trim().isEmpty()` holds exactly when every character is at or below U+0020 |
| Strings.TrimOfVisible | src/main/java/com/example/Mp_Reactif/service/AdaptiveRedisCacheService.java:172 | trimming a string without white space leaves it unchanged |
| Json.Field | src/main/java/com/example/Mp_Reactif/service/RouteService.java:277 | `get(key)` finds the last field with that name in the object, as a reader that keeps the last of duplicate keys does, and finds nothing only when no field has that name |
| Json.Elements | src/main/java/com/example/Mp_Reactif/service/RouteService.java:306 | iteration visits exactly `size()` nodes: an array's items in order, an object's field values in order, nothing for a scalar |
| Cache.NormalizeKey | src/main/java/com/example/Mp_Reactif/service/AdaptiveRedisCacheService.java:167-173 | a normalised key holds only characters of `[a-z0-9_]` |
| Cache.NormalizeKeyIsPerChar | src/main/java/com/example/Mp_Reactif/service/AdaptiveRedisCacheService.java:167-173 | the lower-case, replace, filter, trim pipeline equals a per-character definition: space to `_`, key characters kept, the rest dropped |
| Cache.NormalizeKeyIdempotent | src/main/java/com/example/Mp_Reactif/service/AdaptiveRedisCacheService.java:167-173 | normalising a normalised key changes nothing |
| Cache.GeneratePlacesKey | src/main/java/com/example/Mp_Reactif/service/AdaptiveRedisCacheService.java:34-37 | the key starts with `p:`, has at most 80 characters, and only key characters follow the prefix; it is a prefix of `p:` + the normalised term, and equal to it when that fits |
| Cache.ModeCode | src/main/java/com/example/Mp_Reactif/service/AdaptiveRedisCacheService.java:158-165 | `w` exactly for walking, `c` exactly for cycling, `d` for null and every other mode |
| Cache.GenerateRouteKey | src/main/java/com/example/Mp_Reactif/service/AdaptiveRedisCacheService.java:39-43 | the key starts with `r:` and ends with `:` and the mode code |
| Cache.ShortKey | src/main/java/com/example/Mp_Reactif/service/AdaptiveRedisCacheService.java:175-177 | at most 33 characters; short keys unchanged; long keys become their first 30 characters followed by `...` |
| Cache.PlaceTtlHours | src/main/java/com/example/Mp_Reactif/service/AdaptiveRedisCacheService.java:48-52 | a place entry lives 2 to 24 hours |
| Cache.DistanceTtlHours | src/main/java/com/example/Mp_Reactif/service/AdaptiveRedisCacheService.java:61-69 | the distance tiers give 6 to 48 hours |
| Cache.RouteTtlHours | src/main/java/com/example/Mp_Reactif/service/AdaptiveRedisCacheService.java:57-69 | a route entry lives 6 to 72 hours |
| Cache.TtlHours | src/main/java/com/example/Mp_Reactif/service/AdaptiveRedisCacheService.java:45-73 | place keys get 2 to 24 hours and route keys 6 to 72; the 1-hour default goes exactly to keys with neither prefix |
| Cache.FirstMatch | src/main/java/com/example/Mp_Reactif/service/AdaptiveRedisCacheService.java:57-69 | a first-match-wins table yields its fallback or one tier's hours |
| Cache.PlaceTtlIsTable | src/main/java/com/example/Mp_Reactif/service/AdaptiveRedisCacheService.java:48-52 | the coded place policy is the table (>10: 24h, >5: 12h, >2: 6h, else 2h) read first-match-wins |
| Cache.RouteTtlIsTable | src/main/java/com/example/Mp_Reactif/service/AdaptiveRedisCacheService.java:57-69 | the coded route policy is the usage table (>15: 72h, >8: 48h) falling back to the distance table (>100: 48h, >50: 24h, >20: 12h, else 6h) |
| Cache.FirstMatchMonotone | src/main/java/com/example/Mp_Reactif/service/AdaptiveRedisCacheService.java:45-73 | a table with descending thresholds and hours never gives less to a larger value |
| Cache.FirstMatchFallbackMonotone | src/main/java/com/example/Mp_Reactif/service/AdaptiveRedisCacheService.java:57-69 | a larger fallback never lowers a table's result |
| Cache.PlaceTtlMonotone | src/main/java/com/example/Mp_Reactif/service/AdaptiveRedisCacheService.java:48-52 | a more popular place key never expires sooner |
| Cache.RouteTtlMonotoneInUsage | src/main/java/com/example/Mp_Reactif/service/AdaptiveRedisCacheService.java:57-69 | at a fixed distance, a more popular route key never expires sooner |
| Cache.RouteTtlMonotoneInDistance | src/main/java/com/example/Mp_Reactif/service/AdaptiveRedisCacheService.java:57-69 | at a fixed usage count, a longer route never expires sooner |
| Cache.ExtractDistance | src/main/java/com/example/Mp_Reactif/service/AdaptiveRedisCacheService.java:75-87 | the first route's distance for a route response with routes, 0 for anything else |
| Cache.AdaptiveCache.constructor | src/main/java/com/example/Mp_Reactif/service/AdaptiveRedisCacheService.java:23-32 | a new cache has an empty store, no usage and zero counters |
| Cache.AdaptiveCache.UsageCount | src/main/java/com/example/Mp_Reactif/service/AdaptiveRedisCacheService.java:89-92 | a key never hit has count 0 |
| Cache.AdaptiveCache.IntelligentTtl | src/main/java/com/example/Mp_Reactif/service/AdaptiveRedisCacheService.java:45-73 | every TTL lies between 1 and 72 hours |
| Cache.AdaptiveCache.Classify | src/main/java/com/example/Mp_Reactif/service/AdaptiveRedisCacheService.java:98-131 | each outcome exactly characterised: store down; read fails; key absent or expired; live but of another type; a hit exactly for a live entry of the requested kind, whose value is the stored value |
| Cache.AdaptiveCache.RecordUsage | src/main/java/com/example/Mp_Reactif/service/AdaptiveRedisCacheService.java:94-96 | the key's count goes up by one; every other count stays |
| Cache.AdaptiveCache.Get | src/main/java/com/example/Mp_Reactif/service/AdaptiveRedisCacheService.java:98-131 | a typed live entry is returned with one hit and one use counted; every other outcome returns nothing and counts one miss (corrected, see Findings) |
| Cache.AdaptiveCache.GetAsWritten | src/main/java/com/example/Mp_Reactif/service/AdaptiveRedisCacheService.java:104-130 | as coded: a lookup of an absent key changes no counter |
| Cache.AdaptiveCache.Set | src/main/java/com/example/Mp_Reactif/service/AdaptiveRedisCacheService.java:133-156 | succeeds exactly when the store is up and the write does not fail; writes the value with the adaptive TTL, not the requested one |
| Cache.SetThenGet | src/main/java/com/example/Mp_Reactif/service/AdaptiveRedisCacheService.java:98-156 | a value written to an empty cache is read back before its TTL elapses, and is gone afterwards |
| Cache.UsageAfterHits | src/main/java/com/example/Mp_Reactif/service/AdaptiveRedisCacheService.java:94-115 | n hits on a key leave its usage count at n, n hits and no miss |
| Cache.UnavailableStore | src/main/java/com/example/Mp_Reactif/service/AdaptiveRedisCacheService.java:99-101 | with the store down, a write reports false and a read returns nothing and counts one miss |
| Cache.MissOfAbsentKeyAsWritten | src/main/java/com/example/Mp_Reactif/service/AdaptiveRedisCacheService.java:104-130 | as coded, a lookup of an absent key counts no miss |
| Cache.MissOfAbsentKey | src/main/java/com/example/Mp_Reactif/service/AdaptiveRedisCacheService.java:116-118 | corrected, a lookup of an absent key counts exactly one miss |
| RouteSpec.Speed | src/main/java/com/example/Mp_Reactif/service/RouteService.java:120 | 25 for driving, 2 for walking, 8 for anything else; always positive |
| RouteSpec.StepOfRow | src/main/java/com/example/Mp_Reactif/service/RouteService.java:151-158 | a row's step keeps its distance, and duration times speed equals that distance |
| RouteSpec.FirstGeometry | src/main/java/com/example/Mp_Reactif/service/RouteService.java:223-229 | the first non-null, non-empty step geometry; the placeholder `LINESTRING(0 0, 1 1)` only when no step has one |
| RouteSpec.StepsWithIdConcat | src/main/java/com/example/Mp_Reactif/service/RouteService.java:173-193 | grouping by path id keeps the input order |
| RouteSpec.StepsWithIdEmpty | src/main/java/com/example/Mp_Reactif/service/RouteService.java:196-204 | an alternative is empty exactly when no row carries its path id |
| RouteSpec.GroupsPartitionRows | src/main/java/com/example/Mp_Reactif/service/RouteService.java:173-193 | every row goes to exactly one of groups 1, 2, 3 or is dropped |
| RouteSpec.AlternativesShape | src/main/java/com/example/Mp_Reactif/service/RouteService.java:195-205 | at most three routes, none empty; each route's totals are its step sums; names and geometry as given |
| RouteSpec.BuildResponseOutcome | src/main/java/com/example/Mp_Reactif/service/RouteService.java:207-212 | routes exist exactly when some row has path id 1, 2 or 3; otherwise the "Aucun itinéraire trouvé par pgRouting" error |
| RouteSpec.FirstAlternativeIsPathOne | src/main/java/com/example/Mp_Reactif/service/RouteService.java:196-198 | path 1, when present, is the first route |
| RouteSpec.AlternativeDuration | src/main/java/com/example/Mp_Reactif/service/RouteService.java:151-158 | for each path id, the alternative built from the mapped rows takes its distance divided by the speed |
| RouteSpec.RouteDurationIsDistanceOverSpeed | src/main/java/com/example/Mp_Reactif/service/RouteService.java:120-158 | every pgRouting alternative's duration is its distance divided by the mode's speed |
| RouteSpec.PgRoutingGuards | src/main/java/com/example/Mp_Reactif/service/RouteService.java:100-117 | an out-of-region point or identical source and target nodes give their errors whatever the graph holds; success needs both nodes found and different, and the query answered |
| RouteSpec.Profile | src/main/java/com/example/Mp_Reactif/service/RouteService.java:254 | `foot` exactly for walking, `bike` exactly for cycling, `car` otherwise |
| RouteSpec.KeptPositions | src/main/java/com/example/Mp_Reactif/service/RouteService.java:306-314 | every coordinate kept lies inside the region, and no more are kept than given |
| RouteSpec.KeptPositionsConcat | src/main/java/com/example/Mp_Reactif/service/RouteService.java:306-314 | filtering coordinates keeps their order |
| RouteSpec.KeptPositionsAll | src/main/java/com/example/Mp_Reactif/service/RouteService.java:306-314 | nothing is dropped exactly when every node is an in-region `[lng, lat]` position |
| RouteSpec.StepOf | src/main/java/com/example/Mp_Reactif/service/RouteService.java:360-401 | a parsed step's source and target are the same instruction: the maneuver's instruction text when there is one, `Étape` otherwise; its geometry is the step's line string; distance and duration default to 0 |
| RouteSpec.LegStepsSameEnds | src/main/java/com/example/Mp_Reactif/service/RouteService.java:323-334 | every step collected from the legs has equal source and target |
| RouteSpec.LegStepsConcat | src/main/java/com/example/Mp_Reactif/service/RouteService.java:323-334 | steps are collected leg after leg, in order |
| RouteSpec.RouteOfShape | src/main/java/com/example/Mp_Reactif/service/RouteService.java:336-354 | a parsed route always has steps; without parsed steps it has exactly one `Départ` to `Arrivée` step carrying the route's geometry, distance and duration; missing totals are 0 |
| RouteSpec.RoutesOf | src/main/java/com/example/Mp_Reactif/service/RouteService.java:283-288 | route node i becomes route i: one route per node, in order |
| RouteSpec.ResponseRoutes | src/main/java/com/example/Mp_Reactif/service/RouteService.java:271-294 | routes come only from a non-blank body that parsed, whose code, if present, is `Ok` and which has a `routes` array; then route i is the parse of route node i |
| RouteSpec.OsrmRoutes | src/main/java/com/example/Mp_Reactif/service/RouteService.java:247-269 | an out-of-region point or an error signal gives no routes; a body is parsed; the result is empty (None) exactly when the points are inside and the reply has no body |
| RouteSpec.OsrmResponse | src/main/java/com/example/Mp_Reactif/service/RouteService.java:234-245 | empty exactly when the OSRM routes are; otherwise the response lists the routes and carries the "Aucun itinéraire trouvé avec OSRM" error exactly when there are none |
| RouteSpec.Fallback | src/main/java/com/example/Mp_Reactif/service/RouteService.java:68-98 | a usable pgRouting answer wins, otherwise the OSRM outcome is final; empty exactly when pgRouting failed and OSRM completed empty; usable exactly when one of them is |
| RouteSpec.NameOr | src/main/java/com/example/Mp_Reactif/service/RouteService.java:47-48 | a given name is kept, a missing one replaced by the default |
| RouteSpec.DetourMode | src/main/java/com/example/Mp_Reactif/service/RouteService.java:405 | cycling exactly for moto, driving for taxi, bus and anything else |
| RouteSpec.DetourProfile | src/main/java/com/example/Mp_Reactif/service/RouteService.java:405 | detour legs are routed by bike for moto and by car otherwise |
| RouteSpec.CombineRoutes | src/main/java/com/example/Mp_Reactif/service/RouteService.java:436-453 | the first leg's steps then the second's; distances and durations add; geometries joined by `;`; the request's names |
| RouteSpec.DetourResponse | src/main/java/com/example/Mp_Reactif/service/RouteService.java:413-433 | the zipped legs: empty exactly when a leg completed empty; the first-leg error, then the second-leg error; otherwise exactly one route combining each leg's first alternative |
| RouteService.GroupSteps | src/main/java/com/example/Mp_Reactif/service/RouteService.java:173-193 | the one-pass loop sorts the steps into the path-1, path-2 and path-3 groups, in input order, with each group's distance and duration totals |
| RouteService.BuildRouteResponseFromSteps | src/main/java/com/example/Mp_Reactif/service/RouteService.java:166-212 | computes `BuildResponse`: a route for each non-empty group, in path-id order, or the no-route error |
| RouteService.CollectCoordinates | src/main/java/com/example/Mp_Reactif/service/RouteService.java:305-314 | the coordinate loop yields the in-region positions, printed, in order |
| RouteService.BuildLineString | src/main/java/com/example/Mp_Reactif/service/RouteService.java:299-320 | the geometry is `LINESTRING(` + the joined coordinates + `)` |
| RouteService.ParseOsrmStep | src/main/java/com/example/Mp_Reactif/service/RouteService.java:360-401 | computes `StepOf` |
| RouteService.ParseOsrmSteps | src/main/java/com/example/Mp_Reactif/service/RouteService.java:326-331 | the inner loop parses every step node of a leg, in order |
| RouteService.CollectLegSteps | src/main/java/com/example/Mp_Reactif/service/RouteService.java:323-334 | the outer loop collects the steps of every leg, leg after leg; a leg without a `steps` array adds none |
| RouteService.ParseOsrmRoute | src/main/java/com/example/Mp_Reactif/service/RouteService.java:296-358 | computes `RouteOf`: geometry, leg steps or the default step, and the totals |
| RouteService.ParseOsrmResponse | src/main/java/com/example/Mp_Reactif/service/RouteService.java:271-294 | computes `ResponseRoutes` from the body and its tree |
| RouteService.ParseOsrmRoutes | src/main/java/com/example/Mp_Reactif/service/RouteService.java:281-289 | the loop over `routes` parses every route node, in order |
| RouteService.CheckWithin | src/main/java/com/example/Mp_Reactif/service/RouteService.java:248-252 | the region loop answers true exactly when all points are inside |
| RouteService.GetRouteFromOsrm | src/main/java/com/example/Mp_Reactif/service/RouteService.java:247-269 | computes `OsrmRoutes` from the reply to the request for this profile and these waypoints, an empty completion included |
| RouteService.CalculateWithOsrm | src/main/java/com/example/Mp_Reactif/service/RouteService.java:234-245 | computes `OsrmResponse`: an empty completion stays empty |
| RouteService.CalculateWithPgRouting | src/main/java/com/example/Mp_Reactif/service/RouteService.java:100-164 | computes `PgRoutingResponse`: region guard, node lookups (source first), identical-node guard, query, grouping |
| RouteService.StoreIfUsable | src/main/java/com/example/Mp_Reactif/service/RouteService.java:73-75 | only a usable answer is written to the cache; otherwise the store is unchanged |
| RouteService.CalculateRouteWithFallback | src/main/java/com/example/Mp_Reactif/service/RouteService.java:68-98 | answers `Fallback(pgRouting, OSRM)`, empty when pgRouting failed and OSRM completed empty; only a usable answer is written to the cache, under the request's key |
| RouteService.RouteWithPgRouting | src/main/java/com/example/Mp_Reactif/service/RouteService.java:41-66 | anything but two points is an error that leaves the cache untouched; a cached response is returned unchanged with one hit and one use of the key counted, nothing else changed; otherwise the fallback runs with the given or default names, one miss is counted and usage is unchanged (miss count as corrected, see Findings) |
| RouteService.RouteWithDetour | src/main/java/com/example/Mp_Reactif/service/RouteService.java:403-434 | region error first, before any request; inside the region, the zipped legs' answer (`DetourResponse`) |
| RouteController.Reply | src/main/java/com/example/Mp_Reactif/controller/RouteController.java:45-56 | 200 exactly for a completed response without error; an error signal gives 500 with the handler's message; other replies are 500 with an error; an empty completion gives no entity |
| RouteController.FirstInvalidPoint | src/main/java/com/example/Mp_Reactif/controller/RouteController.java:27-33 | finds the first point outside [-90, 90] x [-180, 180], and finds none exactly when all are valid |
| RouteController.CalculateRoute | src/main/java/com/example/Mp_Reactif/controller/RouteController.java:20-57 | 400 exactly for an invalid request, with the message of the first failed check; a valid one goes to the service with mode `driving` and names `Unknown Start` and `Unknown Destination` filled in |
| RouteController.CalculateRouteWithDetour | src/main/java/com/example/Mp_Reactif/controller/RouteController.java:60-101 | 400 exactly for an invalid detour request, with the first failed check's message; a valid one goes to the service with mode `taxi` by default and the names as given |
| PlaceService.FormatNames | src/main/java/com/example/Mp_Reactif/service/PlaceService.java:32-51 | the index loop produces the names joined by `,\n` |
| PlaceService.FormattedNamesShape | src/main/java/com/example/Mp_Reactif/service/PlaceService.java:42-49 | the formatted list has n - 1 two-character separators, starts with the first name and ends with the last |
| PlaceService.DatabaseSearch | src/main/java/com/example/Mp_Reactif/service/PlaceService.java:75-97 | database hits are returned as found; with none, an in-region OpenStreetMap place is saved and the query's second answer returned; otherwise nothing is found or saved |
| PlaceService.SearchInDatabaseAndCache | src/main/java/com/example/Mp_Reactif/service/PlaceService.java:75-97 | computes `DatabaseSearch`; only a non-empty list is written to the cache |
| PlaceService.SearchPlaces | src/main/java/com/example/Mp_Reactif/service/PlaceService.java:53-73 | a missing or blank name fails before the cache is touched; a cached non-empty list is returned as stored; otherwise the database search runs on the normalised name; a hit (an empty cached list included) counts one hit and one use, anything else one miss (miss count as corrected, see Findings) |
| PlaceService.FindClosestPlace | src/main/java/com/example/Mp_Reactif/service/PlaceService.java:99-104 | succeeds exactly for finite coordinates in range, and then returns the repository's answer; NaN and infinities are rejected |

## Left out

- Reactor scheduling, concurrency and the atomic counters' thread safety. Each operation is one sequential call.
- The SQL text of the nearest-node and k-shortest-paths queries. Their results are the parameters `nearest` and `ksp`. The graph's own bounding-box filter is part of those results.
- The HTTP and JSON text layers. The OSRM body is given both as text (for the blank check) and as the tree the reader produced, with None for a parse failure. Jackson's `asDouble` of a numeric string is not modelled; it reads as 0.0.
- Number printing: `Double.toString` and `%.4f` are the parameters `show` and `fmt4`. Nothing constrains `show`, so RouteSpec.CodeIsOk would accept a numeric `code` whose printed form is `Ok`, which Java's `asText()` of a number never gives.
- RouteController.CalculateRoute: a `points` list holding a JSON `null` passes the size check and fails with a null-pointer error at the coordinate check, which the framework answers with a 500. A `seq<Point>` has no null element, so the model cannot express that request.
- Name normalisation: NFD decomposition, mark removal and Unicode case mapping are the parameter `normalize`.
- Cache.NormalizeKey: lower-cases ASCII letters only. Java's full Unicode `toLowerCase` also maps a few non-ASCII letters into `[a-z]` (the Kelvin sign to `k`, dotted capital I to `i` plus a mark); the model drops those characters instead.
- Cache.AdaptiveCache: `redisAvailable` is a constant fixed at construction. The asynchronous connection test that sets it (`testConnection`) is not modelled.
- `getCacheStats` and the store's key listing are not modelled; they only report.
- The OSRM JSON is a tree in which an object's last field with a given name wins, as with Jackson's reader.
- Json.Elements: an object with repeated keys lists every occurrence, while Jackson's tree holds each key once. OSRM sends no such objects.
- A row with a null path id or a null distance fails while the row is mapped, and that error becomes the "Erreur exécution pgRouting" response. The model folds it into a failing `ksp` query (`QueryFailed`); `PathRow` itself has no null.
- Distances, durations and coordinates are exact reals, not IEEE doubles. RouteSpec.RouteDurationIsDistanceOverSpeed and the sums in RouteSpec.CombineRoutes and RouteService.GroupSteps hold exactly only in the model; Java's rounding is not modelled.
- Cache.NormalizeKey: lower-casing follows no locale in the model. Java's `toLowerCase()` uses the default locale, so under a Turkish locale `I` becomes a dotless `ı`, which the key filter then drops.
- An empty completion reaching the controller makes the framework send an empty 200 reply; that reply is outside the model (RouteController.Reply is None).
- Route requests hold real coordinates. A NaN latitude or longitude passes the controller's range check in Java; the model cannot express that case.
- RouteService.CalculateWithPgRouting: when both node lookups fail, the model reports the source's error. Java reports whichever lookup fails first in time.
- The "Erreur OSRM", "Erreur calcul détour" and general fallback error handlers are unreachable. Every failure in the model is a value, not an exception. A parser returning null for a route or step is unreachable for the same reason.
- The service's `currentStartPlaceName` and `currentEndPlaceName` fields are replaced by explicit name parameters. The detour legs are parsed without names, because the combined route takes the request's names.
- The closest-place query, the name list query and the place save are repository calls. Their results are parameters. A failing repository call is not modelled.
- PlaceRepository's own bounds (8.45 to 16.19 longitude) belong to the repository, which is not part of this model.

## Findings

| source | as written | input that shows it | evidently intended | confidence | as-written member | corrected member |
|---|---|---|---|---|---|---|
| src/main/java/com/example/Mp_Reactif/service/AdaptiveRedisCacheService.java:104-118 | the miss counter is incremented only inside `flatMap` when the value is null; the store reports an absent key by completing empty, so `flatMap` never runs | `get("p:abc", List.class)` on a running store that does not hold `p:abc` | every lookup that returns nothing counts one miss | medium, not executed | Cache.MissOfAbsentKeyAsWritten | Cache.MissOfAbsentKey |
