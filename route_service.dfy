/** The route service: pgRouting first, OSRM as fallback, results cached; and the
    three-point detour over OSRM. Each method is proved to compute the function of
    module RouteSpec that states what it does. The database and HTTP calls are the
    function parameters `nearest`, `ksp` and `osrm`. */
module RouteService {
  import opened Model
  import opened Strings
  import opened Geo
  import opened Json
  import opened Cache
  import opened RouteSpec

  lemma StepsWithIdAppend(tagged: seq<PathStep>, i: nat, id: int)
    requires i < |tagged|
    ensures StepsWithId(tagged[..i + 1], id)
            == StepsWithId(tagged[..i], id) + (if tagged[i].pathId == id then [tagged[i].step] else [])
  {
    assert tagged[..i + 1][..i] == tagged[..i];
  }

  lemma SumsOfAppend(steps: seq<RouteStep>, s: RouteStep)
    ensures SumDistance(steps + [s]) == SumDistance(steps) + s.distance
    ensures SumDuration(steps + [s]) == SumDuration(steps) + s.duration
  {
    assert (steps + [s])[..|steps|] == steps;
  }

  /** The loop of `buildRouteResponseFromSteps`: one pass sorting the steps into the three
      alternatives while summing their distances and durations. */
  method GroupSteps(tagged: seq<PathStep>)
    returns (stepsA: seq<RouteStep>, distanceA: real, durationA: real,
             stepsB: seq<RouteStep>, distanceB: real, durationB: real,
             stepsC: seq<RouteStep>, distanceC: real, durationC: real)
    ensures stepsA == StepsWithId(tagged, 1) && distanceA == SumDistance(stepsA) && durationA == SumDuration(stepsA)
    ensures stepsB == StepsWithId(tagged, 2) && distanceB == SumDistance(stepsB) && durationB == SumDuration(stepsB)
    ensures stepsC == StepsWithId(tagged, 3) && distanceC == SumDistance(stepsC) && durationC == SumDuration(stepsC)
  {
    stepsA, stepsB, stepsC := [], [], [];
    distanceA, distanceB, distanceC := 0.0, 0.0, 0.0;
    durationA, durationB, durationC := 0.0, 0.0, 0.0;
    for i := 0 to |tagged|
      invariant stepsA == StepsWithId(tagged[..i], 1) && distanceA == SumDistance(stepsA) && durationA == SumDuration(stepsA)
      invariant stepsB == StepsWithId(tagged[..i], 2) && distanceB == SumDistance(stepsB) && durationB == SumDuration(stepsB)
      invariant stepsC == StepsWithId(tagged[..i], 3) && distanceC == SumDistance(stepsC) && durationC == SumDuration(stepsC)
    {
      StepsWithIdAppend(tagged, i, 1);
      StepsWithIdAppend(tagged, i, 2);
      StepsWithIdAppend(tagged, i, 3);
      var step := tagged[i].step;
      if tagged[i].pathId == 1 {
        SumsOfAppend(stepsA, step);
        stepsA := stepsA + [step];
        distanceA := distanceA + step.distance;
        durationA := durationA + step.duration;
      } else if tagged[i].pathId == 2 {
        SumsOfAppend(stepsB, step);
        stepsB := stepsB + [step];
        distanceB := distanceB + step.distance;
        durationB := durationB + step.duration;
      } else if tagged[i].pathId == 3 {
        SumsOfAppend(stepsC, step);
        stepsC := stepsC + [step];
        distanceC := distanceC + step.distance;
        durationC := durationC + step.duration;
      }
    }
    assert tagged[..|tagged|] == tagged;
  }

  /** `buildRouteResponseFromSteps`: the three groups, each non-empty one made a route, in
      path-id order; no route at all is an error. */
  method BuildRouteResponseFromSteps(tagged: seq<PathStep>, start: Option<string>, end: Option<string>)
    returns (r: RouteResponse)
    ensures r == BuildResponse(tagged, start, end)
  {
    var stepsA, distanceA, durationA, stepsB, distanceB, durationB, stepsC, distanceC, durationC := GroupSteps(tagged);
    var routes: seq<Route> := [];
    if stepsA != [] {
      routes := routes + [CreateRoute(stepsA, distanceA, durationA, start, end)];
    }
    ghost var withA := routes;
    if stepsB != [] {
      routes := routes + [CreateRoute(stepsB, distanceB, durationB, start, end)];
    }
    assert routes == withA + (if stepsB == [] then [] else [CreateRoute(stepsB, distanceB, durationB, start, end)]);
    ghost var withB := routes;
    if stepsC != [] {
      routes := routes + [CreateRoute(stepsC, distanceC, durationC, start, end)];
    }
    assert routes == withB + (if stepsC == [] then [] else [CreateRoute(stepsC, distanceC, durationC, start, end)]);
    AssembledRoutes(tagged, stepsA, distanceA, durationA, stepsB, distanceB, durationB, stepsC, distanceC, durationC, routes, start, end);
    if routes == [] {
      r := ErrorResponse(NO_PG_ROUTE);
    } else {
      r := RouteResponse(Some(routes), None);
    }
  }

  lemma AssembledRoutes(tagged: seq<PathStep>, a: seq<RouteStep>, da: real, ua: real, b: seq<RouteStep>, db: real, ub: real,
                        c: seq<RouteStep>, dc: real, uc: real, routes: seq<Route>, start: Option<string>, end: Option<string>)
    requires a == StepsWithId(tagged, 1) && da == SumDistance(a) && ua == SumDuration(a)
    requires b == StepsWithId(tagged, 2) && db == SumDistance(b) && ub == SumDuration(b)
    requires c == StepsWithId(tagged, 3) && dc == SumDistance(c) && uc == SumDuration(c)
    requires routes == (if a == [] then [] else [CreateRoute(a, da, ua, start, end)])
                     + (if b == [] then [] else [CreateRoute(b, db, ub, start, end)])
                     + (if c == [] then [] else [CreateRoute(c, dc, uc, start, end)])
    ensures routes == Alternatives(tagged, start, end)
    ensures BuildResponse(tagged, start, end) == if routes == [] then ErrorResponse(NO_PG_ROUTE) else RouteResponse(Some(routes), None)
  {
  }

  /** The coordinate loop shared by the route and step parsers: the in-region positions
      printed as `lng lat`, in order. */
  method CollectCoordinates(nodes: seq<Json>, show: real -> string) returns (coords: seq<string>)
    ensures coords == CoordTexts(KeptPositions(nodes), show)
  {
    coords := [];
    for i := 0 to |nodes|
      invariant coords == CoordTexts(KeptPositions(nodes[..i]), show)
    {
      assert nodes[..i + 1][..i] == nodes[..i];
      var kept := KeptPositions(nodes[..i]);
      var p := Position(nodes[i]);
      if p.Some? && WithinCameroon(p.value.1, p.value.0) {
        assert KeptPositions(nodes[..i + 1]) == kept + [p.value];
        assert (kept + [p.value])[..|kept|] == kept;
        coords := coords + [CoordText(p.value, show)];
      } else {
        assert KeptPositions(nodes[..i + 1]) == kept;
      }
    }
    assert nodes[..|nodes|] == nodes;
  }

  /** `"LINESTRING(" + join + ")"`, the join appended only when there are coordinates. */
  method BuildLineString(coords: seq<string>) returns (geometry: string)
    ensures geometry == "LINESTRING(" + Join(", ", coords) + ")"
  {
    geometry := "LINESTRING(";
    if coords != [] {
      geometry := geometry + Join(", ", coords);
    }
    geometry := geometry + ")";
  }

  /** `parseOSRMStep`. */
  method ParseOsrmStep(node: Json, show: real -> string) returns (step: RouteStep)
    ensures step == StepOf(node, show)
  {
    var coords: seq<string> := [];
    var c := CoordinatesNode(node);
    if c.Some? {
      coords := CollectCoordinates(Elements(c.value), show);
    }
    var geometry := BuildLineString(coords);
    var instruction := DEFAULT_INSTRUCTION;
    if Has(node, "maneuver") && Has(Get(node, "maneuver"), "instruction") {
      instruction := AsText(Get(Get(node, "maneuver"), "instruction"), DEFAULT_INSTRUCTION, show);
    }
    step := RouteStep(Some(geometry), instruction, instruction,
                      NumberOr0(node, "distance"), NumberOr0(node, "duration"));
  }

  lemma LegStepsAppend(legs: seq<Json>, i: nat, show: real -> string)
    requires i < |legs|
    ensures LegSteps(legs[..i + 1], show) == LegSteps(legs[..i], show) + StepsOfLeg(legs[i], show)
  {
    assert legs[..i + 1][..i] == legs[..i];
    assert LegSteps(legs[..i + 1], show) == LegSteps(legs[..i], show) + StepsOfLegWith(show)(legs[i]);
  }

  lemma StepsOfAppend(items: seq<Json>, j: nat, show: real -> string)
    requires j < |items|
    ensures StepsOf(items[..j + 1], show) == StepsOf(items[..j], show) + [StepOf(items[j], show)]
  {
    assert StepsOf(items[..j + 1], show)[j] == StepOf(items[j], show);
  }

  /** The inner loop of `parseOSRMRoute`: every step node of one leg, in order. */
  method ParseOsrmSteps(items: seq<Json>, show: real -> string) returns (steps: seq<RouteStep>)
    ensures steps == StepsOf(items, show)
  {
    steps := [];
    for j := 0 to |items|
      invariant steps == StepsOf(items[..j], show)
    {
      var s := ParseOsrmStep(items[j], show);
      StepsOfAppend(items, j, show);
      steps := steps + [s];
    }
    assert items[..|items|] == items;
  }

  /** The outer loop of `parseOSRMRoute`: the steps of every leg, leg after leg. */
  method CollectLegSteps(legs: seq<Json>, show: real -> string) returns (steps: seq<RouteStep>)
    ensures steps == LegSteps(legs, show)
  {
    steps := [];
    for i := 0 to |legs|
      invariant steps == LegSteps(legs[..i], show)
    {
      LegStepsAppend(legs, i, show);
      var items := ArrayField(legs[i], "steps");
      if items.Some? {
        var legSteps := ParseOsrmSteps(items.value, show);
        steps := steps + legSteps;
      }
    }
    assert legs[..|legs|] == legs;
  }

  /** `parseOSRMRoute`: the route geometry, the steps of every leg in order, and the
      default step when no step was found. */
  method ParseOsrmRoute(node: Json, show: real -> string, start: Option<string>, end: Option<string>)
    returns (route: Route)
    ensures route == RouteOf(node, show, start, end)
  {
    var coords: seq<string> := [];
    var c := CoordinatesNode(node);
    if c.Some? && IsArray(c.value) {
      coords := CollectCoordinates(c.value.items, show);
    }
    var geometry := BuildLineString(coords);

    var steps: seq<RouteStep> := [];
    var legs := ArrayField(node, "legs");
    if legs.Some? {
      steps := CollectLegSteps(legs.value, show);
    }
    if steps == [] {
      steps := [RouteStep(Some(geometry), DEFAULT_START_NAME, DEFAULT_END_NAME,
                          NumberOr0(node, "distance"), NumberOr0(node, "duration"))];
    }
    route := Route(steps, NumberOr0(node, "distance"), NumberOr0(node, "duration"), start, end, geometry);
  }

  lemma RoutesOfAppend(items: seq<Json>, i: nat, show: real -> string, start: Option<string>, end: Option<string>)
    requires i < |items|
    ensures RoutesOf(items[..i + 1], show, start, end) == RoutesOf(items[..i], show, start, end) + [RouteOf(items[i], show, start, end)]
  {
    assert items[..i + 1][..i] == items[..i];
  }

  /** `parseOSRMResponse` of a received body: any failure yields no route. */
  method ParseOsrmResponse(body: string, tree: Option<Json>, show: real -> string, start: Option<string>, end: Option<string>)
    returns (routes: seq<Route>)
    ensures routes == ResponseRoutes(body, tree, show, start, end)
  {
    routes := [];
    if IsBlank(body) || tree.None? {
      return;
    }
    var data := tree.value;
    if !CodeIsOk(data, show) {
      return;
    }
    var items := ArrayField(data, "routes");
    if items.Some? {
      routes := ParseOsrmRoutes(items.value, show, start, end);
    }
  }

  /** The loop over the `routes` array. */
  method ParseOsrmRoutes(items: seq<Json>, show: real -> string, start: Option<string>, end: Option<string>)
    returns (routes: seq<Route>)
    ensures routes == RoutesOf(items, show, start, end)
  {
    routes := [];
    for i := 0 to |items|
      invariant routes == RoutesOf(items[..i], show, start, end)
    {
      var route := ParseOsrmRoute(items[i], show, start, end);
      RoutesOfAppend(items, i, show, start, end);
      routes := routes + [route];
    }
    assert items[..|items|] == items;
  }

  /** The region check loop of the service: false at the first point outside. */
  method CheckWithin(points: seq<Point>) returns (within: bool)
    ensures within <==> AllWithin(points)
  {
    for i := 0 to |points|
      invariant forall k :: 0 <= k < i ==> WithinCameroon(points[k].lat, points[k].lng)
    {
      if !WithinCameroon(points[i].lat, points[i].lng) {
        return false;
      }
    }
    return true;
  }

  /** `getRouteFromOSRM`: out-of-region points give no routes and no request is made;
      otherwise an error signal gives no routes, a reply without a body completes empty
      (None) and a body is parsed. */
  method GetRouteFromOsrm(points: seq<Point>, mode: string, osrm: OsrmRequest -> OsrmReply, show: real -> string,
                          start: Option<string>, end: Option<string>)
    returns (routes: Option<seq<Route>>)
    ensures routes == OsrmRoutes(points, mode, osrm, show, start, end)
  {
    var within := CheckWithin(points);
    if !within {
      return Some([]);
    }
    var reply := osrm(OsrmRequest(Profile(mode), Waypoints(points, show)));
    match reply {
      case Failed =>
        routes := Some([]);
      case NoBody =>
        routes := None;
      case Received(body, tree) =>
        var parsed := ParseOsrmResponse(body, tree, show, start, end);
        routes := Some(parsed);
    }
  }

  /** `calculateWithOSRM`: the OSRM routes wrapped in a response; an empty completion
      stays empty. */
  method CalculateWithOsrm(points: seq<Point>, mode: string, osrm: OsrmRequest -> OsrmReply, show: real -> string,
                           start: Option<string>, end: Option<string>)
    returns (r: Option<RouteResponse>)
    ensures r == OsrmResponse(points, mode, osrm, show, start, end)
  {
    var routes := GetRouteFromOsrm(points, mode, osrm, show, start, end);
    if routes.None? {
      return None;
    }
    r := Some(RouteResponse(Some(routes.value), if routes.value == [] then Some(NO_OSRM_ROUTE) else None));
  }

  /** `calculateWithPgRouting` with `executePgRoutingQuery`. Only ever called with the
      two points of a direct request. */
  method CalculateWithPgRouting(points: seq<Point>, mode: string, nearest: Point -> NodeLookup,
                                ksp: (int, int) -> QueryOutcome, start: Option<string>, end: Option<string>)
    returns (r: RouteResponse)
    requires |points| == 2
    ensures r == PgRoutingResponse(points, mode, nearest, ksp, start, end)
  {
    var within := CheckWithin(points);
    if !within {
      return ErrorResponse(PG_OUT_OF_BOUNDS);
    }
    var source := nearest(points[0]);
    var target := nearest(points[1]);
    if !source.Found? {
      return ErrorResponse(PG_ERROR_PREFIX + LookupMessage(source));
    }
    if !target.Found? {
      return ErrorResponse(PG_ERROR_PREFIX + LookupMessage(target));
    }
    if source.id == target.id {
      return ErrorResponse(SAME_NODES);
    }
    var outcome := ksp(source.id, target.id);
    match outcome {
      case QueryFailed(m) =>
        r := ErrorResponse(PG_QUERY_ERROR_PREFIX + m);
      case Rows(rows) =>
        r := BuildRouteResponseFromSteps(TagRows(rows, mode), start, end);
    }
  }

  /** Writes a usable answer to the cache under `key`; anything else is not stored. */
  method StoreIfUsable(cache: AdaptiveCache, key: string, r: Option<RouteResponse>, now: int, setFault: bool)
    modifies cache`store
    ensures r.Some? && Succeeded(r.value) ==> cache.StoredOrKept(old(cache.store), key, RouteEntry(r.value), now, setFault)
    ensures !(r.Some? && Succeeded(r.value)) ==> cache.store == old(cache.store)
  {
    if r.Some? && Succeeded(r.value) {
      var _ := cache.Set(key, RouteEntry(r.value), DEFAULT_TTL_HOURS, now, setFault);
    }
  }

  /** `calculateRouteWithFallback`: pgRouting, then OSRM when pgRouting gave no usable
      answer; a usable answer (no error, some route) is written to the cache under `key`;
      an empty OSRM completion leaves the whole call empty. */
  method CalculateRouteWithFallback(cache: AdaptiveCache, points: seq<Point>, mode: string, key: string,
                                    nearest: Point -> NodeLookup, ksp: (int, int) -> QueryOutcome,
                                    osrm: OsrmRequest -> OsrmReply, show: real -> string,
                                    start: Option<string>, end: Option<string>, now: int, setFault: bool)
    returns (r: Option<RouteResponse>)
    requires |points| == 2
    modifies cache`store
    ensures r == Fallback(PgRoutingResponse(points, mode, nearest, ksp, start, end),
                          OsrmResponse(points, mode, osrm, show, start, end))
    ensures r.Some? && Succeeded(r.value) ==> cache.StoredOrKept(old(cache.store), key, RouteEntry(r.value), now, setFault)
    ensures !(r.Some? && Succeeded(r.value)) ==> cache.store == old(cache.store)
  {
    var pg := CalculateWithPgRouting(points, mode, nearest, ksp, start, end);
    if Succeeded(pg) {
      r := Some(pg);
    } else {
      r := CalculateWithOsrm(points, mode, osrm, show, start, end);
    }
    assert r == Fallback(pg, OsrmResponse(points, mode, osrm, show, start, end));
    StoreIfUsable(cache, key, r, now, setFault);
  }

  /** The cache key of a direct request. */
  function RequestKey(points: seq<Point>, mode: string, fmt4: real -> string): string
    requires |points| == 2
  {
    GenerateRouteKey(points[0], points[1], Some(mode), fmt4)
  }

  /** `routeWithPgRouting`: exactly two points; a cached response is returned unchanged;
      otherwise the fallback computes one with the given (or default) place names. The
      cache read is the corrected one, which counts a miss for an absent key. */
  method RouteWithPgRouting(cache: AdaptiveCache, points: seq<Point>, mode: string,
                            startName: Option<string>, endName: Option<string>,
                            nearest: Point -> NodeLookup, ksp: (int, int) -> QueryOutcome,
                            osrm: OsrmRequest -> OsrmReply, show: real -> string, fmt4: real -> string,
                            now: int, getFault: bool, setFault: bool)
    returns (r: Option<RouteResponse>)
    modifies cache`store, cache`usage, cache`hits, cache`misses
    ensures |points| != 2 ==> r == Some(ErrorResponse(TWO_POINTS_REQUIRED)) && unchanged(cache)
    ensures |points| == 2 && old(cache.Classify(RequestKey(points, mode, fmt4), RouteResponseKind, now, getFault)).Hit? ==>
              var key := RequestKey(points, mode, fmt4);
              && r == Some(old(cache.store[key].value.response))
              && cache.store == old(cache.store)
              && cache.hits == old(cache.hits) + 1 && cache.misses == old(cache.misses)
              && cache.UsageCount(key) == old(cache.UsageCount(key)) + 1
              && (forall k :: k != key ==> cache.UsageCount(k) == old(cache.UsageCount(k)))
    ensures |points| == 2 && !old(cache.Classify(RequestKey(points, mode, fmt4), RouteResponseKind, now, getFault)).Hit? ==>
              var s := Some(NameOr(startName, DEFAULT_START_NAME));
              var e := Some(NameOr(endName, DEFAULT_END_NAME));
              && r == Fallback(PgRoutingResponse(points, mode, nearest, ksp, s, e), OsrmResponse(points, mode, osrm, show, s, e))
              && cache.misses == old(cache.misses) + 1 && cache.hits == old(cache.hits)
              && cache.usage == old(cache.usage)
              && (r.Some? && Succeeded(r.value) ==> cache.StoredOrKept(old(cache.store), RequestKey(points, mode, fmt4), RouteEntry(r.value), now, setFault))
              && (!(r.Some? && Succeeded(r.value)) ==> cache.store == old(cache.store))
  {
    if |points| != 2 {
      return Some(ErrorResponse(TWO_POINTS_REQUIRED));
    }
    var start := Some(NameOr(startName, DEFAULT_START_NAME));
    var end := Some(NameOr(endName, DEFAULT_END_NAME));
    var key := RequestKey(points, mode, fmt4);
    var cached := cache.Get(key, RouteResponseKind, now, getFault);
    if cached.Some? {
      r := Some(cached.value.response);
    } else {
      r := CalculateRouteWithFallback(cache, points, mode, key, nearest, ksp, osrm, show, start, end, now, setFault);
    }
  }

  lemma AllWithinThree(a: Point, b: Point, c: Point)
    ensures AllWithin([a, b, c])
            <==> WithinCameroon(a.lat, a.lng) && WithinCameroon(b.lat, b.lng) && WithinCameroon(c.lat, c.lng)
  {
    var points := [a, b, c];
    assert points[0] == a && points[1] == b && points[2] == c;
  }

  /** `routeWithDetour`: both legs over OSRM with the transport mode mapped to a routing
      mode, then one route made of the first alternative of each leg. The legs are zipped,
      so a leg that completes empty leaves the whole answer empty (None). Never cached. */
  method RouteWithDetour(start: Point, detour: Point, end: Point, mode: string,
                         startName: Option<string>, detourName: Option<string>, endName: Option<string>,
                         osrm: OsrmRequest -> OsrmReply, show: real -> string)
    returns (r: Option<RouteResponse>)
    ensures !AllWithin([start, detour, end]) ==> r == Some(ErrorResponse(DETOUR_OUT_OF_BOUNDS))
    ensures AllWithin([start, detour, end])
            ==> r == DetourResponse(Leg(start, detour, mode, osrm, show), Leg(detour, end, mode, osrm, show), startName, endName)
  {
    var osrmMode := DetourMode(mode);
    AllWithinThree(start, detour, end);
    if !WithinCameroon(start.lat, start.lng) || !WithinCameroon(detour.lat, detour.lng)
       || !WithinCameroon(end.lat, end.lng) {
      return Some(ErrorResponse(DETOUR_OUT_OF_BOUNDS));
    }
    var firstRoutes := GetRouteFromOsrm([start, detour], osrmMode, osrm, show, None, None);
    var secondRoutes := GetRouteFromOsrm([detour, end], osrmMode, osrm, show, None, None);
    assert firstRoutes == Leg(start, detour, mode, osrm, show);
    assert secondRoutes == Leg(detour, end, mode, osrm, show);
    if firstRoutes.None? || secondRoutes.None? {
      return None;
    }
    if firstRoutes.value == [] {
      return Some(ErrorResponse(NO_FIRST_LEG));
    }
    if secondRoutes.value == [] {
      return Some(ErrorResponse(NO_SECOND_LEG));
    }
    r := Some(RouteResponse(Some([CombineRoutes(firstRoutes.value[0], secondRoutes.value[0], startName, endName)]), None));
  }
}
