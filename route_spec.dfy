/** Specification of the route service: what each step of the orchestration computes,
    as functions, and the properties the service promises, as lemmas. The methods in
    module RouteService are proved to compute exactly these functions. */
module RouteSpec {
  import opened Model
  import opened Strings
  import opened Geo
  import opened Json

  const TWO_POINTS_REQUIRED: string := "Exactement deux points sont requis"
  const PG_OUT_OF_BOUNDS: string := "Un des points est hors des limites du Cameroun"
  const SAME_NODES: string := "Les nœuds source et cible sont identiques"
  const PG_ERROR_PREFIX: string := "Erreur pgRouting: "
  const PG_QUERY_ERROR_PREFIX: string := "Erreur exécution pgRouting: "
  const NO_NODE: string := "Aucun nœud trouvé"
  const NO_PG_ROUTE: string := "Aucun itinéraire trouvé par pgRouting"
  const NO_OSRM_ROUTE: string := "Aucun itinéraire trouvé avec OSRM"
  const DETOUR_OUT_OF_BOUNDS: string := "Un ou plusieurs points sont hors des limites du Cameroun"
  const NO_FIRST_LEG: string := "Aucun itinéraire trouvé de départ à détour"
  const NO_SECOND_LEG: string := "Aucun itinéraire trouvé de détour à arrivée"
  const DEFAULT_GEOMETRY: string := "LINESTRING(0 0, 1 1)"
  const DEFAULT_START_NAME: string := "Départ"
  const DEFAULT_END_NAME: string := "Arrivée"
  const DEFAULT_INSTRUCTION: string := "Étape"

  /** Every point lies in the serviced region. */
  predicate AllWithin(points: seq<Point>)
  {
    forall i :: 0 <= i < |points| ==> WithinCameroon(points[i].lat, points[i].lng)
  }

  // ================================================================ pgRouting

  /** Speed (distance units per time unit) used to turn an edge cost into a duration. */
  function Speed(mode: string): (v: real)
    ensures v > 0.0
    ensures mode == "driving" ==> v == 25.0
    ensures mode == "walking" ==> v == 2.0
    ensures mode != "driving" && mode != "walking" ==> v == 8.0
  {
    if mode == "driving" then 25.0 else if mode == "walking" then 2.0 else 8.0
  }

  /** One row of the k-shortest-paths query. */
  datatype PathRow = PathRow(pathId: int, geometry: Option<string>, source: string, target: string, distance: real)

  /** A step tagged with the alternative (path-id) it belongs to. */
  datatype PathStep = PathStep(pathId: int, step: RouteStep)

  /** The row mapper of the k-shortest-paths query: duration is distance over speed. */
  function StepOfRow(row: PathRow, mode: string): (step: RouteStep)
    ensures step.distance == row.distance && step.duration * Speed(mode) == row.distance
  {
    RouteStep(row.geometry, row.source, row.target, row.distance, row.distance / Speed(mode))
  }

  function TagRows(rows: seq<PathRow>, mode: string): (tagged: seq<PathStep>)
    ensures |tagged| == |rows|
    ensures forall i :: 0 <= i < |rows| ==> tagged[i] == PathStep(rows[i].pathId, StepOfRow(rows[i], mode))
  {
    seq(|rows|, i requires 0 <= i < |rows| => PathStep(rows[i].pathId, StepOfRow(rows[i], mode)))
  }

  /** The steps of alternative `id`, in input order. */
  function StepsWithId(tagged: seq<PathStep>, id: int): seq<RouteStep>
  {
    if tagged == [] then []
    else
      var last := tagged[|tagged| - 1];
      StepsWithId(tagged[..|tagged| - 1], id) + (if last.pathId == id then [last.step] else [])
  }

  /** The tagged rows whose path-id is not one of 1, 2, 3. */
  function Dropped(tagged: seq<PathStep>): seq<PathStep>
  {
    if tagged == [] then []
    else
      var last := tagged[|tagged| - 1];
      Dropped(tagged[..|tagged| - 1]) + (if last.pathId in {1, 2, 3} then [] else [last])
  }

  function SumDistance(steps: seq<RouteStep>): real
  {
    if steps == [] then 0.0 else SumDistance(steps[..|steps| - 1]) + steps[|steps| - 1].distance
  }

  function SumDuration(steps: seq<RouteStep>): real
  {
    if steps == [] then 0.0 else SumDuration(steps[..|steps| - 1]) + steps[|steps| - 1].duration
  }

  predicate HasGeometry(step: RouteStep)
  {
    step.geometry.Some? && step.geometry.value != ""
  }

  /** `createRoute`'s geometry: the first non-null, non-empty step geometry, else a placeholder line. */
  function FirstGeometry(steps: seq<RouteStep>): (g: string)
    ensures (g == DEFAULT_GEOMETRY && forall i :: 0 <= i < |steps| ==> !HasGeometry(steps[i]))
         || (exists i :: 0 <= i < |steps| && HasGeometry(steps[i]) && steps[i].geometry.value == g
                         && forall j :: 0 <= j < i ==> !HasGeometry(steps[j]))
  {
    if steps == [] then DEFAULT_GEOMETRY
    else if HasGeometry(steps[0]) then steps[0].geometry.value
    else
      var g := FirstGeometry(steps[1..]);
      assert forall i :: 1 <= i < |steps| ==> steps[i] == steps[1..][i - 1];
      g
  }

  function CreateRoute(steps: seq<RouteStep>, distance: real, duration: real,
                       start: Option<string>, end: Option<string>): Route
  {
    Route(steps, distance, duration, start, end, FirstGeometry(steps))
  }

  /** Alternative `id` as a one-element list, or nothing when it has no step. */
  function AlternativeFor(tagged: seq<PathStep>, id: int, start: Option<string>, end: Option<string>): seq<Route>
  {
    var steps := StepsWithId(tagged, id);
    if steps == [] then [] else [CreateRoute(steps, SumDistance(steps), SumDuration(steps), start, end)]
  }

  /** Alternatives 1, 2 and 3 in that order, skipping empty ones. */
  function Alternatives(tagged: seq<PathStep>, start: Option<string>, end: Option<string>): seq<Route>
  {
    AlternativeFor(tagged, 1, start, end) + AlternativeFor(tagged, 2, start, end) + AlternativeFor(tagged, 3, start, end)
  }

  /** `buildRouteResponseFromSteps`. */
  function BuildResponse(tagged: seq<PathStep>, start: Option<string>, end: Option<string>): RouteResponse
  {
    var routes := Alternatives(tagged, start, end);
    if routes == [] then ErrorResponse(NO_PG_ROUTE) else RouteResponse(Some(routes), None)
  }

  /** Grouping keeps input order: it distributes over concatenation. */
  lemma {:induction false} StepsWithIdConcat(a: seq<PathStep>, b: seq<PathStep>, id: int)
    ensures StepsWithId(a + b, id) == StepsWithId(a, id) + StepsWithId(b, id)
  {
    if b == [] {
      assert a + b == a;
    } else {
      var init := b[..|b| - 1];
      assert (a + b)[..|a + b| - 1] == a + init;
      StepsWithIdConcat(a, init, id);
    }
  }

  /** A group is empty exactly when no row carries its path-id. */
  lemma {:induction false} StepsWithIdEmpty(tagged: seq<PathStep>, id: int)
    ensures StepsWithId(tagged, id) == [] <==> forall i :: 0 <= i < |tagged| ==> tagged[i].pathId != id
  {
    if tagged != [] {
      var init := tagged[..|tagged| - 1];
      StepsWithIdEmpty(init, id);
      assert forall i :: 0 <= i < |init| ==> init[i] == tagged[i];
    }
  }

  /** Every row lands in exactly one of the groups 1, 2, 3 or among the dropped rows. */
  lemma {:induction false} GroupsPartitionRows(tagged: seq<PathStep>)
    ensures |StepsWithId(tagged, 1)| + |StepsWithId(tagged, 2)| + |StepsWithId(tagged, 3)| + |Dropped(tagged)| == |tagged|
  {
    if tagged != [] {
      GroupsPartitionRows(tagged[..|tagged| - 1]);
    }
  }

  /** Each route's totals are the sums over its steps; names are the ones passed in;
      there are at most three routes, none without steps. */
  lemma AlternativesShape(tagged: seq<PathStep>, start: Option<string>, end: Option<string>)
    ensures |Alternatives(tagged, start, end)| <= 3
    ensures forall r :: r in Alternatives(tagged, start, end) ==>
              r.steps != [] && r.distance == SumDistance(r.steps) && r.duration == SumDuration(r.steps)
              && r.startPlaceName == start && r.endPlaceName == end && r.geometry == FirstGeometry(r.steps)
  {
  }

  /** The response has routes exactly when some row has path-id 1, 2 or 3; otherwise it is
      the pgRouting "no route" error. */
  lemma BuildResponseOutcome(tagged: seq<PathStep>, start: Option<string>, end: Option<string>)
    ensures Succeeded(BuildResponse(tagged, start, end)) <==> exists i :: 0 <= i < |tagged| && tagged[i].pathId in {1, 2, 3}
    ensures !Succeeded(BuildResponse(tagged, start, end)) ==> BuildResponse(tagged, start, end) == ErrorResponse(NO_PG_ROUTE)
  {
    StepsWithIdEmpty(tagged, 1);
    StepsWithIdEmpty(tagged, 2);
    StepsWithIdEmpty(tagged, 3);
  }

  /** The first route holds the path-1 rows when there are any. */
  lemma FirstAlternativeIsPathOne(tagged: seq<PathStep>, start: Option<string>, end: Option<string>)
    requires StepsWithId(tagged, 1) != []
    ensures Alternatives(tagged, start, end)[0].steps == StepsWithId(tagged, 1)
  {
  }

  /** When every step's duration is its distance over `v`, so is the sum's. */
  lemma {:induction false} SumDurationScales(steps: seq<RouteStep>, v: real)
    requires v > 0.0
    requires forall i :: 0 <= i < |steps| ==> steps[i].duration * v == steps[i].distance
    ensures SumDuration(steps) * v == SumDistance(steps)
  {
    if steps != [] {
      var init := steps[..|steps| - 1];
      assert forall i :: 0 <= i < |init| ==> init[i] == steps[i];
      SumDurationScales(init, v);
    }
  }

  lemma {:induction false} StepsWithIdOfRows(rows: seq<PathRow>, mode: string, id: int)
    ensures forall i :: 0 <= i < |StepsWithId(TagRows(rows, mode), id)| ==>
              StepsWithId(TagRows(rows, mode), id)[i].duration * Speed(mode) == StepsWithId(TagRows(rows, mode), id)[i].distance
  {
    if rows != [] {
      var init := rows[..|rows| - 1];
      assert TagRows(rows, mode)[..|rows| - 1] == TagRows(init, mode);
      StepsWithIdOfRows(init, mode, id);
    }
  }

  lemma AlternativeDuration(rows: seq<PathRow>, mode: string, id: int, start: Option<string>, end: Option<string>)
    ensures forall r :: r in AlternativeFor(TagRows(rows, mode), id, start, end) ==> r.duration * Speed(mode) == r.distance
  {
    var steps := StepsWithId(TagRows(rows, mode), id);
    if steps != [] {
      StepsWithIdOfRows(rows, mode, id);
      SumDurationScales(steps, Speed(mode));
    }
  }

  /** Every pgRouting alternative takes distance / speed(mode) time units. */
  lemma RouteDurationIsDistanceOverSpeed(rows: seq<PathRow>, mode: string, start: Option<string>, end: Option<string>)
    ensures forall r :: r in Alternatives(TagRows(rows, mode), start, end) ==> r.duration * Speed(mode) == r.distance
  {
    AlternativeDuration(rows, mode, 1, start, end);
    AlternativeDuration(rows, mode, 2, start, end);
    AlternativeDuration(rows, mode, 3, start, end);
  }

  /** Result of the nearest-node lookup for one point. */
  datatype NodeLookup = Found(id: int) | NotFound | LookupFailed(message: string)

  /** Result of the k-shortest-paths query. */
  datatype QueryOutcome = Rows(rows: seq<PathRow>) | QueryFailed(message: string)

  function LookupMessage(l: NodeLookup): string
  {
    match l
    case Found(_) => ""
    case NotFound => NO_NODE
    case LookupFailed(m) => m
  }

  /** `calculateWithPgRouting` (with `executePgRoutingQuery`): the region guard, the node lookups,
      the identical-node guard, then the query and the grouping. */
  function PgRoutingResponse(points: seq<Point>, mode: string, nearest: Point -> NodeLookup,
                             ksp: (int, int) -> QueryOutcome, start: Option<string>, end: Option<string>): RouteResponse
    requires |points| == 2
  {
    if !AllWithin(points) then ErrorResponse(PG_OUT_OF_BOUNDS)
    else
      var src := nearest(points[0]);
      var tgt := nearest(points[1]);
      if !src.Found? then ErrorResponse(PG_ERROR_PREFIX + LookupMessage(src))
      else if !tgt.Found? then ErrorResponse(PG_ERROR_PREFIX + LookupMessage(tgt))
      else if src.id == tgt.id then ErrorResponse(SAME_NODES)
      else match ksp(src.id, tgt.id)
        case QueryFailed(m) => ErrorResponse(PG_QUERY_ERROR_PREFIX + m)
        case Rows(rows) => BuildResponse(TagRows(rows, mode), start, end)
  }

  /** The pgRouting guards: out-of-region points and identical nodes are errors
      whatever the graph holds, and a successful answer comes only from the query rows. */
  lemma PgRoutingGuards(points: seq<Point>, mode: string, nearest: Point -> NodeLookup,
                        ksp: (int, int) -> QueryOutcome, start: Option<string>, end: Option<string>)
    requires |points| == 2
    ensures !AllWithin(points) ==> PgRoutingResponse(points, mode, nearest, ksp, start, end) == ErrorResponse(PG_OUT_OF_BOUNDS)
    ensures AllWithin(points) && nearest(points[0]).Found? && nearest(points[0]) == nearest(points[1])
            ==> PgRoutingResponse(points, mode, nearest, ksp, start, end) == ErrorResponse(SAME_NODES)
    ensures Succeeded(PgRoutingResponse(points, mode, nearest, ksp, start, end)) ==>
              AllWithin(points) && nearest(points[0]).Found? && nearest(points[1]).Found?
              && nearest(points[0]).id != nearest(points[1]).id
              && ksp(nearest(points[0]).id, nearest(points[1]).id).Rows?
  {
  }

  // ================================================================ OSRM

  /** What the OSRM call produced: an error signal (transport failure or error status);
      a successful reply without a body, for which the body stream completes empty; or
      the body text with the tree the JSON reader produced from it (None when the reader failed). */
  datatype OsrmReply = Failed | NoBody | Received(body: string, tree: Option<Json>)

  /** The request: the OSRM profile and the `lng,lat;lng,lat` waypoint list. */
  datatype OsrmRequest = OsrmRequest(profile: string, coordinates: string)

  /** The OSRM profile for a direct-routing mode. */
  function Profile(mode: string): (p: string)
    ensures p == "foot" <==> mode == "walking"
    ensures p == "bike" <==> mode == "cycling"
    ensures p == "car" <==> mode != "walking" && mode != "cycling"
  {
    if mode == "walking" then "foot" else if mode == "cycling" then "bike" else "car"
  }

  function Waypoint(p: Point, show: real -> string): string
  {
    show(p.lng) + "," + show(p.lat)
  }

  /** The waypoints `lng,lat` joined with ";". */
  function Waypoints(points: seq<Point>, show: real -> string): string
  {
    Join(";", seq(|points|, i requires 0 <= i < |points| => Waypoint(points[i], show)))
  }

  /** A GeoJSON position `[lng, lat, ...]`, if the node is one. */
  function Position(node: Json): Option<(real, real)>
  {
    if IsArray(node) && Size(node) >= 2 then Some((AsDouble(node.items[0]), AsDouble(node.items[1]))) else None
  }

  predicate KeepPosition(node: Json)
  {
    Position(node).Some? && WithinCameroon(Position(node).value.1, Position(node).value.0)
  }

  /** The in-region positions among `nodes`, in order. */
  function KeptPositions(nodes: seq<Json>): (ps: seq<(real, real)>)
    ensures |ps| <= |nodes|
    ensures forall k :: 0 <= k < |ps| ==> WithinCameroon(ps[k].1, ps[k].0)
  {
    if nodes == [] then []
    else
      var last := nodes[|nodes| - 1];
      KeptPositions(nodes[..|nodes| - 1]) + (if KeepPosition(last) then [Position(last).value] else [])
  }

  /** Filtering keeps order: it distributes over concatenation. */
  lemma {:induction false} KeptPositionsConcat(a: seq<Json>, b: seq<Json>)
    ensures KeptPositions(a + b) == KeptPositions(a) + KeptPositions(b)
  {
    if b == [] {
      assert a + b == a;
    } else {
      var init := b[..|b| - 1];
      assert (a + b)[..|a + b| - 1] == a + init;
      KeptPositionsConcat(a, init);
    }
  }

  /** Nothing is dropped exactly when every node is an in-region position. */
  lemma {:induction false} KeptPositionsAll(nodes: seq<Json>)
    ensures |KeptPositions(nodes)| == |nodes| <==> forall i :: 0 <= i < |nodes| ==> KeepPosition(nodes[i])
  {
    if nodes != [] {
      var init := nodes[..|nodes| - 1];
      KeptPositionsAll(init);
      assert forall i :: 0 <= i < |init| ==> init[i] == nodes[i];
    }
  }

  /** `lng + " " + lat`. */
  function CoordText(p: (real, real), show: real -> string): string
  {
    show(p.0) + " " + show(p.1)
  }

  function CoordTexts(ps: seq<(real, real)>, show: real -> string): (ts: seq<string>)
    ensures |ts| == |ps|
  {
    if ps == [] then [] else CoordTexts(ps[..|ps| - 1], show) + [CoordText(ps[|ps| - 1], show)]
  }

  function LineString(ps: seq<(real, real)>, show: real -> string): string
  {
    "LINESTRING(" + Join(", ", CoordTexts(ps, show)) + ")"
  }

  /** The coordinate nodes under `geometry.coordinates`, when that path exists. */
  function CoordinatesNode(node: Json): Option<Json>
  {
    if Has(node, "geometry") && Has(Get(node, "geometry"), "coordinates")
    then Some(Get(Get(node, "geometry"), "coordinates"))
    else None
  }

  /** A route's geometry: only an array of coordinates is read. */
  function RouteGeometry(routeNode: Json, show: real -> string): string
  {
    match CoordinatesNode(routeNode)
    case Some(c) => if IsArray(c) then LineString(KeptPositions(c.items), show) else LineString([], show)
    case None => LineString([], show)
  }

  /** A step's geometry: the coordinates node is iterated whatever its kind. */
  function StepGeometry(stepNode: Json, show: real -> string): string
  {
    match CoordinatesNode(stepNode)
    case Some(c) => LineString(KeptPositions(Elements(c)), show)
    case None => LineString([], show)
  }

  /** `node.has(key) ? node.get(key).asDouble() : 0.0`. */
  function NumberOr0(node: Json, key: string): real
  {
    if Has(node, key) then AsDouble(Get(node, key)) else 0.0
  }

  /** The maneuver instruction, "Étape" when it is missing or JSON null. */
  function Instruction(stepNode: Json, show: real -> string): string
  {
    if Has(stepNode, "maneuver") && Has(Get(stepNode, "maneuver"), "instruction")
    then AsText(Get(Get(stepNode, "maneuver"), "instruction"), DEFAULT_INSTRUCTION, show)
    else DEFAULT_INSTRUCTION
  }

  /** `parseOSRMStep`: source and target are both the instruction. */
  function StepOf(stepNode: Json, show: real -> string): (step: RouteStep)
    ensures step.source == step.target
    ensures Has(stepNode, "maneuver") && Has(Get(stepNode, "maneuver"), "instruction")
            ==> step.source == AsText(Get(Get(stepNode, "maneuver"), "instruction"), DEFAULT_INSTRUCTION, show)
    ensures !(Has(stepNode, "maneuver") && Has(Get(stepNode, "maneuver"), "instruction")) ==> step.source == DEFAULT_INSTRUCTION
    ensures step.geometry == Some(StepGeometry(stepNode, show))
    ensures step.distance == NumberOr0(stepNode, "distance") && step.duration == NumberOr0(stepNode, "duration")
  {
    var instruction := Instruction(stepNode, show);
    RouteStep(Some(StepGeometry(stepNode, show)), instruction, instruction,
              NumberOr0(stepNode, "distance"), NumberOr0(stepNode, "duration"))
  }

  function StepsOf(stepNodes: seq<Json>, show: real -> string): seq<RouteStep>
  {
    seq(|stepNodes|, k requires 0 <= k < |stepNodes| => StepOf(stepNodes[k], show))
  }

  /** The steps of one leg: its `steps` array, nothing when there is none. */
  function StepsOfLeg(leg: Json, show: real -> string): seq<RouteStep>
  {
    match ArrayField(leg, "steps")
    case Some(items) => StepsOf(items, show)
    case None => []
  }

  /** `f` applied to every element, the results one after the other. */
  /** `f` applied to every element, in order. */
  function MapEach<A, B>(f: A -> B, xs: seq<A>): (ys: seq<B>)
    ensures |ys| == |xs|
    ensures forall i :: 0 <= i < |xs| ==> ys[i] == f(xs[i])
    decreases |xs|
  {
    if xs == [] then [] else MapEach(f, xs[..|xs| - 1]) + [f(xs[|xs| - 1])]
  }

  function ConcatMap<A, B>(f: A -> seq<B>, xs: seq<A>): seq<B>
    decreases |xs|
  {
    if xs == [] then [] else ConcatMap(f, xs[..|xs| - 1]) + f(xs[|xs| - 1])
  }

  lemma {:induction false} ConcatMapConcat<A, B>(f: A -> seq<B>, a: seq<A>, b: seq<A>)
    ensures ConcatMap(f, a + b) == ConcatMap(f, a) + ConcatMap(f, b)
    decreases |b|
  {
    if b == [] {
      assert a + b == a;
    } else {
      var init := b[..|b| - 1];
      assert (a + b)[..|a + b| - 1] == a + init;
      assert (a + b)[|a + b| - 1] == b[|b| - 1];
      ConcatMapConcat(f, a, init);
    }
  }

  function StepsOfLegWith(show: real -> string): Json -> seq<RouteStep>
  {
    leg => StepsOfLeg(leg, show)
  }

  /** The steps of all legs, leg after leg. */
  function LegSteps(legs: seq<Json>, show: real -> string): seq<RouteStep>
  {
    ConcatMap(StepsOfLegWith(show), legs)
  }

  /** Every step reads as one instruction: source and target agree. */
  predicate SameEnds(steps: seq<RouteStep>)
  {
    forall k :: 0 <= k < |steps| ==> steps[k].source == steps[k].target
  }

  lemma SameEndsConcat(a: seq<RouteStep>, b: seq<RouteStep>)
    requires SameEnds(a) && SameEnds(b)
    ensures SameEnds(a + b)
  {
    forall k | 0 <= k < |a + b|
      ensures (a + b)[k].source == (a + b)[k].target
    {
      if k >= |a| {
        assert (a + b)[k] == b[k - |a|];
      }
    }
  }

  /** Every step collected from the legs has equal source and target. */
  lemma {:induction false} LegStepsSameEnds(legs: seq<Json>, show: real -> string)
    ensures SameEnds(LegSteps(legs, show))
    decreases |legs|
  {
    if legs != [] {
      var init, last := legs[..|legs| - 1], legs[|legs| - 1];
      assert LegSteps(legs, show) == LegSteps(init, show) + StepsOfLeg(last, show);
      LegStepsSameEnds(init, show);
      SameEndsConcat(LegSteps(init, show), StepsOfLeg(last, show));
    }
  }

  /** Collecting steps keeps leg order: it distributes over concatenation of legs. */
  lemma LegStepsConcat(a: seq<Json>, b: seq<Json>, show: real -> string)
    ensures LegSteps(a + b, show) == LegSteps(a, show) + LegSteps(b, show)
  {
    ConcatMapConcat(StepsOfLegWith(show), a, b);
  }

  function RouteSteps(routeNode: Json, show: real -> string): seq<RouteStep>
  {
    match ArrayField(routeNode, "legs")
    case Some(legs) => LegSteps(legs, show)
    case None => []
  }

  /** The step synthesised for a route without steps: the whole route from "Départ" to "Arrivée". */
  function DefaultStep(routeNode: Json, show: real -> string): RouteStep
  {
    RouteStep(Some(RouteGeometry(routeNode, show)), DEFAULT_START_NAME, DEFAULT_END_NAME,
              NumberOr0(routeNode, "distance"), NumberOr0(routeNode, "duration"))
  }

  /** `parseOSRMRoute`. */
  function RouteOf(routeNode: Json, show: real -> string, start: Option<string>, end: Option<string>): Route
  {
    var parsed := RouteSteps(routeNode, show);
    Route(if parsed == [] then [DefaultStep(routeNode, show)] else parsed,
          NumberOr0(routeNode, "distance"), NumberOr0(routeNode, "duration"),
          start, end, RouteGeometry(routeNode, show))
  }

  /** A parsed route always has steps: the parsed ones, or exactly one default step that
      carries the route's own distance and duration. Parsed steps have equal source and
      target, and the route's geometry lists only in-region positions. */
  lemma RouteOfShape(routeNode: Json, show: real -> string, start: Option<string>, end: Option<string>)
    ensures var r := RouteOf(routeNode, show, start, end);
      && r.steps != []
      && (RouteSteps(routeNode, show) == [] ==>
            |r.steps| == 1 && r.steps[0].source == DEFAULT_START_NAME && r.steps[0].target == DEFAULT_END_NAME
            && r.steps[0].distance == r.distance && r.steps[0].duration == r.duration
            && r.steps[0].geometry == Some(r.geometry))
      && (RouteSteps(routeNode, show) != [] ==>
            r.steps == RouteSteps(routeNode, show) && SameEnds(r.steps))
      && (!Has(routeNode, "distance") ==> r.distance == 0.0)
      && (!Has(routeNode, "duration") ==> r.duration == 0.0)
      && r.startPlaceName == start && r.endPlaceName == end
  {
    match ArrayField(routeNode, "legs")
    case Some(legs) => LegStepsSameEnds(legs, show);
    case None =>
  }

  function RouteWith(show: real -> string, start: Option<string>, end: Option<string>): Json -> Route
  {
    node => RouteOf(node, show, start, end)
  }

  /** The loop over the `routes` array: route node i becomes route i. */
  function RoutesOf(routeNodes: seq<Json>, show: real -> string, start: Option<string>, end: Option<string>): (routes: seq<Route>)
    ensures |routes| == |routeNodes|
    ensures forall i :: 0 <= i < |routeNodes| ==> routes[i] == RouteOf(routeNodes[i], show, start, end)
  {
    MapEach(RouteWith(show, start, end), routeNodes)
  }

  /** `data.has("code") && !"Ok".equals(data.get("code").asText())` fails. */
  predicate CodeIsOk(data: Json, show: real -> string)
  {
    !Has(data, "code") || AsText(Get(data, "code"), "null", show) == "Ok"
  }

  /** `parseOSRMResponse` of a body: a blank body, a body the reader could not parse, a
      code other than "Ok" or no `routes` array give no route; otherwise one route per
      route node, in order. */
  function ResponseRoutes(body: string, tree: Option<Json>, show: real -> string,
                          start: Option<string>, end: Option<string>): (routes: seq<Route>)
    ensures routes != [] ==> !IsBlank(body) && tree.Some? && CodeIsOk(tree.value, show)
                             && ArrayField(tree.value, "routes").Some?
    ensures !IsBlank(body) && tree.Some? && CodeIsOk(tree.value, show) && ArrayField(tree.value, "routes").Some?
            ==> routes == RoutesOf(ArrayField(tree.value, "routes").value, show, start, end)
                && |routes| == |ArrayField(tree.value, "routes").value|
  {
    if IsBlank(body) then []
    else match tree
      case None => []
      case Some(data) =>
        if !CodeIsOk(data, show) then []
        else match ArrayField(data, "routes")
          case Some(items) => RoutesOf(items, show, start, end)
          case None => []
  }

  /** `getRouteFromOSRM`: out-of-region points give no routes without a request; an error
      signal gives no routes; a reply without a body completes empty (None), so nothing
      downstream runs; otherwise the body is parsed. */
  function OsrmRoutes(points: seq<Point>, mode: string, osrm: OsrmRequest -> OsrmReply, show: real -> string,
                      start: Option<string>, end: Option<string>): (routes: Option<seq<Route>>)
    ensures !AllWithin(points) ==> routes == Some([])
    ensures routes.None? <==> AllWithin(points) && osrm(OsrmRequest(Profile(mode), Waypoints(points, show))).NoBody?
    ensures AllWithin(points) && osrm(OsrmRequest(Profile(mode), Waypoints(points, show))).Failed? ==> routes == Some([])
    ensures AllWithin(points) && osrm(OsrmRequest(Profile(mode), Waypoints(points, show))).Received?
            ==> var reply := osrm(OsrmRequest(Profile(mode), Waypoints(points, show)));
                routes == Some(ResponseRoutes(reply.body, reply.tree, show, start, end))
  {
    if !AllWithin(points) then Some([])
    else match osrm(OsrmRequest(Profile(mode), Waypoints(points, show)))
      case Failed => Some([])
      case NoBody => None
      case Received(body, tree) => Some(ResponseRoutes(body, tree, show, start, end))
  }

  /** `calculateWithOSRM`: the routes, and the OSRM "no route" error exactly when there are
      none; no response at all when the OSRM call completed empty. */
  function OsrmResponse(points: seq<Point>, mode: string, osrm: OsrmRequest -> OsrmReply, show: real -> string,
                        start: Option<string>, end: Option<string>): (r: Option<RouteResponse>)
    ensures r.None? <==> OsrmRoutes(points, mode, osrm, show, start, end).None?
    ensures r.Some? ==> r.value.routes == OsrmRoutes(points, mode, osrm, show, start, end)
    ensures r.Some? ==> (r.value.error.Some? <==> r.value.routes.value == [])
    ensures r.Some? && r.value.error.Some? ==> r.value.error.value == NO_OSRM_ROUTE
    ensures r.Some? ==> (Succeeded(r.value) <==> r.value.error.None?)
  {
    match OsrmRoutes(points, mode, osrm, show, start, end)
    case None => None
    case Some(routes) => Some(RouteResponse(Some(routes), if routes == [] then Some(NO_OSRM_ROUTE) else None))
  }

  // ================================================================ orchestration

  /** `calculateRouteWithFallback`'s choice: a usable pgRouting answer wins, otherwise
      the OSRM outcome is final, an empty completion included. */
  function Fallback(pg: RouteResponse, osrm: Option<RouteResponse>): (r: Option<RouteResponse>)
    ensures Succeeded(pg) ==> r == Some(pg)
    ensures !Succeeded(pg) ==> r == osrm
    ensures r.None? <==> !Succeeded(pg) && osrm.None?
    ensures (r.Some? && Succeeded(r.value)) <==> Succeeded(pg) || (osrm.Some? && Succeeded(osrm.value))
  {
    if Succeeded(pg) then Some(pg) else osrm
  }

  /** The default names `routeWithPgRouting` uses for missing place names. */
  function NameOr(name: Option<string>, default: string): (r: string)
    ensures name.Some? ==> r == name.value
    ensures name.None? ==> r == default
  {
    match name
    case Some(n) => n
    case None => default
  }

  // ================================================================ detour

  /** The detour's transport mode mapped to a routing mode. */
  function DetourMode(mode: string): (m: string)
    ensures m == "cycling" <==> mode == "moto"
    ensures m == "driving" <==> mode != "moto"
  {
    if mode == "taxi" || mode == "bus" then "driving" else if mode == "moto" then "cycling" else "driving"
  }

  /** Taxi and bus (and any unknown mode) are routed by car, moto by bicycle. */
  lemma DetourProfile(mode: string)
    ensures Profile(DetourMode(mode)) == if mode == "moto" then "bike" else "car"
  {
  }

  /** `combineRoutes`: the legs' steps in order, summed totals, geometries joined by ";". */
  function CombineRoutes(first: Route, second: Route, start: Option<string>, end: Option<string>): (r: Route)
    ensures |r.steps| == |first.steps| + |second.steps|
    ensures r.steps[..|first.steps|] == first.steps && r.steps[|first.steps|..] == second.steps
    ensures r.distance == first.distance + second.distance && r.duration == first.duration + second.duration
    ensures |r.geometry| == |first.geometry| + 1 + |second.geometry|
    ensures r.geometry[..|first.geometry|] == first.geometry && r.geometry[|first.geometry|] == ';'
            && r.geometry[|first.geometry| + 1..] == second.geometry
    ensures r.startPlaceName == start && r.endPlaceName == end
  {
    Route(first.steps + second.steps, first.distance + second.distance, first.duration + second.duration,
          start, end, first.geometry + ";" + second.geometry)
  }

  /** The zipped legs of `routeWithDetour`: a leg that completed empty leaves the answer
      empty; a leg without routes gives the error naming it, the first leg checked first;
      otherwise one route made of the first alternative of each leg. */
  function DetourResponse(first: Option<seq<Route>>, second: Option<seq<Route>>,
                          startName: Option<string>, endName: Option<string>): (r: Option<RouteResponse>)
    ensures r.None? <==> first.None? || second.None?
    ensures first == Some([]) && second.Some? ==> r == Some(ErrorResponse(NO_FIRST_LEG))
    ensures first.Some? && first != Some([]) && second == Some([]) ==> r == Some(ErrorResponse(NO_SECOND_LEG))
    ensures (r.Some? && Succeeded(r.value)) <==> first.Some? && first != Some([]) && second.Some? && second != Some([])
    ensures r.Some? && Succeeded(r.value) ==>
              r.value.routes.value == [CombineRoutes(first.value[0], second.value[0], startName, endName)]
  {
    if first.None? || second.None? then None
    else if first.value == [] then Some(ErrorResponse(NO_FIRST_LEG))
    else if second.value == [] then Some(ErrorResponse(NO_SECOND_LEG))
    else Some(RouteResponse(Some([CombineRoutes(first.value[0], second.value[0], startName, endName)]), None))
  }

  /** The routes of one detour leg. The legs' own place names never reach the combined route. */
  function Leg(from: Point, to: Point, mode: string, osrm: OsrmRequest -> OsrmReply, show: real -> string): Option<seq<Route>>
  {
    OsrmRoutes([from, to], DetourMode(mode), osrm, show, None, None)
  }
}
