/** The HTTP layer for routes: request validation, defaults, and the mapping of the
    service's answer to a status code. The service is a function parameter standing for
    `RouteService.RouteWithPgRouting` (direct routes) or `RouteService.RouteWithDetour`. */
module RouteController {
  import opened Model
  import opened Geo
  import opened RouteSpec

  const OK: int := 200
  const BAD_REQUEST: int := 400
  const INTERNAL_SERVER_ERROR: int := 500

  const NOT_TWO_POINTS: string := "Un itinéraire se calcule entre deux points"
  const INVALID_COORDINATES: string := "Coordonnées géographiques invalides"
  const INVALID_MODE: string := "Mode de transport invalide"
  const MISSING_DETOUR_POINTS: string := "Les points de départ, détour et arrivée sont requis"
  const ROUTE_FAILED: string := "Erreur lors du calcul d'itinéraire"
  const DETOUR_FAILED: string := "Erreur lors du calcul d'itinéraire avec détour"

  const DEFAULT_MODE: string := "driving"
  const DEFAULT_TRANSPORT_MODE: string := "taxi"
  const UNKNOWN_START: string := "Unknown Start"
  const UNKNOWN_DESTINATION: string := "Unknown Destination"

  /** A JSON request body; absent fields are None. */
  datatype RouteRequestBody = RouteRequestBody(points: Option<seq<Point>>, mode: Option<string>,
                                               startPlaceName: Option<string>, endPlaceName: Option<string>)

  datatype DetourRequestBody = DetourRequestBody(start: Option<Point>, detour: Option<Point>, end: Option<Point>,
                                                 transportMode: Option<string>, startPlaceName: Option<string>,
                                                 detourPlaceName: Option<string>, endPlaceName: Option<string>)

  /** What the service's stream delivered: a response, an empty completion, or an error signal. */
  datatype ServiceOutcome = Completed(response: RouteResponse) | CompletedEmpty | Threw

  datatype HttpReply = HttpReply(status: int, body: RouteResponse)

  predicate ValidMode(mode: string)
  {
    mode == "driving" || mode == "walking" || mode == "cycling"
  }

  predicate ValidTransportMode(mode: string)
  {
    mode == "taxi" || mode == "bus" || mode == "moto"
  }

  predicate AllValidCoordinates(points: seq<Point>)
  {
    forall i :: 0 <= i < |points| ==> ValidCoordinates(points[i].lat, points[i].lng)
  }

  /** A direct-route request the controller hands to the service. */
  predicate ValidRouteRequest(body: RouteRequestBody)
  {
    && body.points.Some? && |body.points.value| == 2
    && AllValidCoordinates(body.points.value)
    && ValidMode(NameOr(body.mode, DEFAULT_MODE))
  }

  /** A detour request the controller hands to the service. */
  predicate ValidDetourRequest(body: DetourRequestBody)
  {
    && body.start.Some? && body.detour.Some? && body.end.Some?
    && AllValidCoordinates([body.start.value, body.detour.value, body.end.value])
    && ValidTransportMode(NameOr(body.transportMode, DEFAULT_TRANSPORT_MODE))
  }

  /** The service's answer as HTTP: an error field means 500, otherwise 200; an error
      signal becomes a 500 with the given message; an empty completion maps to no entity
      at all (None). */
  function Reply(outcome: ServiceOutcome, failure: string): (reply: Option<HttpReply>)
    ensures reply.None? <==> outcome.CompletedEmpty?
    ensures reply.Some? && reply.value.status == OK <==> outcome.Completed? && outcome.response.error.None?
    ensures reply.Some? && reply.value.status != OK ==> reply.value.status == INTERNAL_SERVER_ERROR && reply.value.body.error.Some?
    ensures outcome.Completed? ==> reply.Some? && reply.value.body == outcome.response
    ensures outcome.Threw? ==> reply == Some(HttpReply(INTERNAL_SERVER_ERROR, ErrorResponse(failure)))
  {
    match outcome
    case Completed(response) =>
      if response.error.Some? then Some(HttpReply(INTERNAL_SERVER_ERROR, response)) else Some(HttpReply(OK, response))
    case CompletedEmpty => None
    case Threw => Some(HttpReply(INTERNAL_SERVER_ERROR, ErrorResponse(failure)))
  }

  /** The coordinate check loop: the index of the first point out of range, if any. */
  method FirstInvalidPoint(points: seq<Point>) returns (bad: Option<nat>)
    ensures bad.None? <==> AllValidCoordinates(points)
    ensures bad.Some? ==> bad.value < |points| && !ValidCoordinates(points[bad.value].lat, points[bad.value].lng)
                          && AllValidCoordinates(points[..bad.value])
  {
    for i := 0 to |points|
      invariant AllValidCoordinates(points[..i])
    {
      if points[i].lat < -90.0 || points[i].lat > 90.0 || points[i].lng < -180.0 || points[i].lng > 180.0 {
        return Some(i);
      }
      assert points[..i + 1] == points[..i] + [points[i]];
    }
    assert points[..|points|] == points;
    return None;
  }

  /** `calculateRoute` (POST /api/routes). */
  method CalculateRoute(body: RouteRequestBody, service: (seq<Point>, string, string, string) -> ServiceOutcome)
    returns (reply: Option<HttpReply>)
    ensures reply.Some? && reply.value.status == BAD_REQUEST <==> !ValidRouteRequest(body)
    ensures (body.points.None? || |body.points.value| != 2) ==> reply == Some(HttpReply(BAD_REQUEST, ErrorResponse(NOT_TWO_POINTS)))
    ensures body.points.Some? && |body.points.value| == 2 && !AllValidCoordinates(body.points.value)
            ==> reply == Some(HttpReply(BAD_REQUEST, ErrorResponse(INVALID_COORDINATES)))
    ensures body.points.Some? && |body.points.value| == 2 && AllValidCoordinates(body.points.value)
            && !ValidMode(NameOr(body.mode, DEFAULT_MODE))
            ==> reply == Some(HttpReply(BAD_REQUEST, ErrorResponse(INVALID_MODE)))
    ensures ValidRouteRequest(body) ==>
              reply == Reply(service(body.points.value, NameOr(body.mode, DEFAULT_MODE),
                                     NameOr(body.startPlaceName, UNKNOWN_START),
                                     NameOr(body.endPlaceName, UNKNOWN_DESTINATION)), ROUTE_FAILED)
  {
    if body.points.None? || |body.points.value| != 2 {
      return Some(HttpReply(BAD_REQUEST, ErrorResponse(NOT_TWO_POINTS)));
    }
    var bad := FirstInvalidPoint(body.points.value);
    if bad.Some? {
      return Some(HttpReply(BAD_REQUEST, ErrorResponse(INVALID_COORDINATES)));
    }
    var mode := if body.mode.Some? then body.mode.value else DEFAULT_MODE;
    if mode != "driving" && mode != "walking" && mode != "cycling" {
      return Some(HttpReply(BAD_REQUEST, ErrorResponse(INVALID_MODE)));
    }
    var startPlaceName := if body.startPlaceName.Some? then body.startPlaceName.value else UNKNOWN_START;
    var endPlaceName := if body.endPlaceName.Some? then body.endPlaceName.value else UNKNOWN_DESTINATION;
    reply := Reply(service(body.points.value, mode, startPlaceName, endPlaceName), ROUTE_FAILED);
  }

  /** `calculateRouteWithDetour` (POST /api/routes/with-detour). Place names are passed on as
      given, absent ones included. */
  method CalculateRouteWithDetour(body: DetourRequestBody,
                                  service: (Point, Point, Point, string, Option<string>, Option<string>, Option<string>) -> ServiceOutcome)
    returns (reply: Option<HttpReply>)
    ensures reply.Some? && reply.value.status == BAD_REQUEST <==> !ValidDetourRequest(body)
    ensures (body.start.None? || body.detour.None? || body.end.None?)
            ==> reply == Some(HttpReply(BAD_REQUEST, ErrorResponse(MISSING_DETOUR_POINTS)))
    ensures body.start.Some? && body.detour.Some? && body.end.Some?
            && !AllValidCoordinates([body.start.value, body.detour.value, body.end.value])
            ==> reply == Some(HttpReply(BAD_REQUEST, ErrorResponse(INVALID_COORDINATES)))
    ensures body.start.Some? && body.detour.Some? && body.end.Some?
            && AllValidCoordinates([body.start.value, body.detour.value, body.end.value])
            && !ValidTransportMode(NameOr(body.transportMode, DEFAULT_TRANSPORT_MODE))
            ==> reply == Some(HttpReply(BAD_REQUEST, ErrorResponse(INVALID_MODE)))
    ensures ValidDetourRequest(body) ==>
              reply == Reply(service(body.start.value, body.detour.value, body.end.value,
                                     NameOr(body.transportMode, DEFAULT_TRANSPORT_MODE),
                                     body.startPlaceName, body.detourPlaceName, body.endPlaceName), DETOUR_FAILED)
  {
    if body.start.None? || body.detour.None? || body.end.None? {
      return Some(HttpReply(BAD_REQUEST, ErrorResponse(MISSING_DETOUR_POINTS)));
    }
    var bad := FirstInvalidPoint([body.start.value, body.detour.value, body.end.value]);
    if bad.Some? {
      return Some(HttpReply(BAD_REQUEST, ErrorResponse(INVALID_COORDINATES)));
    }
    var mode := if body.transportMode.Some? then body.transportMode.value else DEFAULT_TRANSPORT_MODE;
    if mode != "taxi" && mode != "bus" && mode != "moto" {
      return Some(HttpReply(BAD_REQUEST, ErrorResponse(INVALID_MODE)));
    }
    reply := Reply(service(body.start.value, body.detour.value, body.end.value, mode,
                           body.startPlaceName, body.detourPlaceName, body.endPlaceName), DETOUR_FAILED);
  }
}
