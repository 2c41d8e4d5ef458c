/** Value types shared by the route and place services.
    Java's nullable references are `Option`s; doubles are `real`. */
module Model {

  datatype Option<+T> = None | Some(value: T)

  /** A WGS84 position in degrees. */
  datatype Point = Point(lat: real, lng: real)

  /** One segment of a route. `geometry` may be null in the Java object. */
  datatype RouteStep = RouteStep(
    geometry: Option<string>,
    source: string,
    target: string,
    distance: real,
    duration: real)

  datatype Route = Route(
    steps: seq<RouteStep>,
    distance: real,
    duration: real,
    startPlaceName: Option<string>,
    endPlaceName: Option<string>,
    geometry: string)

  /** The service answer: a (possibly null) list of alternatives and a (possibly null) error. */
  datatype RouteResponse = RouteResponse(routes: Option<seq<Route>>, error: Option<string>)

  /** The response built by `createErrorResponse`: only the error is set. */
  function ErrorResponse(message: string): (r: RouteResponse)
    ensures r.error == Some(message) && r.routes.None?
  {
    RouteResponse(None, Some(message))
  }

  /** The test the orchestrator applies before caching a result:
      no error and a non-empty list of routes. */
  predicate Succeeded(r: RouteResponse)
  {
    r.error.None? && r.routes.Some? && r.routes.value != []
  }

  datatype Coordinates = Coordinates(lat: real, lng: real)

  datatype Place = Place(id: Option<int>, name: string, coordinates: Coordinates)
}
