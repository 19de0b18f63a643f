/**
 * The parts of CoreLocation the run-tracking code relies on: coordinates,
 * position fixes, and the distance between two fixes.
 */
module CoreLocation {

  /** CLLocationCoordinate2D, in degrees. */
  datatype Coordinate = Coordinate(latitude: real, longitude: real)

  /** CLLocation: a position fix with its coordinate and timestamp (seconds). */
  datatype Location = Location(coordinate: Coordinate, timestamp: real)

  /**
   * `CLLocation.distance(from:)` in metres. The geodesic computation is
   * CoreLocation's own; all the code relies on is that it is never negative,
   * so it is any total function with that property.
   */
  type Metric = f: (Location, Location) -> real | forall a, b :: f(a, b) >= 0.0
    witness (a: Location, b: Location) => 0.0

  /** `locations.map { $0.coordinate }` */
  function Coordinates(locations: seq<Location>): (r: seq<Coordinate>)
    ensures |r| == |locations|
    ensures forall i :: 0 <= i < |locations| ==> r[i] == locations[i].coordinate
  {
    seq(|locations|, i requires 0 <= i < |locations| => locations[i].coordinate)
  }

  /**
   * Length of a route in kilometres: the sum, over consecutive fixes, of
   * `later.distance(from: earlier) / 1000`.
   */
  function RouteLength(distance: Metric, route: seq<Location>): real
  {
    if |route| < 2 then 0.0
    else RouteLength(distance, route[..|route| - 1])
         + distance(route[|route| - 1], route[|route| - 2]) / 1000.0
  }

  lemma {:induction false} RouteLengthNonNegative(distance: Metric, route: seq<Location>)
    ensures RouteLength(distance, route) >= 0.0
  {
    if |route| >= 2 {
      RouteLengthNonNegative(distance, route[..|route| - 1]);
    }
  }

  /** Appending one fix to a route lengthens it by the last leg. */
  lemma RouteLengthAppend(distance: Metric, route: seq<Location>, fix: Location)
    ensures |route| == 0 ==> RouteLength(distance, route + [fix]) == 0.0
    ensures |route| >= 1 ==>
      RouteLength(distance, route + [fix])
        == RouteLength(distance, route) + distance(fix, route[|route| - 1]) / 1000.0
  {
    var extended := route + [fix];
    assert extended[..|extended| - 1] == route;
  }
}
