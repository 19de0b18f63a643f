/**
 * RunHistoryCell: the map thumbnail of a run in the history list. The part
 * modelled is which routes get a map and the region fitted to the route.
 */
module HistoryCell {
  import opened CoreLocation

  /** The four bounds the loop of `region(for:)` maintains. */
  datatype Bounds = Bounds(minLat: real, maxLat: real, minLon: real, maxLon: real)

  /** The loop's starting values: an inverted world-sized box. */
  const Start := Bounds(90.0, -90.0, 180.0, -180.0)

  function Min(a: real, b: real): real { if a <= b then a else b }
  function Max(a: real, b: real): real { if a >= b then a else b }

  /** One loop iteration. */
  function Widen(b: Bounds, c: Coordinate): Bounds
  {
    Bounds(Min(b.minLat, c.latitude), Max(b.maxLat, c.latitude),
           Min(b.minLon, c.longitude), Max(b.maxLon, c.longitude))
  }

  /** The bounds after the loop has visited every coordinate. */
  function BoundsOf(coordinates: seq<Coordinate>): Bounds
    decreases |coordinates|
  {
    if coordinates == [] then Start
    else Widen(BoundsOf(coordinates[..|coordinates| - 1]), coordinates[|coordinates| - 1])
  }

  /** MKCoordinateSpan */
  datatype Span = Span(latitudeDelta: real, longitudeDelta: real)

  /** MKCoordinateRegion */
  datatype Region = Region(center: Coordinate, span: Span)

  /** The region fitted to a box: its midpoint, and 1.2 times its size. */
  function RegionOf(b: Bounds): Region
  {
    Region(Coordinate((b.minLat + b.maxLat) / 2.0, (b.minLon + b.maxLon) / 2.0),
           Span((b.maxLat - b.minLat) * 1.2, (b.maxLon - b.minLon) * 1.2))
  }

  predicate Inside(b: Bounds, c: Coordinate)
  {
    b.minLat <= c.latitude <= b.maxLat && b.minLon <= c.longitude <= b.maxLon
  }

  /** The region's rectangle on the map: center plus or minus half of each span. */
  predicate Covers(r: Region, c: Coordinate)
  {
    r.center.latitude - r.span.latitudeDelta / 2.0 <= c.latitude <= r.center.latitude + r.span.latitudeDelta / 2.0 &&
    r.center.longitude - r.span.longitudeDelta / 2.0 <= c.longitude <= r.center.longitude + r.span.longitudeDelta / 2.0
  }

  predicate OnEarth(c: Coordinate)
  {
    -90.0 <= c.latitude <= 90.0 && -180.0 <= c.longitude <= 180.0
  }

  /** Every coordinate lies in the box, and the box never leaves its start values' side. */
  lemma {:induction false} BoundsContain(coordinates: seq<Coordinate>)
    ensures forall i :: 0 <= i < |coordinates| ==> Inside(BoundsOf(coordinates), coordinates[i])
    ensures BoundsOf(coordinates).minLat <= 90.0 && BoundsOf(coordinates).maxLat >= -90.0
    ensures BoundsOf(coordinates).minLon <= 180.0 && BoundsOf(coordinates).maxLon >= -180.0
    decreases |coordinates|
  {
    if coordinates != [] {
      var front := coordinates[..|coordinates| - 1];
      BoundsContain(front);
      assert forall i :: 0 <= i < |front| ==> front[i] == coordinates[i];
    }
  }

  /**
   * Each bound is either its start value or attained by a coordinate: the
   * box is the smallest one that contains the route together with the
   * inverted start box.
   */
  lemma {:induction false} BoundsAttained(coordinates: seq<Coordinate>)
    ensures var b := BoundsOf(coordinates);
      (b.minLat == 90.0 || exists i :: 0 <= i < |coordinates| && coordinates[i].latitude == b.minLat) &&
      (b.maxLat == -90.0 || exists i :: 0 <= i < |coordinates| && coordinates[i].latitude == b.maxLat) &&
      (b.minLon == 180.0 || exists i :: 0 <= i < |coordinates| && coordinates[i].longitude == b.minLon) &&
      (b.maxLon == -180.0 || exists i :: 0 <= i < |coordinates| && coordinates[i].longitude == b.maxLon)
    decreases |coordinates|
  {
    if coordinates != [] {
      var n := |coordinates| - 1;
      var front := coordinates[..n];
      BoundsAttained(front);
      assert forall i :: 0 <= i < |front| ==> front[i] == coordinates[i];
    }
  }

  /**
   * On a non-empty route of valid coordinates, the bounds are exactly the
   * route's extreme latitudes and longitudes, so min <= max.
   */
  lemma ExactBoundsOnEarth(coordinates: seq<Coordinate>)
    requires coordinates != []
    requires forall i :: 0 <= i < |coordinates| ==> OnEarth(coordinates[i])
    ensures var b := BoundsOf(coordinates);
      (exists i :: 0 <= i < |coordinates| && coordinates[i].latitude == b.minLat) &&
      (exists i :: 0 <= i < |coordinates| && coordinates[i].latitude == b.maxLat) &&
      (exists i :: 0 <= i < |coordinates| && coordinates[i].longitude == b.minLon) &&
      (exists i :: 0 <= i < |coordinates| && coordinates[i].longitude == b.maxLon) &&
      b.minLat <= b.maxLat && b.minLon <= b.maxLon
  {
    BoundsContain(coordinates);
    BoundsAttained(coordinates);
    var b := BoundsOf(coordinates);
    assert Inside(b, coordinates[0]);
    if b.minLat == 90.0 { assert coordinates[0].latitude == b.minLat; }
    if b.maxLat == -90.0 { assert coordinates[0].latitude == b.maxLat; }
    if b.minLon == 180.0 { assert coordinates[0].longitude == b.minLon; }
    if b.maxLon == -180.0 { assert coordinates[0].longitude == b.maxLon; }
  }

  /**
   * For a non-empty route: the center lies in the box, the spans are
   * non-negative, and the region shown on the map covers every coordinate.
   */
  lemma RegionFitsRoute(coordinates: seq<Coordinate>)
    requires coordinates != []
    ensures var b := BoundsOf(coordinates); var r := RegionOf(b);
      Inside(b, r.center) && r.span.latitudeDelta >= 0.0 && r.span.longitudeDelta >= 0.0
    ensures forall i :: 0 <= i < |coordinates| ==> Covers(RegionOf(BoundsOf(coordinates)), coordinates[i])
  {
    BoundsContain(coordinates);
    assert Inside(BoundsOf(coordinates), coordinates[0]);
  }

  /** `region(for:)` */
  method RegionFor(coordinates: seq<Coordinate>) returns (region: Region)
    ensures region == RegionOf(BoundsOf(coordinates))
  {
    var minLat, maxLat, minLon, maxLon := 90.0, -90.0, 180.0, -180.0;
    for i := 0 to |coordinates|
      invariant Bounds(minLat, maxLat, minLon, maxLon) == BoundsOf(coordinates[..i])
    {
      var coordinate := coordinates[i];
      minLat := Min(minLat, coordinate.latitude);
      maxLat := Max(maxLat, coordinate.latitude);
      minLon := Min(minLon, coordinate.longitude);
      maxLon := Max(maxLon, coordinate.longitude);
      assert coordinates[..i + 1][..i] == coordinates[..i];
    }
    assert coordinates[..|coordinates|] == coordinates;
    var center := Coordinate((minLat + maxLat) / 2.0, (minLon + maxLon) / 2.0);
    var span := Span((maxLat - minLat) * 1.2, (maxLon - minLon) * 1.2);
    region := Region(center, span);
  }

  /** What the cell's map shows. */
  datatype MapState = Hidden | Shown(region: Region, route: seq<Coordinate>)

  /** `setupMapRoute(_:)`: a map only for routes of two or more points. */
  method SetupMapRoute(coordinates: seq<Coordinate>) returns (map_: MapState)
    ensures |coordinates| < 2 <==> map_.Hidden?
    ensures map_.Shown? ==> map_.region == RegionOf(BoundsOf(coordinates)) && map_.route == coordinates
    ensures map_.Shown? ==> forall i :: 0 <= i < |coordinates| ==> Covers(map_.region, coordinates[i])
  {
    if |coordinates| <= 1 {
      return Hidden;
    }
    var region := RegionFor(coordinates);
    RegionFitsRoute(coordinates);
    map_ := Shown(region, coordinates);
  }
}
