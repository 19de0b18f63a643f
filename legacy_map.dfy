/**
 * The non-UI logic of the older map screen (MapViewController at the top
 * level of the app): it keeps its own start, pause and accumulated times
 * instead of using RunTimer, and its own route and totals instead of
 * RunManager.
 *
 * Every callback is one atomic step; the clock reading `now` and the HealthKit
 * results are parameters of the step.
 */
module LegacyMap {
  import opened Wrappers
  import opened CoreLocation
  import opened EnergyFeed
  import RunSummary

  /** The screen's logic fields. */
  datatype Legacy = Legacy(
    isRunning: bool,
    isPaused: bool,
    startTime: Option<real>,
    pauseTime: Option<real>,
    accumulatedTime: real,
    locations: seq<Location>,
    routeCoordinates: seq<Coordinate>,
    totalDistance: real,
    calories: real,
    calorieQuery: bool)

  /** The fields' declared initial values. */
  const Loaded := Legacy(false, false, None, None, 0.0, [], [], 0.0, 0.0, false)

  /** `startCalorieUpdates()`: a query is created when there is a start time and none is live. */
  function CalorieUpdatesStep(l: Legacy): Legacy
  {
    if l.startTime.Some? && !l.calorieQuery then l.(calorieQuery := true) else l
  }

  /** `startRun()` */
  function StartRunStep(l: Legacy, now: real): Legacy
  {
    CalorieUpdatesStep(
      l.(isRunning := true, isPaused := false, startTime := Some(now), accumulatedTime := 0.0,
         locations := [], routeCoordinates := [], totalDistance := 0.0, calories := 0.0))
  }

  /**
   * `pauseRun()`: entering pause records the pause time; leaving it folds the
   * segment `pauseTime - startTime` into `accumulatedTime` and restarts the
   * segment at `now`, unless no pause time was ever recorded.
   */
  function PauseRunStep(l: Legacy, now: real): Legacy
  {
    var paused := !l.isPaused;
    if paused then l.(isPaused := true, pauseTime := Some(now))
    else if l.pauseTime.None? then l.(isPaused := false)
    else
      var p := l.pauseTime.value;
      l.(isPaused := false,
         accumulatedTime := l.accumulatedTime + (p - l.startTime.GetOr(p)),
         startTime := Some(now))
  }

  /** `stopRun()` up to and excluding the asynchronous `fetchCalories` result. */
  function StopRunStep(l: Legacy): Legacy
  {
    l.(isRunning := false, isPaused := false, calorieQuery := false)
  }

  /** `locationManager(_:didUpdateLocations:)`, the route and distance part. */
  function LocationStep(l: Legacy, distance: Metric, locations: seq<Location>): Legacy
  {
    if locations == [] || !(l.isRunning && !l.isPaused) then l
    else
      var newLocation := locations[|locations| - 1];
      var route := l.locations + [newLocation];
      var total := if |route| > 1
                   then l.totalDistance + distance(newLocation, route[|route| - 2]) / 1000.0
                   else l.totalDistance;
      l.(locations := route, routeCoordinates := Coordinates(route), totalDistance := total)
  }

  /** `updateCalories(from:)`: nothing without a collection or a start time. */
  function CaloriesStep(l: Legacy, collection: Option<seq<Statistics>>): Legacy
  {
    if collection.None? || l.startTime.None? then l
    else l.(calories := Reconciled(l.calories, collection.value))
  }

  /** The result handler of `fetchCalories()`: a returned sum overwrites the figure. */
  function FetchStep(l: Legacy, sum: Option<real>): Legacy
  {
    if sum.Some? then l.(calories := sum.value) else l
  }

  /** The sample window `fetchCalories()` queries. */
  function FetchWindow(l: Legacy, now: real): (real, real)
  {
    (l.startTime.GetOr(now), now)
  }

  /** The active time `updateTimer()` computes at `now`. */
  function Elapsed(l: Legacy, now: real): real
    requires l.startTime.Some?
  {
    l.accumulatedTime + (now - l.startTime.value)
  }

  /** `updateTimer()`: the shown's hours, minutes and seconds, or nothing without a start time. */
  function TimerLabel(l: Legacy, now: real): (shown: Option<RunSummary.Clock>)
    ensures l.startTime.None? <==> shown.None?
    ensures shown.Some? ==>
      shown.value.hours * 3600 + shown.value.minutes * 60 + shown.value.seconds
        == RunSummary.Trunc(Elapsed(l, now))
    ensures shown.Some? && Elapsed(l, now) >= 0.0 ==>
      0 <= shown.value.minutes < 60 && 0 <= shown.value.seconds < 60
  {
    if l.startTime.None? then None
    else Some(RunSummary.DurationParts(l.accumulatedTime + (now - l.startTime.value)))
  }

  // ---------------------------------------------------------------------------
  // Step properties

  lemma StartRunResets(l: Legacy, now: real)
    ensures var n := StartRunStep(l, now);
      n.isRunning && !n.isPaused && n.startTime == Some(now) && n.accumulatedTime == 0.0 &&
      n.locations == [] && n.routeCoordinates == [] && n.totalDistance == 0.0 && n.calories == 0.0 &&
      n.calorieQuery && n.pauseTime == l.pauseTime
  {
  }

  lemma EnteringPauseRecordsTime(l: Legacy, now: real)
    requires !l.isPaused
    ensures PauseRunStep(l, now) == l.(isPaused := true, pauseTime := Some(now))
  {
  }

  lemma LeavingPauseFoldsSegment(l: Legacy, now: real)
    requires l.isPaused && l.pauseTime.Some? && l.startTime.Some?
    ensures var n := PauseRunStep(l, now);
      !n.isPaused &&
      n.accumulatedTime == l.accumulatedTime + (l.pauseTime.value - l.startTime.value) &&
      n.startTime == Some(now)
  {
  }

  /** Leaving pause with no recorded pause time returns early, with the flag already cleared. */
  lemma LeavingPauseWithoutPauseTime(l: Legacy, now: real)
    requires l.isPaused && l.pauseTime.None?
    ensures PauseRunStep(l, now) == l.(isPaused := false)
  {
  }

  lemma StopRunKeepsMeasurements(l: Legacy)
    ensures var n := StopRunStep(l);
      !n.isRunning && !n.isPaused &&
      n.startTime == l.startTime && n.accumulatedTime == l.accumulatedTime &&
      n.locations == l.locations && n.totalDistance == l.totalDistance && n.calories == l.calories &&
      !n.calorieQuery
  {
  }

  lemma LocationGate(l: Legacy, distance: Metric, locations: seq<Location>)
    ensures !(l.isRunning && !l.isPaused) || locations == [] ==>
      LocationStep(l, distance, locations) == l
    ensures l.isRunning && !l.isPaused && locations != [] ==>
      LocationStep(l, distance, locations).locations == l.locations + [locations[|locations| - 1]]
    ensures l.isRunning && !l.isPaused && locations != [] ==>
      var n := LocationStep(l, distance, locations); n.routeCoordinates == Coordinates(n.locations)
    ensures LocationStep(l, distance, locations).totalDistance >= l.totalDistance
  {
  }

  lemma CaloriesNeverLowered(l: Legacy, collection: Option<seq<Statistics>>)
    ensures CaloriesStep(l, collection).calories >= l.calories
  {
    if collection.Some? {
      ReconciledIsLeastUpperBound(l.calories, collection.value);
    }
  }

  /** The final fetch only covers the time since the last resume (or start). */
  lemma FetchWindowStartsAtLastResume(l: Legacy, p: real, r: real, now: real)
    requires !l.isPaused && l.startTime.Some?
    ensures FetchWindow(StopRunStep(PauseRunStep(PauseRunStep(l, p), r)), now) == (r, now)
  {
  }

  // ---------------------------------------------------------------------------
  // Elapsed time across pauses

  /** One pause: elapsed continues from where the pause froze it. */
  lemma PauseResumeAdditivity(l: Legacy, p: real, r: real, t: real)
    requires !l.isPaused && l.startTime.Some?
    ensures PauseRunStep(PauseRunStep(l, p), r).startTime.Some?
    ensures Elapsed(PauseRunStep(PauseRunStep(l, p), r), t) == Elapsed(l, p) + (t - r)
  {
  }

  /** The concrete run: start at s, pause at p, resume at r, read at t. */
  lemma StartPauseResumeElapsed(s: real, p: real, r: real, t: real)
    ensures var l := PauseRunStep(PauseRunStep(StartRunStep(Loaded, s), p), r);
      l.startTime.Some? && Elapsed(l, t) == (p - s) + (t - r) &&
      TimerLabel(l, t) == Some(RunSummary.DurationParts((p - s) + (t - r)))
  {
  }

  /** A pause and the matching resume. */
  datatype Break = Break(pausedAt: real, resumedAt: real)

  function Toggles(l: Legacy, breaks: seq<Break>): Legacy
    decreases |breaks|
  {
    if breaks == [] then l
    else Toggles(PauseRunStep(PauseRunStep(l, breaks[0].pausedAt), breaks[0].resumedAt), breaks[1..])
  }

  /** Reference definition: the total length of the breaks. */
  function TotalBreak(breaks: seq<Break>): real
  {
    if breaks == [] then 0.0
    else (breaks[0].resumedAt - breaks[0].pausedAt) + TotalBreak(breaks[1..])
  }

  /** Elapsed time is wall-clock time minus the time spent in breaks, however many there are. */
  lemma {:induction false} ElapsedExcludesBreaks(l: Legacy, breaks: seq<Break>, t: real)
    requires !l.isPaused && l.startTime.Some?
    ensures !Toggles(l, breaks).isPaused && Toggles(l, breaks).startTime.Some?
    ensures Elapsed(Toggles(l, breaks), t) == Elapsed(l, t) - TotalBreak(breaks)
    decreases |breaks|
  {
    if breaks != [] {
      var next := PauseRunStep(PauseRunStep(l, breaks[0].pausedAt), breaks[0].resumedAt);
      PauseResumeAdditivity(l, breaks[0].pausedAt, breaks[0].resumedAt, t);
      ElapsedExcludesBreaks(next, breaks[1..], t);
    }
  }

  // ---------------------------------------------------------------------------
  // Traces

  datatype LegacyEvent =
    | StartTap(now: real)
    | PauseTap(now: real)
    | StopTap
    | Fixes(locations: seq<Location>)
    | CalorieStatistics(collection: Option<seq<Statistics>>)
    | CalorieFetch(sum: Option<real>)

  function Apply(l: Legacy, distance: Metric, e: LegacyEvent): Legacy
  {
    match e
    case StartTap(now) => StartRunStep(l, now)
    case PauseTap(now) => PauseRunStep(l, now)
    case StopTap => StopRunStep(l)
    case Fixes(locations) => LocationStep(l, distance, locations)
    case CalorieStatistics(collection) => CaloriesStep(l, collection)
    case CalorieFetch(sum) => FetchStep(l, sum)
  }

  function Replay(l: Legacy, distance: Metric, events: seq<LegacyEvent>): Legacy
    decreases |events|
  {
    if events == [] then l else Replay(Apply(l, distance, events[0]), distance, events[1..])
  }

  /** The distance is the route's length and the drawn route is the recorded one. */
  predicate Accounted(l: Legacy, distance: Metric)
  {
    l.totalDistance == RouteLength(distance, l.locations) && l.routeCoordinates == Coordinates(l.locations)
  }

  lemma StepKeepsAccounted(l: Legacy, distance: Metric, e: LegacyEvent)
    requires Accounted(l, distance)
    ensures Accounted(Apply(l, distance, e), distance)
  {
    if e.Fixes? && e.locations != [] && l.isRunning && !l.isPaused {
      RouteLengthAppend(distance, l.locations, e.locations[|e.locations| - 1]);
    }
    if e.StartTap? {
      assert Coordinates([]) == [];
    }
  }

  lemma {:induction false} AccountedAlong(l: Legacy, distance: Metric, events: seq<LegacyEvent>)
    requires Accounted(l, distance)
    ensures Accounted(Replay(l, distance, events), distance)
    decreases |events|
  {
    if events != [] {
      StepKeepsAccounted(l, distance, events[0]);
      AccountedAlong(Apply(l, distance, events[0]), distance, events[1..]);
    }
  }

  /** From the screen's load, whatever happens, the distance is the route's length. */
  lemma DistanceIsRouteLength(distance: Metric, events: seq<LegacyEvent>)
    ensures Accounted(Replay(Loaded, distance, events), distance)
  {
    assert Coordinates([]) == [];
    AccountedAlong(Loaded, distance, events);
  }

  // ---------------------------------------------------------------------------
  // The controller

  /** MapViewController (top-level), without its views. */
  class MapViewController {
    /** CoreLocation's distance between two fixes. */
    const distance: Metric
    var isRunning: bool
    var isPaused: bool
    var startTime: Option<real>
    var pauseTime: Option<real>
    var accumulatedTime: real
    var locations: seq<Location>
    var routeCoordinates: seq<Coordinate>
    var totalDistance: real
    var calories: real
    var calorieQuery: bool

    function State(): Legacy
      reads this
    {
      Legacy(isRunning, isPaused, startTime, pauseTime, accumulatedTime, locations,
             routeCoordinates, totalDistance, calories, calorieQuery)
    }

    constructor (distance: Metric)
      ensures this.distance == distance
      ensures State() == Loaded
    {
      this.distance := distance;
      isRunning, isPaused := false, false;
      startTime, pauseTime, accumulatedTime := None, None, 0.0;
      locations, routeCoordinates := [], [];
      totalDistance, calories := 0.0, 0.0;
      calorieQuery := false;
    }

    method StartCalorieUpdates()
      modifies this
      ensures State() == CalorieUpdatesStep(old(State()))
    {
      if startTime.None? {
        return;
      }
      if !calorieQuery {
        calorieQuery := true;
      }
    }

    method StartRun(now: real)
      modifies this
      ensures State() == StartRunStep(old(State()), now)
      ensures isRunning && !isPaused && startTime == Some(now) && accumulatedTime == 0.0
      ensures locations == [] && routeCoordinates == [] && totalDistance == 0.0 && calories == 0.0
    {
      isRunning := true;
      isPaused := false;
      startTime := Some(now);
      accumulatedTime := 0.0;
      locations := [];
      routeCoordinates := [];
      totalDistance := 0.0;
      calories := 0.0;
      StartCalorieUpdates();
    }

    method PauseRun(now: real)
      modifies this
      ensures State() == PauseRunStep(old(State()), now)
      ensures isPaused == !old(isPaused)
    {
      isPaused := !isPaused;
      if isPaused {
        pauseTime := Some(now);
      } else {
        if pauseTime.None? {
          return;
        }
        var p := pauseTime.value;
        accumulatedTime := accumulatedTime + (p - startTime.GetOr(p));
        startTime := Some(now);
      }
    }

    method StopRun()
      modifies this
      ensures State() == StopRunStep(old(State()))
      ensures !isRunning && !isPaused
      ensures startTime == old(startTime) && accumulatedTime == old(accumulatedTime)
      ensures locations == old(locations) && totalDistance == old(totalDistance) && calories == old(calories)
    {
      isRunning := false;
      isPaused := false;
      calorieQuery := false;
    }

    method UpdateTimer(now: real) returns (shown: Option<RunSummary.Clock>)
      ensures shown == TimerLabel(State(), now)
    {
      if startTime.None? {
        return None;
      }
      var currentTime := accumulatedTime + (now - startTime.value);
      shown := Some(RunSummary.DurationParts(currentTime));
    }

    method DidUpdateLocations(locations: seq<Location>)
      modifies this
      ensures State() == LocationStep(old(State()), distance, locations)
    {
      if locations == [] {
        return;
      }
      var newLocation := locations[|locations| - 1];
      if isRunning && !isPaused {
        this.locations := this.locations + [newLocation];
        routeCoordinates := Coordinates(this.locations);
        if |this.locations| > 1 {
          var lastLocation := this.locations[|this.locations| - 2];
          totalDistance := totalDistance + distance(newLocation, lastLocation) / 1000.0;
        }
      }
    }

    method UpdateCalories(collection: Option<seq<Statistics>>)
      modifies this
      ensures State() == CaloriesStep(old(State()), collection)
      ensures calories >= old(calories)
    {
      if collection.None? || startTime.None? {
        return;
      }
      var totalCalories := FoldStatistics(calories, collection.value);
      calories := totalCalories;
    }

    method FetchCalories(sum: Option<real>)
      modifies this
      ensures State() == FetchStep(old(State()), sum)
    {
      if sum.Some? {
        calories := sum.value;
      }
    }
  }
}
