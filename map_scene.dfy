/**
 * The non-UI logic of the current map screen (Scenes/Map): the run state
 * machine over the shared RunManager, elapsed time delegated to RunTimer,
 * distance from the location callback, and calories from HealthKit.
 *
 * Every callback (button action, location update, statistics handler) is
 * one atomic step; the clock reading `now` and the HealthKit results are
 * parameters of the step.
 */
module MapScene {
  import opened Wrappers
  import opened CoreLocation
  import opened RunState
  import Timing
  import opened EnergyFeed

  /**
   * What the screen's logic reads and writes: the run record, the timer, the
   * coordinates of the drawn route, and whether a calorie query is live.
   */
  datatype Scene = Scene(
    run: RunRecord,
    timer: Timing.TimerState,
    routeCoordinates: seq<Coordinate>,
    calorieQuery: bool)

  /** App launch: both singletons fresh, no route, no query. */
  const Launch := Scene(Fresh, Timing.Initial, [], false)

  /** `startCalorieUpdates()`: a query is created only once RunTimer has a start time. */
  function CalorieUpdatesStep(sc: Scene): Scene
  {
    if sc.timer.startTime.Some? && !sc.calorieQuery then sc.(calorieQuery := true) else sc
  }

  /** `startRun()`: resets the record; RunTimer is not touched. */
  function StartRunStep(sc: Scene): Scene
  {
    CalorieUpdatesStep(
      sc.(run := sc.run.(isRunning := true, isPaused := false, locations := [],
                         totalDistance := 0.0, calories := 0.0)))
  }

  /** `pauseRun()`: toggles the pause flag and pauses or restarts RunTimer. */
  function PauseRunStep(sc: Scene, now: real): Scene
  {
    var paused := !sc.run.isPaused;
    sc.(run := sc.run.(isPaused := paused),
        timer := if paused then Timing.Pause(sc.timer, now) else Timing.Start(sc.timer, now))
  }

  /** `stopRun()` up to and excluding the asynchronous `fetchCalories` result. */
  function StopRunStep(sc: Scene): Scene
  {
    sc.(run := sc.run.(isRunning := false, isPaused := false),
        timer := Timing.Stop(sc.timer),
        calorieQuery := false)
  }

  /** `locationManager(_:didUpdateLocations:)`, the route and distance part. */
  function LocationStep(sc: Scene, distance: Metric, locations: seq<Location>): Scene
  {
    if locations == [] || !(sc.run.isRunning && !sc.run.isPaused) then sc
    else
      var newLocation := locations[|locations| - 1];
      var route := sc.run.locations + [newLocation];
      var total := if |route| > 1
                   then sc.run.totalDistance + distance(newLocation, route[|route| - 2]) / 1000.0
                   else sc.run.totalDistance;
      sc.(run := sc.run.(locations := route, totalDistance := total),
          routeCoordinates := Coordinates(route))
  }

  /** `updateCalories(from:)`: nothing without a collection or a RunTimer start time. */
  function CaloriesStep(sc: Scene, collection: Option<seq<Statistics>>): Scene
  {
    if collection.None? || sc.timer.startTime.None? then sc
    else sc.(run := sc.run.(calories := Reconciled(sc.run.calories, collection.value)))
  }

  /** The result handler of `fetchCalories()`: a returned sum overwrites the figure. */
  function FetchStep(sc: Scene, sum: Option<real>): Scene
  {
    if sum.Some? then sc.(run := sc.run.(calories := sum.value)) else sc
  }

  /** The sample window `fetchCalories()` queries: from RunTimer's start time (or `now`) to `now`. */
  function FetchWindow(sc: Scene, now: real): (real, real)
  {
    (sc.timer.startTime.GetOr(now), now)
  }

  /** `updateSpeed(with:)`: km/h from km and seconds. */
  function Speed(currentTime: real, totalDistance: real): (speed: real)
    ensures currentTime <= 0.0 ==> speed == 0.0
    ensures currentTime > 0.0 ==> speed * currentTime == totalDistance * 3600.0
    ensures totalDistance >= 0.0 ==> speed >= 0.0
  {
    if currentTime > 0.0 then totalDistance / (currentTime / 3600.0) else 0.0
  }

  // ---------------------------------------------------------------------------
  // Step properties

  lemma StartRunResets(sc: Scene)
    ensures StartRunStep(sc).run.isRunning && !StartRunStep(sc).run.isPaused
    ensures StartRunStep(sc).run.locations == []
    ensures StartRunStep(sc).run.totalDistance == 0.0 && StartRunStep(sc).run.calories == 0.0
    ensures StartRunStep(sc).timer == sc.timer
    ensures StartRunStep(sc).run.accumulatedTime == sc.run.accumulatedTime
    ensures StartRunStep(sc).run.startTime == sc.run.startTime
    ensures StartRunStep(sc).routeCoordinates == sc.routeCoordinates
    ensures StartRunStep(sc).calorieQuery == (sc.calorieQuery || sc.timer.startTime.Some?)
  {
  }

  lemma PauseRunToggles(sc: Scene, now: real)
    ensures PauseRunStep(sc, now).run.isPaused == !sc.run.isPaused
    ensures PauseRunStep(sc, now).run.isPaused ==> PauseRunStep(sc, now).timer == Timing.Pause(sc.timer, now)
    ensures !PauseRunStep(sc, now).run.isPaused ==> PauseRunStep(sc, now).timer == Timing.Start(sc.timer, now)
    ensures PauseRunStep(sc, now).run.locations == sc.run.locations
    ensures PauseRunStep(sc, now).run.totalDistance == sc.run.totalDistance
  {
  }

  lemma StopRunClearsFlags(sc: Scene)
    ensures !StopRunStep(sc).run.isRunning && !StopRunStep(sc).run.isPaused
    ensures StopRunStep(sc).timer == Timing.Stop(sc.timer)
    ensures StopRunStep(sc).run.locations == sc.run.locations
    ensures StopRunStep(sc).run.totalDistance == sc.run.totalDistance
    ensures StopRunStep(sc).run.calories == sc.run.calories
    ensures !StopRunStep(sc).calorieQuery
  {
  }

  /** Fixes are recorded only while running and not paused. */
  lemma LocationGate(sc: Scene, distance: Metric, locations: seq<Location>)
    ensures !(sc.run.isRunning && !sc.run.isPaused) || locations == [] ==>
      LocationStep(sc, distance, locations) == sc
    ensures sc.run.isRunning && !sc.run.isPaused && locations != [] ==>
      LocationStep(sc, distance, locations).run.locations
        == sc.run.locations + [locations[|locations| - 1]]
    ensures sc.run.isRunning && !sc.run.isPaused && locations != [] ==>
      var n := LocationStep(sc, distance, locations); n.routeCoordinates == Coordinates(n.run.locations)
  {
  }

  /** The distance only grows, by the last leg in kilometres. */
  lemma LocationDistanceGrows(sc: Scene, distance: Metric, locations: seq<Location>)
    ensures LocationStep(sc, distance, locations).run.totalDistance >= sc.run.totalDistance
    ensures sc.run.isRunning && !sc.run.isPaused && locations != [] && |sc.run.locations| >= 1 ==>
      LocationStep(sc, distance, locations).run.totalDistance
        == sc.run.totalDistance
           + distance(locations[|locations| - 1], sc.run.locations[|sc.run.locations| - 1]) / 1000.0
  {
  }

  /** On this path the calorie figure never decreases and never misses a positive sum. */
  lemma UpdateCaloriesNeverLowers(sc: Scene, collection: Option<seq<Statistics>>)
    ensures CaloriesStep(sc, collection).run.calories >= sc.run.calories
    ensures collection.Some? && sc.timer.startTime.Some? ==>
      forall i :: 0 <= i < |collection.value| && collection.value[i].Some? && collection.value[i].value > 0.0 ==>
        CaloriesStep(sc, collection).run.calories >= collection.value[i].value
  {
    if collection.Some? {
      ReconciledIsLeastUpperBound(sc.run.calories, collection.value);
    }
  }

  /** The final fetch assigns: it can lower the figure the live feed reached. */
  lemma FetchCaloriesOverwrites(sc: Scene, sum: real)
    ensures FetchStep(sc, Some(sum)).run.calories == sum
    ensures FetchStep(sc, None) == sc
  {
  }

  /** `stopRun` clears RunTimer before `fetchCalories` reads it: the window is empty. */
  lemma StopThenFetchWindowIsEmpty(sc: Scene, now: real)
    ensures FetchWindow(StopRunStep(sc), now) == (now, now)
  {
  }

  // ---------------------------------------------------------------------------
  // Consequences of startRun leaving RunTimer alone

  /**
   * From launch, the time before the first pause is never counted: start,
   * pause at `p`, resume at `r`, tick at `t` gives RunTimer `t - r`.
   */
  lemma FirstSegmentNotTimed(p: real, r: real, t: real)
    ensures Timing.Update(PauseRunStep(PauseRunStep(StartRunStep(Launch), p), r).timer, t).totalTime == t - r
  {
  }

  /** From launch or after a stop, `startRun` does not subscribe to the calorie feed. */
  lemma StartRunWithoutQuery(sc: Scene, collection: Option<seq<Statistics>>)
    requires sc.timer.startTime.None? && !sc.calorieQuery
    ensures !StartRunStep(sc).calorieQuery
    ensures CaloriesStep(StartRunStep(sc), collection).run.calories == 0.0
  {
  }

  /** A resume continues the count where the pause left it. */
  lemma PauseResumeAdditivity(sc: Scene, p: real, r: real, t: real)
    requires !sc.run.isPaused && sc.timer.startTime.Some?
    ensures Timing.Elapsed(PauseRunStep(PauseRunStep(sc, p), r).timer, t)
         == Timing.Elapsed(sc.timer, p) + (t - r)
  {
  }

  // ---------------------------------------------------------------------------
  // Traces

  datatype SceneEvent =
    | StartTap
    | PauseTap(now: real)
    | StopTap
    | Fixes(locations: seq<Location>)
    | CalorieStatistics(collection: Option<seq<Statistics>>)
    | CalorieFetch(sum: Option<real>)

  function Apply(sc: Scene, distance: Metric, e: SceneEvent): Scene
  {
    match e
    case StartTap => StartRunStep(sc)
    case PauseTap(now) => PauseRunStep(sc, now)
    case StopTap => StopRunStep(sc)
    case Fixes(locations) => LocationStep(sc, distance, locations)
    case CalorieStatistics(collection) => CaloriesStep(sc, collection)
    case CalorieFetch(sum) => FetchStep(sc, sum)
  }

  function Replay(sc: Scene, distance: Metric, events: seq<SceneEvent>): Scene
    decreases |events|
  {
    if events == [] then sc else Replay(Apply(sc, distance, events[0]), distance, events[1..])
  }

  /** The recorded distance is the length of the recorded route. */
  predicate Accounted(sc: Scene, distance: Metric)
  {
    sc.run.totalDistance == RouteLength(distance, sc.run.locations)
  }

  lemma StepKeepsAccounted(sc: Scene, distance: Metric, e: SceneEvent)
    requires Accounted(sc, distance)
    ensures Accounted(Apply(sc, distance, e), distance)
  {
    if e.Fixes? && e.locations != [] && sc.run.isRunning && !sc.run.isPaused {
      RouteLengthAppend(distance, sc.run.locations, e.locations[|e.locations| - 1]);
    }
  }

  /** From launch, whatever happens, `totalDistance` is the length of `locations`. */
  lemma {:induction false} DistanceIsRouteLength(distance: Metric, events: seq<SceneEvent>)
    ensures Accounted(Replay(Launch, distance, events), distance)
  {
    AccountedAlong(Launch, distance, events);
  }

  lemma {:induction false} AccountedAlong(sc: Scene, distance: Metric, events: seq<SceneEvent>)
    requires Accounted(sc, distance)
    ensures Accounted(Replay(sc, distance, events), distance)
    decreases |events|
  {
    if events != [] {
      StepKeepsAccounted(sc, distance, events[0]);
      AccountedAlong(Apply(sc, distance, events[0]), distance, events[1..]);
    }
  }

  /**
   * Between starts, the route only grows at its end and the distance never
   * decreases.
   */
  lemma {:induction false} RouteOnlyGrows(sc: Scene, distance: Metric, events: seq<SceneEvent>)
    requires forall i :: 0 <= i < |events| ==> !events[i].StartTap?
    ensures sc.run.locations <= Replay(sc, distance, events).run.locations
    ensures Replay(sc, distance, events).run.totalDistance >= sc.run.totalDistance
    decreases |events|
  {
    if events != [] {
      var next := Apply(sc, distance, events[0]);
      LocationDistanceGrows(sc, distance, if events[0].Fixes? then events[0].locations else []);
      assert next.run.totalDistance >= sc.run.totalDistance;
      assert sc.run.locations <= next.run.locations;
      assert forall i :: 0 <= i < |events[1..]| ==> events[1..][i] == events[i + 1];
      RouteOnlyGrows(next, distance, events[1..]);
    }
  }

  // ---------------------------------------------------------------------------
  // The controller

  /** MapViewController, without its views. */
  class MapViewController {
    const runManager: RunManager
    const runTimer: Timing.RunTimer
    /** CoreLocation's distance between two fixes. */
    const distance: Metric
    var routeCoordinates: seq<Coordinate>
    var calorieQuery: bool

    function State(): Scene
      reads this, runManager, runTimer
    {
      Scene(runManager.Record(), runTimer.State(), routeCoordinates, calorieQuery)
    }

    constructor (runManager: RunManager, runTimer: Timing.RunTimer, distance: Metric)
      ensures this.runManager == runManager && this.runTimer == runTimer && this.distance == distance
      ensures routeCoordinates == [] && !calorieQuery
    {
      this.runManager := runManager;
      this.runTimer := runTimer;
      this.distance := distance;
      routeCoordinates := [];
      calorieQuery := false;
    }

    method StartCalorieUpdates()
      modifies this
      ensures State() == CalorieUpdatesStep(old(State()))
    {
      if runTimer.startTime.Some? {
        if !calorieQuery {
          calorieQuery := true;
        }
      }
    }

    method StartRun()
      modifies this, runManager
      ensures State() == StartRunStep(old(State()))
      ensures runManager.isRunning && !runManager.isPaused
      ensures runManager.locations == [] && runManager.totalDistance == 0.0 && runManager.calories == 0.0
      ensures runManager.accumulatedTime == old(runManager.accumulatedTime)
      ensures runTimer.State() == old(runTimer.State())
    {
      runManager.isRunning := true;
      runManager.isPaused := false;
      runManager.locations := [];
      runManager.totalDistance := 0.0;
      runManager.calories := 0.0;
      StartCalorieUpdates();
    }

    method PauseRun(now: real)
      modifies runManager, runTimer
      ensures State() == PauseRunStep(old(State()), now)
      ensures runManager.isPaused == !old(runManager.isPaused)
    {
      runManager.isPaused := !runManager.isPaused;
      if runManager.isPaused {
        runTimer.PauseTimer(now);
      } else {
        runTimer.StartTimer(now);
      }
    }

    method StopRun()
      modifies this, runManager, runTimer
      ensures State() == StopRunStep(old(State()))
      ensures !runManager.isRunning && !runManager.isPaused
      ensures runManager.locations == old(runManager.locations)
      ensures runManager.totalDistance == old(runManager.totalDistance)
    {
      runTimer.StopTimer();
      runManager.isRunning := false;
      runManager.isPaused := false;
      calorieQuery := false;
    }

    method DidUpdateLocations(locations: seq<Location>)
      modifies this, runManager
      ensures State() == LocationStep(old(State()), distance, locations)
    {
      if locations == [] {
        return;
      }
      var newLocation := locations[|locations| - 1];
      if runManager.isRunning && !runManager.isPaused {
        runManager.locations := runManager.locations + [newLocation];
        routeCoordinates := Coordinates(runManager.locations);
        if |runManager.locations| > 1 {
          var lastLocation := runManager.locations[|runManager.locations| - 2];
          runManager.totalDistance := runManager.totalDistance + distance(newLocation, lastLocation) / 1000.0;
        }
      }
    }

    method UpdateCalories(collection: Option<seq<Statistics>>)
      modifies runManager
      ensures State() == CaloriesStep(old(State()), collection)
      ensures runManager.calories >= old(runManager.calories)
    {
      if collection.None? || runTimer.startTime.None? {
        return;
      }
      var totalCalories := FoldStatistics(runManager.calories, collection.value);
      runManager.calories := totalCalories;
    }

    method FetchCalories(sum: Option<real>)
      modifies runManager
      ensures State() == FetchStep(old(State()), sum)
    {
      if sum.Some? {
        runManager.calories := sum.value;
      }
    }
  }
}
