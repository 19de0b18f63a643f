/**
 * HealthKitManager: the route builder's lifecycle and the decision tree of
 * saving a workout with its route.
 *
 * HealthKit itself is outside the model: each of its asynchronous answers
 * (workout saved, route data inserted, route finished, route added) is a
 * boolean handed in, and the result says which HealthKit calls ran and what
 * `completion` reported. Each completion handler runs as one atomic step.
 */
module Workouts {
  import opened Wrappers
  import opened CoreLocation

  /** HKWorkoutRouteBuilder, with the fixes successfully inserted into it. */
  datatype RouteBuilder = RouteBuilder(inserted: seq<Location>)

  /** HKWorkoutRoute, as `finishRoute` returns it: the builder's fixes. */
  datatype WorkoutRoute = WorkoutRoute(points: seq<Location>)

  /** HKWorkout for a run. */
  datatype Workout = Workout(
    start: real,
    end: real,
    duration: real,
    energyKcal: real,
    distanceMeters: real)

  /** The manager's fields. */
  datatype Manager = Manager(routeBuilder: Option<RouteBuilder>, workoutRoutes: seq<WorkoutRoute>)

  /** `private init()` and `resetWorkout()` both leave this. */
  const Idle := Manager(None, [])

  /** `startWorkout()` */
  function StartWorkoutStep(m: Manager): Manager
  {
    Manager(Some(RouteBuilder([])), [])
  }

  /** `pauseWorkout()` */
  function PauseWorkoutStep(m: Manager): Manager
  {
    m.(routeBuilder := None)
  }

  /** `resumeWorkout()` */
  function ResumeWorkoutStep(m: Manager): Manager
  {
    m.(routeBuilder := Some(RouteBuilder([])))
  }

  lemma BuilderLifecycle(m: Manager)
    ensures StartWorkoutStep(m).routeBuilder == Some(RouteBuilder([])) && StartWorkoutStep(m).workoutRoutes == []
    ensures PauseWorkoutStep(m).routeBuilder == None && PauseWorkoutStep(m).workoutRoutes == m.workoutRoutes
    ensures ResumeWorkoutStep(m).routeBuilder == Some(RouteBuilder([]))
    ensures ResumeWorkoutStep(m).workoutRoutes == m.workoutRoutes
  {
  }

  /** The HealthKit calls and state changes `saveWorkout` and `savePartialRoute` can make, in order. */
  datatype Step =
    | SaveWorkoutCall(workout: Workout)
    | InsertRouteDataCall(locations: seq<Location>)
    | FinishRouteCall
    | AppendRoute(route: WorkoutRoute)
    | AddRouteCall(route: WorkoutRoute)
    | ResetCall

  /** The record `saveWorkout` builds: kilometres become metres. */
  function MakeWorkout(startDate: real, endDate: real, duration: real, calories: real, distance: real): (w: Workout)
    ensures w.distanceMeters == distance * 1000.0
    ensures w.energyKcal == calories && w.duration == duration
    ensures w.start == startDate && w.end == endDate
  {
    Workout(startDate, endDate, duration, calories, distance * 1000.0)
  }

  lemma MakeWorkoutRoundTrip(startDate: real, endDate: real, duration: real, calories: real, distance: real)
    ensures MakeWorkout(startDate, endDate, duration, calories, distance).distanceMeters / 1000.0 == distance
  {
  }

  /** HealthKit's answers to the calls of one `saveWorkout`. */
  datatype Outcomes = Outcomes(workoutSaved: bool, routeInserted: bool, routeFinished: bool, routeAdded: bool)

  datatype Saved = Saved(steps: seq<Step>, completion: bool, after: Manager)

  /** `saveWorkout(...)`: the calls made, what `completion` reports, and the manager afterwards. */
  function SaveWorkoutFlow(m: Manager, startDate: real, endDate: real, duration: real,
                       calories: real, distance: real, locations: seq<Location>, o: Outcomes): Saved
  {
    var workout := MakeWorkout(startDate, endDate, duration, calories, distance);
    if !o.workoutSaved then
      Saved([SaveWorkoutCall(workout), ResetCall], false, Idle)
    else if m.routeBuilder.None? || locations == [] then
      Saved([SaveWorkoutCall(workout), ResetCall], true, Idle)
    else
      var builder := m.routeBuilder.value;
      var filled := if o.routeInserted then RouteBuilder(builder.inserted + locations) else builder;
      var head := [SaveWorkoutCall(workout), InsertRouteDataCall(locations), FinishRouteCall];
      if !o.routeFinished then
        Saved(head + [ResetCall], false, Idle)
      else
        var route := WorkoutRoute(filled.inserted);
        Saved(head + [AppendRoute(route), AddRouteCall(route), ResetCall], o.routeAdded, Idle)
  }

  /** Whenever `completion` fires, the builder is gone and no routes are held. */
  lemma SaveAlwaysResets(m: Manager, startDate: real, endDate: real, duration: real,
                         calories: real, distance: real, locations: seq<Location>, o: Outcomes)
    ensures var r := SaveWorkoutFlow(m, startDate, endDate, duration, calories, distance, locations, o);
      r.after == Idle && r.steps[|r.steps| - 1] == ResetCall
  {
  }

  /** The save is always the first call, and it carries the record. */
  lemma SaveCallsFirst(m: Manager, startDate: real, endDate: real, duration: real,
                       calories: real, distance: real, locations: seq<Location>, o: Outcomes)
    ensures var r := SaveWorkoutFlow(m, startDate, endDate, duration, calories, distance, locations, o);
      r.steps[0] == SaveWorkoutCall(MakeWorkout(startDate, endDate, duration, calories, distance))
  {
  }

  /** A failed save reports false and attempts nothing on the route. */
  lemma FailedSaveStops(m: Manager, startDate: real, endDate: real, duration: real,
                        calories: real, distance: real, locations: seq<Location>, o: Outcomes)
    requires !o.workoutSaved
    ensures var r := SaveWorkoutFlow(m, startDate, endDate, duration, calories, distance, locations, o);
      !r.completion &&
      forall i :: 0 <= i < |r.steps| ==>
        !r.steps[i].InsertRouteDataCall? && !r.steps[i].FinishRouteCall? && !r.steps[i].AddRouteCall?
  {
  }

  /** Saved, with no builder or no fixes: reports true without touching the route. */
  lemma SavedWithoutRoute(m: Manager, startDate: real, endDate: real, duration: real,
                          calories: real, distance: real, locations: seq<Location>, o: Outcomes)
    requires o.workoutSaved && (m.routeBuilder.None? || locations == [])
    ensures var r := SaveWorkoutFlow(m, startDate, endDate, duration, calories, distance, locations, o);
      r.completion && |r.steps| == 2
  {
  }

  /**
   * With a builder and fixes: a failed insert is only logged (finishRoute
   * still runs); no route means false; otherwise the route is appended and
   * `completion` is the add's outcome.
   */
  lemma SavedWithRoute(m: Manager, startDate: real, endDate: real, duration: real,
                       calories: real, distance: real, locations: seq<Location>, o: Outcomes)
    requires o.workoutSaved && m.routeBuilder.Some? && locations != []
    ensures var r := SaveWorkoutFlow(m, startDate, endDate, duration, calories, distance, locations, o);
      r.steps[1] == InsertRouteDataCall(locations) && r.steps[2] == FinishRouteCall &&
      (!o.routeFinished ==> !r.completion && |r.steps| == 4) &&
      (o.routeFinished ==>
        (r.completion == o.routeAdded && |r.steps| == 6 && r.steps[3].AppendRoute? &&
         r.steps[4] == AddRouteCall(r.steps[3].route) &&
         r.steps[3].route.points ==
           (if o.routeInserted then m.routeBuilder.value.inserted + locations else m.routeBuilder.value.inserted)))
  {
  }

  /** So `completion` is true exactly on these paths. */
  lemma CompletionTable(m: Manager, startDate: real, endDate: real, duration: real,
                        calories: real, distance: real, locations: seq<Location>, o: Outcomes)
    ensures SaveWorkoutFlow(m, startDate, endDate, duration, calories, distance, locations, o).completion
      <==> o.workoutSaved &&
           (m.routeBuilder.None? || locations == [] || (o.routeFinished && o.routeAdded))
  {
  }

  datatype Partial = Partial(completion: bool, inserted: bool, after: Manager)

  /** `savePartialRoute(locations:)` */
  function SavePartialRouteFlow(m: Manager, locations: seq<Location>, insertSucceeded: bool): Partial
  {
    if m.routeBuilder.None? || locations == [] then Partial(false, false, m)
    else
      var filled := if insertSucceeded
                    then RouteBuilder(m.routeBuilder.value.inserted + locations)
                    else m.routeBuilder.value;
      Partial(insertSucceeded, true, m.(routeBuilder := Some(filled)))
  }

  lemma PartialRouteGuard(m: Manager, locations: seq<Location>, insertSucceeded: bool)
    ensures var r := SavePartialRouteFlow(m, locations, insertSucceeded);
      (m.routeBuilder.None? || locations == [] ==> !r.completion && !r.inserted && r.after == m) &&
      (m.routeBuilder.Some? && locations != [] ==> r.inserted && r.completion == insertSucceeded) &&
      r.after.workoutRoutes == m.workoutRoutes
  {
  }

  /**
   * What a pause and resume do to the final route: fixes handed to
   * `savePartialRoute` before the pause are not in it.
   */
  lemma ResumeDropsEarlierFixes(early: seq<Location>, late: seq<Location>, o: Outcomes,
                                startDate: real, endDate: real, duration: real, calories: real, distance: real)
    requires early != [] && late != []
    requires o.workoutSaved && o.routeInserted && o.routeFinished
    ensures var m := ResumeWorkoutStep(PauseWorkoutStep(SavePartialRouteFlow(StartWorkoutStep(Idle), early, true).after));
      var r := SaveWorkoutFlow(m, startDate, endDate, duration, calories, distance, late, o);
      r.steps[3] == AppendRoute(WorkoutRoute(late))
  {
    var m := ResumeWorkoutStep(PauseWorkoutStep(SavePartialRouteFlow(StartWorkoutStep(Idle), early, true).after));
    assert m.routeBuilder == Some(RouteBuilder([]));
    assert [] + late == late;
  }

  // ---------------------------------------------------------------------------
  // The class

  /** HealthKitManager; the `shared` singleton is one object of this class. */
  class HealthKitManager {
    var routeBuilder: Option<RouteBuilder>
    var workoutRoutes: seq<WorkoutRoute>

    function State(): Manager
      reads this
    {
      Manager(routeBuilder, workoutRoutes)
    }

    constructor ()
      ensures State() == Idle
    {
      routeBuilder := None;
      workoutRoutes := [];
    }

    method StartWorkout()
      modifies this
      ensures State() == StartWorkoutStep(old(State()))
    {
      routeBuilder := Some(RouteBuilder([]));
      workoutRoutes := [];
    }

    method PauseWorkout()
      modifies this
      ensures State() == PauseWorkoutStep(old(State()))
    {
      routeBuilder := None;
    }

    method ResumeWorkout()
      modifies this
      ensures State() == ResumeWorkoutStep(old(State()))
    {
      routeBuilder := Some(RouteBuilder([]));
    }

    method ResetWorkout()
      modifies this
      ensures State() == Idle
    {
      routeBuilder := None;
      workoutRoutes := [];
    }

    method SavePartialRoute(locations: seq<Location>, insertSucceeded: bool) returns (completion: bool)
      modifies this
      ensures var r := SavePartialRouteFlow(old(State()), locations, insertSucceeded);
        completion == r.completion && State() == r.after
    {
      if routeBuilder.None? || locations == [] {
        return false;
      }
      if insertSucceeded {
        routeBuilder := Some(RouteBuilder(routeBuilder.value.inserted + locations));
      }
      completion := insertSucceeded;
    }

    method SaveWorkout(startDate: real, endDate: real, duration: real, calories: real,
                       distance: real, locations: seq<Location>, o: Outcomes)
      returns (completion: bool, steps: seq<Step>)
      modifies this
      ensures var r := SaveWorkoutFlow(old(State()), startDate, endDate, duration, calories, distance, locations, o);
        completion == r.completion && steps == r.steps && State() == r.after
    {
      var workout := Workout(startDate, endDate, duration, calories, distance * 1000.0);
      steps := [SaveWorkoutCall(workout)];
      if o.workoutSaved {
        if routeBuilder.Some? && locations != [] {
          var builder := routeBuilder.value;
          steps := steps + [InsertRouteDataCall(locations)];
          if o.routeInserted {
            builder := RouteBuilder(builder.inserted + locations);
          }
          steps := steps + [FinishRouteCall];
          if o.routeFinished {
            var route := WorkoutRoute(builder.inserted);
            workoutRoutes := workoutRoutes + [route];
            steps := steps + [AppendRoute(route), AddRouteCall(route)];
            ResetWorkout();
            steps := steps + [ResetCall];
            completion := o.routeAdded;
          } else {
            ResetWorkout();
            steps := steps + [ResetCall];
            completion := false;
          }
        } else {
          ResetWorkout();
          steps := steps + [ResetCall];
          completion := true;
        }
      } else {
        ResetWorkout();
        steps := steps + [ResetCall];
        completion := false;
      }
    }
  }
}
