# melonRunner — a Dafny model of the run-tracking core

melonRunner is an iOS running app written in Swift. It records a run on a map.
Along the way it keeps:

- a pausable stopwatch (`RunTimer`);
- a shared run record (`RunManager`) with the flags, the location fixes, the
  distance and the calories;
- the calorie total, fed from the HealthKit "active energy" statistics.

When the run is over, the app stores it in HealthKit (`HealthKitManager`). The
history screen frames each stored route on a small map (`RunHistoryCell`). A
weather widget maps OpenWeather icon codes to SF Symbols names.

The project models the logic of the following, and proves properties of it.

- `Scenes/Map/RunTimer.swift` is the `Timing` module: the `RunTimer` class over
  a pure `TimerState`, with trace lemmas about pause and resume.
- `Scenes/Map/RunManager.swift` is the `RunState` module: the shared run record.
- `Scenes/Map/MapViewController.swift` is the `MapScene` module: the run screen
  that drives `RunManager` and `RunTimer`. It also uses `EnergyFeed`, the fold
  over HealthKit statistics that never lowers the calorie total.
- The top-level `MapViewController.swift` is the `LegacyMap` module: an older
  run screen that keeps its own start and pause times instead of using
  `RunTimer`.
- `Helpers/AppManagers/HealthKitManager.swift` is the `Workouts` module: the
  route-builder lifecycle and the save chain in `saveWorkout`.
- `Run.swift` is the `RunSummary` module: the `HH:MM:SS` split of a duration
  and the `MM:SS` split of a pace.
- `RunHistoryCell.swift` is the `HistoryCell` module: `region(for:)` and
  `setupMapRoute`.
- `WeatherViewModel.swift` and `WeatherResponse.swift` are the `WeatherIcons`
  and `WeatherData` modules.
- `CoreLocation` holds the coordinate, location and route-length definitions
  the others share. `Wrappers` holds `Option`.

Each class whose fields the Swift code mutates is a Dafny `class` with the same
fields. Each of its methods is proved to leave the object in the state that a
pure step function (`Timing.Pause`, `MapScene.StopRunStep`, ...) gives for the
old state. Multi-step properties, such as pause/resume
additivity or "the distance is always the length of the recorded route", are
proved as lemmas over replayed event sequences of those pure functions. Each
event stands for one callback, and each callback runs atomically.

Some notes on how the Swift code is modelled:

- Time is `real` seconds. `Date()` becomes a `now` parameter of the operation
  that reads it.
- `CLLocation.distance(from:)` becomes a `Metric` parameter. It may be any
  function that never returns a negative value.
- HealthKit results become parameters: the bucket sums of a statistics
  collection, the sum a statistics query returns, and whether each HealthKit
  call succeeded.
- Swift's truncating `Int(x)`, `/` and `%` are written out as `Trunc`, `Quot`
  and `Rem`. Dafny's own operators are Euclidean, so they cannot be used
  directly.

In `Scenes/Map/MapViewController.swift`, `startRun` (lines 351-364) resets the
run record but never calls `runTimer.startTimer()`. The timer starts only on
the first resume after a pause. The model keeps this behaviour as written.
`MapScene.FirstSegmentNotTimed` shows the consequence: after start, pause at `p`,
resume at `r` and a tick at `t`, the timer shows `t - r`, and the first segment
is not counted. `MapScene.StartRunWithoutQuery` shows that for the same reason
no calorie query is created when no earlier timer start is pending.

The history cell and the HealthKit save chain are modelled as the code does
them. The code does not do the following, so the model does not either:

- discard out-of-order fixes;
- bridge the gap after a resume with a zero-length leg (in the code, the first
  fix after a resume is measured from the last fix before the pause);
- estimate calories from body weight during a run.

## Model

| member | source | states |
|---|---|---|
| CoreLocation.Coordinates | melonRunnerUIKit/Scenes/Map/MapViewController.swift:534 | the route's coordinates, one per fix, in order |
| CoreLocation.RouteLengthAppend | melonRunnerUIKit/Scenes/Map/MapViewController.swift:537-540 | appending a fix to a route of at least one fix lengthens it by the new leg in kilometres; a first fix adds nothing |
| CoreLocation.RouteLengthNonNegative | melonRunnerUIKit/Scenes/Map/MapViewController.swift:537-540 | a route's summed leg length is never negative |
| Timing.RunTimer.constructor | melonRunnerUIKit/Scenes/Map/RunTimer.swift:15-21 | a new timer is not ticking, has no start time and has zero accumulated and total time |
| Timing.RunTimer.StartTimer | melonRunnerUIKit/Scenes/Map/RunTimer.swift:23-29 | when no timer is scheduled, the timer is scheduled and startTime becomes now; otherwise nothing changes; a timer scheduled exactly when a start time is set stays so |
| Timing.RunTimer.StopTimer | melonRunnerUIKit/Scenes/Map/RunTimer.swift:31-38 | the timer is cancelled, startTime and accumulatedTime are cleared, totalTime is kept; a timer scheduled exactly when a start time is set stays so |
| Timing.RunTimer.PauseTimer | melonRunnerUIKit/Scenes/Map/RunTimer.swift:40-51 | the open segment (now - startTime) is added to accumulatedTime, then the timer and startTime are cleared; a timer scheduled exactly when a start time is set stays so |
| Timing.RunTimer.UpdateTimer | melonRunnerUIKit/Scenes/Map/RunTimer.swift:53-60 | with a start time, totalTime becomes now - startTime + accumulatedTime; without one, nothing changes; a timer scheduled exactly when a start time is set stays so |
| Timing.StartWhileTickingIsNoop | melonRunnerUIKit/Scenes/Map/RunTimer.swift:23-29 | startTimer on a running timer leaves the whole state unchanged |
| Timing.StartWhileIdle | melonRunnerUIKit/Scenes/Map/RunTimer.swift:24-26 | startTimer on an idle timer makes it tick from now and keeps the accumulated and total time |
| Timing.PauseFoldsSegment | melonRunnerUIKit/Scenes/Map/RunTimer.swift:40-51 | pausing adds exactly the open segment (nothing without a start time), stops the timer, and keeps the elapsed time at the pause instant |
| Timing.StopResets | melonRunnerUIKit/Scenes/Map/RunTimer.swift:31-38 | stopping gives the initial state except for totalTime, and the elapsed time afterwards is zero at any instant |
| Timing.UpdateReadsElapsed | melonRunnerUIKit/Scenes/Map/RunTimer.swift:53-60 | a tick sets totalTime to the elapsed time and touches nothing else; without a start time it is a no-op |
| Timing.ValidPreserved | melonRunnerUIKit/Scenes/Map/RunTimer.swift:23-51 | starting from a state where a timer is scheduled exactly when a start time is set, every sequence of calls keeps it so |
| Timing.ClosedSegmentsAccumulate | melonRunnerUIKit/Scenes/Map/RunTimer.swift:23-51 | start/pause pairs add exactly the summed lengths of their segments to accumulatedTime, whatever the gaps in between |
| Timing.PauseResumeAdditivity | melonRunnerUIKit/Scenes/Map/RunTimer.swift:23-60 | after any closed segments, a start at r and a tick at t show the closed segments' total plus t - r; pauses do not count |
| Timing.OnePauseAdditivity | melonRunnerUIKit/Scenes/Map/RunTimer.swift:23-60 | start s, pause p, start r, tick t shows (p - s) + (t - r) |
| Timing.DoubleStartIsIdempotent | melonRunnerUIKit/Scenes/Map/RunTimer.swift:23-29 | a second startTimer before any pause does not move the baseline |
| Timing.AccumulatedNeverDecreases | melonRunnerUIKit/Scenes/Map/RunTimer.swift:40-51 | with a clock that never runs backwards, accumulatedTime never decreases along a trace without stopTimer |
| RunState.RunManager.constructor | melonRunnerUIKit/Scenes/Map/RunManager.swift:13-21 | a new record is not running, not paused, has no start time, no fixes, and zero time, distance and calories |
| EnergyFeed.FoldStatistics | melonRunnerUIKit/Scenes/Map/MapViewController.swift:454-462 | the loop over the buckets gives the current total raised to the largest positive bucket sum |
| EnergyFeed.ReconciledIsLeastUpperBound | melonRunnerUIKit/Scenes/Map/MapViewController.swift:454-462 | the fold is at least the current total and every positive sum, and it equals the current total or one of the positive sums |
| EnergyFeed.IgnoresNonPositive | melonRunnerUIKit/Scenes/Map/MapViewController.swift:456-460 | a bucket with no sum or a sum of at most zero does not change the fold |
| MapScene.Speed | melonRunnerUIKit/Scenes/Map/MapViewController.swift:416-420 | speed is 0 when the time is not positive; otherwise speed × time = distance × 3600 (km/h), and it is never negative for a non-negative distance |
| MapScene.StartRunResets | melonRunnerUIKit/Scenes/Map/MapViewController.swift:351-364 | starting a run sets running and not paused, clears the fixes, distance and calories, leaves the timer untouched, and creates a calorie query only if the timer has a start time |
| MapScene.PauseRunToggles | melonRunnerUIKit/Scenes/Map/MapViewController.swift:366-381 | the pause flag flips; entering a pause pauses the timer, leaving one starts it |
| MapScene.StopRunClearsFlags | melonRunnerUIKit/Scenes/Map/MapViewController.swift:383-393 | stopping clears both flags, stops the timer and drops the calorie query, and keeps fixes, distance and calories |
| MapScene.LocationGate | melonRunnerUIKit/Scenes/Map/MapViewController.swift:514-546 | a fix is recorded only while running and not paused; otherwise, or with an empty batch, nothing changes; a recorded fix is the batch's last one and the coordinates are rebuilt from all fixes |
| MapScene.LocationDistanceGrows | melonRunnerUIKit/Scenes/Map/MapViewController.swift:531-541 | a recorded fix never lowers the distance, and it adds the new leg in kilometres once there are two fixes |
| MapScene.UpdateCaloriesNeverLowers | melonRunnerUIKit/Scenes/Map/MapViewController.swift:450-468 | a statistics update never lowers the calories, and with a collection and a timer start it reaches every positive bucket sum |
| MapScene.FetchCaloriesOverwrites | melonRunnerUIKit/Scenes/Map/MapViewController.swift:483-490 | the final query's sum replaces the calories, even when it is lower |
| MapScene.StopThenFetchWindowIsEmpty | melonRunnerUIKit/Scenes/Map/MapViewController.swift:383-390 | stopRun stops the timer before fetchCalories reads its start time, so the final query window is [now, now] |
| MapScene.FirstSegmentNotTimed | melonRunnerUIKit/Scenes/Map/MapViewController.swift:351-379 | start, pause at p, resume at r and a tick at t show t - r: the segment before the first pause is not timed |
| MapScene.StartRunWithoutQuery | melonRunnerUIKit/Scenes/Map/MapViewController.swift:422-448 | when the timer has no start time, starting a run creates no calorie query and a statistics update after it leaves the calories at zero |
| MapScene.PauseResumeAdditivity | melonRunnerUIKit/Scenes/Map/MapViewController.swift:366-379 | from a running timer started at s, pausing at p, resuming at r and ticking at t show (p - s) + (t - r) |
| MapScene.StepKeepsAccounted | melonRunnerUIKit/Scenes/Map/MapViewController.swift:514-546 | every screen event keeps totalDistance equal to the length of the recorded route |
| MapScene.AccountedAlong | melonRunnerUIKit/Scenes/Map/MapViewController.swift:531-541 | that equality survives any sequence of events |
| MapScene.DistanceIsRouteLength | melonRunnerUIKit/Scenes/Map/MapViewController.swift:531-541 | from launch, after any events, the distance shown is the route length of the recorded fixes |
| MapScene.RouteOnlyGrows | melonRunnerUIKit/Scenes/Map/MapViewController.swift:531-541 | without a new start, the recorded fixes only grow by appending and the distance never decreases |
| MapScene.MapViewController.constructor | melonRunnerUIKit/Scenes/Map/MapViewController.swift:41-53 | the screen shares the given RunManager and RunTimer and starts with no route and no calorie query |
| MapScene.MapViewController.StartCalorieUpdates | melonRunnerUIKit/Scenes/Map/MapViewController.swift:422-448 | a query is created only when the timer has a start time and none exists yet |
| MapScene.MapViewController.StartRun | melonRunnerUIKit/Scenes/Map/MapViewController.swift:351-364 | the record is reset to a fresh running run, then calorie updates are started |
| MapScene.MapViewController.PauseRun | melonRunnerUIKit/Scenes/Map/MapViewController.swift:366-381 | the pause flag flips and the shared timer is paused or started accordingly |
| MapScene.MapViewController.StopRun | melonRunnerUIKit/Scenes/Map/MapViewController.swift:383-393 | the timer is stopped, both flags are cleared and the calorie query is dropped |
| MapScene.MapViewController.DidUpdateLocations | melonRunnerUIKit/Scenes/Map/MapViewController.swift:514-546 | while running and not paused, the last fix is appended, the coordinates are rebuilt and the new leg is added to the distance |
| MapScene.MapViewController.UpdateCalories | melonRunnerUIKit/Scenes/Map/MapViewController.swift:450-468 | with a collection and a timer start, the calories become the fold over the buckets |
| MapScene.MapViewController.FetchCalories | melonRunnerUIKit/Scenes/Map/MapViewController.swift:477-493 | a returned sum overwrites the calories; no sum changes nothing |
| LegacyMap.TimerLabel | melonRunnerUIKit/MapViewController.swift:224-231 | without a start time there is no label; otherwise the label's h × 3600 + m × 60 + s is the truncated elapsed time |
| LegacyMap.StartRunResets | melonRunnerUIKit/MapViewController.swift:179-194 | starting sets running from now with zero accumulated time, no fixes, no route, zero distance and calories, creates the calorie query, and keeps the stale pause time |
| LegacyMap.EnteringPauseRecordsTime | melonRunnerUIKit/MapViewController.swift:196-202 | entering a pause records now as the pause time and changes nothing else |
| LegacyMap.LeavingPauseFoldsSegment | melonRunnerUIKit/MapViewController.swift:203-206 | leaving a pause adds pauseTime - startTime to the accumulated time and restarts the clock at now |
| LegacyMap.LeavingPauseWithoutPauseTime | melonRunnerUIKit/MapViewController.swift:203-204 | leaving a pause with no recorded pause time flips only the flag |
| LegacyMap.StopRunKeepsMeasurements | melonRunnerUIKit/MapViewController.swift:214-222 | stopping clears both flags and the query, and keeps the times, fixes, distance and calories |
| LegacyMap.LocationGate | melonRunnerUIKit/MapViewController.swift:304-335 | a fix is recorded only while running and not paused, and then the coordinates are rebuilt from all fixes; the distance never decreases |
| LegacyMap.CaloriesNeverLowered | melonRunnerUIKit/MapViewController.swift:261-277 | a statistics update never lowers the calories |
| LegacyMap.FetchWindowStartsAtLastResume | melonRunnerUIKit/MapViewController.swift:286-290 | after a pause and resume, the final query starts at the resume time, not at the start of the run |
| LegacyMap.PauseResumeAdditivity | melonRunnerUIKit/MapViewController.swift:196-206 | pausing at p and resuming at r, then showing at t, gives the elapsed time at p plus t - r |
| LegacyMap.StartPauseResumeElapsed | melonRunnerUIKit/MapViewController.swift:179-231 | start s, pause p, resume r and a label at t show (p - s) + (t - r) |
| LegacyMap.ElapsedExcludesBreaks | melonRunnerUIKit/MapViewController.swift:196-226 | after any sequence of pause/resume pairs, the elapsed time is the wall time minus the summed breaks |
| LegacyMap.StepKeepsAccounted | melonRunnerUIKit/MapViewController.swift:304-335 | every screen event keeps the distance equal to the route length and the coordinates equal to the fixes' coordinates |
| LegacyMap.AccountedAlong | melonRunnerUIKit/MapViewController.swift:320-330 | those equalities survive any sequence of events |
| LegacyMap.DistanceIsRouteLength | melonRunnerUIKit/MapViewController.swift:320-330 | from a loaded screen, after any events, the distance is the route length and the route overlay is exactly the fixes' coordinates |
| LegacyMap.MapViewController.constructor | melonRunnerUIKit/MapViewController.swift:36-46 | a loaded screen is not running, has no times, no fixes, no route, zero counters and no query |
| LegacyMap.MapViewController.StartCalorieUpdates | melonRunnerUIKit/MapViewController.swift:233-259 | a query is created only with a start time and when none exists yet |
| LegacyMap.MapViewController.StartRun | melonRunnerUIKit/MapViewController.swift:179-194 | the screen is reset to a run started now, then calorie updates start |
| LegacyMap.MapViewController.PauseRun | melonRunnerUIKit/MapViewController.swift:196-212 | entering a pause records now; leaving one folds the segment and restarts the clock, or only flips the flag without a pause time |
| LegacyMap.MapViewController.StopRun | melonRunnerUIKit/MapViewController.swift:214-222 | both flags and the query are cleared |
| LegacyMap.MapViewController.UpdateTimer | melonRunnerUIKit/MapViewController.swift:224-231 | the label splits the truncated elapsed time into hours, minutes under 60 and seconds under 60, and the screen state is unchanged |
| LegacyMap.MapViewController.DidUpdateLocations | melonRunnerUIKit/MapViewController.swift:304-335 | while running and not paused, the last fix is appended, the coordinates are rebuilt and the new leg is added |
| LegacyMap.MapViewController.UpdateCalories | melonRunnerUIKit/MapViewController.swift:261-277 | with a collection and a start time, the calories become the fold over the buckets |
| LegacyMap.MapViewController.FetchCalories | melonRunnerUIKit/MapViewController.swift:286-302 | a returned sum overwrites the calories |
| Workouts.BuilderLifecycle | melonRunnerUIKit/Helpers/AppManagers/HealthKitManager.swift:68-79 | start makes a fresh builder and clears the routes, pause drops the builder, resume makes a fresh builder and keeps the routes |
| Workouts.MakeWorkout | melonRunnerUIKit/Helpers/AppManagers/HealthKitManager.swift:107-116 | the workout carries the given dates and duration, the calories in kcal and the distance converted from km to metres |
| Workouts.MakeWorkoutRoundTrip | melonRunnerUIKit/Helpers/AppManagers/HealthKitManager.swift:113 | the distance stored in metres, divided by 1000, gives back the kilometres passed in |
| Workouts.SaveAlwaysResets | melonRunnerUIKit/Helpers/AppManagers/HealthKitManager.swift:119-162 | every outcome of saveWorkout ends with no builder and no routes |
| Workouts.SaveCallsFirst | melonRunnerUIKit/Helpers/AppManagers/HealthKitManager.swift:119 | the first HealthKit call is always the save of the workout |
| Workouts.FailedSaveStops | melonRunnerUIKit/Helpers/AppManagers/HealthKitManager.swift:155-160 | when the save fails, nothing else is called and the completion is false |
| Workouts.SavedWithoutRoute | melonRunnerUIKit/Helpers/AppManagers/HealthKitManager.swift:149-153 | a saved workout with no builder or no fixes completes true after only the save and the reset |
| Workouts.SavedWithRoute | melonRunnerUIKit/Helpers/AppManagers/HealthKitManager.swift:122-147 | with a builder and fixes, the fixes are inserted and the route finished whatever the insert gives; the route is added only when finishing gives one |
| Workouts.CompletionTable | melonRunnerUIKit/Helpers/AppManagers/HealthKitManager.swift:119-162 | completion is true exactly when the save succeeds and either no route is saved or it is finished and added |
| Workouts.PartialRouteGuard | melonRunnerUIKit/Helpers/AppManagers/HealthKitManager.swift:81-95 | without a builder or with no fixes the completion is false and nothing is inserted; otherwise the fixes are inserted and the completion is the insert's result |
| Workouts.ResumeDropsEarlierFixes | melonRunnerUIKit/Helpers/AppManagers/HealthKitManager.swift:77-79 | fixes inserted before a pause/resume are not in the route saved afterwards |
| Workouts.HealthKitManager.constructor | melonRunnerUIKit/Helpers/AppManagers/HealthKitManager.swift:15-19 | a new manager has no builder and no routes |
| Workouts.HealthKitManager.StartWorkout | melonRunnerUIKit/Helpers/AppManagers/HealthKitManager.swift:68-71 | a fresh empty builder, and the routes are cleared |
| Workouts.HealthKitManager.PauseWorkout | melonRunnerUIKit/Helpers/AppManagers/HealthKitManager.swift:73-75 | the builder is dropped |
| Workouts.HealthKitManager.ResumeWorkout | melonRunnerUIKit/Helpers/AppManagers/HealthKitManager.swift:77-79 | a fresh empty builder, and the routes are kept |
| Workouts.HealthKitManager.ResetWorkout | melonRunnerUIKit/Helpers/AppManagers/HealthKitManager.swift:165-168 | no builder and no routes |
| Workouts.HealthKitManager.SavePartialRoute | melonRunnerUIKit/Helpers/AppManagers/HealthKitManager.swift:81-95 | the guard, the insert into the current builder and the completion value |
| Workouts.HealthKitManager.SaveWorkout | melonRunnerUIKit/Helpers/AppManagers/HealthKitManager.swift:97-163 | the calls made, the completion and the final reset for the given HealthKit outcomes |
| RunSummary.Trunc | melonRunnerUIKit/Scenes/Home/HistoryTable/Run.swift:37 | Int(x) truncates toward zero: floor for x ≥ 0 and ceiling for x < 0 |
| RunSummary.Rem | melonRunnerUIKit/Scenes/Home/HistoryTable/Run.swift:38-39 | Swift's %: a = b × (a / b) + r, with r taking the sign of a and \|r\| < \|b\| |
| RunSummary.DurationParts | melonRunnerUIKit/Scenes/Home/HistoryTable/Run.swift:36-41 | h × 3600 + m × 60 + s equals Int(duration); for a non-negative duration 0 ≤ m, s < 60 and h ≥ 0, and for a negative one all three are ≤ 0 and above -60 for m and s |
| RunSummary.FormattedPace | melonRunnerUIKit/Scenes/Home/HistoryTable/Run.swift:43-51 | a negative pace gives the placeholder; otherwise minutes is the whole part of the pace, 0 ≤ seconds < 60, and minutes × 60 + seconds is the pace in seconds rounded down |
| HistoryCell.BoundsContain | melonRunnerUIKit/Scenes/Home/HistoryTable/RunHistoryCell.swift:151-161 | every coordinate lies inside the computed bounds |
| HistoryCell.BoundsAttained | melonRunnerUIKit/Scenes/Home/HistoryTable/RunHistoryCell.swift:151-161 | each bound is either its initial value or a coordinate of the route |
| HistoryCell.ExactBoundsOnEarth | melonRunnerUIKit/Scenes/Home/HistoryTable/RunHistoryCell.swift:151-161 | for a non-empty route of valid coordinates, each bound is attained by some coordinate |
| HistoryCell.RegionFitsRoute | melonRunnerUIKit/Scenes/Home/HistoryTable/RunHistoryCell.swift:163-171 | for a non-empty route the region's centre lies inside the bounds, its spans are non-negative, and the region covers every coordinate |
| HistoryCell.RegionFor | melonRunnerUIKit/Scenes/Home/HistoryTable/RunHistoryCell.swift:150-174 | the loop's min/max bounds give the midpoint centre and 1.2 × span region of the route |
| HistoryCell.SetupMapRoute | melonRunnerUIKit/Scenes/Home/HistoryTable/RunHistoryCell.swift:131-148 | the map is hidden exactly when there are fewer than two coordinates; otherwise it shows the whole route in its fitted region, and that region covers every coordinate |
| WeatherIcons.SymbolCount | melonRunnerUIKit/Scenes/Widget/WeatherViewModel.swift:34-50 | the symbols the table can produce are 12 distinct names |
| WeatherIcons.CodeCount | melonRunnerUIKit/Scenes/Widget/WeatherViewModel.swift:35-47 | the table recognises 18 distinct codes, a day and a night code for each of nine groups |
| WeatherIcons.EverySymbolReached | melonRunnerUIKit/Scenes/Widget/WeatherViewModel.swift:35-47 | every one of the 12 symbols is what some listed code maps to |
| WeatherIcons.AlwaysAListedSymbol | melonRunnerUIKit/Scenes/Widget/WeatherViewModel.swift:34-50 | every code, recognised or not, maps to one of those symbols |
| WeatherIcons.UnlistedIsSun | melonRunnerUIKit/Scenes/Widget/WeatherViewModel.swift:48 | an unrecognised code shows "sun.max.fill" |
| WeatherIcons.DayEqualsNight | melonRunnerUIKit/Scenes/Widget/WeatherViewModel.swift:40-47 | for condition groups 03, 04, 09, 11, 13 and 50, the day and night codes show the same symbol |
| WeatherIcons.DayDiffersFromNight | melonRunnerUIKit/Scenes/Widget/WeatherViewModel.swift:36-44 | for condition groups 01, 02 and 10, the day and night codes show different symbols |
| WeatherIcons.IconForResponse | melonRunnerUIKit/Scenes/Widget/WeatherViewModel.swift:26 | the widget icon is the symbol of the first weather entry's code, and the sun symbol when there is none |
| WeatherData.SunsetDate | melonRunnerUIKit/Scenes/Widget/WeatherResponse.swift:33-35 | the sunset date is the Unix time sys.sunset in seconds |
| WeatherData.SunriseDate | melonRunnerUIKit/Scenes/Widget/WeatherResponse.swift:37-39 | the sunrise date is the Unix time sys.sunrise in seconds |
| WeatherData.RussianName | melonRunnerUIKit/Scenes/Widget/WeatherResponse.swift:49-51 | the "ru" local name when the map exists and has one; otherwise the place name |

## Left out

- User interface: labels, buttons, number and string formatting, map overlays, annotations and the camera. These are outside the logic being modelled. `FormattedDuration` and `FormattedPace` stop at the numbers that are formatted; `String(format:)` itself is not modelled.
- `updateTimer` in `Scenes/Map/MapViewController.swift` (lines 395-414): the method as written does not compile, because it uses names before declaring them and closes its body early. No behaviour can be assigned to it. `MapScene.Speed` models `updateSpeed`, the part it would call.
- `restoreRunState`, `updateUI` and `updateButtons` only reschedule the screen timer, restart location updates and redraw.
- `Timer` scheduling and the one-second ticks become explicit tick events. `DispatchQueue.main.async` hops and HealthKit callbacks are treated as atomic steps that run in the order given, so interleavings are not modelled.
- `[weak self]` with a released screen: the model assumes the screen is still alive when a callback runs.
- `locationManager.startUpdatingLocation` and `stopUpdatingLocation`: the location plumbing is left out. Only the `isRunning && !isPaused` gate decides whether a fix is recorded.
- `CLLocation.distance(from:)`: the geodesic formula is not modelled. It becomes a `Metric` parameter that may be any non-negative function.
- HealthKit query construction, predicates, anchors and `enumerateStatistics(from:to:)`: the buckets inside the window are given as a sequence. `HKObjectType.quantityType(forIdentifier: .activeEnergyBurned)` is assumed never to be nil, because it exists on every supported system.
- `HealthKitManager.requestPermissions`, `fetchUserWeight`, `saveDistanceSample`, `saveCaloriesSample` and the `userWeight` field: these are HealthKit I/O whose results feed nothing in the modelled core.
- The `shared` singletons and their `private init()`: Dafny has no private constructors, so "only one instance exists" is not expressed. The screens receive the shared objects as constructor arguments instead.
- `Double` is modelled as `real`: rounding, NaN and infinity are not modelled.
- `RunSummary.FormattedPace`: the `pace.isFinite` part of the guard is dropped, because a `real` is always finite. An out-of-range `Int(x)` trap is not modelled either.
- `RunSummary.Trunc`: `Int(x)` on a value beyond the 64-bit range traps in Swift; the model returns the mathematical truncation instead.
- The weather fetch, `NetworkManager`, the temperature and description strings and the widget view are I/O and presentation.
- Error messages printed on HealthKit failures are not modelled.
