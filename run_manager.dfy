/**
 * RunManager: the shared record of the current run that the map screen
 * reads and writes.
 */
module RunState {
  import opened Wrappers
  import opened CoreLocation

  /** The fields of RunManager. */
  datatype RunRecord = RunRecord(
    isRunning: bool,
    isPaused: bool,
    startTime: Option<real>,
    accumulatedTime: real,
    locations: seq<Location>,
    totalDistance: real,
    calories: real)

  /** The record `private init()` leaves. */
  const Fresh := RunRecord(false, false, None, 0.0, [], 0.0, 0.0)

  /** RunManager; the `shared` singleton is one object of this class. */
  class RunManager {
    var isRunning: bool
    var isPaused: bool
    var startTime: Option<real>
    var accumulatedTime: real
    var locations: seq<Location>
    var totalDistance: real
    var calories: real

    function Record(): RunRecord
      reads this
    {
      RunRecord(isRunning, isPaused, startTime, accumulatedTime, locations, totalDistance, calories)
    }

    /** `private init()`: not running, not paused, nothing recorded. */
    constructor ()
      ensures !isRunning && !isPaused
      ensures startTime == None && accumulatedTime == 0.0
      ensures locations == [] && totalDistance == 0.0 && calories == 0.0
      ensures Record() == Fresh
    {
      isRunning, isPaused := false, false;
      startTime, accumulatedTime := None, 0.0;
      locations, totalDistance, calories := [], 0.0, 0.0;
    }
  }
}
