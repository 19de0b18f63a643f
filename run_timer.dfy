/**
 * RunTimer: elapsed-time accounting across pause and resume.
 *
 * `ticking` stands for `timer != nil` (the scheduled 1 s Timer); the Timer's
 * own scheduling is not modelled, each `updateTimer` callback is a step with
 * the clock reading `now` passed in.
 */
module Timing {
  import opened Wrappers

  /** The fields of RunTimer. */
  datatype TimerState = TimerState(
    ticking: bool,
    startTime: Option<real>,
    accumulatedTime: real,
    totalTime: real)

  /** The state `private init()` leaves. */
  const Initial := TimerState(false, None, 0.0, 0.0)

  /** The timer is scheduled exactly when a segment start is recorded. */
  predicate Valid(s: TimerState)
  {
    s.ticking <==> s.startTime.Some?
  }

  /** `startTimer()`: only acts when no timer is scheduled. */
  function Start(s: TimerState, now: real): TimerState
  {
    if s.ticking then s
    else s.(ticking := true, startTime := Some(now))
  }

  /** `stopTimer()` */
  function Stop(s: TimerState): TimerState
  {
    s.(ticking := false, startTime := None, accumulatedTime := 0.0)
  }

  /** `pauseTimer()` */
  function Pause(s: TimerState, now: real): TimerState
  {
    var acc := if s.startTime.Some? then s.accumulatedTime + (now - s.startTime.value)
               else s.accumulatedTime;
    s.(ticking := false, startTime := None, accumulatedTime := acc)
  }

  /** `updateTimer()` */
  function Update(s: TimerState, now: real): TimerState
  {
    if s.startTime.Some? then s.(totalTime := (now - s.startTime.value) + s.accumulatedTime)
    else s
  }

  /** Active time at `now`: what `updateTimer` would compute if called then. */
  function Elapsed(s: TimerState, now: real): real
  {
    if s.startTime.Some? then s.accumulatedTime + (now - s.startTime.value)
    else s.accumulatedTime
  }

  // ---------------------------------------------------------------------------
  // One-step properties

  lemma StartWhileTickingIsNoop(s: TimerState, now: real)
    requires s.ticking
    ensures Start(s, now) == s
  {
  }

  lemma StartWhileIdle(s: TimerState, now: real)
    requires !s.ticking
    ensures Start(s, now).ticking && Start(s, now).startTime == Some(now)
    ensures Start(s, now).accumulatedTime == s.accumulatedTime
    ensures Start(s, now).totalTime == s.totalTime
  {
  }

  lemma PauseFoldsSegment(s: TimerState, now: real)
    ensures s.startTime.Some? ==>
      Pause(s, now).accumulatedTime == s.accumulatedTime + (now - s.startTime.value)
    ensures s.startTime.None? ==> Pause(s, now).accumulatedTime == s.accumulatedTime
    ensures !Pause(s, now).ticking && Pause(s, now).startTime == None
    ensures Pause(s, now).totalTime == s.totalTime
    ensures Elapsed(Pause(s, now), now) == Elapsed(s, now)
  {
  }

  lemma StopResets(s: TimerState, now: real)
    ensures Stop(s) == Initial.(totalTime := s.totalTime)
    ensures Elapsed(Stop(s), now) == 0.0
  {
  }

  lemma UpdateReadsElapsed(s: TimerState, now: real)
    ensures s.startTime.Some? ==> Update(s, now).totalTime == Elapsed(s, now)
    ensures s.startTime.None? ==> Update(s, now) == s
    ensures Update(s, now).startTime == s.startTime
    ensures Update(s, now).accumulatedTime == s.accumulatedTime
  {
  }

  // ---------------------------------------------------------------------------
  // Traces: every callback is one atomic event.

  datatype TimerEvent = StartAt(time: real) | PauseAt(time: real) | TickAt(time: real) | StopNow

  function Apply(s: TimerState, e: TimerEvent): TimerState
  {
    match e
    case StartAt(t) => Start(s, t)
    case PauseAt(t) => Pause(s, t)
    case TickAt(t) => Update(s, t)
    case StopNow => Stop(s)
  }

  function Replay(s: TimerState, events: seq<TimerEvent>): TimerState
    decreases |events|
  {
    if events == [] then s else Replay(Apply(s, events[0]), events[1..])
  }

  lemma {:induction false} ValidPreserved(s: TimerState, events: seq<TimerEvent>)
    requires Valid(s)
    ensures Valid(Replay(s, events))
    decreases |events|
  {
    if events != [] {
      ValidPreserved(Apply(s, events[0]), events[1..]);
    }
  }

  lemma {:induction false} ReplayConcat(s: TimerState, a: seq<TimerEvent>, b: seq<TimerEvent>)
    ensures Replay(s, a + b) == Replay(Replay(s, a), b)
    decreases |a|
  {
    if a != [] {
      assert (a + b)[1..] == a[1..] + b;
      ReplayConcat(Apply(s, a[0]), a[1..], b);
    } else {
      assert a + b == b;
    }
  }

  /** Replaying one event, then the rest. */
  lemma ReplayCons(s: TimerState, e: TimerEvent, rest: seq<TimerEvent>)
    ensures Replay(s, [e] + rest) == Replay(Apply(s, e), rest)
  {
    assert ([e] + rest)[1..] == rest;
  }

  lemma ReplayTwo(s: TimerState, e1: TimerEvent, e2: TimerEvent)
    ensures Replay(s, [e1, e2]) == Apply(Apply(s, e1), e2)
  {
    assert [e1, e2] == [e1] + [e2];
    ReplayCons(s, e1, [e2]);
    assert [e2] == [e2] + [];
    ReplayCons(Apply(s, e1), e2, []);
  }

  /** A completed running segment: started at `from`, paused at `until`. */
  datatype Segment = Segment(from: real, until: real)

  function SegmentEvents(segments: seq<Segment>): seq<TimerEvent>
  {
    if segments == [] then []
    else [StartAt(segments[0].from), PauseAt(segments[0].until)] + SegmentEvents(segments[1..])
  }

  /** Reference definition: the summed length of the completed segments. */
  function TotalDuration(segments: seq<Segment>): real
  {
    if segments == [] then 0.0
    else (segments[0].until - segments[0].from) + TotalDuration(segments[1..])
  }

  /**
   * Closed segments accumulate exactly their summed length, whatever the
   * gaps (pauses) between them.
   */
  lemma {:induction false} ClosedSegmentsAccumulate(s: TimerState, segments: seq<Segment>)
    requires !s.ticking && s.startTime == None
    ensures Replay(s, SegmentEvents(segments))
         == s.(accumulatedTime := s.accumulatedTime + TotalDuration(segments))
    decreases |segments|
  {
    if segments != [] {
      var rest := SegmentEvents(segments[1..]);
      assert SegmentEvents(segments) == [StartAt(segments[0].from)] + ([PauseAt(segments[0].until)] + rest);
      ReplayCons(s, StartAt(segments[0].from), [PauseAt(segments[0].until)] + rest);
      var s0 := Start(s, segments[0].from);
      ReplayCons(s0, PauseAt(segments[0].until), rest);
      var s1 := Pause(s0, segments[0].until);
      assert s1 == s.(accumulatedTime := s.accumulatedTime + (segments[0].until - segments[0].from));
      ClosedSegmentsAccumulate(s1, segments[1..]);
    }
  }

  /**
   * Pause/resume additivity: after the closed segments, a start at `r` and a
   * tick at `t` leave `totalTime` equal to the closed segments' length plus
   * `t - r`; the length of any pause does not enter.
   */
  lemma PauseResumeAdditivity(segments: seq<Segment>, r: real, t: real)
    ensures Replay(Initial, SegmentEvents(segments) + [StartAt(r), TickAt(t)]).totalTime
         == TotalDuration(segments) + (t - r)
  {
    ReplayConcat(Initial, SegmentEvents(segments), [StartAt(r), TickAt(t)]);
    ClosedSegmentsAccumulate(Initial, segments);
    var mid := Replay(Initial, SegmentEvents(segments));
    ReplayTwo(mid, StartAt(r), TickAt(t));
  }

  /** The single-pause instance: start at s, pause at p, start at r, tick at t. */
  lemma OnePauseAdditivity(s: real, p: real, r: real, t: real)
    ensures Replay(Initial, [StartAt(s), PauseAt(p), StartAt(r), TickAt(t)]).totalTime
         == (p - s) + (t - r)
  {
    var segs := [Segment(s, p)];
    assert SegmentEvents(segs[1..]) == [];
    assert SegmentEvents(segs) == [StartAt(s), PauseAt(p)];
    PauseResumeAdditivity(segs, r, t);
    assert SegmentEvents(segs) + [StartAt(r), TickAt(t)] == [StartAt(s), PauseAt(p), StartAt(r), TickAt(t)];
  }

  /** A second `startTimer` without a pause in between does not move the baseline. */
  lemma DoubleStartIsIdempotent(s: TimerState, a: real, b: real, t: real)
    requires !s.ticking
    ensures Replay(s, [StartAt(a), StartAt(b), TickAt(t)])
         == Replay(s, [StartAt(a), TickAt(t)])
  {
    assert [StartAt(a), StartAt(b), TickAt(t)] == [StartAt(a)] + [StartAt(b), TickAt(t)];
    ReplayCons(s, StartAt(a), [StartAt(b), TickAt(t)]);
    ReplayTwo(Start(s, a), StartAt(b), TickAt(t));
    ReplayTwo(s, StartAt(a), TickAt(t));
  }

  function EventTime(e: TimerEvent, default: real): real
  {
    match e
    case StartAt(t) => t
    case PauseAt(t) => t
    case TickAt(t) => t
    case StopNow => default
  }

  /** The clock never runs backwards: event times are non-decreasing from `clock` on. */
  predicate MonotoneFrom(clock: real, events: seq<TimerEvent>)
    decreases |events|
  {
    events == [] ||
    (clock <= EventTime(events[0], clock) && MonotoneFrom(EventTime(events[0], clock), events[1..]))
  }

  predicate NoStop(events: seq<TimerEvent>)
  {
    forall i :: 0 <= i < |events| ==> !events[i].StopNow?
  }

  /**
   * With a non-decreasing clock, `accumulatedTime` never decreases along a
   * trace that contains no `stopTimer`.
   */
  lemma {:induction false} AccumulatedNeverDecreases(s: TimerState, clock: real, events: seq<TimerEvent>)
    requires s.startTime.Some? ==> s.startTime.value <= clock
    requires MonotoneFrom(clock, events)
    requires NoStop(events)
    ensures Replay(s, events).accumulatedTime >= s.accumulatedTime
    decreases |events|
  {
    if events != [] {
      var e := events[0];
      var next := Apply(s, e);
      var t := EventTime(e, clock);
      assert next.accumulatedTime >= s.accumulatedTime;
      assert next.startTime.Some? ==> next.startTime.value <= t;
      assert NoStop(events[1..]) by {
        forall i | 0 <= i < |events[1..]| ensures !events[1..][i].StopNow? {
          assert events[1..][i] == events[i + 1];
        }
      }
      AccumulatedNeverDecreases(next, t, events[1..]);
    }
  }

  // ---------------------------------------------------------------------------
  // The class

  /** RunTimer; the `shared` singleton is one object of this class. */
  class RunTimer {
    var ticking: bool
    var startTime: Option<real>
    var accumulatedTime: real
    var totalTime: real

    function State(): TimerState
      reads this
    {
      TimerState(ticking, startTime, accumulatedTime, totalTime)
    }

    /** `private init()`: every field at its declared default. */
    constructor ()
      ensures State() == Initial
    {
      ticking, startTime, accumulatedTime, totalTime := false, None, 0.0, 0.0;
    }

    method StartTimer(now: real)
      modifies this
      ensures State() == Start(old(State()), now)
      ensures old(Valid(State())) ==> Valid(State())
      ensures old(ticking) ==> startTime == old(startTime) && accumulatedTime == old(accumulatedTime)
      ensures !old(ticking) ==> ticking && startTime == Some(now)
    {
      if !ticking {
        startTime := Some(now);
        ticking := true;
      }
    }

    method StopTimer()
      modifies this
      ensures State() == Stop(old(State()))
      ensures old(Valid(State())) ==> Valid(State())
      ensures !ticking && startTime == None && accumulatedTime == 0.0
      ensures totalTime == old(totalTime)
    {
      ticking := false;
      startTime := None;
      accumulatedTime := 0.0;
    }

    method PauseTimer(now: real)
      modifies this
      ensures State() == Pause(old(State()), now)
      ensures old(Valid(State())) ==> Valid(State())
      ensures old(startTime).Some? ==>
        accumulatedTime == old(accumulatedTime) + (now - old(startTime).value)
      ensures old(startTime).None? ==> accumulatedTime == old(accumulatedTime)
      ensures !ticking && startTime == None && totalTime == old(totalTime)
    {
      if startTime.Some? {
        accumulatedTime := accumulatedTime + (now - startTime.value);
      }
      ticking := false;
      startTime := None;
    }

    method UpdateTimer(now: real)
      modifies this
      ensures State() == Update(old(State()), now)
      ensures old(Valid(State())) ==> Valid(State())
      ensures old(startTime).Some? ==> totalTime == (now - old(startTime).value) + old(accumulatedTime)
      ensures old(startTime).None? ==> State() == old(State())
    {
      if startTime.Some? {
        totalTime := (now - startTime.value) + accumulatedTime;
      }
    }
  }
}
