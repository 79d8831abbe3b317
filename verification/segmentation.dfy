/**
 * The trip-segmentation engine: a state machine that reads an ordered
 * stream of waypoints one at a time and cuts it into trips.
 *
 * Before the first waypoint the engine is unseeded. After it, the engine is
 * either stopped or moving. Samples closer than the noise threshold to the
 * last retained waypoint are GPS jitter and are dropped. A moving interval
 * closes when such a jitter sample arrives more than the maximum stop
 * duration after the last retained waypoint, and a trip comes out if the
 * interval covered any distance. The physics checks only raise alerts.
 */
module Segmentation {
  import opened Wrappers
  import opened Waypoints
  import opened Physics

  /** Below this many meters, consecutive samples are jitter, not movement. */
  const NoiseThreshold: real := 15.0

  /** Seconds without movement after which a moving interval is over. */
  const MaxStopDuration: int := 180

  /**
   * The engine state. `start` and `end` bound the current interval (or both
   * hold the last retained sample while stopped), `distance` is the path
   * length accumulated in the current interval, and the two speeds are the
   * last two segment speeds, kept for the acceleration check.
   */
  datatype Engine =
    | Unseeded
    | Seeded(
        start: Waypoint,
        end: Waypoint,
        moving: bool,
        distance: real,
        previousSpeed: real,
        currentSpeed: real
      )

  /** A fresh engine: no boundaries, stopped, nothing accumulated. */
  const Initial: Engine := Unseeded

  /** An advisory raised by the physics checks on the segment `from`-`to`. */
  datatype Alert =
    | SpeedTooHighAlert(from: Waypoint, to: Waypoint, speed: real)
    | AccelerationOutOfRange(from: Waypoint, to: Waypoint, speedStart: real, speedEnd: real)

  /** What one ingested waypoint produces: the new state, at most one trip, and alerts. */
  datatype Step = Step(engine: Engine, trip: Option<Trip>, alerts: seq<Alert>)

  /** The interval boundaries are in time order. */
  predicate Ordered(e: Engine) {
    e.Seeded? ==> e.start.timestamp <= e.end.timestamp
  }

  /**
   * Nothing or at least one non-jitter segment has been accumulated: every
   * segment added to a distance is at least the noise threshold long.
   */
  predicate Accumulated(e: Engine) {
    e.Seeded? ==> e.distance == 0.0 || e.distance >= NoiseThreshold
  }

  /** The stop-closing rule fires for `wp` on engine `e`. */
  predicate Closes(dist: DistanceFn, e: Engine, wp: Waypoint) {
    && e.Seeded?
    && e.moving
    && wp.timestamp - e.end.timestamp > MaxStopDuration
    && dist(e.end, wp) < NoiseThreshold
  }

  /** The alerts raised for a segment from `from` to `to` with the given speeds. */
  function PhysicsAlerts(v: Vehicle, from: Waypoint, to: Waypoint, elapsed: int, speedStart: real, speedEnd: real): (alerts: seq<Alert>)
    ensures |alerts| <= 2
    ensures SpeedTooHigh(v, speedEnd) <==> SpeedTooHighAlert(from, to, speedEnd) in alerts
    ensures !AccelerationFeasible(v, speedStart, speedEnd, elapsed) <==>
      AccelerationOutOfRange(from, to, speedStart, speedEnd) in alerts
    ensures forall a :: a in alerts ==>
      a == SpeedTooHighAlert(from, to, speedEnd) || a == AccelerationOutOfRange(from, to, speedStart, speedEnd)
    // each notice is raised at most once
    ensures |alerts| == (if SpeedTooHigh(v, speedEnd) then 1 else 0)
      + (if !AccelerationFeasible(v, speedStart, speedEnd, elapsed) then 1 else 0)
  {
    (if SpeedTooHigh(v, speedEnd) then [SpeedTooHighAlert(from, to, speedEnd)] else [])
    + (if !AccelerationFeasible(v, speedStart, speedEnd, elapsed)
       then [AccelerationOutOfRange(from, to, speedStart, speedEnd)] else [])
  }

  /**
   * Ingest one waypoint. The first waypoint only seeds the engine. After
   * that, in order: the ordering check, the stop-closing rule, noise
   * suppression, the start of a new interval, or the continuation of the
   * current one with its physics checks.
   */
  function ProcessWaypoint(dist: DistanceFn, v: Vehicle, e: Engine, wp: Waypoint): (r: Result<Step, Error>)
    // only a seeded engine can fail, and then for one of two reasons
    ensures r.Failure? ==> e.Seeded?
    ensures e.Seeded? ==> (r == Failure(NotSorted) <==> wp.timestamp < e.end.timestamp)
    ensures r == Failure(ZeroDivision) <==>
      && e.Seeded? && e.moving
      && wp.timestamp >= e.end.timestamp
      && dist(e.end, wp) >= NoiseThreshold
      && SecondsComponent(wp.timestamp - e.end.timestamp) == 0
    // a trip comes out exactly when a moving interval with positive distance closes
    ensures (r.Success? && r.value.trip.Some?) <==> (Closes(dist, e, wp) && e.distance > 0.0)
    ensures r.Success? && r.value.trip.Some? ==>
      r.value.trip.value == Trip(e.start, e.end, e.distance)
    // the retained end only moves forward, and the boundaries stay in order
    ensures r.Success? ==> r.value.engine.Seeded?
    ensures r.Success? && e.Seeded? ==> e.end.timestamp <= r.value.engine.end.timestamp
    ensures r.Success? && Ordered(e) ==> Ordered(r.value.engine)
    ensures r.Success? && Accumulated(e) ==> Accumulated(r.value.engine)
    ensures r.Success? && r.value.trip.Some? && Accumulated(e) ==>
      r.value.trip.value.distance >= NoiseThreshold
  {
    match e
    case Unseeded =>
      Success(Step(Seeded(wp, wp, false, 0.0, 0.0, 0.0), None, []))
    case Seeded(start, end, moving, distance, previousSpeed, currentSpeed) =>
      var elapsed :- Duration(end, wp);
      var segment := dist(end, wp);
      if moving && elapsed > MaxStopDuration && segment < NoiseThreshold then
        var trip := if distance > 0.0 then Some(Trip(start, end, distance)) else None;
        Success(Step(e.(moving := false), trip, []))
      else if segment < NoiseThreshold then
        Success(Step(e, None, []))
      else if !moving then
        Success(Step(Seeded(wp, wp, true, 0.0, previousSpeed, 0.0), None, []))
      else
        var seconds := SecondsComponent(elapsed);
        if seconds == 0 then
          Failure(ZeroDivision)
        else
          var speed := segment / (seconds as real);
          var alerts := PhysicsAlerts(v, end, wp, elapsed, currentSpeed, speed);
          Success(Step(Seeded(start, wp, true, distance + segment, currentSpeed, speed), None, alerts))
  }

  /** The first waypoint seeds both boundaries, leaves the engine stopped and emits nothing. */
  lemma FirstWaypointSeeds(dist: DistanceFn, v: Vehicle, wp: Waypoint)
    ensures ProcessWaypoint(dist, v, Initial, wp) ==
      Success(Step(Seeded(wp, wp, false, 0.0, 0.0, 0.0), None, []))
  {
  }

  /**
   * When the stop-closing rule fires the engine stops; the boundaries, the
   * distance and the speeds are kept, and a trip comes out iff the distance
   * is positive. The closing sample is not retained.
   */
  lemma ClosureStopsAndKeepsBounds(dist: DistanceFn, v: Vehicle, e: Engine, wp: Waypoint)
    requires Closes(dist, e, wp)
    ensures var r := ProcessWaypoint(dist, v, e, wp);
      && r.Success?
      && r.value.engine == e.(moving := false)
      && r.value.alerts == []
      && (r.value.trip.Some? <==> e.distance > 0.0)
  {
  }

  /**
   * A jitter sample that does not close the interval changes nothing, so
   * feeding it again gives the same answer.
   */
  lemma NoiseIsIgnored(dist: DistanceFn, v: Vehicle, e: Engine, wp: Waypoint)
    requires e.Seeded? && e.end.timestamp <= wp.timestamp
    requires dist(e.end, wp) < NoiseThreshold
    requires !Closes(dist, e, wp)
    ensures ProcessWaypoint(dist, v, e, wp) == Success(Step(e, None, []))
    ensures ProcessWaypoint(dist, v, ProcessWaypoint(dist, v, e, wp).value.engine, wp) ==
      ProcessWaypoint(dist, v, e, wp)
  {
  }

  /**
   * From stopped, a sample at least the noise threshold away starts a new
   * interval at that sample with nothing accumulated; the previous speed is
   * left as it was. No trip comes out on the same call.
   */
  lemma NewIntervalStarts(dist: DistanceFn, v: Vehicle, e: Engine, wp: Waypoint)
    requires e.Seeded? && !e.moving && e.end.timestamp <= wp.timestamp
    requires dist(e.end, wp) >= NoiseThreshold
    ensures ProcessWaypoint(dist, v, e, wp) ==
      Success(Step(Seeded(wp, wp, true, 0.0, e.previousSpeed, 0.0), None, []))
  {
  }

  /**
   * While moving, a sample at least the noise threshold away extends the
   * interval: it becomes the end, its segment is added to the distance, and
   * the speeds shift, the new one taken over the seconds component of the
   * gap. The distance grows by at least the noise threshold, and the alerts
   * are exactly those the physics checks raise for the new segment.
   */
  lemma ContinuationExtends(dist: DistanceFn, v: Vehicle, e: Engine, wp: Waypoint)
    requires e.Seeded? && e.moving && e.end.timestamp <= wp.timestamp
    requires dist(e.end, wp) >= NoiseThreshold
    requires SecondsComponent(wp.timestamp - e.end.timestamp) != 0
    ensures var r := ProcessWaypoint(dist, v, e, wp);
      && r.Success?
      && r.value.trip.None?
      && r.value.engine == Seeded(e.start, wp, true, e.distance + dist(e.end, wp), e.currentSpeed,
           dist(e.end, wp) / (SecondsComponent(wp.timestamp - e.end.timestamp) as real))
      && r.value.engine.distance >= e.distance + NoiseThreshold
      && r.value.alerts == PhysicsAlerts(v, e.end, wp, wp.timestamp - e.end.timestamp, e.currentSpeed,
           dist(e.end, wp) / (SecondsComponent(wp.timestamp - e.end.timestamp) as real))
  {
  }

  /**
   * Alerts are only raised while extending a moving interval, and only for
   * the segment from the old end to the new sample.
   */
  lemma AlertsOnlyOnContinuation(dist: DistanceFn, v: Vehicle, e: Engine, wp: Waypoint)
    ensures var r := ProcessWaypoint(dist, v, e, wp);
      r.Success? && r.value.alerts != [] ==>
        && e.Seeded? && e.moving
        && r.value.engine.moving && r.value.engine.end == wp
        && forall a :: a in r.value.alerts ==> a.from == e.end && a.to == wp
  {
  }

  /**
   * The vehicle limits only decide the alerts: two engines judged against
   * different vehicles fail alike, and otherwise reach the same state and
   * emit the same trip.
   */
  lemma StepIgnoresVehicle(dist: DistanceFn, v1: Vehicle, v2: Vehicle, e: Engine, wp: Waypoint)
    ensures var r1, r2 := ProcessWaypoint(dist, v1, e, wp), ProcessWaypoint(dist, v2, e, wp);
      && r1.Success? == r2.Success?
      && (r1.Failure? ==> r1 == r2)
      && (r1.Success? ==> r1.value.engine == r2.value.engine && r1.value.trip == r2.value.trip)
  {
  }

  /** The result of feeding a whole stream to the engine. */
  datatype Run = Run(engine: Engine, trips: seq<Trip>, alerts: seq<Alert>)

  /**
   * Feed `ws` to the engine in order, collecting every trip and alert; the
   * first error ends the run. An interval still open when the stream ends
   * is not emitted.
   */
  function ProcessStream(dist: DistanceFn, v: Vehicle, e: Engine, ws: seq<Waypoint>): (r: Result<Run, Error>)
    decreases |ws|
    ensures r.Success? ==> |r.value.trips| <= |ws|
    ensures r.Success? ==> forall t :: t in r.value.trips ==> t.distance > 0.0
    ensures r.Success? && Accumulated(e) ==>
      && Accumulated(r.value.engine)
      && forall t :: t in r.value.trips ==> t.distance >= NoiseThreshold
    ensures r.Success? && Ordered(e) ==>
      && Ordered(r.value.engine)
      && forall t :: t in r.value.trips ==> t.start.timestamp <= t.end.timestamp
    ensures r.Success? && e.Seeded? ==>
      r.value.engine.Seeded? && e.end.timestamp <= r.value.engine.end.timestamp
  {
    if |ws| == 0 then
      Success(Run(e, [], []))
    else
      var step :- ProcessWaypoint(dist, v, e, ws[0]);
      var rest :- ProcessStream(dist, v, step.engine, ws[1..]);
      Success(Run(rest.engine, OptionToSeq(step.trip) + rest.trips, step.alerts + rest.alerts))
  }
}
