/**
 * Properties of whole streams fed to the segmentation engine: how emitted
 * trips are ordered, when ingestion cannot fail, what jitter does, what a
 * trip's distance adds up to, and that the physics checks never steer.
 */
module Streams {
  import opened Wrappers
  import opened Waypoints
  import opened Physics
  import opened Segmentation

  /** Running `b` after the run `ra` and joining what both produced. */
  function Then(dist: DistanceFn, v: Vehicle, ra: Result<Run, Error>, b: seq<Waypoint>): Result<Run, Error> {
    match ra
    case Failure(err) => Failure(err)
    case Success(first) =>
      match ProcessStream(dist, v, first.engine, b)
      case Failure(err) => Failure(err)
      case Success(second) =>
        Success(Run(second.engine, first.trips + second.trips, first.alerts + second.alerts))
  }

  /** A run with one step's trip and alerts put in front of it. */
  function Prepend(step: Step, r: Result<Run, Error>): Result<Run, Error> {
    match r
    case Failure(err) => Failure(err)
    case Success(rest) => Success(Run(rest.engine, OptionToSeq(step.trip) + rest.trips, step.alerts + rest.alerts))
  }

  /** Putting a step in front commutes with running more waypoints afterwards. */
  lemma PrependThen(dist: DistanceFn, v: Vehicle, step: Step, r: Result<Run, Error>, b: seq<Waypoint>)
    ensures Then(dist, v, Prepend(step, r), b) == Prepend(step, Then(dist, v, r, b))
  {
    if r.Success? && ProcessStream(dist, v, r.value.engine, b).Success? {
      var ra, rb := r.value, ProcessStream(dist, v, r.value.engine, b).value;
      var t := OptionToSeq(step.trip);
      assert (t + ra.trips) + rb.trips == t + (ra.trips + rb.trips);
      assert (step.alerts + ra.alerts) + rb.alerts == step.alerts + (ra.alerts + rb.alerts);
    }
  }

  /** Feeding `a + b` is feeding `a` and then `b` to the engine `a` left behind. */
  lemma {:induction false} StreamSplit(dist: DistanceFn, v: Vehicle, e: Engine, a: seq<Waypoint>, b: seq<Waypoint>)
    ensures ProcessStream(dist, v, e, a + b) == Then(dist, v, ProcessStream(dist, v, e, a), b)
    decreases |a|
  {
    if |a| == 0 {
      assert a + b == b;
      match ProcessStream(dist, v, e, b)
      case Failure(_) =>
      case Success(rb) =>
        assert [] + rb.trips == rb.trips;
        assert [] + rb.alerts == rb.alerts;
    } else {
      assert (a + b)[0] == a[0];
      assert (a + b)[1..] == a[1..] + b;
      var first := ProcessWaypoint(dist, v, e, a[0]);
      if first.Success? {
        var step := first.value;
        var restA := ProcessStream(dist, v, step.engine, a[1..]);
        assert ProcessStream(dist, v, e, a) == Prepend(step, restA);
        StreamSplit(dist, v, step.engine, a[1..], b);
        assert ProcessStream(dist, v, e, a + b) == Prepend(step, Then(dist, v, restA, b));
        PrependThen(dist, v, step, restA, b);
      }
    }
  }

  /**
   * The earliest time a trip emitted from now on can start: the current
   * interval's start while moving, else the retained end.
   */
  function Floor(e: Engine): int
    requires e.Seeded?
  {
    if e.moving then e.start.timestamp else e.end.timestamp
  }

  /** Each trip ends at least `gap` seconds before any later one starts. */
  predicate Spaced(trips: seq<Trip>, gap: int) {
    forall i, j :: 0 <= i < j < |trips| ==> trips[i].end.timestamp + gap <= trips[j].start.timestamp
  }

  /** A trip ending `gap` seconds before every trip of a spaced sequence can go in front of it. */
  lemma PrependSpaced(t: Trip, rest: seq<Trip>, gap: int)
    requires Spaced(rest, gap)
    requires forall u :: u in rest ==> t.end.timestamp + gap <= u.start.timestamp
    ensures Spaced([t] + rest, gap)
  {
  }

  /**
   * One step never lowers the floor, and a trip it emits starts at or after
   * the old floor and ends exactly at the new one.
   */
  lemma FloorAdvances(dist: DistanceFn, v: Vehicle, e: Engine, wp: Waypoint)
    requires e.Seeded? && Ordered(e)
    requires ProcessWaypoint(dist, v, e, wp).Success?
    ensures var step := ProcessWaypoint(dist, v, e, wp).value;
      if step.trip.Some? then
        Floor(e) <= step.trip.value.start.timestamp && Floor(step.engine) == step.trip.value.end.timestamp
      else
        Floor(e) <= Floor(step.engine)
  {
  }

  /**
   * Emitted trips are in chronological order and never overlap: each ends no
   * later than the next one starts. This holds for every accepted stream,
   * sorted or not.
   */
  lemma {:induction false} TripsChronological(dist: DistanceFn, v: Vehicle, e: Engine, ws: seq<Waypoint>)
    requires Ordered(e)
    requires ProcessStream(dist, v, e, ws).Success?
    ensures Spaced(ProcessStream(dist, v, e, ws).value.trips, 0)
    ensures e.Seeded? ==>
      forall t :: t in ProcessStream(dist, v, e, ws).value.trips ==> Floor(e) <= t.start.timestamp
    decreases |ws|
  {
    if |ws| > 0 {
      var step := ProcessWaypoint(dist, v, e, ws[0]).value;
      TripsChronological(dist, v, step.engine, ws[1..]);
      var rest := ProcessStream(dist, v, step.engine, ws[1..]).value;
      assert ProcessStream(dist, v, e, ws).value.trips == OptionToSeq(step.trip) + rest.trips;
      if e.Seeded? {
        FloorAdvances(dist, v, e, ws[0]);
      }
      if step.trip.Some? {
        PrependSpaced(step.trip.value, rest.trips, 0);
      }
    }
  }

  /**
   * Every trip starts either at the start of the interval open when the
   * stream was taken up or at one of the stream's samples.
   */
  lemma {:induction false} TripStartsInStream(dist: DistanceFn, v: Vehicle, e: Engine, ws: seq<Waypoint>)
    requires ProcessStream(dist, v, e, ws).Success?
    ensures forall t :: t in ProcessStream(dist, v, e, ws).value.trips ==>
      (e.Seeded? && e.moving && t.start == e.start) || t.start in ws
    decreases |ws|
  {
    if |ws| > 0 {
      var step := ProcessWaypoint(dist, v, e, ws[0]).value;
      TripStartsInStream(dist, v, step.engine, ws[1..]);
      var rest := ProcessStream(dist, v, step.engine, ws[1..]).value;
      assert ProcessStream(dist, v, e, ws).value.trips == OptionToSeq(step.trip) + rest.trips;
      forall t | t in rest.trips
        ensures (e.Seeded? && e.moving && t.start == e.start) || t.start in ws
      {
        assert (step.engine.moving && t.start == step.engine.start) || t.start in ws[1..];
      }
    }
  }

  /**
   * On sorted input, a trip ends more than the maximum stop duration before
   * any later trip starts.
   */
  lemma {:induction false} SortedTripsSeparated(dist: DistanceFn, v: Vehicle, e: Engine, ws: seq<Waypoint>)
    requires Sorted(ws)
    requires ProcessStream(dist, v, e, ws).Success?
    ensures Spaced(ProcessStream(dist, v, e, ws).value.trips, MaxStopDuration + 1)
    decreases |ws|
  {
    if |ws| > 0 {
      var step := ProcessWaypoint(dist, v, e, ws[0]).value;
      assert Sorted(ws[1..]);
      SortedTripsSeparated(dist, v, step.engine, ws[1..]);
      var rest := ProcessStream(dist, v, step.engine, ws[1..]).value;
      assert ProcessStream(dist, v, e, ws).value.trips == OptionToSeq(step.trip) + rest.trips;
      if step.trip.Some? {
        var t := step.trip.value;
        TripStartsInStream(dist, v, step.engine, ws[1..]);
        forall u | u in rest.trips
          ensures t.end.timestamp + MaxStopDuration + 1 <= u.start.timestamp
        {
          var k :| 0 <= k < |ws[1..]| && ws[1..][k] == u.start;
          assert ws[0].timestamp <= ws[k + 1].timestamp;
        }
        PrependSpaced(t, rest.trips, MaxStopDuration + 1);
      }
    }
  }

  /**
   * A stream that is sorted and starts no earlier than the engine's retained
   * end never fails the ordering check.
   */
  lemma {:induction false} SortedNeverNotSorted(dist: DistanceFn, v: Vehicle, e: Engine, ws: seq<Waypoint>)
    requires Sorted(ws)
    requires e.Seeded? ==> forall k :: 0 <= k < |ws| ==> e.end.timestamp <= ws[k].timestamp
    ensures ProcessStream(dist, v, e, ws) != Failure(NotSorted)
    decreases |ws|
  {
    if |ws| > 0 {
      var r := ProcessWaypoint(dist, v, e, ws[0]);
      if r.Success? {
        var e' := r.value.engine;
        assert e'.end == ws[0] || (e.Seeded? && e'.end == e.end);
        assert Sorted(ws[1..]);
        SortedNeverNotSorted(dist, v, e', ws[1..]);
      }
    }
  }

  /** Timestamps strictly increase along the stream. */
  predicate StrictlySorted(ws: seq<Waypoint>) {
    forall i, j :: 0 <= i < j < |ws| ==> ws[i].timestamp < ws[j].timestamp
  }

  /**
   * A stream with strictly increasing timestamps, all within one day of
   * `lo`, fed to an engine whose retained end lies in that day before every
   * sample, is accepted: no gap is negative and no gap has a zero seconds
   * component.
   */
  lemma {:induction false} WithinOneDayAccepted(dist: DistanceFn, v: Vehicle, e: Engine, ws: seq<Waypoint>, lo: int)
    requires StrictlySorted(ws)
    requires forall k :: 0 <= k < |ws| ==> lo <= ws[k].timestamp < lo + SecondsPerDay
    requires e.Seeded? ==> lo <= e.end.timestamp
    requires e.Seeded? ==> forall k :: 0 <= k < |ws| ==> e.end.timestamp < ws[k].timestamp
    ensures ProcessStream(dist, v, e, ws).Success?
    decreases |ws|
  {
    if |ws| > 0 {
      var r := ProcessWaypoint(dist, v, e, ws[0]);
      assert r.Success?;
      var e' := r.value.engine;
      assert e'.end == ws[0] || (e.Seeded? && e'.end == e.end);
      WithinOneDayAccepted(dist, v, e', ws[1..], lo);
    }
  }

  /**
   * A fresh engine accepts every stream with strictly increasing timestamps
   * spanning less than one day.
   */
  lemma FreshWithinOneDayAccepted(dist: DistanceFn, v: Vehicle, ws: seq<Waypoint>)
    requires StrictlySorted(ws)
    requires |ws| > 0 ==> ws[|ws| - 1].timestamp - ws[0].timestamp < SecondsPerDay
    ensures ProcessStream(dist, v, Initial, ws).Success?
  {
    if |ws| > 0 {
      WithinOneDayAccepted(dist, v, Initial, ws, ws[0].timestamp);
    }
  }

  /**
   * Jitter alone never changes anything: samples within the noise threshold
   * of the retained end, arriving no earlier than it (and, while moving, no
   * more than the maximum stop duration after it), leave the engine as it
   * was and emit nothing, however many there are.
   */
  lemma {:induction false} JitterChangesNothing(dist: DistanceFn, v: Vehicle, e: Engine, ws: seq<Waypoint>)
    requires e.Seeded?
    requires forall k :: 0 <= k < |ws| ==>
      && e.end.timestamp <= ws[k].timestamp
      && dist(e.end, ws[k]) < NoiseThreshold
      && (e.moving ==> ws[k].timestamp - e.end.timestamp <= MaxStopDuration)
    ensures ProcessStream(dist, v, e, ws) == Success(Run(e, [], []))
    decreases |ws|
  {
    if |ws| > 0 {
      NoiseIsIgnored(dist, v, e, ws[0]);
      JitterChangesNothing(dist, v, e, ws[1..]);
    }
  }

  /**
   * The vehicle limits never steer the run: with any two vehicles the same
   * stream fails alike or ends in the same state with the same trips.
   */
  lemma {:induction false} StreamIgnoresVehicle(dist: DistanceFn, v1: Vehicle, v2: Vehicle, e: Engine, ws: seq<Waypoint>)
    ensures var r1, r2 := ProcessStream(dist, v1, e, ws), ProcessStream(dist, v2, e, ws);
      && r1.Success? == r2.Success?
      && (r1.Failure? ==> r1 == r2)
      && (r1.Success? ==> r1.value.engine == r2.value.engine && r1.value.trips == r2.value.trips)
    decreases |ws|
  {
    if |ws| > 0 {
      StepIgnoresVehicle(dist, v1, v2, e, ws[0]);
      var s1 := ProcessWaypoint(dist, v1, e, ws[0]);
      if s1.Success? {
        StreamIgnoresVehicle(dist, v1, v2, s1.value.engine, ws[1..]);
      }
    }
  }

  /**
   * The samples of `ws` an interval keeps when it is extended from `anchor`:
   * each one at least the noise threshold away from the one kept before it.
   */
  function Retained(dist: DistanceFn, anchor: Waypoint, ws: seq<Waypoint>): (path: seq<Waypoint>)
    ensures |path| <= |ws|
    ensures forall x :: x in path ==> x in ws
    ensures |path| > 0 ==> dist(anchor, path[0]) >= NoiseThreshold
    ensures forall i :: 0 < i < |path| ==> dist(path[i - 1], path[i]) >= NoiseThreshold
    decreases |ws|
  {
    if |ws| == 0 then
      []
    else if dist(anchor, ws[0]) >= NoiseThreshold then
      [ws[0]] + Retained(dist, ws[0], ws[1..])
    else
      Retained(dist, anchor, ws[1..])
  }

  /** The length of the polyline from `from` through every sample of `path`. */
  function PathLength(dist: DistanceFn, from: Waypoint, path: seq<Waypoint>): real
    decreases |path|
  {
    if |path| == 0 then 0.0 else dist(from, path[0]) + PathLength(dist, path[0], path[1..])
  }

  /** The last sample of `path`, or `anchor` when there is none. */
  function LastOf(anchor: Waypoint, path: seq<Waypoint>): Waypoint {
    if |path| == 0 then anchor else path[|path| - 1]
  }

  /**
   * Along `ws`, extended from `anchor`, no jitter sample comes more than the
   * maximum stop duration after the last kept sample, so the stop-closing
   * rule never fires.
   */
  predicate ClosureFree(dist: DistanceFn, anchor: Waypoint, ws: seq<Waypoint>)
    decreases |ws|
  {
    || |ws| == 0
    || (if dist(anchor, ws[0]) < NoiseThreshold
        then ws[0].timestamp - anchor.timestamp <= MaxStopDuration && ClosureFree(dist, anchor, ws[1..])
        else ClosureFree(dist, ws[0], ws[1..]))
  }

  /**
   * While no closure intervenes, a moving interval keeps its start, ends at
   * the last retained sample, and adds exactly the length of the retained
   * path to its distance.
   */
  lemma {:induction false} MovingFollowsRetainedPath(dist: DistanceFn, v: Vehicle, e: Engine, ws: seq<Waypoint>)
    requires e.Seeded? && e.moving
    requires ClosureFree(dist, e.end, ws)
    requires ProcessStream(dist, v, e, ws).Success?
    ensures var run, path := ProcessStream(dist, v, e, ws).value, Retained(dist, e.end, ws);
      && run.trips == []
      && run.engine.Seeded? && run.engine.moving
      && run.engine.start == e.start
      && run.engine.end == LastOf(e.end, path)
      && run.engine.distance == e.distance + PathLength(dist, e.end, path)
    decreases |ws|
  {
    if |ws| > 0 {
      var step := ProcessWaypoint(dist, v, e, ws[0]).value;
      MovingFollowsRetainedPath(dist, v, step.engine, ws[1..]);
      if dist(e.end, ws[0]) >= NoiseThreshold {
        var tail := Retained(dist, ws[0], ws[1..]);
        assert LastOf(e.end, [ws[0]] + tail) == LastOf(ws[0], tail);
      }
    }
  }

  /**
   * A trip's distance is the length of the path through the samples it
   * kept, not the straight line from its start to its end: from stopped, a
   * far sample `w` opens an interval, `ws` extends it without closing it,
   * and a late jitter sample `c` closes it.
   */
  lemma TripDistanceIsRetainedPathLength(
    dist: DistanceFn, v: Vehicle, e: Engine, w: Waypoint, ws: seq<Waypoint>, c: Waypoint)
    requires e.Seeded? && !e.moving && e.end.timestamp <= w.timestamp
    requires dist(e.end, w) >= NoiseThreshold
    requires ClosureFree(dist, w, ws)
    requires c.timestamp - LastOf(w, Retained(dist, w, ws)).timestamp > MaxStopDuration
    requires dist(LastOf(w, Retained(dist, w, ws)), c) < NoiseThreshold
    requires ProcessStream(dist, v, e, [w] + ws + [c]).Success?
    ensures var path := Retained(dist, w, ws);
      ProcessStream(dist, v, e, [w] + ws + [c]).value.trips ==
        if PathLength(dist, w, path) > 0.0
        then [Trip(w, LastOf(w, path), PathLength(dist, w, path))]
        else []
  {
    var path := Retained(dist, w, ws);
    StreamSplit(dist, v, e, [w] + ws, [c]);
    StreamSplit(dist, v, e, [w], ws);
    var e1 := ProcessStream(dist, v, e, [w]).value.engine;
    assert e1 == Seeded(w, w, true, 0.0, e.previousSpeed, 0.0);
    MovingFollowsRetainedPath(dist, v, e1, ws);
    var e2 := ProcessStream(dist, v, e1, ws).value.engine;
    ClosureStopsAndKeepsBounds(dist, v, e2, c);
  }
}
