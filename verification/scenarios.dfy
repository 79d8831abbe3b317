/**
 * Concrete streams from the test suite, fed to the engine. The geodesic
 * distance is replaced by a flat stand-in at equatorial scale, where 0.0001
 * degree is 11.1 meters, so the distances below are exact reals rather than
 * ellipsoidal ones.
 */
module Scenarios {
  import opened Wrappers
  import opened Waypoints
  import opened Physics
  import opened Segmentation
  import opened Serialization

  function Abs(x: real): real {
    if x < 0.0 then -x else x
  }

  /** 111 km per degree of latitude or longitude, summed over both axes. */
  function Flat(a: Waypoint, b: Waypoint): real {
    111000.0 * (Abs(a.lat - b.lat) + Abs(a.lng - b.lng))
  }

  /** A sample on the equator, `seconds` after midnight of the test day. */
  function At(seconds: int, lng: real): Waypoint {
    Waypoint(seconds, 0.0, lng)
  }

  const Noon: int := 43200

  /** One sample in front of a stream: its step, then the rest of the run. */
  lemma Cons(dist: DistanceFn, v: Vehicle, e: Engine, w: Waypoint, ws: seq<Waypoint>, s: Step, rest: Run)
    requires ProcessWaypoint(dist, v, e, w) == Success(s)
    requires ProcessStream(dist, v, s.engine, ws) == Success(rest)
    ensures ProcessStream(dist, v, e, [w] + ws) ==
      Success(Run(rest.engine, OptionToSeq(s.trip) + rest.trips, s.alerts + rest.alerts))
    ensures s.trip.None? && s.alerts == [] ==> ProcessStream(dist, v, e, [w] + ws) == Success(rest)
  {
    assert ([w] + ws)[0] == w;
    assert ([w] + ws)[1..] == ws;
    if s.trip.None? && s.alerts == [] {
      assert OptionToSeq(s.trip) + rest.trips == rest.trips;
      assert s.alerts + rest.alerts == rest.alerts;
    }
  }

  /**
   * Two 11.1 m hops bring the vehicle 22.2 m from where it stood; it then
   * stands still for four minutes. The interval opens and closes with
   * nothing accumulated, so no trip comes out.
   */
  lemma SpuriousMovementEmitsNothing()
    ensures var ws := [At(Noon, 0.0), At(Noon + 1, 0.0001), At(Noon + 2, 0.0002), At(Noon + 240, 0.0002)];
      var r := ProcessStream(Flat, SmallCar, Initial, ws);
      && r.Success?
      && r.value.trips == []
      && r.value.engine == Seeded(At(Noon + 2, 0.0002), At(Noon + 2, 0.0002), false, 0.0, 0.0, 0.0)
  {
    var w0, w1, w2, w3 := At(Noon, 0.0), At(Noon + 1, 0.0001), At(Noon + 2, 0.0002), At(Noon + 240, 0.0002);
    var e1 := Seeded(w0, w0, false, 0.0, 0.0, 0.0);
    var e3 := Seeded(w2, w2, true, 0.0, 0.0, 0.0);
    var e4 := e3.(moving := false);
    var done := Run(e4, [], []);
    assert ProcessStream(Flat, SmallCar, e4, []) == Success(done);
    Cons(Flat, SmallCar, e3, w3, [], Step(e4, None, []), done);
    Cons(Flat, SmallCar, e1, w2, [w3], Step(e3, None, []), done);
    Cons(Flat, SmallCar, e1, w1, [w2, w3], Step(e1, None, []), done);
    Cons(Flat, SmallCar, Initial, w0, [w1, w2, w3], Step(e1, None, []), done);
    assert [w0] + [w1, w2, w3] == [w0, w1, w2, w3];
  }

  // The samples of the short-trip scenario.
  const S0: Waypoint := At(Noon, 0.0)
  const S1: Waypoint := At(Noon + 1, 0.0001)
  const S2: Waypoint := At(Noon + 2, 0.0002)
  const S3: Waypoint := At(Noon + 3, 0.0003)
  const S4: Waypoint := At(Noon + 4, 0.0004)
  const S5: Waypoint := At(Noon + 240, 0.0005)
  const S6: Waypoint := At(Noon + 300, 0.0005)

  /** The interval of the short-trip scenario once its one segment is added. */
  const ShortMoving: Engine := Seeded(S2, S4, true, 22.2, 0.0, 11.1)

  /** From the open, extended interval: closed by the late jitter sample, then jitter. */
  lemma ShortTripTail()
    ensures ProcessStream(Flat, SmallCar, ShortMoving, [S5, S6]) ==
      Success(Run(ShortMoving.(moving := false), [Trip(S2, S4, 22.2)], []))
  {
    var e6 := ShortMoving.(moving := false);
    var trip := Trip(S2, S4, 22.2);
    var done := Run(e6, [], []);
    assert ProcessStream(Flat, SmallCar, e6, []) == Success(done);
    assert [S6] == [S6] + [];
    Cons(Flat, SmallCar, e6, S6, [], Step(e6, None, []), done);
    Cons(Flat, SmallCar, ShortMoving, S5, [S6], Step(e6, Some(trip), []), done);
    assert [trip] + [] == [trip];
    assert [S5, S6] == [S5] + [S6];
  }

  /** The one kept segment: 22.2 m over 2 s from standstill, within the car's power. */
  lemma ShortTripSegment()
    ensures ProcessWaypoint(Flat, SmallCar, Seeded(S2, S2, true, 0.0, 0.0, 0.0), S4) ==
      Success(Step(ShortMoving, None, []))
  {
  }

  /** From a fresh engine to the open interval with its one 22.2 m segment. */
  lemma ShortTripHead(rest: Run)
    requires ProcessStream(Flat, SmallCar, ShortMoving, [S5, S6]) == Success(rest)
    ensures ProcessStream(Flat, SmallCar, Initial, [S0, S1, S2, S3, S4, S5, S6]) == Success(rest)
  {
    var tail := [S5, S6];
    var e1 := Seeded(S0, S0, false, 0.0, 0.0, 0.0);
    var e3 := Seeded(S2, S2, true, 0.0, 0.0, 0.0);
    ShortTripSegment();
    Cons(Flat, SmallCar, e3, S4, tail, Step(ShortMoving, None, []), rest);
    Cons(Flat, SmallCar, e3, S3, [S4] + tail, Step(e3, None, []), rest);
    Cons(Flat, SmallCar, e1, S2, [S3] + ([S4] + tail), Step(e3, None, []), rest);
    Cons(Flat, SmallCar, e1, S1, [S2] + ([S3] + ([S4] + tail)), Step(e1, None, []), rest);
    Cons(Flat, SmallCar, Initial, S0, [S1] + ([S2] + ([S3] + ([S4] + tail))), Step(e1, None, []), rest);
    assert [S0] + ([S1] + ([S2] + ([S3] + ([S4] + tail)))) == [S0, S1, S2, S3, S4, S5, S6];
  }

  /**
   * The interval opens at the third sample, is extended once by 22.2 m,
   * and is closed by a jitter sample after 236 s: one trip of 22 whole
   * meters, and none for the sample after it.
   */
  lemma OneShortTrip()
    ensures var r := ProcessStream(Flat, SmallCar, Initial, [S0, S1, S2, S3, S4, S5, S6]);
      && r.Success?
      && r.value.trips == [Trip(At(Noon + 2, 0.0002), At(Noon + 4, 0.0004), 22.2)]
      && ToRecord(r.value.trips[0]).distance == 22
      && r.value.alerts == []
  {
    ShortTripTail();
    ShortTripHead(Run(ShortMoving.(moving := false), [Trip(S2, S4, 22.2)], []));
  }

  // The samples of the scenario with a pause inside the trip.
  const P0: Waypoint := At(Noon, 0.0)
  const P1: Waypoint := At(Noon + 1, 0.0001)
  const P2: Waypoint := At(Noon + 2, 0.0002)
  const P3: Waypoint := At(Noon + 3, 0.0003)
  const P4: Waypoint := At(Noon + 60, 0.0003)
  const P5: Waypoint := At(Noon + 61, 0.0005)
  const P6: Waypoint := At(Noon + 62, 0.0007)
  const P7: Waypoint := At(Noon + 120, 0.0007)
  const P8: Waypoint := At(Noon + 241, 0.0007)
  const P9: Waypoint := At(Noon + 243, 0.0007)
  const P10: Waypoint := At(Noon + 300, 0.0007)

  /** The open interval after its two segments of 33.3 m and 22.2 m. */
  const PausedMoving: Engine := Seeded(P2, P6, true, 55.5, 33.3 / 59.0, 22.2)

  /** The trip the paused scenario emits. */
  const PausedTripValue: Trip := Trip(P2, P6, 55.5)

  /** The alert raised for the sharp second segment. */
  const PausedAlert: Alert := AccelerationOutOfRange(P5, P6, 33.3 / 59.0, 22.2)

  /**
   * Jitter 58 s and 179 s after the last kept sample is ignored; jitter
   * 181 s after it closes the interval, and later jitter changes nothing.
   */
  lemma PausedTripTail()
    ensures ProcessStream(Flat, SmallCar, PausedMoving, [P7, P8, P9, P10]) ==
      Success(Run(PausedMoving.(moving := false), [PausedTripValue], []))
  {
    var e9 := PausedMoving.(moving := false);
    var done := Run(e9, [], []);
    assert ProcessStream(Flat, SmallCar, e9, []) == Success(done);
    assert [P10] == [P10] + [];
    Cons(Flat, SmallCar, e9, P10, [], Step(e9, None, []), done);
    Cons(Flat, SmallCar, PausedMoving, P9, [P10], Step(e9, Some(PausedTripValue), []), done);
    assert [PausedTripValue] + [] == [PausedTripValue];
    var closed := Run(e9, [PausedTripValue], []);
    assert [P9, P10] == [P9] + [P10];
    Cons(Flat, SmallCar, PausedMoving, P8, [P9, P10], Step(PausedMoving, None, []), closed);
    assert [P8, P9, P10] == [P8] + [P9, P10];
    Cons(Flat, SmallCar, PausedMoving, P7, [P8, P9, P10], Step(PausedMoving, None, []), closed);
    assert [P7, P8, P9, P10] == [P7] + [P8, P9, P10];
  }

  /** The first kept segment: 33.3 m over 59 s from standstill, a gentle start. */
  lemma PausedFirstSegment()
    ensures ProcessWaypoint(Flat, SmallCar, Seeded(P2, P2, true, 0.0, 0.0, 0.0), P5) ==
      Success(Step(Seeded(P2, P5, true, 33.3, 0.0, 33.3 / 59.0), None, []))
  {
  }

  /**
   * The second kept segment, 22.2 m in one second right after a slow one,
   * is too sharp a speed-up for the car: it raises an alert and is added
   * all the same.
   */
  lemma PausedSharpSegment()
    ensures ProcessWaypoint(Flat, SmallCar, Seeded(P2, P5, true, 33.3, 0.0, 33.3 / 59.0), P6) ==
      Success(Step(PausedMoving, None, [PausedAlert]))
  {
    assert Flat(P5, P6) == 22.2;
    assert !AccelerationFeasible(SmallCar, 33.3 / 59.0, 22.2, 1);
    assert PhysicsAlerts(SmallCar, P5, P6, 1, 33.3 / 59.0, 22.2) == [PausedAlert];
  }

  /** From the freshly opened interval through both kept segments, with jitter between. */
  lemma PausedTripMiddle(rest: Run)
    requires ProcessStream(Flat, SmallCar, PausedMoving, [P7, P8, P9, P10]) == Success(rest)
    ensures ProcessStream(Flat, SmallCar, Seeded(P2, P2, true, 0.0, 0.0, 0.0), [P3, P4, P5, P6, P7, P8, P9, P10]) ==
      Success(Run(rest.engine, rest.trips, [PausedAlert] + rest.alerts))
  {
    var tail := [P7, P8, P9, P10];
    var e3 := Seeded(P2, P2, true, 0.0, 0.0, 0.0);
    var e5 := Seeded(P2, P5, true, 33.3, 0.0, 33.3 / 59.0);
    PausedSharpSegment();
    Cons(Flat, SmallCar, e5, P6, tail, Step(PausedMoving, None, [PausedAlert]), rest);
    assert OptionToSeq<Trip>(None) + rest.trips == rest.trips;
    var extended := Run(rest.engine, rest.trips, [PausedAlert] + rest.alerts);
    PausedFirstSegment();
    Cons(Flat, SmallCar, e3, P5, [P6] + tail, Step(e5, None, []), extended);
    Cons(Flat, SmallCar, e3, P4, [P5] + ([P6] + tail), Step(e3, None, []), extended);
    Cons(Flat, SmallCar, e3, P3, [P4] + ([P5] + ([P6] + tail)), Step(e3, None, []), extended);
    assert [P3] + ([P4] + ([P5] + ([P6] + tail))) == [P3, P4, P5, P6, P7, P8, P9, P10];
  }

  /** From a fresh engine to the interval opened at the third sample. */
  lemma PausedTripHead(rest: Run)
    requires ProcessStream(Flat, SmallCar, Seeded(P2, P2, true, 0.0, 0.0, 0.0), [P3, P4, P5, P6, P7, P8, P9, P10]) ==
      Success(rest)
    ensures ProcessStream(Flat, SmallCar, Initial, [P0, P1, P2, P3, P4, P5, P6, P7, P8, P9, P10]) == Success(rest)
  {
    var tail := [P3, P4, P5, P6, P7, P8, P9, P10];
    var e1 := Seeded(P0, P0, false, 0.0, 0.0, 0.0);
    Cons(Flat, SmallCar, e1, P2, tail, Step(Seeded(P2, P2, true, 0.0, 0.0, 0.0), None, []), rest);
    Cons(Flat, SmallCar, e1, P1, [P2] + tail, Step(e1, None, []), rest);
    Cons(Flat, SmallCar, Initial, P0, [P1] + ([P2] + tail), Step(e1, None, []), rest);
    assert [P0] + ([P1] + ([P2] + tail)) == [P0, P1, P2, P3, P4, P5, P6, P7, P8, P9, P10];
  }

  /**
   * The interval opens at the third sample and keeps the samples at 33.3 m
   * and 22.2 m, ignoring jitter in between and after: one trip of 55 whole
   * meters, with the acceleration alert raised on the way and no effect
   * of it on the trip.
   */
  lemma PausedTrip()
    ensures var r := ProcessStream(Flat, SmallCar, Initial, [P0, P1, P2, P3, P4, P5, P6, P7, P8, P9, P10]);
      && r.Success?
      && r.value.trips == [Trip(At(Noon + 2, 0.0002), At(Noon + 62, 0.0007), 55.5)]
      && ToRecord(r.value.trips[0]).distance == 55
      && r.value.alerts == [PausedAlert]
    // the 179 s jitter sample is ignored; the 181 s one closes the interval
    ensures ProcessWaypoint(Flat, SmallCar, PausedMoving, P8) == Success(Step(PausedMoving, None, []))
    ensures ProcessWaypoint(Flat, SmallCar, PausedMoving, P9) ==
      Success(Step(PausedMoving.(moving := false), Some(PausedTripValue), []))
  {
    PausedTripTail();
    var tail := Run(PausedMoving.(moving := false), [PausedTripValue], []);
    PausedTripMiddle(tail);
    assert [PausedAlert] + [] == [PausedAlert];
    PausedTripHead(Run(tail.engine, tail.trips, [PausedAlert]));
  }

  // The samples of the scenario with one sample every two hours.
  const D0: Waypoint := At(Noon, 0.0)
  const D1: Waypoint := At(Noon + 1, 0.0001)
  const D2: Waypoint := At(Noon + 2, 0.0002)
  const D3: Waypoint := At(Noon + 7200, 1.0)
  const D4: Waypoint := At(Noon + 14400, 2.0)
  const D5: Waypoint := At(Noon + 21600, 3.0)
  const D6: Waypoint := At(Noon + 21779, 3.0)
  const D7: Waypoint := At(Noon + 25200, 3.0)

  /** The interval after its three segments of about 111 km, two hours each. */
  const PatchyMoving: Engine := Seeded(D2, D5, true, 332977.8, 111000.0 / 7200.0, 111000.0 / 7200.0)

  /** The three long segments: speeds are taken over the whole two hours, and no alert is raised. */
  lemma PatchySegments()
    ensures ProcessWaypoint(Flat, SmallCar, Seeded(D2, D2, true, 0.0, 0.0, 0.0), D3) ==
      Success(Step(Seeded(D2, D3, true, 110977.8, 0.0, 110977.8 / 7198.0), None, []))
    ensures ProcessWaypoint(Flat, SmallCar, Seeded(D2, D3, true, 110977.8, 0.0, 110977.8 / 7198.0), D4) ==
      Success(Step(Seeded(D2, D4, true, 221977.8, 110977.8 / 7198.0, 111000.0 / 7200.0), None, []))
    ensures ProcessWaypoint(Flat, SmallCar,
      Seeded(D2, D4, true, 221977.8, 110977.8 / 7198.0, 111000.0 / 7200.0), D5) ==
      Success(Step(PatchyMoving, None, []))
  {
  }

  /** Jitter 179 s after the end is ignored; jitter an hour after it closes the interval. */
  lemma PatchyClosing()
    ensures ProcessWaypoint(Flat, SmallCar, PatchyMoving, D6) == Success(Step(PatchyMoving, None, []))
    ensures ProcessWaypoint(Flat, SmallCar, PatchyMoving, D7) ==
      Success(Step(PatchyMoving.(moving := false), Some(Trip(D2, D5, 332977.8)), []))
  {
  }

  /** The last two samples: the interval is kept, then closed and emitted. */
  lemma PatchyTail()
    ensures ProcessStream(Flat, SmallCar, PatchyMoving, [D6, D7]) ==
      Success(Run(PatchyMoving.(moving := false), [Trip(D2, D5, 332977.8)], []))
  {
    var stopped := PatchyMoving.(moving := false);
    var trip := Trip(D2, D5, 332977.8);
    var done := Run(stopped, [], []);
    assert ProcessStream(Flat, SmallCar, stopped, []) == Success(done);
    PatchyClosing();
    Cons(Flat, SmallCar, PatchyMoving, D7, [], Step(stopped, Some(trip), []), done);
    var closed := Run(stopped, [trip] + [], [] + []);
    Cons(Flat, SmallCar, PatchyMoving, D6, [D7], Step(PatchyMoving, None, []), closed);
    assert [D6] + [D7] == [D6, D7];
    assert [trip] + [] == [trip];
  }

  /** From the opened interval through its three long segments. */
  lemma PatchyMovementChunk(tail: seq<Waypoint>, rest: Run)
    requires ProcessStream(Flat, SmallCar, PatchyMoving, tail) == Success(rest)
    ensures ProcessStream(Flat, SmallCar, Seeded(D2, D2, true, 0.0, 0.0, 0.0), [D3, D4, D5] + tail) == Success(rest)
  {
    var open := Seeded(D2, D2, true, 0.0, 0.0, 0.0);
    var once := Seeded(D2, D3, true, 110977.8, 0.0, 110977.8 / 7198.0);
    var twice := Seeded(D2, D4, true, 221977.8, 110977.8 / 7198.0, 111000.0 / 7200.0);
    PatchySegments();
    Cons(Flat, SmallCar, twice, D5, tail, Step(PatchyMoving, None, []), rest);
    Cons(Flat, SmallCar, once, D4, [D5] + tail, Step(twice, None, []), rest);
    Cons(Flat, SmallCar, open, D3, [D4] + ([D5] + tail), Step(once, None, []), rest);
    assert [D3] + ([D4] + ([D5] + tail)) == [D3, D4, D5] + tail;
  }

  /** From a fresh engine: one jitter sample, then the interval opens 22.2 m away. */
  lemma PatchyStandingChunk(tail: seq<Waypoint>, rest: Run)
    requires ProcessStream(Flat, SmallCar, Seeded(D2, D2, true, 0.0, 0.0, 0.0), tail) == Success(rest)
    ensures ProcessStream(Flat, SmallCar, Initial, [D0, D1, D2] + tail) == Success(rest)
  {
    var seeded := Seeded(D0, D0, false, 0.0, 0.0, 0.0);
    var open := Seeded(D2, D2, true, 0.0, 0.0, 0.0);
    assert ProcessWaypoint(Flat, SmallCar, seeded, D1) == Success(Step(seeded, None, []));
    assert ProcessWaypoint(Flat, SmallCar, seeded, D2) == Success(Step(open, None, []));
    Cons(Flat, SmallCar, seeded, D2, tail, Step(open, None, []), rest);
    Cons(Flat, SmallCar, seeded, D1, [D2] + tail, Step(seeded, None, []), rest);
    Cons(Flat, SmallCar, Initial, D0, [D1] + ([D2] + tail), Step(seeded, None, []), rest);
    assert [D0] + ([D1] + ([D2] + tail)) == [D0, D1, D2] + tail;
  }

  /**
   * A vehicle driven non-stop but sampled once every two hours: the long
   * gaps are segments, not stops, so one trip of 332977.8 m comes out,
   * from 12:00:02 to 18:00:00, written as 332977, with no alerts.
   */
  lemma PatchyNetworkTrip()
    ensures ProcessStream(Flat, SmallCar, Initial, [D0, D1, D2, D3, D4, D5, D6, D7]) ==
      Success(Run(PatchyMoving.(moving := false),
                  [Trip(At(Noon + 2, 0.0002), At(Noon + 21600, 3.0), 332977.8)], []))
    ensures ToRecord(Trip(At(Noon + 2, 0.0002), At(Noon + 21600, 3.0), 332977.8)).distance == 332977
    // the 179 s sample keeps the interval open, and the next one closes it
    ensures ProcessWaypoint(Flat, SmallCar, PatchyMoving, D6) == Success(Step(PatchyMoving, None, []))
    ensures ProcessWaypoint(Flat, SmallCar, PatchyMoving, D7) ==
      Success(Step(PatchyMoving.(moving := false), Some(Trip(D2, D5, 332977.8)), []))
  {
    var done := Run(PatchyMoving.(moving := false), [Trip(D2, D5, 332977.8)], []);
    PatchyClosing();
    PatchyTail();
    PatchyMovementChunk([D6, D7], done);
    PatchyStandingChunk([D3, D4, D5] + [D6, D7], done);
    assert [D0, D1, D2] + ([D3, D4, D5] + [D6, D7]) == [D0, D1, D2, D3, D4, D5, D6, D7];
  }

  /**
   * The ordering check compares a sample with the last retained one, not
   * with the sample ingested just before it: after a discarded jitter
   * sample at 300 s, a sample at 150 s is accepted and opens an interval.
   */
  lemma OutOfOrderSampleAccepted()
    ensures var ws := [At(100, 0.0), At(300, 0.0), At(150, 0.001)];
      && !Sorted(ws)
      && ProcessStream(Flat, SmallCar, Initial, ws) ==
           Success(Run(Seeded(At(150, 0.001), At(150, 0.001), true, 0.0, 0.0, 0.0), [], []))
  {
    var w0, w1, w2 := At(100, 0.0), At(300, 0.0), At(150, 0.001);
    var e1 := Seeded(w0, w0, false, 0.0, 0.0, 0.0);
    var e3 := Seeded(w2, w2, true, 0.0, 0.0, 0.0);
    var done := Run(e3, [], []);
    assert ProcessStream(Flat, SmallCar, e3, []) == Success(done);
    assert [w2] == [w2] + [];
    Cons(Flat, SmallCar, e1, w2, [], Step(e3, None, []), done);
    Cons(Flat, SmallCar, e1, w1, [w2], Step(e1, None, []), done);
    Cons(Flat, SmallCar, Initial, w0, [w1, w2], Step(e1, None, []), done);
    assert [w0, w1, w2] == [w0] + [w1, w2];
    assert [w1, w2] == [w1] + [w2];
  }

  /**
   * Speeds are taken over the seconds component of the gap, which drops
   * whole days: a far sample exactly one day after the end of a moving
   * interval, or at the same second, cannot be ingested, and one a day and
   * a second later yields a speed over one second.
   */
  lemma SecondsComponentDropsDays()
    ensures var e := Seeded(At(0, 0.0), At(0, 0.0), true, 0.0, 0.0, 0.0);
      && ProcessWaypoint(Flat, SmallCar, e, At(SecondsPerDay, 1.0)) == Failure(ZeroDivision)
      && ProcessWaypoint(Flat, SmallCar, e, At(0, 1.0)) == Failure(ZeroDivision)
      && ProcessWaypoint(Flat, SmallCar, e, At(SecondsPerDay + 1, 1.0)).Success?
      && ProcessWaypoint(Flat, SmallCar, e, At(SecondsPerDay + 1, 1.0)).value.engine.currentSpeed == 111000.0
  {
    var e := Seeded(At(0, 0.0), At(0, 0.0), true, 0.0, 0.0, 0.0);
    assert Flat(At(0, 0.0), At(SecondsPerDay, 1.0)) == 111000.0;
    assert Flat(At(0, 0.0), At(0, 1.0)) == 111000.0;
    assert Flat(At(0, 0.0), At(SecondsPerDay + 1, 1.0)) == 111000.0;
    assert SecondsComponent(SecondsPerDay) == 0;
    assert SecondsComponent(SecondsPerDay + 1) == 1;
  }

  // The samples of the stream sampled once a minute, named by the minute after noon.
  const M00: Waypoint := At(Noon, 0.0)
  const M01: Waypoint := At(Noon + 60, 0.0)
  const M02: Waypoint := At(Noon + 120, 0.0)
  const M03: Waypoint := At(Noon + 180, 0.0)
  const M04: Waypoint := At(Noon + 240, 0.005)
  const M05: Waypoint := At(Noon + 300, 0.01)
  const M06: Waypoint := At(Noon + 360, 0.015)
  const M07: Waypoint := At(Noon + 420, 0.02)
  const M08: Waypoint := At(Noon + 480, 0.02)
  const M09: Waypoint := At(Noon + 540, 0.02)
  const M10: Waypoint := At(Noon + 600, 0.02)
  const M11: Waypoint := At(Noon + 660, 0.02)
  const M16: Waypoint := At(Noon + 960, 0.02)
  const M17: Waypoint := At(Noon + 1020, 0.025)
  const M18: Waypoint := At(Noon + 1080, 0.03)
  const M19: Waypoint := At(Noon + 1140, 0.035)
  const M20: Waypoint := At(Noon + 1200, 0.035)
  const M21: Waypoint := At(Noon + 1260, 0.035)
  const M22: Waypoint := At(Noon + 1320, 0.035)
  const M23: Waypoint := At(Noon + 1380, 0.035)
  const M25: Waypoint := At(Noon + 1500, 0.035)
  const M27: Waypoint := At(Noon + 1620, 0.035)
  const M29: Waypoint := At(Noon + 1740, 0.035)

  /** The first interval of that stream after its three 555 m segments. */
  const MinuteMoving: Engine := Seeded(M04, M07, true, 1665.0, 9.25, 9.25)

  /** The second interval after its two 555 m segments. */
  const SecondMoving: Engine := Seeded(M17, M19, true, 1110.0, 9.25, 9.25)

  const FirstMinuteTrip: Trip := Trip(M04, M07, 1665.0)
  const SecondMinuteTrip: Trip := Trip(M17, M19, 1110.0)

  /**
   * The stop-closing comparison is strict: jitter exactly the maximum stop
   * duration after the retained end leaves the interval open, and jitter a
   * minute later closes it and emits the trip.
   */
  lemma ExactStopDurationKeepsMoving()
    ensures ProcessWaypoint(Flat, SmallCar, MinuteMoving, At(Noon + 600, 0.02)) ==
      Success(Step(MinuteMoving, None, []))
    ensures ProcessWaypoint(Flat, SmallCar, MinuteMoving, At(Noon + 660, 0.02)) ==
      Success(Step(MinuteMoving.(moving := false),
                   Some(Trip(At(Noon + 240, 0.005), At(Noon + 420, 0.02), 1665.0)), []))
  {
  }

  /** Jitter up to exactly 180 s, the closing sample, then jitter while stopped. */
  lemma MinuteStreamTail()
    ensures ProcessStream(Flat, SmallCar, SecondMoving, [M20, M21, M22, M23, M25, M27, M29]) ==
      Success(Run(SecondMoving.(moving := false), [SecondMinuteTrip], []))
  {
    var stopped := SecondMoving.(moving := false);
    var done := Run(stopped, [], []);
    assert ProcessStream(Flat, SmallCar, stopped, []) == Success(done);
    Cons(Flat, SmallCar, stopped, M29, [], Step(stopped, None, []), done);
    Cons(Flat, SmallCar, stopped, M27, [M29], Step(stopped, None, []), done);
    Cons(Flat, SmallCar, stopped, M25, [M27] + [M29], Step(stopped, None, []), done);
    var after := [M25] + ([M27] + [M29]);
    Cons(Flat, SmallCar, SecondMoving, M23, after, Step(stopped, Some(SecondMinuteTrip), []), done);
    var closing := Run(stopped, [SecondMinuteTrip] + [], [] + []);
    Cons(Flat, SmallCar, SecondMoving, M22, [M23] + after, Step(SecondMoving, None, []), closing);
    Cons(Flat, SmallCar, SecondMoving, M21, [M22] + ([M23] + after), Step(SecondMoving, None, []), closing);
    Cons(Flat, SmallCar, SecondMoving, M20, [M21] + ([M22] + ([M23] + after)), Step(SecondMoving, None, []), closing);
    assert [M20] + ([M21] + ([M22] + ([M23] + after))) == [M20, M21, M22, M23, M25, M27, M29];
    assert [SecondMinuteTrip] + [] == [SecondMinuteTrip];
  }

  /** Jitter while stopped, then the second interval opens 555 m from the first one's end. */
  lemma SecondIntervalOpens()
    ensures ProcessWaypoint(Flat, SmallCar, MinuteMoving.(moving := false), M16) ==
      Success(Step(MinuteMoving.(moving := false), None, []))
    ensures ProcessWaypoint(Flat, SmallCar, MinuteMoving.(moving := false), M17) ==
      Success(Step(Seeded(M17, M17, true, 0.0, 9.25, 0.0), None, []))
  {
  }

  /** The two segments of the second interval, each 555 m in a minute. */
  lemma SecondIntervalSegments()
    ensures ProcessWaypoint(Flat, SmallCar, Seeded(M17, M17, true, 0.0, 9.25, 0.0), M18) ==
      Success(Step(Seeded(M17, M18, true, 555.0, 0.0, 9.25), None, []))
    ensures ProcessWaypoint(Flat, SmallCar, Seeded(M17, M18, true, 555.0, 0.0, 9.25), M19) ==
      Success(Step(SecondMoving, None, []))
  {
  }

  /** From the closed first interval to the second one after its two segments. */
  lemma SecondIntervalChunk(tail: seq<Waypoint>, rest: Run)
    requires ProcessStream(Flat, SmallCar, SecondMoving, tail) == Success(rest)
    ensures ProcessStream(Flat, SmallCar, MinuteMoving.(moving := false), [M16, M17, M18, M19] + tail) == Success(rest)
  {
    var stopped := MinuteMoving.(moving := false);
    var open := Seeded(M17, M17, true, 0.0, 9.25, 0.0);
    var once := Seeded(M17, M18, true, 555.0, 0.0, 9.25);
    SecondIntervalOpens();
    SecondIntervalSegments();
    Cons(Flat, SmallCar, once, M19, tail, Step(SecondMoving, None, []), rest);
    Cons(Flat, SmallCar, open, M18, [M19] + tail, Step(once, None, []), rest);
    Cons(Flat, SmallCar, stopped, M17, [M18] + ([M19] + tail), Step(open, None, []), rest);
    Cons(Flat, SmallCar, stopped, M16, [M17] + ([M18] + ([M19] + tail)), Step(stopped, None, []), rest);
    assert [M16] + ([M17] + ([M18] + ([M19] + tail))) == [M16, M17, M18, M19] + tail;
  }

  /** Jitter at one and two minutes after the end leaves the first interval open. */
  lemma FirstIntervalWaits()
    ensures ProcessWaypoint(Flat, SmallCar, MinuteMoving, M08) == Success(Step(MinuteMoving, None, []))
    ensures ProcessWaypoint(Flat, SmallCar, MinuteMoving, M09) == Success(Step(MinuteMoving, None, []))
  {
  }

  /** Jitter up to exactly 180 s keeps the first interval; the next sample closes it. */
  lemma FirstIntervalChunk(tail: seq<Waypoint>, rest: Run)
    requires ProcessStream(Flat, SmallCar, MinuteMoving.(moving := false), tail) == Success(rest)
    ensures ProcessStream(Flat, SmallCar, MinuteMoving, [M08, M09, M10, M11] + tail) ==
      Success(Run(rest.engine, [FirstMinuteTrip] + rest.trips, rest.alerts))
  {
    var stopped := MinuteMoving.(moving := false);
    FirstIntervalWaits();
    ExactStopDurationKeepsMoving();
    Cons(Flat, SmallCar, MinuteMoving, M11, tail, Step(stopped, Some(FirstMinuteTrip), []), rest);
    var closed := Run(rest.engine, [FirstMinuteTrip] + rest.trips, [] + rest.alerts);
    assert [] + rest.alerts == rest.alerts;
    Cons(Flat, SmallCar, MinuteMoving, M10, [M11] + tail, Step(MinuteMoving, None, []), closed);
    Cons(Flat, SmallCar, MinuteMoving, M09, [M10] + ([M11] + tail), Step(MinuteMoving, None, []), closed);
    Cons(Flat, SmallCar, MinuteMoving, M08, [M09] + ([M10] + ([M11] + tail)), Step(MinuteMoving, None, []), closed);
    assert [M08] + ([M09] + ([M10] + ([M11] + tail))) == [M08, M09, M10, M11] + tail;
  }

  /** The three segments of the first interval, each 555 m in a minute. */
  lemma FirstIntervalSegments()
    ensures ProcessWaypoint(Flat, SmallCar, Seeded(M04, M04, true, 0.0, 0.0, 0.0), M05) ==
      Success(Step(Seeded(M04, M05, true, 555.0, 0.0, 9.25), None, []))
    ensures ProcessWaypoint(Flat, SmallCar, Seeded(M04, M05, true, 555.0, 0.0, 9.25), M06) ==
      Success(Step(Seeded(M04, M06, true, 1110.0, 9.25, 9.25), None, []))
    ensures ProcessWaypoint(Flat, SmallCar, Seeded(M04, M06, true, 1110.0, 9.25, 9.25), M07) ==
      Success(Step(MinuteMoving, None, []))
  {
  }

  /** From the seeded engine, 555 m away, to the first interval after its three segments. */
  lemma FirstMovementChunk(tail: seq<Waypoint>, rest: Run)
    requires ProcessStream(Flat, SmallCar, MinuteMoving, tail) == Success(rest)
    ensures ProcessStream(Flat, SmallCar, Seeded(M00, M00, false, 0.0, 0.0, 0.0), [M04, M05, M06, M07] + tail) ==
      Success(rest)
  {
    var seeded := Seeded(M00, M00, false, 0.0, 0.0, 0.0);
    var open := Seeded(M04, M04, true, 0.0, 0.0, 0.0);
    var once := Seeded(M04, M05, true, 555.0, 0.0, 9.25);
    var twice := Seeded(M04, M06, true, 1110.0, 9.25, 9.25);
    FirstIntervalSegments();
    assert ProcessWaypoint(Flat, SmallCar, seeded, M04) == Success(Step(open, None, []));
    Cons(Flat, SmallCar, twice, M07, tail, Step(MinuteMoving, None, []), rest);
    Cons(Flat, SmallCar, once, M06, [M07] + tail, Step(twice, None, []), rest);
    Cons(Flat, SmallCar, open, M05, [M06] + ([M07] + tail), Step(once, None, []), rest);
    Cons(Flat, SmallCar, seeded, M04, [M05] + ([M06] + ([M07] + tail)), Step(open, None, []), rest);
    assert [M04] + ([M05] + ([M06] + ([M07] + tail))) == [M04, M05, M06, M07] + tail;
  }

  /** From a fresh engine through three minutes of standing still. */
  lemma StandingChunk(tail: seq<Waypoint>, rest: Run)
    requires ProcessStream(Flat, SmallCar, Seeded(M00, M00, false, 0.0, 0.0, 0.0), tail) == Success(rest)
    ensures ProcessStream(Flat, SmallCar, Initial, [M00, M01, M02, M03] + tail) == Success(rest)
  {
    var seeded := Seeded(M00, M00, false, 0.0, 0.0, 0.0);
    assert ProcessWaypoint(Flat, SmallCar, seeded, M01) == Success(Step(seeded, None, []));
    assert ProcessWaypoint(Flat, SmallCar, seeded, M02) == Success(Step(seeded, None, []));
    assert ProcessWaypoint(Flat, SmallCar, seeded, M03) == Success(Step(seeded, None, []));
    Cons(Flat, SmallCar, seeded, M03, tail, Step(seeded, None, []), rest);
    Cons(Flat, SmallCar, seeded, M02, [M03] + tail, Step(seeded, None, []), rest);
    Cons(Flat, SmallCar, seeded, M01, [M02] + ([M03] + tail), Step(seeded, None, []), rest);
    Cons(Flat, SmallCar, Initial, M00, [M01] + ([M02] + ([M03] + tail)), Step(seeded, None, []), rest);
    assert [M00] + ([M01] + ([M02] + ([M03] + tail))) == [M00, M01, M02, M03] + tail;
  }

  /**
   * The stream sampled once a minute, with a five-minute gap between its
   * intervals, written as its phases: standing, the first movement, the
   * first stop, the second movement, the second stop.
   */
  const MinuteStream: seq<Waypoint> :=
    [M00, M01, M02, M03] + [M04, M05, M06, M07] + [M08, M09, M10, M11]
    + [M16, M17, M18, M19] + [M20, M21, M22, M23, M25, M27, M29]

  /** The phases of the stream, regrouped from the back as the chunk lemmas consume them. */
  lemma MinuteStreamPhases()
    ensures MinuteStream == [M00, M01, M02, M03] + ([M04, M05, M06, M07] + ([M08, M09, M10, M11]
      + ([M16, M17, M18, M19] + [M20, M21, M22, M23, M25, M27, M29])))
  {
  }

  /**
   * The stream sampled once a minute: two intervals, each closed by jitter
   * 240 s after its end and not by jitter exactly 180 s after it, give two
   * trips of 1665 m and 1110 m, written as 1665 and 1110, with no alerts.
   */
  lemma TwoMinuteTrips()
    ensures ProcessStream(Flat, SmallCar, Initial, MinuteStream) ==
      Success(Run(Seeded(At(Noon + 1020, 0.025), At(Noon + 1140, 0.035), false, 1110.0, 9.25, 9.25),
                  [Trip(At(Noon + 240, 0.005), At(Noon + 420, 0.02), 1665.0),
                   Trip(At(Noon + 1020, 0.025), At(Noon + 1140, 0.035), 1110.0)],
                  []))
    ensures ToRecord(FirstMinuteTrip).distance == 1665
    ensures ToRecord(SecondMinuteTrip).distance == 1110
    // jitter exactly 180 s after either interval's end keeps it open, and the next sample closes it
    ensures ProcessWaypoint(Flat, SmallCar, MinuteMoving, M10) == Success(Step(MinuteMoving, None, []))
    ensures ProcessWaypoint(Flat, SmallCar, MinuteMoving, M11) ==
      Success(Step(MinuteMoving.(moving := false), Some(FirstMinuteTrip), []))
    ensures ProcessWaypoint(Flat, SmallCar, SecondMoving, M22) == Success(Step(SecondMoving, None, []))
    ensures ProcessWaypoint(Flat, SmallCar, SecondMoving, M23) ==
      Success(Step(SecondMoving.(moving := false), Some(SecondMinuteTrip), []))
  {
    var t1 := [M20, M21, M22, M23, M25, M27, M29];
    var t2 := [M16, M17, M18, M19] + t1;
    var t3 := [M08, M09, M10, M11] + t2;
    var t4 := [M04, M05, M06, M07] + t3;
    var last := Run(SecondMoving.(moving := false), [SecondMinuteTrip], []);
    MinuteStreamTail();
    SecondIntervalChunk(t1, last);
    FirstIntervalChunk(t2, last);
    var whole := Run(last.engine, [FirstMinuteTrip] + last.trips, last.alerts);
    FirstMovementChunk(t3, whole);
    StandingChunk(t4, whole);
    MinuteStreamPhases();
    assert [FirstMinuteTrip] + [SecondMinuteTrip] == [FirstMinuteTrip, SecondMinuteTrip];
  }
}
