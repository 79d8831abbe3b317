# Trip extraction: the stream-segmentation engine in Dafny

This project models the core of a trip extractor for vehicle tracking. The
extractor reads a time-ordered stream of GPS waypoints and cuts it into trips.
It drops GPS jitter below 15 m. It opens a movement interval on the first real
movement and extends it segment by segment, summing the path distance. It
closes the interval when a jitter sample arrives more than 180 s after the last
retained waypoint, and emits a trip if the interval covered any distance.
Between segments it runs two physics checks, speed and acceleration. These only
raise advisories.

The model is functional. The engine state is an immutable `Engine` value, and
`Segmentation.ProcessWaypoint` is the pure step function. It returns either an
error or a `Step`: the new state, an optional trip and the alerts raised.
`Segmentation.ProcessStream` folds the step over a whole stream, as the batch
driver does.

Modules:

- `Wrappers`: `Option` and `Result`.
- `Waypoints`: waypoints, trips, the error kinds, elapsed time, and a time
  delta's seconds component.
- `Physics`: vehicle limits and the acceleration feasibility check.
- `Segmentation`: the engine state, the step, the fold, and single-step
  properties.
- `Streams`: properties of whole streams.
- `Serialization`: the written trip record and its truncated distance.
- `Scenarios`: concrete runs of the test streams.

Modelling choices:

- **Distance.** The geodesic distance is an external library, so every
  operation takes it as a parameter `dist: (Waypoint, Waypoint) -> real`. No
  property depends on how it is computed, and none needs it to be
  non-negative. A segment is only ever added when it is at least 15 m long.
- **Test metric.** The scenarios use a flat stand-in metric of 111 km per
  degree. The 22 m and 55 m trips of the tests come out of it exactly. The
  ellipsoidal figures of the two later test streams (333936, 1669, 1113)
  cannot. Those streams are stated in full as lemmas, with the same trip
  boundaries and the flat lengths 332977.8, 1665 and 1110 m in their place.
- **Timestamps.** Timestamps are whole seconds.
- **Seconds component.** Python's `timedelta.seconds` is the seconds
  component of a delta, not its total. It is the elapsed time modulo 86400 and
  is modelled as `SecondsComponent`. Dafny's `%` is Euclidean, which matches
  Python's normalisation of deltas.
- **Zero division.** The continuation step divides by the seconds component.
  It fails with an explicit `ZeroDivision` error when that component is 0.
  This happens when a waypoint 15 m or more away arrives, while moving, in
  the same second as the retained end or a whole number of days after it.
  The stop-closing test compares the full elapsed time with 180 s.
- **Unseeded state.** `Unseeded` is the state before the first waypoint. The
  source tests `not self.start`, and this is true only before that waypoint.
- **Vehicle limits.** The source hard-codes the small-car limits. Here they
  are a `Vehicle` parameter, with `Physics.SmallCar` holding the source's
  values. This makes "the checks never steer the segmentation" a lemma over
  any two vehicles.
- **Alerts.** The two `print` diagnostics become `Alert` values. Each alert
  names the segment it was raised on.

Behaviour of the code worth knowing:

- **Ordering check.** The code compares a waypoint only with the last
  retained waypoint (`self.end`), not with the one ingested just before it.
  So after a discarded jitter sample, an earlier waypoint is accepted
  (`Scenarios.OutOfOrderSampleAccepted`).
- **Touching trips.** Because of this, successive trips are only guaranteed
  not to overlap: one may start at the very second the previous one ended
  (`Streams.TripsChronological`). On sorted input the gap between trips is
  more than 180 s (`Streams.SortedTripsSeparated`).
- **Previous speed.** A new interval resets `current_speed` but keeps
  `previous_speed`.
- **Strict stop duration.** A jitter sample exactly 180 s after the retained
  end does not close the interval; one more than 180 s after it does
  (`Scenarios.ExactStopDurationKeepsMoving`).
- **Skipped acceleration check.** `acceleration_feasible` skips its check when
  the seconds component is 0, which includes whole-day gaps
  (`Physics.WholeDayGapsPass`). Inside the engine this branch is never
  reached: with a zero seconds component the speed division raises first, so
  the lemma describes the function on its own, not engine behaviour.

## Model

| member | source | states |
|---|---|---|
| `Waypoints.Duration` | simple_stream_processor.py:28-33 | Fails with the not-sorted error exactly when the second waypoint is earlier than the first. Otherwise returns the non-negative number of seconds from the first to the second. |
| `Waypoints.SecondsComponent` | simple_stream_processor.py:151 | The seconds component of a delta lies in [0, 86400). It differs from the delta by whole days, and equals the delta when the delta is shorter than a day. |
| `Physics.AccelerationFeasible` | simple_stream_processor.py:36-60 | Always feasible when the seconds component is 0. Otherwise a slow-down is feasible iff it sheds at most the maximum deceleration per second. A speed-up is feasible iff the kinetic energy gained is at most the power times the seconds. The ensures states this without divisions. |
| `Physics.SmallCarBraking` | simple_stream_processor.py:49-53 | For the small car, with at least one second of resolution, a slow-down is feasible iff it is at most 3 m/s per second. A steady speed is always feasible. |
| `Physics.SmallCarStandingStart` | simple_stream_processor.py:55-60 | 0 to 10 m/s is within 60 kW for a 1700 kg car in two seconds, but not in one. |
| `Physics.WholeDayGapsPass` | simple_stream_processor.py:46-47 | A gap of any whole number of days passes the acceleration check, whatever the speeds. Inside the engine such a gap raises the division error before the check is reached. |
| `Segmentation.PhysicsAlerts` | simple_stream_processor.py:153-161 | A speed alert is raised iff the new speed exceeds the top speed. An acceleration alert is raised iff the speed change is infeasible. Every alert raised is one of these two, for this segment and these speeds, and each is raised at most once: the count is the number of failed checks. |
| `Segmentation.ProcessWaypoint` | simple_stream_processor.py:109-163 | Only a seeded engine fails. It fails not-sorted iff the waypoint is earlier than the retained end, and zero-division iff a far waypoint arrives while moving with a zero seconds component. A trip comes out iff a moving interval with positive distance meets a jitter sample more than 180 s after its end. That trip is (start, end, distance). The end never moves back, the boundaries stay ordered, and the distance stays 0 or at least 15 m. |
| `Segmentation.FirstWaypointSeeds` | simple_stream_processor.py:101-114 | On a fresh engine the first waypoint becomes both start and end, the engine stays stopped with nothing accumulated, and no trip comes out. |
| `Segmentation.ClosureStopsAndKeepsBounds` | simple_stream_processor.py:118-132 | When the closing rule fires, the engine stops and keeps start, end, distance and speeds. No alert is raised, and a trip comes out iff the distance is positive. |
| `Segmentation.NoiseIsIgnored` | simple_stream_processor.py:134-136 | A jitter sample that does not close the interval leaves the state unchanged and emits nothing. Feeding it again gives the same result. |
| `Segmentation.NewIntervalStarts` | simple_stream_processor.py:138-144 | From stopped, a waypoint at least 15 m away becomes both start and end. The engine starts moving with distance 0 and current speed 0, previous speed is unchanged, and no trip comes out. |
| `Segmentation.ContinuationExtends` | simple_stream_processor.py:145-161 | While moving, a waypoint at least 15 m away becomes the end and adds its segment to the distance, so the distance grows by at least 15 m. The previous speed takes the old current speed. The new speed is the segment over the seconds component. The alerts returned are exactly those the two physics checks raise for this segment, from the old current speed to the new one. |
| `Segmentation.AlertsOnlyOnContinuation` | simple_stream_processor.py:145-161 | Alerts are raised only when a moving interval is extended, and only for the segment from the old end to the new waypoint. |
| `Segmentation.StepIgnoresVehicle` | simple_stream_processor.py:153-163 | Under any two vehicle limits, a step fails alike or reaches the same state and trip. The limits decide only the alerts. |
| `Segmentation.ProcessStream` | extract_trips.py:33-44 | Every trip of an accepted stream has positive distance, indeed at least 15 m, and has its start no later than its end. There are at most as many trips as waypoints. The retained end never moves back. |
| `Streams.StreamSplit` | extract_trips.py:36-44 | Feeding a + b is the same as feeding a, then feeding b to the engine a left behind, and joining the trips and alerts. |
| `Streams.FloorAdvances` | simple_stream_processor.py:116-144 | A step never moves back the earliest time a future trip can start. A trip it emits starts at or after that time, and ends exactly at the new one. |
| `Streams.TripsChronological` | simple_stream_processor.py:116-144 | The trips of any accepted stream, sorted or not, are in order: each ends no later than any later trip starts. |
| `Streams.TripStartsInStream` | simple_stream_processor.py:138-141 | Every emitted trip starts at the start of the interval already open, or at a waypoint of the stream. |
| `Streams.SortedTripsSeparated` | simple_stream_processor.py:118-132 | On sorted input, each trip ends more than 180 s before any later trip starts. |
| `Streams.SortedNeverNotSorted` | simple_stream_processor.py:116 | A sorted stream that starts no earlier than the retained end never fails the ordering check. |
| `Streams.WithinOneDayAccepted` | simple_stream_processor.py:145-151 | A stream with strictly increasing timestamps, all within one day of the retained end, never fails. |
| `Streams.FreshWithinOneDayAccepted` | simple_stream_processor.py:145-151 | A fresh engine accepts every stream with strictly increasing timestamps spanning less than a day. |
| `Streams.JitterChangesNothing` | simple_stream_processor.py:134-136 | Any number of samples within 15 m of the retained end, no earlier than it, leave the engine unchanged and emit nothing. While moving, the samples must also be at most 180 s after the end. |
| `Streams.StreamIgnoresVehicle` | simple_stream_processor.py:153-163 | Under any two vehicle limits, a whole stream fails alike or ends in the same state with the same trips. |
| `Streams.Retained` | simple_stream_processor.py:134-149 | The waypoints an interval keeps are drawn from the stream. The first is at least 15 m from the anchor, and each one is at least 15 m from the one kept before it. |
| `Streams.MovingFollowsRetainedPath` | simple_stream_processor.py:145-149 | While no closure intervenes, a moving interval keeps its start and ends at the last retained waypoint. It adds exactly the length of the retained path to its distance. |
| `Streams.TripDistanceIsRetainedPathLength` | simple_stream_processor.py:118-149 | An interval opened at w, extended by a stream and closed by late jitter emits a single trip from w to the last retained waypoint. Its distance is the retained path length, not the straight line. If that length is 0, no trip comes out. |
| `Serialization.TruncateTowardZero` | simple_stream_processor.py:96 | Drops the fractional part toward zero, for positive and negative distances alike. |
| `Serialization.ToRecord` | simple_stream_processor.py:92-97 | The record keeps the trip's start and end. Its distance is the whole meters of the trip's distance, and it is at least 1 when the trip is at least 1 m long. |
| `Scenarios.SpuriousMovementEmitsNothing` | simple_stream_processor_test.py:13-19 | Two 11.1 m hops and then a four-minute standstill open and close an interval with no distance, so no trip is emitted. The engine ends stopped at the third waypoint with nothing accumulated. |
| `Scenarios.OneShortTrip` | simple_stream_processor_test.py:20-31 | The test stream emits one trip, from the third to the fifth waypoint. It is 22.2 m long and written as 22, and no alert is raised. |
| `Scenarios.PausedSharpSegment` | simple_stream_processor.py:153-161 | A 22.2 m segment in one second, right after a slow one, raises the acceleration alert and is still added to the trip. |
| `Scenarios.PausedTrip` | simple_stream_processor_test.py:33-50 | Jitter 179 s after the end leaves the open interval unchanged, and jitter 181 s after it closes the interval and emits the trip. The test stream emits one trip of 55.5 m, written as 55, with the acceleration alert raised along the way. |
| `Scenarios.ExactStopDurationKeepsMoving` | simple_stream_processor_test.py:70-77 | After three 555 m segments a minute apart, jitter exactly 180 s after the end leaves the interval open and unchanged. Jitter 240 s after it closes the interval and emits the trip from 12:04:00 to 12:07:00. |
| `Scenarios.TwoMinuteTrips` | simple_stream_processor_test.py:65-97 | The stream sampled once a minute emits two trips, 12:04:00 to 12:07:00 and 12:17:00 to 12:19:00, written as 1665 and 1110 under the flat metric. For each interval, the jitter exactly 180 s after its end leaves it open and unchanged, and the next sample closes it and emits its trip. No alert is raised, and the engine ends stopped with the second interval's bounds. |
| `Scenarios.PatchyNetworkTrip` | simple_stream_processor_test.py:50-64 | Samples two hours apart are segments, not stops. Jitter 179 s after the end leaves the interval open and unchanged, the sample an hour after the end closes it and emits the trip, and the stream emits one trip from 12:00:02 to 18:00:00, written as 332977 under the flat metric, with no alerts. |
| `Scenarios.OutOfOrderSampleAccepted` | simple_stream_processor.py:116 | An unsorted stream is accepted: a waypoint earlier than the previous, discarded one passes the check against the retained end. |
| `Scenarios.SecondsComponentDropsDays` | simple_stream_processor.py:151 | While moving, a far waypoint exactly one day later, or in the same second, fails with zero division. One a day and a second later gets a speed taken over one second. |

## Left out

- Geodesic distance: computed by a foreign library in floating point, so it is a function parameter here.
- ISO-8601 parsing and timestamp rendering: foreign parsing and string formatting. Timestamps are whole seconds.
- Sub-second timestamps: not representable with whole seconds. A sub-second gap would also have a zero seconds component.
- Waypoint JSON output: the waypoint's own JSON form and the trip's `__repr__` are formatting only.
- Batch driver file handling: argument parsing and JSON file reading and writing in the driver. Only its loop is kept, as `Segmentation.ProcessStream`.
- Processor base classes: the base classes `Waypoint`, `Trip` and `StreamProcessor` are not part of this model. Local datatypes stand in for them.
- Floating-point rounding: distances, speeds and energies are exact reals.
- Print output: the two diagnostics are returned as `Alert` values rather than printed text.
- Segmentation.ProcessWaypoint: on zero division it returns only the error. The source has already updated `end`, `distance` and `previous_speed` before it raises, but the run ends there, so that state is never observed.
- Trailing trip: an interval still open when the stream ends is never emitted, as in the source. No flush operation is added.
