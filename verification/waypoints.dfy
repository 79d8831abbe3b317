/**
 * The values the trip extractor works on: timestamped position samples,
 * the trips cut from them, and elapsed time between two samples.
 *
 * Timestamps are whole seconds on a UTC time line; the extractor only ever
 * subtracts and compares them.
 */
module Waypoints {
  import opened Wrappers

  /** One GPS sample. */
  datatype Waypoint = Waypoint(timestamp: int, lat: real, lng: real)

  /** A closed movement interval with its accumulated path length in meters. */
  datatype Trip = Trip(start: Waypoint, end: Waypoint, distance: real)

  /**
   * The two ways ingestion can fail: `NotSorted` is the extractor's own
   * ProcessingError, `ZeroDivision` the arithmetic error raised when a speed
   * is computed over a zero seconds component.
   */
  datatype Error = NotSorted | ZeroDivision

  /**
   * The geodesic distance in meters between two samples. It is an external
   * collaborator, so every operation takes it as a parameter and no property
   * below depends on how it is computed.
   */
  type DistanceFn = (Waypoint, Waypoint) -> real

  /** Seconds in one day: the modulus of a time delta's seconds component. */
  const SecondsPerDay: int := 86400

  /**
   * Elapsed time from `a` to `b` in seconds; fails with `NotSorted` exactly
   * when `b` is earlier than `a`.
   */
  function Duration(a: Waypoint, b: Waypoint): (r: Result<int, Error>)
    ensures r.Failure? <==> b.timestamp < a.timestamp
    ensures r.Failure? ==> r.error == NotSorted
    ensures r.Success? ==> r.value >= 0 && a.timestamp + r.value == b.timestamp
  {
    var elapsed := b.timestamp - a.timestamp;
    if elapsed < 0 then Failure(NotSorted) else Success(elapsed)
  }

  /**
   * The seconds component of a time delta of `elapsed` seconds: what is left
   * once whole days are taken out, so it is not the total for gaps of a day
   * or more.
   */
  function SecondsComponent(elapsed: int): (s: int)
    ensures 0 <= s < SecondsPerDay
    ensures (elapsed - s) % SecondsPerDay == 0
    ensures 0 <= elapsed < SecondsPerDay ==> s == elapsed
  {
    elapsed % SecondsPerDay
  }

  /** Every later sample is no earlier than every earlier one. */
  predicate Sorted(ws: seq<Waypoint>) {
    forall i, j :: 0 <= i < j < |ws| ==> ws[i].timestamp <= ws[j].timestamp
  }
}
