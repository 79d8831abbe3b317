/** The persisted form of a trip: its distance is written as whole meters. */
module Serialization {
  import opened Waypoints

  /** A trip record as written out, with the distance truncated toward zero. */
  datatype TripRecord = TripRecord(start: Waypoint, end: Waypoint, distance: int)

  /** The integer part of `x`, dropping the fraction toward zero. */
  function TruncateTowardZero(x: real): (n: int)
    ensures x >= 0.0 ==> 0 <= n && n as real <= x < n as real + 1.0
    ensures x < 0.0 ==> n <= 0 && n as real - 1.0 < x <= n as real
  {
    if x >= 0.0 then x.Floor else -((-x).Floor)
  }

  /**
   * The record of a trip: same boundaries, distance in whole meters. A trip
   * of at least one meter keeps a positive distance.
   */
  function ToRecord(t: Trip): (r: TripRecord)
    ensures r.start == t.start && r.end == t.end
    ensures t.distance >= 0.0 ==>
      r.distance as real <= t.distance < r.distance as real + 1.0
    ensures t.distance >= 1.0 ==> r.distance >= 1
  {
    TripRecord(t.start, t.end, TruncateTowardZero(t.distance))
  }
}
