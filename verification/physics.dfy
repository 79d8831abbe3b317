/**
 * The physical plausibility checks run between two consecutive segments of
 * a trip. They only feed diagnostics; nothing in the segmentation depends
 * on their verdict.
 */
module Physics {
  import opened Waypoints

  /** The vehicle class whose limits the checks compare against. */
  datatype Vehicle = Vehicle(
    power: real,            // W
    mass: real,             // kg
    maxDeceleration: real,  // m/s^2
    maxSpeed: real          // m/s
  )

  /** The hard-coded limits of a small car. */
  const SmallCar: Vehicle := Vehicle(60000.0, 1700.0, 3.0, 70.0)

  /** Kinetic energy in joules of the vehicle at `speed` m/s. */
  function KineticEnergy(v: Vehicle, speed: real): real {
    v.mass * (speed * speed) / 2.0
  }

  /**
   * Whether going from `speedStart` to `speedEnd` over a time delta of
   * `elapsed` seconds is within the vehicle's limits. Only the delta's
   * seconds component is used; when it is zero there is too little
   * resolution to judge and the change is accepted. A slow-down is judged
   * against the maximum deceleration, a speed-up against the energy the
   * engine can deliver in the time.
   */
  function AccelerationFeasible(v: Vehicle, speedStart: real, speedEnd: real, elapsed: int): (ok: bool)
    // the same verdict, with the divisions multiplied out
    ensures ok <==>
      || SecondsComponent(elapsed) == 0
      || (speedEnd <= speedStart
          && speedStart - speedEnd <= v.maxDeceleration * (SecondsComponent(elapsed) as real))
      || (speedEnd > speedStart
          && v.mass * (speedEnd * speedEnd - speedStart * speedStart)
             <= 2.0 * v.power * (SecondsComponent(elapsed) as real))
  {
    var seconds := SecondsComponent(elapsed);
    if seconds < 1 then
      true
    else if speedEnd <= speedStart then
      (speedStart - speedEnd) / (seconds as real) <= v.maxDeceleration
    else
      var gain := KineticEnergy(v, speedEnd) - KineticEnergy(v, speedStart);
      gain / (seconds as real) <= v.power
  }

  /** Whether `speed` exceeds the vehicle's top speed. */
  predicate SpeedTooHigh(v: Vehicle, speed: real) {
    speed > v.maxSpeed
  }

  /**
   * With at least one second of resolution, a steady speed is always
   * feasible and a slow-down is feasible exactly when it sheds at most the
   * vehicle's maximum deceleration per second.
   */
  lemma SmallCarBraking(speedStart: real, speedEnd: real, elapsed: int)
    requires SecondsComponent(elapsed) >= 1
    requires speedEnd <= speedStart
    ensures AccelerationFeasible(SmallCar, speedStart, speedEnd, elapsed) <==>
      speedStart - speedEnd <= 3.0 * (SecondsComponent(elapsed) as real)
    ensures speedEnd == speedStart ==> AccelerationFeasible(SmallCar, speedStart, speedEnd, elapsed)
  {
  }

  /**
   * A car of 1700 kg and 60 kW may go from standstill to 10 m/s in two
   * seconds but not in one.
   */
  lemma SmallCarStandingStart()
    ensures AccelerationFeasible(SmallCar, 0.0, 10.0, 2)
    ensures !AccelerationFeasible(SmallCar, 0.0, 10.0, 1)
  {
  }

  /**
   * Because only the seconds component is looked at, a gap of a whole
   * number of days is never judged, whatever the speeds.
   */
  lemma WholeDayGapsPass(v: Vehicle, speedStart: real, speedEnd: real, days: nat)
    ensures AccelerationFeasible(v, speedStart, speedEnd, days * SecondsPerDay)
  {
  }
}
