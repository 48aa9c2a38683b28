/** Unit conversion of models/utils/math.py: travel time in seconds for a
    distance in kilometres at a velocity in knots. */
module Units {

  /** One knot is one nautical mile (1.852 km) per hour. */
  const KmhPerKnot: real := 1.852

  const SecondsPerHour: real := 3600.0

  function Max(a: real, b: real): real {
    if a >= b then a else b
  }

  /** `get_time_in_seconds`: the time needed to cover `distanceKm` at
      `velocityKnots`.  The result is characterised by the defining equation
      time * speed = distance (in seconds and km/h), which fixes it uniquely
      because the speed is non-zero. */
  function TimeInSeconds(distanceKm: real, velocityKnots: real): (r: real)
    requires velocityKnots != 0.0
    ensures r * (KmhPerKnot * velocityKnots) == distanceKm * SecondsPerHour
  {
    distanceKm / (KmhPerKnot * velocityKnots) * SecondsPerHour
  }

  /** A positive distance at a positive velocity takes a positive time. */
  lemma TimeIsPositive(distanceKm: real, velocityKnots: real)
    requires distanceKm > 0.0 && velocityKnots > 0.0
    ensures TimeInSeconds(distanceKm, velocityKnots) > 0.0
  {
    var speed := KmhPerKnot * velocityKnots;
    assert speed > 0.0;
    assert distanceKm / speed > 0.0;
  }

  /** A strictly faster vessel needs strictly less time for the same positive
      distance. */
  lemma TimeStrictlyDecreasesWithVelocity(distanceKm: real, slow: real, fast: real)
    requires distanceKm > 0.0 && 0.0 < slow < fast
    ensures TimeInSeconds(distanceKm, fast) < TimeInSeconds(distanceKm, slow)
  {
    var rs := TimeInSeconds(distanceKm, slow);
    var rf := TimeInSeconds(distanceKm, fast);
    TimeIsPositive(distanceKm, fast);
    assert rs * (KmhPerKnot * slow) == rf * (KmhPerKnot * fast);
    assert rs * slow == rf * fast;
    InverselyProportional(rs, rf, slow, fast);
  }

  /** Two positive quantities whose products with `slow < fast` agree are
      ordered the other way round. */
  lemma InverselyProportional(rs: real, rf: real, slow: real, fast: real)
    requires rs * slow == rf * fast && rf > 0.0 && 0.0 < slow < fast
    ensures rf < rs
  {
    assert rf * slow < rf * fast;
    assert (rs - rf) * slow == rs * slow - rf * slow;
  }

  /** Coupling to the minimum of two velocities never shortens the trip. */
  lemma MinVelocityNeverShorter(distanceKm: real, own: real, other: real)
    requires distanceKm > 0.0 && own > 0.0 && other > 0.0
    ensures TimeInSeconds(distanceKm, if own <= other then own else other)
            >= TimeInSeconds(distanceKm, own)
  {
    if other < own {
      TimeStrictlyDecreasesWithVelocity(distanceKm, other, own);
    }
  }

  /** Travel time is linear in the distance: k times the distance takes k
      times as long. */
  lemma TimeIsLinearInDistance(distanceKm: real, k: real, velocityKnots: real)
    requires velocityKnots != 0.0
    ensures TimeInSeconds(k * distanceKm, velocityKnots)
            == k * TimeInSeconds(distanceKm, velocityKnots)
  {
    var speed := KmhPerKnot * velocityKnots;
    var r := TimeInSeconds(distanceKm, velocityKnots);
    var rk := TimeInSeconds(k * distanceKm, velocityKnots);
    assert speed != 0.0;
    assert rk * speed == k * (r * speed);
    assert (rk - k * r) * speed == 0.0;
  }

  /** The calibration the experiments rely on: 19.8164 km is exactly one hour
      at 10.7 knots, 3210 s at 12 knots, and twice that distance is two hours
      at 10.7 knots. */
  lemma CalibrationDistances()
    ensures TimeInSeconds(19.8164, 10.7) == 3600.0
    ensures TimeInSeconds(19.8164, 12.0) == 3210.0
    ensures TimeInSeconds(39.6328, 10.7) == 7200.0
  {
  }
}
