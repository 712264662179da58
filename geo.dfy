/** The floating-point geometry and the random draws the server uses, as
    parameters: great-circle distance and compass bearing are functions the
    caller supplies, and a `Jitter` carries one set of random display values. */
module Geo {

  /** Distance in kilometres from (lat1, lon1) to (lat2, lon2). */
  type DistanceFn = (real, real, real, real) -> real

  /** Initial bearing in degrees from (lat1, lon1) towards (lat2, lon2). */
  type BearingFn = (real, real, real, real) -> real

  datatype Geometry = Geometry(distanceKm: DistanceFn, bearing: BearingFn)

  /** One draw of the random display values: the offset of the shown position
      from the departure airport (distance times cosine and sine of a random
      angle), and the cosmetic altitude, ground speed and vertical rate. */
  datatype Jitter = Jitter(
    offsetLat: real,
    offsetLon: real,
    altitude: real,
    speed: real,
    verticalSpeed: real)

  /** The ranges the random generator draws from: an offset of 0.3 to 1.0
      degrees, 28,000 to 38,000 ft, 420 to 520 kt, -500 to +500 ft/min. */
  predicate InDrawRange(j: Jitter) {
    && 0.09 <= j.offsetLat * j.offsetLat + j.offsetLon * j.offsetLon <= 1.0
    && 28000.0 <= j.altitude <= 38000.0
    && 420.0 <= j.speed <= 520.0
    && -500.0 <= j.verticalSpeed <= 500.0
  }

  /** The point a displayed heading aims at: the arrival coordinates, or a point
      5 degrees north-east of the departure when the arrival has none (0, 0). */
  function HeadingTarget(depLat: real, depLon: real, arrLat: real, arrLon: real): (real, real)
  {
    if arrLat == 0.0 && arrLon == 0.0 then (depLat + 5.0, depLon + 5.0) else (arrLat, arrLon)
  }
}
