/**
 * Coordinates and the distance between them.
 *
 * The system computes the great-circle distance with the haversine formula in
 * floating point. That computation is not modelled: every operation that needs
 * a distance receives it as a function, so the properties proved below hold for
 * whatever distance the evaluator returns.
 */
module Geo {

  /** A point given by latitude and longitude in degrees. */
  datatype Location = Location(latitude: real, longitude: real)

  /** The distance in kilometres from the first point to the second. */
  type DistanceOracle = (Location, Location) -> real
}
