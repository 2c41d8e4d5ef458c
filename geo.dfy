/** The rectangular region the service covers (Cameroon). */
module Geo {

  const MIN_LAT: real := 1.65
  const MAX_LAT: real := 13.08
  const MIN_LNG: real := 8.4
  const MAX_LNG: real := 16.2

  /** `isWithinCameroon`: both bounds are inclusive. */
  predicate WithinCameroon(lat: real, lng: real)
  {
    MIN_LAT <= lat <= MAX_LAT && MIN_LNG <= lng <= MAX_LNG
  }

  /** The coordinate-range check of the HTTP layer: latitude in [-90, 90], longitude in [-180, 180]. */
  predicate ValidCoordinates(lat: real, lng: real)
  {
    -90.0 <= lat <= 90.0 && -180.0 <= lng <= 180.0
  }

}
