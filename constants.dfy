/**
 * The unit constants the detector and the projector import from
 * src/constants.py. That file is not part of this model; the values are the
 * mean spherical Earth radius, the international nautical mile and the
 * international foot.
 */
module Constants {
  const EARTH_RADIUS_M: real := 6371000.0
  const NM_TO_M: real := 1852.0
  const FT_TO_M: real := 0.3048
}
