/** Geographic values exchanged between the map client and the routing server. */
module Geo {

  /** A point as `[lat, lon]` (client) or `{lat, lon}` (server JSON). */
  datatype LatLon = LatLon(lat: real, lon: real)

  /** One geocoding suggestion: `{display_name, lat, lon}`. */
  datatype Candidate = Candidate(displayName: string, lat: real, lon: real)
}
