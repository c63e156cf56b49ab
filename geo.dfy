/** Geographic points as the game passes them around: `[lat, lng]` pairs in degrees. */
module Geo {

  /** A latitude/longitude pair. Latitudes come from map clicks or the round
      catalogue; longitudes may be any real (a wrapped map yields values
      outside [-180, 180)). */
  datatype LatLng = LatLng(lat: real, lng: real)

}
