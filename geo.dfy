/** Map coordinates, shared by the address labels, the map calls and the screen. */
module Geo {

  /**
   * A map coordinate (`LatLng`), in degrees. The model compares coordinates and
   * hands them to the map; it does no arithmetic on them.
   */
  datatype LatLng = LatLng(latitude: real, longitude: real)
}
