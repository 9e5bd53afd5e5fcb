/**
 * Geographic values shared by the map and raster components: JavaScript
 * numbers (which may be NaN) and Leaflet's `[[south, west], [north, east]]`
 * bounds.
 */
module Geo {

  /** A JavaScript number: an exact real or NaN. Infinities are not modelled. */
  datatype Num = Real(value: real) | NaN

  function Add(a: Num, b: Num): Num {
    if a.NaN? || b.NaN? then NaN else Real(a.value + b.value)
  }

  function Sub(a: Num, b: Num): Num {
    if a.NaN? || b.NaN? then NaN else Real(a.value - b.value)
  }

  function Mul(a: Num, b: Num): Num {
    if a.NaN? || b.NaN? then NaN else Real(a.value * b.value)
  }

  /** `Math.abs`. */
  function Abs(a: Num): Num {
    if a.NaN? then NaN else if a.value < 0.0 then Real(-a.value) else a
  }

  /** `(a + b) / 2`. */
  function Mid(a: Num, b: Num): Num {
    if a.NaN? || b.NaN? then NaN else Real((a.value + b.value) / 2.0)
  }

  /** `lo <= a && a <= hi`: false whenever `a` is NaN. */
  predicate Within(a: Num, lo: real, hi: real) {
    a.Real? && lo <= a.value <= hi
  }

  /** `a > bound`: false whenever `a` is NaN. */
  predicate Exceeds(a: Num, bound: real) {
    a.Real? && a.value > bound
  }

  /** A `[lat, lng]` pair. */
  datatype Corner = Corner(lat: Num, lng: Num)

  /** Leaflet bounds `[[south, west], [north, east]]`. */
  datatype Bounds = Bounds(southWest: Corner, northEast: Corner)

  /** The bounds whose edges are the given west, south, east and north values. */
  function FromEdges(west: Num, south: Num, east: Num, north: Num): (b: Bounds)
    ensures b.southWest.lat == south && b.southWest.lng == west
    ensures b.northEast.lat == north && b.northEast.lng == east
  {
    Bounds(Corner(south, west), Corner(north, east))
  }

  /** A point given by exact latitude and longitude. */
  datatype LatLng = LatLng(lat: real, lng: real)
}
