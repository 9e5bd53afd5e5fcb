/**
 * The species record as the two wiki map components read it: name, category,
 * status, point coordinates and, optionally, a habitat polygon given as
 * GeoJSON `[lng, lat]` positions.
 */
module Habitat {
  import opened Wrappers
  import Geo

  /** A GeoJSON position `[lng, lat]`. */
  datatype Position = Position(lng: real, lat: real)

  datatype MapSpecies = MapSpecies(
    name: string,
    scientificName: string,
    category: string,
    status: string,
    habitat: string,
    coordinates: Geo.LatLng,
    polygon: Option<seq<Position>>)
}
