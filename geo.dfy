/** Locations. The great-circle distance formula is not part of this model:
    the search only ever sees travel cost through TravelStrategy.TravelCost. */
module Geo {

  /** A named point; the coordinates are carried as data only. */
  datatype Location = Location(name: string, lat: real, lon: real)
}
