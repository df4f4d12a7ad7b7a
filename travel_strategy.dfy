/** The travel-cost capability the search depends on. Its only concrete
    implementation (haversine distance over a constant speed) is not part of this
    model; the search is verified for every non-negative cost function. */
module TravelStrategy {
  import opened Geo

  /** Minutes to travel from the first location to the second. */
  type TravelCost = (Location, Location) -> real

  ghost predicate NonNegative(cost: TravelCost)
  {
    forall a, b :: cost(a, b) >= 0.0
  }
}
