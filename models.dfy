/** The input records. The orders dictionary keeps its insertion order, so it is a
    sequence here; its keys are the orders' own ids, hence distinct. */
module Models {
  import opened Geo

  /** `prepTimeMin` is an absolute ready time, in minutes from the route's start. */
  datatype Restaurant = Restaurant(id: string, location: Location, prepTimeMin: real)

  datatype Consumer = Consumer(id: string, location: Location)

  datatype Order = Order(id: string, restaurantId: string, consumerId: string)

  datatype InputData = InputData(
    courierStart: Location,
    restaurants: map<string, Restaurant>,
    consumers: map<string, Consumer>,
    orders: seq<Order>)

  /** The keys of the orders dictionary, in insertion order. */
  function OrderIds(orders: seq<Order>): seq<string>
  {
    seq(|orders|, i requires 0 <= i < |orders| => orders[i].id)
  }

  /** Dictionary keys are unique. */
  predicate DistinctIds(orders: seq<Order>)
  {
    forall i, j :: 0 <= i < j < |orders| ==> orders[i].id != orders[j].id
  }
}
