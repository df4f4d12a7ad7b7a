/** One leg of a route: a pick-up or a drop-off, with its timing. */
module Commands {
  import opened Geo
  import opened Enums

  datatype Command = Command(
    kind: ActionType,
    orderId: string,
    fromLoc: Location,
    toLoc: Location,
    travelMin: real,
    waitMin: real,
    arriveTime: real,
    departTime: real,
    notes: string)
}
