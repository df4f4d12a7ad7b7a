/** The two action kinds and the three notes a leg can carry, with their wire strings. */
module Enums {

  datatype ActionType = PICK | DROP
  {
    function Value(): string
    {
      match this
      case PICK => "PICK"
      case DROP => "DROP"
    }
  }

  datatype Notes = DELIVERED | WAITED | ON_TIME
  {
    function Value(): string
    {
      match this
      case DELIVERED => "Delivered"
      case WAITED => "Arrived early, waited"
      case ON_TIME => "Arrived on/after ready"
    }
  }
}
