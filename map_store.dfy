/**
 * The shared destination store (stores/mapStore.ts): the coordinates the list
 * asks the map to fly to. Both start at 0, which the map treats as "nowhere".
 */
module MapStore {
  import opened Common

  class Store {
    var destinationLat: Num
    var destinationLong: Num

    constructor ()
      ensures destinationLat == Some(0.0) && destinationLong == Some(0.0)
    {
      destinationLat := Some(0.0);
      destinationLong := Some(0.0);
    }

    /**
     * `setDestinationCoordinates`: the new state depends only on the arguments,
     * so repeating a call changes nothing and of two calls the last one wins.
     */
    method SetDestinationCoordinates(lat: Num, long: Num)
      modifies this
      ensures destinationLat == lat && destinationLong == long
    {
      destinationLat := lat;
      destinationLong := long;
    }
  }
}
