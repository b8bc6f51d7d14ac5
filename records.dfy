/**
 * The records the map pages list and show (a location or a submission); the
 * vote counts are absent on submissions.
 */
module Records {
  import opened Common

  datatype FacilityRef = FacilityRef(id: int, name: string)

  /** One entry of a place's `facilities` list: the facility type and a photo. */
  datatype PlaceFacility = PlaceFacility(facility: FacilityRef, image: string)

  datatype Place = Place(
    id: int,
    name: string,
    address: string,
    description: string,
    image: string,
    latitude: Num,
    longitude: Num,
    facilities: seq<PlaceFacility>,
    totalVotes: Option<int>,
    positiveVotes: Option<int>,
    negativeVotes: Option<int>)
}
