/**
 * What the two create forms share: the length rules of their schema (the same
 * three minimums and messages in app/maps/submissions/page.tsx and
 * app/dashboards/locations/create/page.tsx) and the starting marker.
 */
module FormRules {

  const NameMessage := "Location name must be at least 3 characters."
  const AddressMessage := "Address must be at least 5 characters."
  const DescriptionMessage := "Description must be at least 10 characters."

  /** The length rules: name at least 3, address at least 5, description at least 10 characters. */
  predicate LengthsValid(name: string, address: string, description: string)
  {
    |name| >= 3 && |address| >= 5 && |description| >= 10
  }

  /** The messages the schema reports, one per field that is too short, in field order. */
  function SchemaErrors(name: string, address: string, description: string): (errs: seq<string>)
    ensures errs == [] <==> LengthsValid(name, address, description)
    ensures NameMessage in errs <==> |name| < 3
    ensures AddressMessage in errs <==> |address| < 5
    ensures DescriptionMessage in errs <==> |description| < 10
    ensures |errs| <= 3
  {
    (if |name| < 3 then [NameMessage] else [])
    + (if |address| < 5 then [AddressMessage] else [])
    + (if |description| < 10 then [DescriptionMessage] else [])
  }

  /** A point on the map, latitude first. */
  datatype Position = Position(latitude: real, longitude: real)

  /** Where both forms put the marker and the form coordinates at first. */
  const DefaultPosition := Position(-7.2658, 112.7344)
}
