/**
 * The wheelchair route planner (app/maps/route-navigation/page.tsx): where the
 * camera starts and goes, when a place search is issued, what clearing and
 * choosing a destination do, and the helpers for zoom, midpoint and trip units.
 * Points are [longitude, latitude] as in the source.
 */
module RouteNavigation {
  import opened Common

  datatype LngLat = LngLat(lng: real, lat: real)

  const SurabayaCenter := LngLat(112.7378, -7.2575)
  const North := -7.1
  const South := -7.35
  const East := 112.85
  const West := 112.6

  /** The city's box, edges included. */
  predicate InBounds(p: LngLat)
  {
    South <= p.lat <= North && West <= p.lng <= East
  }

  /** The city centre lies inside the box, and so do its four corners. */
  lemma BoundsFacts()
    ensures InBounds(SurabayaCenter)
    ensures InBounds(LngLat(West, South)) && InBounds(LngLat(East, North))
    ensures InBounds(LngLat(West, North)) && InBounds(LngLat(East, South))
  {
  }

  /** `calculateZoomLevel`: a step function of the straight-line distance in km. */
  function ZoomLevel(distance: real): int
  {
    if distance < 0.5 then 15
    else if distance < 1.0 then 14
    else if distance < 3.0 then 13
    else if distance < 5.0 then 12
    else if distance < 10.0 then 11
    else 10
  }

  /** The zoom stays within 10..15, never grows with the distance, and is 15 or 10 at the extremes. */
  lemma ZoomLevelFacts(d1: real, d2: real)
    ensures 10 <= ZoomLevel(d1) <= 15
    ensures d1 <= d2 ==> ZoomLevel(d1) >= ZoomLevel(d2)
    ensures ZoomLevel(d1) == 15 <==> d1 < 0.5
    ensures ZoomLevel(d1) == 10 <==> d1 >= 10.0
  {
  }

  /** `calculateCenterPoint`: the component-wise average. */
  function CenterPoint(p1: LngLat, p2: LngLat): LngLat
  {
    LngLat((p1.lng + p2.lng) / 2.0, (p1.lat + p2.lat) / 2.0)
  }

  /** The centre is equally far from both points on each axis, lies between them, and ignores their order. */
  lemma CenterPointIsMidpoint(p1: LngLat, p2: LngLat)
    ensures var c := CenterPoint(p1, p2);
            && c.lng - p1.lng == p2.lng - c.lng && c.lat - p1.lat == p2.lat - c.lat
            && (p1.lng <= p2.lng ==> p1.lng <= c.lng <= p2.lng)
            && (p1.lat <= p2.lat ==> p1.lat <= c.lat <= p2.lat)
    ensures CenterPoint(p1, p2) == CenterPoint(p2, p1)
    ensures CenterPoint(p1, p1) == p1
  {
  }

  /** A box is convex: the midpoint of two points inside it is inside it. */
  lemma CenterPointInBounds(p1: LngLat, p2: LngLat)
    requires InBounds(p1) && InBounds(p2)
    ensures InBounds(CenterPoint(p1, p2))
  {
  }

  /** Trip details: metres to kilometres and seconds to minutes. */
  datatype Trip = Trip(distanceKm: real, durationMin: real)

  function TripOf(distanceMetres: real, durationSeconds: real): Trip
  {
    Trip(distanceMetres / 1000.0, durationSeconds / 60.0)
  }

  /** The conversion loses nothing: scaling back gives the summary's own figures. */
  lemma TripRoundTrip(distanceMetres: real, durationSeconds: real)
    ensures TripOf(distanceMetres, durationSeconds).distanceKm * 1000.0 == distanceMetres
    ensures TripOf(distanceMetres, durationSeconds).durationMin * 60.0 == durationSeconds
  {
  }

  const MinQueryLength := 3
  const RouteNotFound := "Rute tidak ditemukan!"

  /** A `flyTo` call. */
  datatype Flight = Flight(center: LngLat, zoom: int, duration: int)

  /** What the browser's geolocation gives on mount. */
  datatype GeoOutcome = Unsupported | GeoError | Fix(position: LngLat)

  /** A place suggestion from the geocoder. */
  datatype Suggestion = Suggestion(id: string, placeName: string, center: LngLat)

  /** A route summary, in metres and seconds. */
  datatype Summary = Summary(distance: real, duration: real)

  /** The routing reply: the request failed, or a body whose `features` may be missing or empty. */
  datatype RouteReply = RequestFailed | RouteBody(features: Option<seq<Summary>>)

  /** Whether a reply carries a route. */
  predicate HasRoute(r: RouteReply)
  {
    r.RouteBody? && r.features.Some? && |r.features.value| > 0
  }

  class RouteNavigator {
    var query: string
    var suggestions: seq<Suggestion>
    var currentCoord: Option<LngLat>
    var toCoord: Option<LngLat>
    var routeData: Option<RouteReply>
    var isSearchFocused: bool
    var tripDetails: Option<Trip>
    var flights: seq<Flight>
    var notices: seq<string>
    var searches: seq<string>
    var routeRequests: seq<(LngLat, LngLat)>

    constructor ()
      ensures query == "" && suggestions == [] && currentCoord == None && toCoord == None
      ensures routeData == None && !isSearchFocused && tripDetails == None
      ensures flights == [] && notices == [] && searches == [] && routeRequests == []
    {
      query := "";
      suggestions := [];
      currentCoord := None;
      toCoord := None;
      routeData := None;
      isSearchFocused := false;
      tripDetails := None;
      flights := [];
      notices := [];
      searches := [];
      routeRequests := [];
    }

    /**
     * The mount effect: fly to the city at zoom 12, then take the user's
     * position; fly to it at zoom 14 only when it lies in the city's box.
     * Without geolocation, or when it fails, the position is the city centre.
     */
    method MountEffect(geo: GeoOutcome)
      modifies this
      ensures geo.Fix? ==> currentCoord == Some(geo.position)
      ensures !geo.Fix? ==> currentCoord == Some(SurabayaCenter)
      ensures geo.Fix? && InBounds(geo.position) ==>
                flights == old(flights) + [Flight(SurabayaCenter, 12, 2000), Flight(geo.position, 14, 2000)]
      ensures !(geo.Fix? && InBounds(geo.position)) ==>
                flights == old(flights) + [Flight(SurabayaCenter, 12, 2000)]
      ensures query == old(query) && suggestions == old(suggestions) && toCoord == old(toCoord)
      ensures routeData == old(routeData) && tripDetails == old(tripDetails) && isSearchFocused == old(isSearchFocused)
      ensures notices == old(notices) && searches == old(searches) && routeRequests == old(routeRequests)
    {
      flights := flights + [Flight(SurabayaCenter, 12, 2000)];
      match geo {
        case Fix(p) =>
          currentCoord := Some(p);
          if South <= p.lat && p.lat <= North && West <= p.lng && p.lng <= East {
            flights := flights + [Flight(p, 14, 2000)];
          }
        case _ =>
          currentCoord := Some(SurabayaCenter);
      }
    }

    method SetQuery(q: string)
      modifies this
      ensures query == q
      ensures suggestions == old(suggestions) && searches == old(searches) && flights == old(flights)
      ensures currentCoord == old(currentCoord) && toCoord == old(toCoord) && routeData == old(routeData)
      ensures tripDetails == old(tripDetails) && notices == old(notices) && routeRequests == old(routeRequests)
      ensures isSearchFocused == old(isSearchFocused)
    {
      query := q;
    }

    /** The effect on the debounced query: search from 3 characters on, otherwise clear the suggestions. */
    method DebouncedQueryEffect(debounced: string)
      modifies this
      ensures |debounced| >= MinQueryLength ==> searches == old(searches) + [debounced] && suggestions == old(suggestions)
      ensures |debounced| < MinQueryLength ==> searches == old(searches) && suggestions == []
      ensures query == old(query) && flights == old(flights) && currentCoord == old(currentCoord)
      ensures toCoord == old(toCoord) && routeData == old(routeData) && tripDetails == old(tripDetails)
      ensures notices == old(notices) && routeRequests == old(routeRequests) && isSearchFocused == old(isSearchFocused)
    {
      if |debounced| >= MinQueryLength {
        searches := searches + [debounced];
      } else {
        suggestions := [];
      }
    }

    /** The geocoder's answer: its features, or [] when it has none or the request failed. */
    method SearchFinished(features: Option<seq<Suggestion>>)
      modifies this
      ensures suggestions == Nullish(features, [])
      ensures query == old(query) && flights == old(flights) && currentCoord == old(currentCoord)
      ensures toCoord == old(toCoord) && routeData == old(routeData) && tripDetails == old(tripDetails)
      ensures notices == old(notices) && searches == old(searches) && routeRequests == old(routeRequests)
      ensures isSearchFocused == old(isSearchFocused)
    {
      suggestions := if features.Some? then features.value else [];
    }

    /**
     * `clearSearch`: query, destination, route, trip and suggestions are
     * reset; the camera returns to the user's position when there is one.
     */
    method ClearSearch()
      modifies this
      ensures query == "" && toCoord == None && routeData == None && tripDetails == None && suggestions == []
      ensures currentCoord.Some? ==> flights == old(flights) + [Flight(currentCoord.value, 14, 1000)]
      ensures currentCoord.None? ==> flights == old(flights)
      ensures currentCoord == old(currentCoord) && notices == old(notices) && searches == old(searches)
      ensures routeRequests == old(routeRequests) && isSearchFocused == old(isSearchFocused)
    {
      query := "";
      toCoord := None;
      routeData := None;
      tripDetails := None;
      suggestions := [];
      if currentCoord.Some? {
        flights := flights + [Flight(currentCoord.value, 14, 1000)];
      }
    }

    /**
     * `selectDestination`, with the routing service's `reply` and the
     * straight-line `distance` (km) as parameters. The destination and query
     * are always taken. With no current position no route is requested. A
     * reply without a route only raises a notice. A route sets the trip
     * details from its first summary and flies to the midpoint at the zoom
     * for the distance.
     */
    method SelectDestination(s: Suggestion, reply: RouteReply, distance: real)
      modifies this
      ensures toCoord == Some(s.center) && query == s.placeName && suggestions == [] && !isSearchFocused
      ensures currentCoord == old(currentCoord) && searches == old(searches)
      ensures old(currentCoord).None? ==>
                routeRequests == old(routeRequests) && routeData == old(routeData)
                && tripDetails == old(tripDetails) && flights == old(flights) && notices == old(notices)
      ensures old(currentCoord).Some? ==> routeRequests == old(routeRequests) + [(old(currentCoord).value, s.center)]
      ensures old(currentCoord).Some? && !HasRoute(reply) ==>
                notices == old(notices) + [RouteNotFound] && routeData == old(routeData)
                && tripDetails == old(tripDetails) && flights == old(flights)
      ensures old(currentCoord).Some? && HasRoute(reply) ==>
                var first := reply.features.value[0];
                && routeData == Some(reply) && notices == old(notices)
                && tripDetails == Some(TripOf(first.distance, first.duration))
                && flights == old(flights) + [Flight(CenterPoint(old(currentCoord).value, s.center), ZoomLevel(distance), 1000)]
    {
      toCoord := Some(s.center);
      query := s.placeName;
      suggestions := [];
      isSearchFocused := false;
      if currentCoord.None? {
        return;
      }
      var start := currentCoord.value;
      routeRequests := routeRequests + [(start, s.center)];
      if !HasRoute(reply) {
        notices := notices + [RouteNotFound];
        return;
      }
      var first := reply.features.value[0];
      tripDetails := Some(TripOf(first.distance, first.duration));
      routeData := Some(reply);
      flights := flights + [Flight(CenterPoint(start, s.center), ZoomLevel(distance), 1000)];
    }
  }
}
