/**
 * The map (components/mapbox/map.tsx): its camera, one marker per item, the
 * selected item shown in the side panel, the mobile filter toggle, and the
 * effect that flies the camera to the store's destination.
 */
module MapView {
  import opened Common
  import opened Records
  import opened MapStore

  datatype ViewState = ViewState(longitude: real, latitude: real, zoom: real)

  /** The first camera: central Surabaya at zoom 12. */
  const InitialView := ViewState(112.7378, -7.2453, 12.0)

  /** A `flyTo` call: centre as [longitude, latitude], duration in milliseconds. */
  datatype Flight = Flight(centerLongitude: real, centerLatitude: real, zoom: real, duration: int)

  const FlightZoom := 18.0
  const FlightDuration := 2500

  /** A marker: keyed by the item's id, placed at its longitude and latitude. */
  datatype Marker = Marker(key: int, longitude: Num, latitude: Num)

  /** One marker per item, in order, at the item's own coordinates. */
  function Markers(items: seq<Place>): (ms: seq<Marker>)
    ensures |ms| == |items|
    ensures forall i :: 0 <= i < |items| ==>
              ms[i].key == items[i].id && ms[i].longitude == items[i].longitude && ms[i].latitude == items[i].latitude
  {
    if items == [] then []
    else [Marker(items[0].id, items[0].longitude, items[0].latitude)] + Markers(items[1..])
  }

  /** The map's own state, and the store it reads the destination from. */
  class MapView {
    var viewState: ViewState
    var selectedItem: Option<Place>
    var showAdvancedFilters: bool
    var flights: seq<Flight>
    /** The destination the fly-to effect last ran for (None before the first render). */
    var seenDestination: Option<(Num, Num)>
    /** The tab the side panel's effect last ran for (None before the first render). */
    var seenTab: Option<string>
    const store: Store

    constructor (s: Store)
      ensures viewState == InitialView && selectedItem == None && !showAdvancedFilters
      ensures flights == [] && seenDestination == None && seenTab == None && store == s
    {
      viewState := InitialView;
      selectedItem := None;
      showAdvancedFilters := false;
      flights := [];
      seenDestination := None;
      seenTab := None;
      store := s;
    }

    /**
     * The effect on [destinationLat, destinationLong]: it runs only when the
     * pair changed since its last run, and then flies to it only when the map
     * exists and both coordinates are truthy, so the store's initial (0, 0)
     * never moves the camera.
     */
    method DestinationEffect(mapReady: bool)
      modifies this
      ensures var d := (store.destinationLat, store.destinationLong);
              && seenDestination == Some(d)
              && (old(seenDestination) == Some(d) ==> flights == old(flights))
              && (old(seenDestination) != Some(d) && mapReady && TruthyNum(d.0) && TruthyNum(d.1) ==>
                    flights == old(flights) + [Flight(d.1.value, d.0.value, FlightZoom, FlightDuration)])
              && (!(mapReady && TruthyNum(d.0) && TruthyNum(d.1)) ==> flights == old(flights))
      ensures viewState == old(viewState) && selectedItem == old(selectedItem)
      ensures showAdvancedFilters == old(showAdvancedFilters) && seenTab == old(seenTab)
    {
      var lat := store.destinationLat;
      var long := store.destinationLong;
      if seenDestination == Some((lat, long)) {
        return;
      }
      seenDestination := Some((lat, long));
      if mapReady && TruthyNum(lat) && TruthyNum(long) {
        flights := flights + [Flight(long.value, lat.value, FlightZoom, FlightDuration)];
      }
    }

    /** `handleMarkerClick`: open the panel on the item; the camera does not move. */
    method HandleMarkerClick(item: Place)
      modifies this
      ensures selectedItem == Some(item)
      ensures viewState == old(viewState) && flights == old(flights) && showAdvancedFilters == old(showAdvancedFilters)
      ensures seenDestination == old(seenDestination) && seenTab == old(seenTab)
    {
      selectedItem := Some(item);
    }

    /** `closePanel`. */
    method ClosePanel()
      modifies this
      ensures selectedItem == None
      ensures viewState == old(viewState) && flights == old(flights) && showAdvancedFilters == old(showAdvancedFilters)
      ensures seenDestination == old(seenDestination) && seenTab == old(seenTab)
    {
      selectedItem := None;
    }

    /**
     * The side panel's effect on [activeTab], which calls `onClose`: on the
     * first render and on every tab change the selection is cleared.
     */
    method SidePanelTabEffect(activeTab: string)
      modifies this
      ensures seenTab == Some(activeTab)
      ensures old(seenTab) != Some(activeTab) ==> selectedItem == None
      ensures old(seenTab) == Some(activeTab) ==> selectedItem == old(selectedItem)
      ensures viewState == old(viewState) && flights == old(flights) && showAdvancedFilters == old(showAdvancedFilters)
      ensures seenDestination == old(seenDestination)
    {
      if seenTab != Some(activeTab) {
        seenTab := Some(activeTab);
        ClosePanel();
      }
    }

    /** The "Filter Lanjutan" button: show or hide the mobile filter. */
    method ToggleAdvancedFilters()
      modifies this
      ensures showAdvancedFilters == !old(showAdvancedFilters)
      ensures viewState == old(viewState) && selectedItem == old(selectedItem) && flights == old(flights)
      ensures seenDestination == old(seenDestination) && seenTab == old(seenTab)
    {
      showAdvancedFilters := !showAdvancedFilters;
    }

    /** The mobile filter's `onClose`. */
    method CloseAdvancedFilters()
      modifies this
      ensures !showAdvancedFilters
      ensures viewState == old(viewState) && selectedItem == old(selectedItem) && flights == old(flights)
      ensures seenDestination == old(seenDestination) && seenTab == old(seenTab)
    {
      showAdvancedFilters := false;
    }

    /** `onMove`: the camera follows the user's panning and zooming. */
    method OnMove(v: ViewState)
      modifies this
      ensures viewState == v
      ensures selectedItem == old(selectedItem) && showAdvancedFilters == old(showAdvancedFilters) && flights == old(flights)
      ensures seenDestination == old(seenDestination) && seenTab == old(seenTab)
    {
      viewState := v;
    }
  }
}
