/**
 * The map page (app/maps/page.tsx): it decodes the URL into one query and a
 * page number, keeps the active tab, and shows the data of the tab's query.
 * Both tabs read the same URL, so they share one filter and one page.
 */
module MapsPage {
  import opened Common
  import opened UrlSearchParams
  import opened JsNumber
  import opened Records
  import PlaceQuery
  import FilterForm

  /** The query the page derives from its URL; `page` is None when it is NaN. */
  datatype PageQuery = PageQuery(page: Option<int>, name: string, facilities: string, sortAsc: string, tag: string)

  /** `parseInt(get("page") ?? "1", 10)` and `get(x) ?? ""` for the four filters. */
  function DecodeQuery(p: Params): (q: PageQuery)
    ensures GetParam(p, "page").None? ==> q.page == Some(1)
    ensures GetParam(p, "name").None? ==> q.name == ""
    ensures GetParam(p, "facilities").None? ==> q.facilities == ""
    ensures GetParam(p, "sort_asc").None? ==> q.sortAsc == ""
    ensures GetParam(p, "tag").None? ==> q.tag == ""
    ensures GetParam(p, "name").Some? ==> q.name == GetParam(p, "name").value
    ensures GetParam(p, "facilities").Some? ==> q.facilities == GetParam(p, "facilities").value
    ensures GetParam(p, "sort_asc").Some? ==> q.sortAsc == GetParam(p, "sort_asc").value
    ensures GetParam(p, "tag").Some? ==> q.tag == GetParam(p, "tag").value
    ensures GetParam(p, "page").Some? ==> q.page == ParseInt(GetParam(p, "page").value, true)
  {
    OneParses();
    PageQuery(
      ParseInt(Nullish(GetParam(p, "page"), "1"), true),
      Nullish(GetParam(p, "name"), ""),
      Nullish(GetParam(p, "facilities"), ""),
      Nullish(GetParam(p, "sort_asc"), ""),
      Nullish(GetParam(p, "tag"), ""))
  }

  lemma OneParses()
    ensures ParseInt("1", true) == Some(1)
  {
    ParseIntRoundTrip(1, true);
    assert NumberToString(Some(1)) == "1";
  }

  /** The query object handed to both list hooks: every field present. */
  function QueryArgOf(q: PageQuery): PlaceQuery.QueryArg
  {
    PlaceQuery.QueryArg(Some(q.name), Some(q.facilities), Some(q.sortAsc), Some(q.tag))
  }

  /** The two requests a render issues: both from the same decoded URL. */
  function LocationsRequest(api: string, p: Params): string
  {
    var q := DecodeQuery(p);
    PlaceQuery.LocationsUrl(api, q.page, Some(QueryArgOf(q)))
  }

  function PotentialsRequest(api: string, p: Params): string
  {
    var q := DecodeQuery(p);
    PlaceQuery.PotentialsUrl(api, q.page, Some(QueryArgOf(q)))
  }

  /** The kinds the page passes to the hooks: both queries are enabled. */
  const LocationsKind := "all"
  const PotentialsKind := "potential"

  /**
   * Both tabs are asked for the same page, name, facilities and sort order, so
   * a filter set on one tab applies to the other; only the submissions request
   * leaves out `tag`. The two cache keys hold the same query object.
   */
  lemma BothTabsShareQuery(p: Params)
    ensures var q := DecodeQuery(p);
            var l := PlaceQuery.LocationsPairs(q.page, Some(QueryArgOf(q)));
            var s := PlaceQuery.PotentialsPairs(q.page, Some(QueryArgOf(q)));
            && GetParam(l, "page") == GetParam(s, "page") == Some(NumberToString(q.page))
            && GetParam(l, "name") == GetParam(s, "name") == Some(q.name)
            && GetParam(l, "facilities") == GetParam(s, "facilities") == Some(q.facilities)
            && GetParam(l, "sort_asc") == GetParam(s, "sort_asc") == Some(q.sortAsc)
            && GetParam(l, "tag") == Some(q.tag) && GetParam(s, "tag") == None
    ensures var q := DecodeQuery(p);
            PlaceQuery.LocationsKey(q.page, Some(QueryArgOf(q))).query
            == PlaceQuery.PotentialsKey(q.page, Some(QueryArgOf(q))).query
    ensures PlaceQuery.LocationsEnabled(LocationsKind) && PlaceQuery.PotentialsEnabled(PotentialsKind)
  {
    var q := DecodeQuery(p);
    PlaceQuery.PairsLookup(q.page, Some(QueryArgOf(q)));
  }

  /**
   * What the desktop filter pushes is what the page then queries: page 1, the
   * name or "", a real facility or tag choice or "", and "true" or "".
   */
  lemma SubmittedFilterReachesQuery(p: Params, v: FilterForm.SearchValues, ascending: bool)
    ensures DecodeQuery(FilterForm.SubmitParams(p, v, ascending))
         == PageQuery(Some(1), OrDefault(v.place, ""),
                      Nullish(FilterForm.ChoiceParam(v.facilityType), ""),
                      if ascending then "true" else "",
                      Nullish(FilterForm.ChoiceParam(v.tag), ""))
  {
    FilterForm.SubmitWrites(p, v, ascending);
    OneParses();
  }

  // ----- what the page shows -------------------------------------------------

  /** The body of a list response: `data.places` and `data.totalItems`, each optional. */
  datatype ListBody = ListBody(data: Option<ListData>)
  datatype ListData = ListData(places: Option<seq<Place>>, totalItems: Option<int>)

  /** A query's state as the page reads it. */
  datatype QueryState = QueryState(data: Option<ListBody>, isLoading: bool)

  /** `data?.data?.places ?? []`. */
  function Items(d: Option<ListBody>): seq<Place>
  {
    if d.Some? && d.value.data.Some? && d.value.data.value.places.Some? then d.value.data.value.places.value else []
  }

  /** `data?.data?.totalItems ?? 0`. */
  function TotalItems(d: Option<ListBody>): int
  {
    if d.Some? && d.value.data.Some? && d.value.data.value.totalItems.Some? then d.value.data.value.totalItems.value else 0
  }

  /** `activeTab === "location" ? loc : pot`. */
  function ActiveQuery(tab: string, loc: QueryState, pot: QueryState): QueryState
  {
    if tab == "location" then loc else pot
  }

  /**
   * A rendered page: a spinner, or the list panel and the map. `listShown`
   * says which list panel the tabs show: Some(false) the locations list,
   * Some(true) the submissions list, None neither.
   */
  datatype Screen =
    | Spinner
    | Lists(listItems: seq<Place>, totalItems: int, listShown: Option<bool>, mapItems: seq<Place>)

  function Render(tab: string, loc: QueryState, pot: QueryState): Screen
  {
    var active := ActiveQuery(tab, loc, pot);
    if active.isLoading then Spinner
    else
      Lists(Items(active.data), TotalItems(active.data),
            if tab == "location" then Some(false) else if tab == "submission" then Some(true) else None,
            Items(active.data))
  }

  /**
   * Only the active tab's query decides the screen: it is a spinner exactly
   * while that query loads, and the list and the map then show the same items,
   * [] and 0 when the response lacks them. Any tab other than "location" shows
   * the submissions query, and a tab that is neither value shows no list.
   */
  lemma RenderShowsActiveQuery(tab: string, loc: QueryState, pot: QueryState)
    ensures var a := if tab == "location" then loc else pot;
            && (Render(tab, loc, pot).Spinner? <==> a.isLoading)
            && (!a.isLoading ==> Render(tab, loc, pot).listItems == Render(tab, loc, pot).mapItems == Items(a.data))
            && (!a.isLoading ==> Render(tab, loc, pot).totalItems == TotalItems(a.data))
    ensures !ActiveQuery(tab, loc, pot).isLoading ==>
              (Render(tab, loc, pot).listShown.None? <==> tab != "location" && tab != "submission")
    ensures Items(None) == [] && TotalItems(None) == 0
  {
  }

  /** Which list a refetch asks for again. */
  datatype ListKind = LocationsList | SubmissionsList

  function RefetchTarget(tab: string): ListKind
  {
    if tab == "location" then LocationsList else SubmissionsList
  }

  /** The page's own state: the active tab and the refetches its effect has issued. */
  class MapClient {
    var activeTab: string
    var refetches: seq<ListKind>

    constructor ()
      ensures activeTab == "location" && refetches == []
    {
      activeTab := "location";
      refetches := [];
    }

    /** `setActiveTab`, called by the tab bar, the map and the mobile filter. */
    method SetActiveTab(tab: string)
      modifies this
      ensures activeTab == tab && refetches == old(refetches)
    {
      activeTab := tab;
    }

    /** The effect run on every URL or tab change: refetch exactly the active list. */
    method RefetchEffect()
      modifies this
      ensures refetches == old(refetches) + [RefetchTarget(activeTab)]
      ensures activeTab == old(activeTab)
    {
      if activeTab == "location" {
        refetches := refetches + [LocationsList];
      } else {
        refetches := refetches + [SubmissionsList];
      }
    }
  }

  /** A refetch asks for the locations list exactly when the tab is "location". */
  lemma RefetchTargetSpec(tab: string)
    ensures RefetchTarget(tab) == LocationsList <==> tab == "location"
    ensures RefetchTarget(tab) == SubmissionsList <==> tab != "location"
  {
  }
}
