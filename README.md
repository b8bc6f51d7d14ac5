# Accessible public facilities map: a verified model of its rules

This project models the rules inside a Next.js web application that maps
public facilities for people with disabilities in Surabaya. The rules are:

- the map's filter form and its URL query;
- the list and detail requests sent to the backend;
- pagination and card selection;
- the map camera and side panel;
- the two create forms and their facility lists;
- the route-navigation helpers;
- the dashboard charts (daily and monthly visitor counts, facility pies);
- the accessibility heatmap, with its tooltip and top-five chart;
- the feedback table's search filter;
- the administrator gate of the dashboard.

State that the application keeps in React components is modelled as Dafny
classes. Their fields are updated by methods with `modifies` clauses:

- the filter forms;
- the map page;
- the place list;
- the destination store;
- the map view;
- the two create pages;
- the route navigator;
- the heatmap page.

Pure expressions are functions, and the properties are lemmas about them.

The browser's `URLSearchParams` is modelled as an ordered list of name/value
pairs, following section 6.2 of the WHATWG URL Standard. `get` returns the
first value, `set` replaces the first pair and removes later ones, and
`delete` removes every pair with the name.

JavaScript conventions are written out where they matter:

- truthiness, `||` and `??`;
- `parseInt` with and without a radix, where a failed parse is `None`, standing for NaN;
- integer `Math.ceil`;
- the stable `Array.prototype.sort` with a numeric comparator, as an insertion sort by a rank.

Coordinates, scores and distances are `real`. Counts and pages are `int`.

Modules, one per source file of the application, plus shared ones:

- shared modules:
  - `Common`
  - `UrlSearchParams`
  - `JsNumber`
  - `Records`
  - `Sorting`
  - `VisitorTally`
  - `PieEntries`
  - `FormRules`
- per source file:
  - `FilterForm`
  - `FilterMobile`
  - `MapsPage`
  - `PlaceQuery`
  - `Places`
  - `MapStore`
  - `MapView`
  - `SidePanel`
  - `SubmissionForm`
  - `LocationForm`
  - `RouteNavigation`
  - `BarGraph`
  - `AreaGraph`
  - `DashboardPie`
  - `DistrictPie`
  - `DisabilityChart`
  - `Accessibility`
  - `Tooltip`
  - `FeedbackFilter`
  - `DashboardGate`

The place list and the map page read the `page` parameter differently. The
list calls `parseInt` without a radix and the page calls it with radix 10.
`Places.HexPageReadsDiffer` shows one URL that the two read as different pages.

## Model

| member | source | states |
|---|---|---|
| Common.TruncateShape | app/maps/__components/places.tsx:151-153 | a text longer than n shows as its first n characters plus "..." (n + 3 long); a text of at most n characters is shown unchanged |
| Common.LowerOfUpper | app/dashboards/__components/feedbacks-table/columns.tsx:52-53 | lower-casing forgets an earlier upper-casing |
| Common.LowerIdempotent | app/dashboards/__components/feedbacks-table/columns.tsx:52-53 | lower-casing twice is lower-casing once |
| UrlSearchParams.GetParamSpec | app/maps/__components/filter-form.tsx:67-69 | `get` finds a value exactly when the name occurs, and it is the value of the first occurrence |
| UrlSearchParams.SetThenGet | app/maps/__components/filter-form.tsx:85 | after `set(k, v)`, `get(k)` answers v and k occurs exactly once |
| UrlSearchParams.SetKeepsOthers | app/maps/__components/filter-form.tsx:91 | `set(k, v)` leaves every other name's answer to `get` unchanged |
| UrlSearchParams.DeleteThenGet | app/maps/__components/filter-form.tsx:87 | after `delete(k)` no pair named k is left; other names answer as before |
| UrlSearchParams.SetKeepsForeignPairs | app/maps/__components/filter-form.tsx:82-108 | the pairs whose names are outside a set containing k keep their values, number and order under `set(k, v)` |
| UrlSearchParams.DeleteKeepsForeignPairs | app/maps/__components/filter-form.tsx:87 | the same for `delete(k)` |
| UrlSearchParams.WriteParamFacts | app/maps/__components/filter-form.tsx:84-88 | a conditional set-or-delete makes `get(k)` answer the written value (absent when deleted) and leaves other names and foreign pairs alone |
| UrlSearchParams.WriteOnlyValue | app/maps/__components/filter-form.tsx:90-94 | after a conditional write, every pair named k carries the written value, and none is left when it was a delete |
| UrlSearchParams.WriteKeepsOnlyValue | app/maps/__components/filter-form.tsx:96-100 | a write of another name leaves the values of the pairs named k as they were |
| UrlSearchParams.SearchParams.constructor | app/maps/__components/filter-form.tsx:82 | a new object copies the current pairs |
| UrlSearchParams.SearchParams.Get | app/maps/__components/filter-form.tsx:67 | answers the first value of the name, or null |
| UrlSearchParams.SearchParams.Set | app/maps/__components/filter-form.tsx:85 | the pairs become those of `set(k, v)` on the old pairs |
| UrlSearchParams.SearchParams.Delete | app/maps/__components/filter-form.tsx:87 | the pairs become those of `delete(k)` on the old pairs |
| JsNumber.ParseIntNoSpace | app/maps/page.tsx:16 | on text that starts with no white space, `parseInt` reads an optional sign and then the unsigned digits |
| JsNumber.ParseIntRoundTrip | app/maps/__components/places.tsx:93 | parsing the decimal text of an integer gives it back, with or without a radix |
| JsNumber.NumberToStringInjective | queries/placeQuery.ts:16 | distinct integers are written as distinct texts |
| FilterForm.DecodeDefaults | app/maps/__components/filter-form.tsx:67-69 | the form reads `name` or "", `facilities` or "all", `tag` or "all"; a missing or empty parameter gives the default |
| FilterForm.SubmitWrites | app/maps/__components/filter-form.tsx:84-108 | after a submit `name` is the place when it is non-empty (else absent), `facilities`/`tag` are the choice only when non-empty and not "all" (else absent), `sort_asc` is "true" exactly when ascending, `page` is "1" |
| FilterForm.SubmitNeverWritesAll | app/maps/__components/filter-form.tsx:90-100 | no `facilities` or `tag` pair of the pushed URL is "all" or empty |
| FilterForm.SubmitKeepsForeignPairs | app/maps/__components/filter-form.tsx:82 | every pair whose name the form does not own survives a submit unchanged and in order |
| FilterForm.SubmitRoundTrip | app/maps/__components/filter-form.tsx:67-100 | reading the pushed URL back gives the submitted form, with "" and "all" choices both read as "all" |
| FilterForm.SubmitKeepsSortOrder | app/maps/__components/filter-form.tsx:102-106 | the sort order re-derived from the pushed URL is the order submitted |
| FilterForm.ResetIsConsistent | app/maps/__components/filter-form.tsx:118-131 | the reset URL holds exactly page=1, reads back as the reset form, and is not ascending |
| FilterForm.FilterFormState.constructor | app/maps/__components/filter-form.tsx:58-71 | first render: form from the URL defaults, every flag off |
| FilterForm.FilterFormState.EditForm | app/maps/__components/filter-form.tsx:64-71 | editing changes the form only |
| FilterForm.FilterFormState.OpenDialog | app/maps/__components/filter-form.tsx:180 | opening the dialog changes nothing else |
| FilterForm.FilterFormState.ToggleSortOrder | app/maps/__components/filter-form.tsx:73 | the order flips, nothing else changes |
| FilterForm.FilterFormState.SyncSortOrder | app/maps/__components/filter-form.tsx:134-136 | ascending becomes exactly "`sort_asc` is \"true\"" |
| FilterForm.FilterFormState.HandleSearchSubmit | app/maps/__components/filter-form.tsx:79-116 | the URL becomes the submit parameters of the old URL, form and order; submitting flag on, dialog closed |
| FilterForm.FilterFormState.SubmitTimerElapsed | app/maps/__components/filter-form.tsx:113-115 | the submitting flag is cleared, nothing else changes |
| FilterForm.FilterFormState.ResetFilters | app/maps/__components/filter-form.tsx:118-132 | reset form, not ascending, dialog closed, URL exactly page=1 |
| FilterMobile.MobileSubmitWrites | app/maps/__components/filter-mobile.tsx:75-84 | `name` is set iff the place is truthy; `facilities`/`tag` are written unless "all", an undefined one as ""; `sort_asc` answers as before; `page` is "1" |
| FilterMobile.MobileKeepsForeignPairs | app/maps/__components/filter-mobile.tsx:76-85 | every pair the mobile form does not own, `sort_asc` included, survives in order |
| FilterMobile.MobileRoundTrip | app/maps/__components/filter-mobile.tsx:62-83 | reading the pushed URL back gives the same form as on desktop |
| FilterMobile.MobileDiffersFromDesktop | app/maps/__components/filter-mobile.tsx:78-83 | for an undefined facility the desktop URL has no `facilities` and the mobile one has ""; an ascending URL stays ascending after a mobile submit but not after a descending desktop one |
| FilterMobile.PushedTabAlwaysShowsSubmissions | app/maps/__components/filter-mobile.tsx:54-57 | as written, whichever tab the panel pushes, the page shows the submissions query and no list panel |
| FilterMobile.PageTabSelectsMatchingList | app/maps/__components/filter-mobile.tsx:194-195 | with the tab mapped to the page's values, "lokasi" shows the locations query and list, "ajuan" the submissions |
| FilterMobile.FilterMobileState.constructor | app/maps/__components/filter-mobile.tsx:54-66 | mounting: form from the URL defaults, tab "lokasi", nothing pushed or closed |
| FilterMobile.FilterMobileState.EditForm | app/maps/__components/filter-mobile.tsx:59-66 | editing changes the form only |
| FilterMobile.FilterMobileState.SelectTab | app/maps/__components/filter-mobile.tsx:188-190 | the tab becomes the chosen value, nothing else changes |
| FilterMobile.FilterMobileState.PushTabEffect | app/maps/__components/filter-mobile.tsx:55-57 | the page receives the panel's tab, mapped to the page's tab values |
| FilterMobile.FilterMobileState.SubmitFrom | app/maps/__components/filter-mobile.tsx:75-87 | `onSubmit` against the URL its render saw: the URL becomes the mobile submit parameters of that URL and the form, it is appended to the pushed URLs, and the panel is asked to close once |
| FilterMobile.FilterMobileState.OnSubmit | app/maps/__components/filter-mobile.tsx:208-213 | the submit button: the URL becomes the mobile submit parameters of the current URL and form, one push, one close request |
| FilterMobile.FilterMobileState.HandleReset | app/maps/__components/filter-mobile.tsx:68-73 | the handler alone: the form is reset and exactly page=1 is pushed; the panel is not closed |
| FilterMobile.FilterMobileState.ResetClick | app/maps/__components/filter-mobile.tsx:201-207 | a click on the type-less Reset button: the handler's page=1 push, then the form's submit of the reset values against the URL of the click; that second URL is the final one and the panel is asked to close once |
| FilterMobile.ResetClickKeepsSortOrder | app/maps/__components/filter-mobile.tsx:201-207 | after a Reset click `name`, `facilities` and `tag` are absent and `page` is "1", while `sort_asc` and every foreign pair are kept |
| FilterMobile.ResetClickExample | app/maps/__components/filter-mobile.tsx:201-207 | from `?sort_asc=true` the click keeps `sort_asc=true`, which the handler's own page=1 URL lacks |
| FilterMobile.IntendedResetIsPageOne | app/maps/__components/filter-mobile.tsx:68-73 | the handler's URL alone is exactly page=1, reads back as the reset form and is not ascending; for any ascending URL it differs from where the click ends |
| MapsPage.DecodeQuery | app/maps/page.tsx:16-21 | a missing `page` is page 1 and a present one is its radix-10 `parseInt`; a missing `name`, `facilities`, `sort_asc` or `tag` is "" and a present one is its value |
| MapsPage.OneParses | app/maps/page.tsx:16 | the default page text "1" parses as 1 |
| MapsPage.BothTabsShareQuery | app/maps/page.tsx:21-35 | both list requests carry the same page, name, facilities and sort order; only the locations request has `tag`; both cache keys hold the same query; both hooks are enabled |
| MapsPage.SubmittedFilterReachesQuery | app/maps/page.tsx:15-21 | the desktop filter's pushed URL decodes to page 1, the name or "", the real choices or "", and "true" or "" |
| MapsPage.RenderShowsActiveQuery | app/maps/page.tsx:45-98 | only the active tab's query decides the screen: a spinner exactly while it loads, then the same items for list and map ([] and 0 when missing); a tab other than "location" reads the submissions query |
| MapsPage.MapClient.constructor | app/maps/page.tsx:23 | the initial tab is "location" and nothing is refetched |
| MapsPage.MapClient.SetActiveTab | app/maps/page.tsx:65 | the tab becomes the chosen value |
| MapsPage.MapClient.RefetchEffect | app/maps/page.tsx:37-43 | each run refetches exactly one list, the one of the active tab |
| MapsPage.RefetchTargetSpec | app/maps/page.tsx:38-42 | the locations list is refetched iff the tab is "location", the submissions list otherwise |
| PlaceQuery.LocationsUrlShape | queries/placeQuery.ts:18-24 | the locations URL is the path, "?", and the pairs page, name, facilities, sort_asc, tag joined in that order |
| PlaceQuery.PotentialsUrlShape | queries/placeQuery.ts:77-83 | the submissions URL is the path, "?", and page, status=true, name, status=true, facilities, sort_asc, with no tag |
| PlaceQuery.ParseJoin | queries/placeQuery.ts:18-24 | joining clean pairs with "=" and "&" and parsing the text gives the same pairs back |
| PlaceQuery.RequestsReadBack | queries/placeQuery.ts:18-24 | with clean field values the backend receives exactly the five locations pairs and the six submissions pairs; a missing field arrives as "" |
| PlaceQuery.UnescapedNameAddsPair | queries/placeQuery.ts:19-20 | a name x + "&" + k + "=" + v reaches the backend as name x followed by an extra pair (k, v) |
| PlaceQuery.PairsLookup | queries/placeQuery.ts:77-83 | on either request `get` answers each field or ""; the submissions request answers `status` "true" and has no `tag` |
| PlaceQuery.PageTextInjective | queries/placeQuery.ts:16 | different pages (NaN included) give different key texts |
| PlaceQuery.CacheKeysSeparate | queries/placeQuery.ts:15-16 | two requests share a cache entry iff they have the same page and query object; the two lists never share one |
| PlaceQuery.Settle | queries/placeQuery.ts:25-28 | a response gives its body iff it is OK, else the error message |
| PlaceQuery.DetailUrlsCarryId | queries/placeQuery.ts:98-112 | the id is the text after the fixed detail path, and the location and submission detail URLs never coincide |
| Places.PageCountIsCeiling | app/maps/__components/places.tsx:67 | the page count is the ceiling of items over page size: the fewest pages that hold every item |
| Places.PageClickReadsBack | app/maps/__components/places.tsx:89-95 | the URL a page click pushes is read back by the list as `selected` and by the page as selected + 1; every other parameter answers as before |
| Places.HexPageReadsDiffer | app/maps/__components/places.tsx:70-71 | for page "0x2" the list shows index 1 while the page asks for page 0 |
| Places.CardOf | app/maps/__components/places.tsx:120-221 | a card is highlighted iff it is the active one, links to `/maps/{id}` iff it is not a submission, and shows the name cut to 20 characters plus "..." |
| Places.PlacesView.constructor | app/maps/__components/places.tsx:69-74 | the current page is read from the URL and no card is active |
| Places.PlacesView.UrlChanged | app/maps/__components/places.tsx:64 | a new URL replaces the old one |
| Places.PlacesView.ResyncPage | app/maps/__components/places.tsx:80-87 | the current page becomes the one the URL names |
| Places.PlacesView.HandlePageClick | app/maps/__components/places.tsx:89-96 | a click on the current page changes nothing; any other click pushes the URL with page selected + 1 and shows `selected` |
| Places.PlacesView.HandlePlaceClick | app/maps/__components/places.tsx:98-108 | with both coordinates falsy only a notice is added; otherwise the store receives the coordinates and the card becomes active |
| MapStore.Store.constructor | stores/mapStore.ts:9-11 | the destination starts at (0, 0) |
| MapStore.Store.SetDestinationCoordinates | stores/mapStore.ts:12-16 | the destination becomes exactly the given latitude and longitude |
| MapView.Markers | components/mapbox/map.tsx:93-99 | one marker per item, in order, keyed by its id at its own longitude and latitude |
| MapView.MapView.constructor | components/mapbox/map.tsx:31-58 | initial view (112.7378, -7.2453, zoom 12), nothing selected, filters hidden |
| MapView.MapView.DestinationEffect | components/mapbox/map.tsx:42-50 | when the destination changed and both coordinates are non-zero, one flight to [longitude, latitude] at zoom 18 for 2500 ms is issued; otherwise none |
| MapView.MapView.HandleMarkerClick | components/mapbox/map.tsx:52-54 | the clicked item is selected and the camera does not move |
| MapView.MapView.ClosePanel | components/mapbox/map.tsx:56 | the selection is cleared |
| MapView.MapView.SidePanelTabEffect | components/mapbox/side-panel.tsx:43-45 | on the first run and on every tab change the selection is cleared; otherwise it stays |
| MapView.MapView.ToggleAdvancedFilters | components/mapbox/map.tsx:69-71 | the mobile filter's visibility flips |
| MapView.MapView.CloseAdvancedFilters | components/mapbox/map.tsx:118-119 | the mobile filter is hidden |
| MapView.MapView.OnMove | components/mapbox/map.tsx:83 | the view follows the user's camera |
| SidePanel.Badges | components/mapbox/side-panel.tsx:95-113 | one badge per facility, in order |
| SidePanel.BadgeFallbacks | components/mapbox/side-panel.tsx:99-107 | a known facility has its own colour and icon; any other name gets gray and "Ban" |
| SidePanel.PanelShowsSelection | components/mapbox/side-panel.tsx:48-160 | a panel exists iff an item is selected; the "submission" tab shows address, badges, the empty notice iff there are no facilities; other tabs show votes, the description cut at 200 characters plus "...", and `/maps/{id}` |
| FormRules.SchemaErrors | app/maps/submissions/page.tsx:39-48 | no errors iff name ≥ 3, address ≥ 5 and description ≥ 10 characters; each message is present iff its field is too short |
| SubmissionForm.AddFacilityKeepsDistinct | app/maps/submissions/page.tsx:114-121 | adding keeps the list duplicate-free, leaves it unchanged when the id is present, and appends it otherwise |
| SubmissionForm.RemoveAtSpec | app/maps/submissions/page.tsx:123-129 | removing index i drops exactly that element and keeps the rest in order; an index out of range changes nothing |
| SubmissionForm.RemoveAtUndoesAdd | app/maps/submissions/page.tsx:114-129 | removing the last index after adding a new id gives the old list |
| SubmissionForm.RemoveAtKeepsDistinct | app/maps/submissions/page.tsx:123-129 | removing keeps a duplicate-free list duplicate-free |
| SubmissionForm.SubmissionPage.constructor | app/maps/submissions/page.tsx:98-110 | default form values, marker at the default position, the form in sync with the marker |
| SubmissionForm.SubmissionPage.EditText | app/maps/submissions/page.tsx:98-110 | text edits change those fields only and keep the marker sync |
| SubmissionForm.SubmissionPage.AddFacilityId | app/maps/submissions/page.tsx:114-121 | the list becomes the add of the id and stays duplicate-free |
| SubmissionForm.SubmissionPage.RemoveFacility | app/maps/submissions/page.tsx:123-129 | the list loses the element at the index and stays duplicate-free |
| SubmissionForm.SubmissionPage.MoveMarker | app/maps/submissions/page.tsx:372-389 | the marker moves, nothing else changes |
| SubmissionForm.SubmissionPage.MarkerEffect | app/maps/submissions/page.tsx:131-134 | the form's latitude and longitude become the marker's |
| SubmissionForm.SubmissionPage.Submit | app/maps/submissions/page.tsx:161-168 | an invalid form sends nothing; a signed-out valid submit redirects to sign-in and sends nothing; a signed-in one sends the values with the user id |
| SubmissionForm.SubmissionPage.SubmitSucceeded | app/maps/submissions/page.tsx:151-155 | the form is reset and the page navigates to /maps |
| LocationForm.RemoveByIdAppend | app/dashboards/locations/create/page.tsx:192-197 | removing by id distributes over concatenation |
| LocationForm.RemoveByIdSpec | app/dashboards/locations/create/page.tsx:192-197 | exactly the items with another id remain; nothing changes when no item has the id |
| LocationForm.RemoveUndoesAdd | app/dashboards/locations/create/page.tsx:168-197 | removing a freshly added item by its new id gives the old list |
| LocationForm.RepeatedTypeIsKept | app/dashboards/locations/create/page.tsx:168-182 | the same facility type can be added twice, and removing one item leaves the other |
| LocationForm.CreateLocationPage.constructor | app/dashboards/locations/create/page.tsx:104-132 | default form and marker, dialog closed, no choice made |
| LocationForm.CreateLocationPage.ChooseInDialog | app/dashboards/locations/create/page.tsx:357-415 | the dialog holds the chosen facility, its name and the image |
| LocationForm.CreateLocationPage.AddFacility | app/dashboards/locations/create/page.tsx:168-190 | without a facility or an image only an error notice is added; otherwise exactly one item is appended, the choices are cleared and the dialog closes |
| LocationForm.CreateLocationPage.RemoveFacility | app/dashboards/locations/create/page.tsx:192-199 | the items with the id are removed and a success notice is added |
| LocationForm.CreateLocationPage.MoveMarker | app/dashboards/locations/create/page.tsx:583-600 | the marker moves, nothing else changes |
| LocationForm.CreateLocationPage.MarkerEffect | app/dashboards/locations/create/page.tsx:163-166 | the form's latitude and longitude become the marker's |
| LocationForm.CreateLocationPage.Submit | app/dashboards/locations/create/page.tsx:159-161 | a valid form is sent as it is; an invalid one is not |
| RouteNavigation.BoundsFacts | app/maps/route-navigation/page.tsx:39-45 | the city centre and the four corners lie in the inclusive bounds |
| RouteNavigation.ZoomLevelFacts | app/maps/route-navigation/page.tsx:250-257 | the zoom lies in 10..15, does not increase with distance, is 15 iff d < 0.5 and 10 iff d ≥ 10 |
| RouteNavigation.CenterPointIsMidpoint | app/maps/route-navigation/page.tsx:196-201 | the centre is equally far from both points on each axis, lies between them, and ignores their order |
| RouteNavigation.CenterPointInBounds | app/maps/route-navigation/page.tsx:196-201 | the centre of two points in the bounds is in the bounds |
| RouteNavigation.TripRoundTrip | app/maps/route-navigation/page.tsx:180-184 | the trip in km and minutes converts back to the metres and seconds of the reply |
| RouteNavigation.RouteNavigator.constructor | app/maps/route-navigation/page.tsx:24-37 | empty query and suggestions, no coordinates, route or trip |
| RouteNavigation.RouteNavigator.MountEffect | app/maps/route-navigation/page.tsx:47-81 | a fix becomes the current coordinate and is flown to only inside the bounds; no support or an error gives the city centre |
| RouteNavigation.RouteNavigator.SetQuery | app/maps/route-navigation/page.tsx:329 | the query becomes the typed text |
| RouteNavigation.RouteNavigator.DebouncedQueryEffect | app/maps/route-navigation/page.tsx:83-92 | a query of at least 3 characters issues one search; a shorter one clears the suggestions and searches nothing |
| RouteNavigation.RouteNavigator.SearchFinished | app/maps/route-navigation/page.tsx:108-123 | the suggestions become the reply's features, or [] |
| RouteNavigation.RouteNavigator.ClearSearch | app/maps/route-navigation/page.tsx:126-146 | query "", no destination, route or trip, no suggestions; a flight back to the current coordinate when there is one |
| RouteNavigation.RouteNavigator.SelectDestination | app/maps/route-navigation/page.tsx:203-227 | the destination and query are set; with no current coordinate no route is requested; a reply without a route gives the error notice and no trip; otherwise trip details and a flight to the midpoint |
| Sorting.SortByFacts | app/dashboards/__components/charts/bar-graph.tsx:52 | the sort returns the same elements (a permutation) ordered by rank |
| Sorting.SortByKeepsDistinct | app/dashboards/__components/charts/bar-graph.tsx:50-52 | sorting keeps distinct keys distinct |
| VisitorTally.KeysFacts | app/dashboards/__components/charts/bar-graph.tsx:38-42 | the keys are distinct, and a key is listed iff some record has it |
| VisitorTally.TallyConserves | app/dashboards/__components/charts/bar-graph.tsx:58-64 | the mobile column counts the mobile records, the desktop column all others, together every record |
| VisitorTally.RowsNonEmpty | app/dashboards/__components/charts/bar-graph.tsx:40-47 | every row counts at least one record |
| VisitorTally.TallyRows | app/dashboards/__components/charts/bar-graph.tsx:38-51 | one row per distinct key, every record's key has a row |
| VisitorTally.ColumnPermutation | app/dashboards/__components/charts/bar-graph.tsx:58-64 | a column total does not depend on the order of the rows |
| VisitorTally.SortedTallyFacts | app/dashboards/__components/charts/bar-graph.tsx:50-52 | the sorted tally is in rank order, one row per key, rows non-empty, columns conserved |
| VisitorTally.CountRecords | app/dashboards/__components/charts/bar-graph.tsx:36-47 | the `forEach` loop builds the keys in first-appearance order and a counter per key equal to the recursive counting of the records seen |
| VisitorTally.CountsMapFacts | app/dashboards/__components/charts/bar-graph.tsx:36-47 | the counters hold exactly the keys of the records, each with the number of its desktop and of its mobile records |
| VisitorTally.CountByKey | app/dashboards/__components/charts/bar-graph.tsx:36-51 | the counter loop returns exactly the tally: one row per key in first-appearance order with its two counts |
| BarGraph.DateKey | app/dashboards/__components/charts/bar-graph.tsx:39 | the key is the longest prefix without "T", followed by "T" when shorter than the text |
| BarGraph.DateKeyOfTimestamp | app/dashboards/__components/charts/bar-graph.tsx:39 | a timestamp day + "T" + time has the key day |
| BarGraph.BarChartFacts | app/dashboards/__components/charts/bar-graph.tsx:35-64 | one row per day with a record, rows by date, each counting someone, totals summing to the number of records |
| AreaGraph.AreaChartFacts | app/dashboards/__components/charts/area-graph.tsx:36-61 | one row per month name, rows in calendar order, each counting someone, counts summing to the number of records |
| AreaGraph.SameMonthSameRow | app/dashboards/__components/charts/area-graph.tsx:40-44 | two records with the same month name, of any year, are counted in the same row |
| AreaGraph.TotalDeltaFacts | app/dashboards/__components/charts/area-graph.tsx:63-70 | 0 with fewer than two months; otherwise the percent change over the previous month (over 1 when that is 0), positive iff the last month grew, 0 iff level |
| Accessibility.AssignLastWins | app/maps/accessibility/page.tsx:58-61 | a district's entry holds the value of its last score |
| Accessibility.AssignKeys | app/maps/accessibility/page.tsx:58-61 | a district has an entry iff some score names it |
| Accessibility.ScorePairs | app/maps/accessibility/page.tsx:58-61 | each score is stored under its district as score × 100 + 1 |
| Accessibility.InitialScoresIgnoreHeatmap | app/maps/accessibility/page.tsx:31-56 | the initial [] scores are not undefined, so the static heatmap is unused and the map is empty |
| Accessibility.BuildValueMap | app/maps/accessibility/page.tsx:51-62 | the assignment loop builds exactly the value map |
| Accessibility.EnhanceFacts | app/maps/accessibility/page.tsx:66-78 | shapes keep number and order; a shape with a truthy entry gains exactly its score, any other is unchanged; merging twice is merging once |
| Accessibility.HoverUpdateFacts | app/maps/accessibility/page.tsx:84-102 | the same district keeps the state, position included; another district records name ("Unknown"), score (0) and cursor; no shape clears it |
| Accessibility.Heatmap.constructor | app/maps/accessibility/page.tsx:24-33 | scores start as [] and no hover |
| Accessibility.Heatmap.ScoresFetched | app/maps/accessibility/page.tsx:35-46 | a failed response keeps the scores; an OK one stores `data.data`, None when it is missing (what the page then renders is `DisabilityChart.PageAsWritten`) |
| Accessibility.Heatmap.OnHover | app/maps/accessibility/page.tsx:84-102 | the hover state follows the update rule |
| PieEntries.EntryFallbacks | app/dashboards/__components/charts/pie-graph.tsx:41-43 | a configured key gets its label and colour, any other its own name and "gray"; the value is kept |
| PieEntries.Kept | app/dashboards/__components/charts/pie-graph.tsx:39 | exactly the pairs without the excluded key remain |
| PieEntries.KeptAppend | app/dashboards/__components/charts/pie-graph.tsx:39 | the filter keeps the order of what it keeps |
| PieEntries.Entries | app/dashboards/__components/charts/pie-graph.tsx:38-45 | one slice per kept pair, in order |
| PieEntries.EntriesFacts | app/dashboards/__components/charts/pie-graph.tsx:38-45 | the excluded key never gives a slice; any other key gives exactly one, appended in order |
| PieEntries.Lookup | app/dashboards/__components/charts/pie-graph.tsx:93 | a key's value is found iff the key occurs |
| DashboardPie.TotalOnlyInCentre | app/dashboards/__components/charts/pie-graph.tsx:38-93 | the total never becomes a slice and is the centre figure; the slices are the other pairs in order |
| DistrictPie.PieFacts | components/mapbox/pie-graph.tsx:38-95 | title is the hovered name, the description name falls back to "Unknown", the score shown is one less, "No Data" iff only `totalCount`, centre `totalCount` or 0 |
| DistrictPie.ShownScore | components/mapbox/pie-graph.tsx:49 | a district entered with stored score s × 100 + 1 shows s × 100; a shape without a score shows -1 |
| Tooltip.Find | components/mapbox/tooltip.tsx:35-37 | the result has the hovered name, and nothing is found iff no district has it |
| Tooltip.FindIsFirst | components/mapbox/tooltip.tsx:35-37 | the lookup returns the first district with the name |
| Tooltip.RenderFacts | components/mapbox/tooltip.tsx:40-54 | the tooltip sits at (x + 10, y + 10) and shows the card iff the counts have loaded and hold the district, for the first match |
| DisabilityChart.SortedDistrictsFacts | components/mapbox/disabilityChart.tsx:16-23 | the sorted districts are a permutation of the data with non-increasing scores |
| DisabilityChart.ChartBars | components/mapbox/disabilityChart.tsx:25-57 | min(5, n) bars, the i-th for the i-th sorted district with width score × 100 |
| DisabilityChart.TopRanked | components/mapbox/disabilityChart.tsx:16-57 | every shown district scores at least as high as every district not shown, and the shown ones come from the data |
| DisabilityChart.HeatmapFallbackNeverShown | components/mapbox/disabilityChart.tsx:14-18 | the page passes its scores state unguarded to the chart, whose `Object.entries` fails on a missing list: the page renders exactly when scores are present, so the static heatmap value map is never shown |
| DisabilityChart.GuardedPageShowsFallback | app/maps/accessibility/page.tsx:53-56 | with a missing list read as no districts, the page always renders: the static heatmap and an empty chart without scores, the page as written with them |
| FeedbackFilter.MatchesIff | app/dashboards/__components/feedbacks-table/columns.tsx:51-54 | a row matches iff the lower-cased filter occurs in the lower-cased name (or "") |
| FeedbackFilter.EmptyFilterMatches | app/dashboards/__components/feedbacks-table/columns.tsx:52-53 | the empty filter matches every row |
| FeedbackFilter.MissingNameIsEmpty | app/dashboards/__components/feedbacks-table/columns.tsx:52 | a missing name is searched as "", which only the empty filter matches |
| FeedbackFilter.IgnoresCase | app/dashboards/__components/feedbacks-table/columns.tsx:52-53 | the case of the filter and of the name plays no part |
| FeedbackFilter.PartOfNameMatches | app/dashboards/__components/feedbacks-table/columns.tsx:51-54 | any part of a name, in any case, finds its row |
| FeedbackFilter.VoteIconOf | app/dashboards/__components/feedbacks-table/columns.tsx:82 | thumbs-up iff the vote is true |
| DashboardGate.GateFacts | app/dashboards/layout.tsx:14-59 | nothing without a user; the 403 page for anyone but the administrator (everyone when none is configured); the children only for the administrator; only presence and id matter |

## Left out

- Network: every `fetch` becomes a parameter. This covers the list, detail, score, facility-count and geocoding replies, the route replies and the create requests. The cache's staleness and refetch timing are not modelled.
- Tooltip: the facility-count fetch of components/mapbox/tooltip.tsx is a parameter; the loaded list, or None before loading, is passed in.
- Timing: the 500 ms debounce, the submit timer and the focus timer are separate method calls, in the order the events happen.
- The haversine distance of app/maps/route-navigation/page.tsx is a parameter of `SelectDestination`, because trigonometry has no exact model.
- Floating point: numbers are exact reals, so rounding of scores, midpoints and deltas is not modelled. NaN appears only as a failed `parseInt`.
- Dates and locale: the month name, the month index and `getTime` are function parameters of the charts.
- JavaScript strings are UTF-16, but here a length counts characters.
- Lowering case: `toLowerCase` is modelled for ASCII letters only.
- Percent decoding: the form-urlencoded decoding of `+` and `%` is left out. `RequestsReadBack` assumes values without those characters.
- `JsNumber.ParseInt` skips only the common white space characters.
- Object key order: an object's entries are a sequence in insertion order. JavaScript puts integer-like keys first, and that is not modelled.
- Sorting.SortByFacts: proves sortedness and the permutation, but not stability. Stability is described but not proved.
- Clerk sign-in: it is the `user` parameter (an optional id). Only the id comparison of the dashboard gate is modelled.
- Loading flags: `isLoading` and `isPending` are left out, apart from the page's spinner choice.
- The create location page's `onSuccess` reset and navigation are left out. Its `Submit` records the values sent.
- The route layer effect of the navigation page is left out. So are the Mapbox camera animation, map layers, framer-motion, dialogs and toasts; toasts are recorded as notices.
- The facility badges of the place cards are left out. Those are places.tsx's own colour and icon tables; the side panel's are modelled.
- `FilterMobile.FilterMobileState.ResetClick` does not model the asynchronous validation of the form before the submit. The mobile schema accepts every value, so the submit always runs.
- `FilterMobile.FilterMobileState.PushTabEffect` pushes the corrected tab value. The as-written behaviour is stated by `FilterMobile.PushedTabAlwaysShowsSubmissions`.

## Findings

| source | as written | input that shows it | evidently intended | confidence | as-written member | corrected member |
|---|---|---|---|---|---|---|
| app/maps/__components/filter-mobile.tsx:54-57 | the panel hands its own tab value, "lokasi" or "ajuan" (lines 194-195), to the page's `setActiveTab`, whose values are "location" and "submission" | mounting the panel, or choosing "lokasi": the page's tab becomes "lokasi", which is not "location" | "lokasi" selects the locations tab and "ajuan" the submissions tab | not executed | FilterMobile.PushedTabAlwaysShowsSubmissions | FilterMobile.PageTabSelectsMatchingList |
| app/maps/__components/filter-mobile.tsx:201-207 | the Reset button inside the form has no `type`, so it is a submit button: after `handleReset` pushes page=1, the form submits the reset values against the URL of the click (lines 75-87) and closes the panel | `?sort_asc=true&name=x&page=3`: the click ends on `?sort_asc=true&page=1` and closes the panel (any ascending URL keeps `sort_asc`) | a reset to exactly page=1, as on the desktop form, whose Reset button is `type="button"` (filter-form.tsx:118-131) | not executed | FilterMobile.FilterMobileState.ResetClick | FilterMobile.IntendedResetIsPageOne |
| app/maps/accessibility/page.tsx:118 | an OK reply without `data.data` stores a missing list; the map then falls back to the static heatmap (lines 53-56), but the chart it is passed to calls `Object.entries` on it (components/mapbox/disabilityChart.tsx:18), which throws | a score reply `{}` with status 200 | without scores the page shows the static heatmap and charts no district | not executed | DisabilityChart.HeatmapFallbackNeverShown | DisabilityChart.GuardedPageShowsFallback |
