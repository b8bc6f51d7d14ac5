/**
 * The detail panel beside the map (components/mapbox/side-panel.tsx): nothing
 * without a selected item; the submission layout (address, facility badges,
 * full note) on the "submission" tab, the location layout (votes, a shortened
 * description, a detail link) on every other tab.
 */
module SidePanel {
  import opened Common
  import opened JsNumber
  import opened Records

  /** `facilityColors` and `facilityIcons`: four known facility names. */
  const FacilityColors: map<string, string> :=
    map["ramp" := "bg-blue-500", "toilet" := "bg-purple-500", "lift" := "bg-green-500", "parking" := "bg-yellow-500"]
  const FacilityIcons: map<string, string> :=
    map["ramp" := "FerrisWheel", "toilet" := "Toilet", "lift" := "ArrowUp", "parking" := "Car"]

  const FallbackColor := "bg-gray-500"
  const FallbackIcon := "Ban"
  const NoFacilitiesMessage := "Tidak ada fasilitas yang tersedia"

  datatype Badge = Badge(name: string, color: string, icon: string)

  function BadgeOf(f: PlaceFacility): Badge
  {
    var n := f.facility.name;
    Badge(n,
          if n in FacilityColors then FacilityColors[n] else FallbackColor,
          if n in FacilityIcons then FacilityIcons[n] else FallbackIcon)
  }

  /** One badge per facility, in order, each named after its facility. */
  function Badges(fs: seq<PlaceFacility>): (bs: seq<Badge>)
    ensures |bs| == |fs|
    ensures forall i :: 0 <= i < |fs| ==> bs[i] == BadgeOf(fs[i])
  {
    if fs == [] then [] else [BadgeOf(fs[0])] + Badges(fs[1..])
  }

  /**
   * A known facility gets its own colour and icon, which are never the
   * fallbacks; any other name gets the grey colour and the "Ban" icon.
   */
  lemma BadgeFallbacks(f: PlaceFacility)
    ensures var b := BadgeOf(f);
            && b.name == f.facility.name
            && (b.color == FallbackColor <==> f.facility.name !in FacilityColors)
            && (b.icon == FallbackIcon <==> f.facility.name !in FacilityIcons)
            && (f.facility.name in FacilityColors <==> f.facility.name in FacilityIcons)
  {
  }

  datatype Layout =
    | SubmissionLayout(address: string, badges: seq<Badge>, emptyNotice: Option<string>, note: string)
    | LocationLayout(totalVotes: Option<int>, positiveVotes: Option<int>, negativeVotes: Option<int>,
                     description: string, detailLink: string)

  datatype Panel = Panel(image: string, title: string, layout: Layout)

  function PanelFor(item: Option<Place>, activeTab: string): (r: Option<Panel>)
  {
    match item
    case None => None
    case Some(p) =>
      Some(Panel(p.image, p.name,
        if activeTab == "submission" then
          SubmissionLayout(p.address, Badges(p.facilities),
                           if |p.facilities| == 0 then Some(NoFacilitiesMessage) else None,
                           p.description)
        else
          LocationLayout(p.totalVotes, p.positiveVotes, p.negativeVotes,
                         Truncate(p.description, 200), "/maps/" + NumberToString(Some(p.id)))))
  }

  /**
   * The panel shows exactly when an item is selected, with its name and image.
   * On the "submission" tab: the address, one badge per facility, the empty
   * notice exactly when there are none, and the whole note. On any other tab:
   * the votes, the description cut to 200 characters plus "...", and the link
   * to `/maps/{id}`.
   */
  lemma PanelShowsSelection(item: Option<Place>, activeTab: string)
    ensures PanelFor(item, activeTab).Some? <==> item.Some?
    ensures item.Some? ==>
              var p := item.value;
              var r := PanelFor(item, activeTab).value;
              && r.title == p.name && r.image == p.image
              && (r.layout.SubmissionLayout? <==> activeTab == "submission")
              && (activeTab == "submission" ==>
                    && r.layout.address == p.address
                    && |r.layout.badges| == |p.facilities|
                    && (forall i :: 0 <= i < |p.facilities| ==> r.layout.badges[i].name == p.facilities[i].facility.name)
                    && (r.layout.emptyNotice.Some? <==> p.facilities == [])
                    && r.layout.note == p.description)
              && (activeTab != "submission" ==>
                    && r.layout.totalVotes == p.totalVotes
                    && r.layout.positiveVotes == p.positiveVotes
                    && r.layout.negativeVotes == p.negativeVotes
                    && (|p.description| <= 200 ==> r.layout.description == p.description)
                    && (|p.description| > 200 ==>
                          |r.layout.description| == 203 && r.layout.description[..200] == p.description[..200])
                    && r.layout.detailLink == "/maps/" + NumberToString(Some(p.id)))
  {
    if item.Some? {
      TruncateShape(item.value.description, 200);
    }
  }
}
