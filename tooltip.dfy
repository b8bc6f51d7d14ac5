/**
 * The heatmap tooltip (components/mapbox/tooltip.tsx): the hovered district
 * looked up in the facility counts, and the pie card shown for it.
 */
module Tooltip {
  import opened Common
  import opened Accessibility
  import opened DistrictPie

  /** `Array.prototype.find` by district name. */
  function Find(ds: seq<DistrictFacilities>, name: string): (r: Option<DistrictFacilities>)
    ensures r.Some? ==> r.value in ds && r.value.districtName == name
    ensures r.None? <==> forall d :: d in ds ==> d.districtName != name
  {
    if ds == [] then None
    else if ds[0].districtName == name then Some(ds[0])
    else Find(ds[1..], name)
  }

  /** `currentDistrictData`: nothing until the counts have loaded, then the lookup. */
  function CurrentDistrict(ds: Option<seq<DistrictFacilities>>, name: string): Option<DistrictFacilities>
  {
    match ds
    case None => None
    case Some(s) => Find(s, name)
  }

  /** The lookup returns the first district of that name, whatever comes after it. */
  lemma {:induction false} FindIsFirst(ds: seq<DistrictFacilities>, name: string, i: int)
    requires 0 <= i < |ds| && ds[i].districtName == name
    requires forall j :: 0 <= j < i ==> ds[j].districtName != name
    ensures Find(ds, name) == Some(ds[i])
    decreases i
  {
    if i > 0 {
      assert ds[0].districtName != name;
      FindIsFirst(ds[1..], name, i - 1);
    }
  }

  /** The tooltip: its position and the card, when there is one. */
  datatype TooltipView = TooltipView(left: real, top: real, pie: Option<PieView>)

  function Render(hover: HoverInfo, ds: Option<seq<DistrictFacilities>>): TooltipView
  {
    TooltipView(hover.x + 10.0, hover.y + 10.0,
                match CurrentDistrict(ds, hover.districtName)
                case None => None
                case Some(d) => Some(PieFor(d, hover)))
  }

  /**
   * The tooltip sits 10 pixels right of and below the cursor; it shows a card
   * exactly when the counts have loaded and hold a district of the hovered
   * name, and that card is the one for the first such district.
   */
  lemma RenderFacts(hover: HoverInfo, ds: Option<seq<DistrictFacilities>>)
    ensures var v := Render(hover, ds);
            && v.left == hover.x + 10.0 && v.top == hover.y + 10.0
            && (ds.None? ==> v.pie.None?)
            && (v.pie.Some? <==> ds.Some? && exists d :: d in ds.value && d.districtName == hover.districtName)
    ensures forall i :: ds.Some? && 0 <= i < |ds.value| && ds.value[i].districtName == hover.districtName &&
                        (forall j :: 0 <= j < i ==> ds.value[j].districtName != hover.districtName) ==>
              Render(hover, ds).pie == Some(PieFor(ds.value[i], hover))
  {
    forall i | ds.Some? && 0 <= i < |ds.value| && ds.value[i].districtName == hover.districtName &&
               (forall j :: 0 <= j < i ==> ds.value[j].districtName != hover.districtName)
      ensures Render(hover, ds).pie == Some(PieFor(ds.value[i], hover))
    {
      FindIsFirst(ds.value, hover.districtName, i);
    }
  }
}
