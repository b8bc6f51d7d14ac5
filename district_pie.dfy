/**
 * The facility pie card shown in the heatmap tooltip (components/mapbox/pie-graph.tsx):
 * the slices of a district's facility counts without `totalCount`, the
 * total in the centre, and the hovered district's name and score.
 */
module DistrictPie {
  import opened Common
  import opened PieEntries
  import opened Accessibility

  const TotalKey := "totalCount"

  /** A district and its facility counts per facility key (`totalCount` among them). */
  datatype DistrictFacilities = DistrictFacilities(districtName: string, facilityCounts: seq<(string, real)>)

  /** What the card shows. */
  datatype PieView = PieView(
    title: string,
    shownScore: real,
    districtLabel: string,
    noData: bool,
    slices: seq<Entry>,
    centerTotal: real)

  function PieFor(data: DistrictFacilities, hover: HoverInfo): PieView
  {
    var slices := Entries(data.facilityCounts, TotalKey);
    PieView(
      hover.districtName,
      hover.disabilityScore - 1.0,
      if hover.districtName == "" then "Unknown" else hover.districtName,
      |slices| == 0,
      slices,
      match Lookup(data.facilityCounts, TotalKey) case Some(v) => v case None => 0.0)
  }

  /**
   * The card: the title is the hovered name and the description falls back to
   * "Unknown" for an empty one; the score shown is one less than the hovered
   * score; the slices are the other counts, in order; "No Data" appears exactly
   * when no key other than `totalCount` is present; the centre shows
   * `totalCount`, or 0 without one.
   */
  lemma PieFacts(data: DistrictFacilities, hover: HoverInfo)
    ensures var v := PieFor(data, hover);
            && v.title == hover.districtName
            && (hover.districtName != "" ==> v.districtLabel == hover.districtName)
            && (hover.districtName == "" ==> v.districtLabel == "Unknown")
            && v.shownScore + 1.0 == hover.disabilityScore
            && |v.slices| == |Kept(data.facilityCounts, TotalKey)|
            && (forall i :: 0 <= i < |v.slices| ==>
                  v.slices[i] == EntryOf(Kept(data.facilityCounts, TotalKey)[i].0, Kept(data.facilityCounts, TotalKey)[i].1))
            && (v.noData <==> forall p :: p in data.facilityCounts ==> p.0 == TotalKey)
            && ((forall p :: p in data.facilityCounts ==> p.0 != TotalKey) ==> v.centerTotal == 0.0)
            && (forall t :: (TotalKey, t) in data.facilityCounts && Lookup(data.facilityCounts, TotalKey) == Some(t) ==> v.centerTotal == t)
  {
    var k := Kept(data.facilityCounts, TotalKey);
    if k != [] {
      assert k[0] in k;
    }
  }

  /**
   * From a stored score to the card: a district whose fetched score `s` is
   * stored (as `s * 100 + 1`, truthy) and is entered by the cursor shows
   * `s * 100`; a shape that received no score shows -1.
   */
  lemma ShownScore(data: DistrictFacilities, f: Feature, m: map<string, real>, x: real, y: real)
    ensures HasEntry(f, m) ==>
              var hover := HoverUpdate(None, Some(EnhanceOne(f, m)), x, y).value;
              PieFor(data, hover).shownScore == m[f.kecamatan.value] - 1.0
    ensures forall s :: HasEntry(f, m) && m[f.kecamatan.value] == Stored(s) ==>
              var hover := HoverUpdate(None, Some(EnhanceOne(f, m)), x, y).value;
              PieFor(data, hover).shownScore == s * 100.0
    ensures !HasEntry(f, m) && f.disabilityScore.None? ==>
              var hover := HoverUpdate(None, Some(EnhanceOne(f, m)), x, y).value;
              PieFor(data, hover).shownScore == -1.0
  {
  }
}
