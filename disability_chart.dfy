/**
 * The disability index chart of the heatmap (components/mapbox/disabilityChart.tsx):
 * districts ordered by score, best first, and a bar for each of the first five.
 */
module DisabilityChart {
  import opened Common
  import opened Sorting
  import opened Accessibility

  const RowCount := 5

  /** The comparator `b.disabilityScore - a.disabilityScore`, as a rank sorted ascending. */
  function ByScoreDescending(): DistrictScore -> real
  {
    (d: DistrictScore) => -d.disabilityScore
  }

  /** `sortedDistrict`: copies of the district values, best score first. */
  function SortedDistricts(data: seq<DistrictScore>): seq<DistrictScore>
  {
    SortBy(data, ByScoreDescending())
  }

  /** The sort returns the same districts, none lost or added, scores non-increasing. */
  lemma SortedDistrictsFacts(data: seq<DistrictScore>)
    ensures var s := SortedDistricts(data);
            && |s| == |data| && multiset(s) == multiset(data)
            && forall i, j :: 0 <= i < j < |s| ==> s[i].disabilityScore >= s[j].disabilityScore
  {
    var s := SortedDistricts(data);
    SortByFacts(data, ByScoreDescending());
    forall i, j | 0 <= i < j < |s| ensures s[i].disabilityScore >= s[j].disabilityScore {
      assert ByScoreDescending()(s[i]) <= ByScoreDescending()(s[j]);
    }
  }

  /** A bar: its key (the position), the district's name and its width `score * 100` percent. */
  datatype Bar = Bar(key: nat, districtName: string, percentage: real)

  function BarOf(idx: nat, d: DistrictScore): Bar
  {
    Bar(idx, d.districtName, d.disabilityScore * 100.0)
  }

  /** `ChartContent`'s loop: a bar per sorted district until `rowCount` bars exist. */
  method ChartBars(sorted: seq<DistrictScore>) returns (bars: seq<Bar>)
    ensures |bars| == Min(RowCount, |sorted|)
    ensures forall i :: 0 <= i < |bars| ==> bars[i] == BarOf(i, sorted[i])
  {
    bars := [];
    var count := 0;
    var idx := 0;
    while idx < |sorted|
      invariant 0 <= idx <= |sorted|
      invariant count == idx == |bars| <= RowCount
      invariant forall i :: 0 <= i < |bars| ==> bars[i] == BarOf(i, sorted[i])
    {
      if count >= RowCount {
        break;
      }
      bars := bars + [BarOf(idx, sorted[idx])];
      count := count + 1;
      idx := idx + 1;
    }
  }

  /**
   * The bars show the best districts: every shown district scores at least as
   * high as every district of the data that is not shown, and the shown ones
   * are districts of the data (each at most as often as it occurs there).
   */
  lemma TopRanked(data: seq<DistrictScore>)
    ensures var s := SortedDistricts(data);
            var n := Min(RowCount, |s|);
            && multiset(s[..n]) <= multiset(data)
            && (forall i, j :: 0 <= i < n <= j < |s| ==> s[i].disabilityScore >= s[j].disabilityScore)
            && (forall d :: d in data && d !in s[..n] ==>
                  forall i :: 0 <= i < n ==> s[i].disabilityScore >= d.disabilityScore)
  {
    var s := SortedDistricts(data);
    var n := Min(RowCount, |s|);
    SortedDistrictsFacts(data);
    assert s == s[..n] + s[n..];
    forall k | 0 <= k < n ensures s[k] in s[..n] {
      assert s[..n][k] == s[k];
    }
    forall d | d in data && d !in s[..n]
      ensures forall i :: 0 <= i < n ==> s[i].disabilityScore >= d.disabilityScore
    {
      assert d in multiset(s);
      assert d in s;
      var j :| 0 <= j < |s| && s[j] == d;
      assert n <= j;
    }
  }
  // ----- the chart on the heatmap page ---------------------------------------

  /**
   * What the heatmap page renders for its scores state: the chart's sorted
   * districts beside the value map of the shapes, or a render error.
   */
  datatype PageOutcome = Rendered(values: map<string, real>, chart: seq<DistrictScore>) | RenderError

  /**
   * As written, the page hands its scores state to the chart unguarded, and
   * `Object.entries` of a missing `data.data` throws while rendering.
   */
  function PageAsWritten(scores: Option<seq<DistrictScore>>, heatmap: seq<(string, real)>): PageOutcome
  {
    match scores
    case None => RenderError
    case Some(s) => Rendered(ValueMap(scores, heatmap), SortedDistricts(s))
  }

  /**
   * The static heatmap fallback of the value map is never shown: the page
   * renders exactly when scores are present, and then its map holds the
   * fetched scores, not the static ones.
   */
  lemma HeatmapFallbackNeverShown(scores: Option<seq<DistrictScore>>, heatmap: seq<(string, real)>)
    ensures PageAsWritten(scores, heatmap).Rendered? <==> scores.Some?
    ensures scores.None? ==> ValueMap(scores, heatmap) == Assign(heatmap) && PageAsWritten(scores, heatmap) == RenderError
    ensures PageAsWritten(scores, heatmap).Rendered? ==>
              PageAsWritten(scores, heatmap).values == Assign(ScorePairs(scores.value))
  {
  }

  /** The evidently intended page: a missing score list charts no district and the map falls back to the static heatmap. */
  function PageGuarded(scores: Option<seq<DistrictScore>>, heatmap: seq<(string, real)>): PageOutcome
  {
    Rendered(ValueMap(scores, heatmap), SortedDistricts(if scores.Some? then scores.value else []))
  }

  /**
   * The guarded page always renders; without scores it shows the static
   * heatmap and an empty chart, and with scores it is the page as written.
   */
  lemma GuardedPageShowsFallback(scores: Option<seq<DistrictScore>>, heatmap: seq<(string, real)>)
    ensures PageGuarded(scores, heatmap).Rendered?
    ensures scores.None? ==> PageGuarded(scores, heatmap) == Rendered(Assign(heatmap), [])
    ensures scores.Some? ==> PageGuarded(scores, heatmap) == PageAsWritten(scores, heatmap)
  {
  }
}
