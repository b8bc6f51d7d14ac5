/**
 * The tag pie chart of the dashboard (app/dashboards/__components/charts/pie-graph.tsx):
 * one slice per tag count, and the `total` count in the centre instead of as a slice.
 */
module DashboardPie {
  import opened Common
  import opened PieEntries

  const TotalKey := "total"

  /** `chartData`. */
  function ChartData(data: seq<(string, real)>): seq<Entry>
  {
    Entries(data, TotalKey)
  }

  /** The centre figure, `data.total` (None renders nothing). */
  function CenterFigure(data: seq<(string, real)>): Option<real>
  {
    Lookup(data, TotalKey)
  }

  /**
   * The total is shown in the centre and never as a slice: the slices are
   * exactly the other pairs, in order, whether or not a total is present.
   */
  lemma TotalOnlyInCentre(data: seq<(string, real)>, total: real)
    ensures ChartData(data + [(TotalKey, total)]) == ChartData(data)
    ensures (forall p :: p in data ==> p.0 != TotalKey) ==> CenterFigure(data + [(TotalKey, total)]) == Some(total)
    ensures |ChartData(data)| == |Kept(data, TotalKey)|
    ensures forall i :: 0 <= i < |ChartData(data)| ==>
              ChartData(data)[i] == EntryOf(Kept(data, TotalKey)[i].0, Kept(data, TotalKey)[i].1)
  {
    EntriesFacts(data, TotalKey, TotalKey, total);
    if forall p :: p in data ==> p.0 != TotalKey {
      var d := data + [(TotalKey, total)];
      var r := Lookup(d, TotalKey);
      assert (TotalKey, total) in d;
      assert r.Some?;
      assert (TotalKey, r.value) in d;
      assert (TotalKey, r.value) !in data;
    }
  }
}
