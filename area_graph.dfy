/**
 * The monthly visitor area chart (app/dashboards/__components/charts/area-graph.tsx):
 * records counted per month name, rows in calendar order, and the change
 * between the last two months in percent.
 */
module AreaGraph {
  import opened Sorting
  import opened VisitorTally

  /**
   * The key of a record: the month name of its timestamp (`toLocaleString`
   * with `month: "long"`, a parameter of the model). The year plays no part.
   */
  function ByMonth(monthName: string -> string): VisitorRecord -> string
  {
    (r: VisitorRecord) => monthName(r.visitedAt)
  }

  /** The rank the sort compares: the month's index, `new Date(month + " 1, 2000").getMonth()`. */
  function ByMonthIndex(monthIndex: string -> int): Row -> real
  {
    (row: Row) => monthIndex(row.key) as real
  }

  /** `chartData`: the per-month tally in calendar order, each row carrying month, desktop and mobile. */
  function ChartData(recs: seq<VisitorRecord>, monthName: string -> string, monthIndex: string -> int): seq<Row>
  {
    SortBy(Tally(recs, ByMonth(monthName)), ByMonthIndex(monthIndex))
  }

  /**
   * One row per month name (records of the same month in different years
   * share it), rows in calendar order, every row counting someone, and the
   * counts summing to the number of records.
   */
  lemma AreaChartFacts(recs: seq<VisitorRecord>, monthName: string -> string, monthIndex: string -> int)
    ensures var chart := ChartData(recs, monthName, monthIndex);
            && SortedBy(chart, ByMonthIndex(monthIndex))
            && (forall i, j :: 0 <= i < j < |chart| ==> chart[i].key != chart[j].key)
            && (forall r :: r in recs ==> exists i :: 0 <= i < |chart| && chart[i].key == monthName(r.visitedAt))
            && (forall i :: 0 <= i < |chart| ==> chart[i].desktop + chart[i].mobile >= 1)
            && Column(chart, false) + Column(chart, true) == |recs|
  {
    SortedTallyFacts(recs, ByMonth(monthName), ByMonthIndex(monthIndex));
  }

  /** Two records whose timestamps have the same month name are counted in the same row. */
  lemma SameMonthSameRow(recs: seq<VisitorRecord>, monthName: string -> string, monthIndex: string -> int,
                         a: VisitorRecord, b: VisitorRecord)
    requires a in recs && b in recs && monthName(a.visitedAt) == monthName(b.visitedAt)
    ensures var chart := ChartData(recs, monthName, monthIndex);
            exists i :: 0 <= i < |chart| && chart[i].key == monthName(a.visitedAt)
                        && forall j :: 0 <= j < |chart| && chart[j].key == monthName(b.visitedAt) ==> j == i
  {
    var chart := ChartData(recs, monthName, monthIndex);
    AreaChartFacts(recs, monthName, monthIndex);
    var i :| 0 <= i < |chart| && chart[i].key == monthName(a.visitedAt);
    forall j | 0 <= j < |chart| && chart[j].key == monthName(b.visitedAt) ensures j == i {
      assert chart[j].key == chart[i].key;
    }
  }

  /** `totalDelta`: the last month's total against the one before, in percent; a zero divisor becomes 1. */
  function TotalDelta(chart: seq<Row>): real
  {
    if |chart| < 2 then 0.0
    else
      var last := chart[|chart| - 1];
      var prev := chart[|chart| - 2];
      var sumLast := (last.desktop + last.mobile) as real;
      var sumPrev := (prev.desktop + prev.mobile) as real;
      ((sumLast - sumPrev) / (if sumPrev == 0.0 then 1.0 else sumPrev)) * 100.0
  }

  /**
   * With fewer than two months the change is 0. Otherwise it is the percent
   * change over the previous month (over 1 when that month is 0), positive
   * exactly when the last month grew and 0 exactly when it stayed level.
   */
  lemma TotalDeltaFacts(chart: seq<Row>)
    ensures |chart| < 2 ==> TotalDelta(chart) == 0.0
    ensures |chart| >= 2 ==>
              var last := chart[|chart| - 1];
              var prev := chart[|chart| - 2];
              var l := (last.desktop + last.mobile) as real;
              var p := (prev.desktop + prev.mobile) as real;
              && (p != 0.0 ==> TotalDelta(chart) * p == (l - p) * 100.0)
              && (p == 0.0 ==> TotalDelta(chart) == l * 100.0)
              && (TotalDelta(chart) > 0.0 <==> l > p)
              && (TotalDelta(chart) == 0.0 <==> l == p)
  {
    if |chart| >= 2 {
      var last := chart[|chart| - 1];
      var prev := chart[|chart| - 2];
      var l := (last.desktop + last.mobile) as real;
      var p := (prev.desktop + prev.mobile) as real;
      var q := if p == 0.0 then 1.0 else p;
      var d := TotalDelta(chart);
      assert q > 0.0;
      assert d == ((l - p) / q) * 100.0;
      assert (l - p) / q * q == l - p;
      assert d * q == (l - p) * 100.0;
      assert d > 0.0 <==> l - p > 0.0;
    }
  }
}
