/**
 * The daily visitor bar chart (app/dashboards/__components/charts/bar-graph.tsx):
 * records counted per calendar day, rows in date order, and the two totals
 * shown on the series buttons.
 */
module BarGraph {
  import opened Sorting
  import opened VisitorTally

  /** `visitedAt.split("T")[0]`: everything before the first "T". */
  function DateKey(visitedAt: string): (k: string)
    ensures 'T' !in k
    ensures |k| <= |visitedAt| && visitedAt[..|k|] == k
    ensures |k| < |visitedAt| ==> visitedAt[|k|] == 'T'
  {
    if visitedAt == [] || visitedAt[0] == 'T' then ""
    else [visitedAt[0]] + DateKey(visitedAt[1..])
  }

  /** A timestamp with its day prefix: the key is that prefix, whatever the time part. */
  lemma {:induction false} DateKeyOfTimestamp(day: string, time: string)
    requires 'T' !in day
    ensures DateKey(day + "T" + time) == day
  {
    var s := day + "T" + time;
    if day == [] {
      assert s[0] == 'T';
    } else {
      assert s[0] == day[0] && s[1..] == day[1..] + "T" + time;
      DateKeyOfTimestamp(day[1..], time);
      assert day == [day[0]] + day[1..];
    }
  }

  function DayKey(r: VisitorRecord): string
  {
    DateKey(r.visitedAt)
  }

  /** The rank the sort compares: `new Date(date).getTime()`, a parameter of the model. */
  function ByTime(time: string -> real): Row -> real
  {
    (row: Row) => time(row.key)
  }

  /** `chartData`: the per-day tally sorted by date. */
  function ChartData(recs: seq<VisitorRecord>, time: string -> real): seq<Row>
  {
    SortBy(Tally(recs, DayKey), ByTime(time))
  }

  /** The series shown first. */
  const DefaultActiveChart := "desktop"

  /** `total`: the desktop and the mobile column sums. */
  datatype Totals = Totals(desktop: nat, mobile: nat)

  function TotalsOf(chart: seq<Row>): Totals
  {
    Totals(Column(chart, false), Column(chart, true))
  }

  /**
   * The chart has one row per day that has a record (no day twice), every row
   * counts someone, rows go by date, and the totals count the mobile records
   * and all the others, together every record.
   */
  lemma BarChartFacts(recs: seq<VisitorRecord>, time: string -> real)
    ensures var chart := ChartData(recs, time);
            && SortedBy(chart, ByTime(time))
            && (forall i, j :: 0 <= i < j < |chart| ==> chart[i].key != chart[j].key)
            && (forall r :: r in recs ==> exists i :: 0 <= i < |chart| && chart[i].key == DateKey(r.visitedAt))
            && (forall i :: 0 <= i < |chart| ==> chart[i].desktop + chart[i].mobile >= 1)
            && TotalsOf(chart) == Totals(CountAll(recs, false), CountAll(recs, true))
            && TotalsOf(chart).desktop + TotalsOf(chart).mobile == |recs|
  {
    SortedTallyFacts(recs, DayKey, ByTime(time));
  }
}
