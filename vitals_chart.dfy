/**
 * The vitals trend chart (components/VitalsChart.tsx): the logs mapped to
 * chart points and reversed, and the rule for drawing a trend.
 */
module VitalsChart {
  import opened Types

  /** One chart point; `date` is the log's date as the locale formatter renders it. */
  datatype ChartPoint = ChartPoint(date: string, fastingGlucose: real, systolic: real, diastolic: real)

  /** The point drawn for one log; `formatDate` stands for `new Date(d).toLocaleDateString(...)`. */
  function PointOf(log: DailyLog, formatDate: string -> string): ChartPoint
  {
    ChartPoint(formatDate(log.date), log.vitals.fasting_glucose, log.vitals.bp_systolic, log.vitals.bp_diastolic)
  }

  /** `xs.reverse()` on a fresh array: element `i` of the result is element `n-1-i` of `xs`. */
  function Reverse(xs: seq<ChartPoint>): (r: seq<ChartPoint>)
    ensures |r| == |xs|
    ensures forall i :: 0 <= i < |xs| ==> r[i] == xs[|xs| - 1 - i]
  {
    if xs == [] then [] else Reverse(xs[1..]) + [xs[0]]
  }

  /** Reversing twice gives back the original series. */
  lemma {:induction false} ReverseReverse(xs: seq<ChartPoint>)
    ensures Reverse(Reverse(xs)) == xs
  {
    assert Reverse(Reverse(xs)) == xs by {
      var r := Reverse(Reverse(xs));
      assert |r| == |xs|;
      forall i | 0 <= i < |xs| ensures r[i] == xs[i] {
        assert r[i] == Reverse(xs)[|xs| - 1 - i];
      }
    }
  }

  /**
   * chartData: one point per log, newest log first when logs run oldest to
   * newest; each point copies its log's glucose and blood pressures unchanged.
   */
  function ChartData(logs: seq<DailyLog>, formatDate: string -> string): (points: seq<ChartPoint>)
    ensures |points| == |logs|
    ensures forall i :: 0 <= i < |points| ==>
      var log := logs[|logs| - 1 - i];
      && points[i].date == formatDate(log.date)
      && points[i].fastingGlucose == log.vitals.fasting_glucose
      && points[i].systolic == log.vitals.bp_systolic
      && points[i].diastolic == log.vitals.bp_diastolic
  {
    Reverse(seq(|logs|, i requires 0 <= i < |logs| => PointOf(logs[i], formatDate)))
  }

  /** The trend is drawn only when there is more than one point. */
  predicate ShowsTrend(points: seq<ChartPoint>)
  {
    |points| > 1
  }

  /** A trend appears exactly when there are at least two logs. */
  lemma TrendNeedsTwoLogs(logs: seq<DailyLog>, formatDate: string -> string)
    ensures ShowsTrend(ChartData(logs, formatDate)) <==> |logs| >= 2
  {
  }
}
