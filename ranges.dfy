/** The route's offset tables and the time windows built from them: the anomaly window
    (in the metric's own unit) and the analysis window (always whole days). */
module Ranges {
  import opened JsText
  import opened TimeAlign

  /** A `[start, end]` pair of epoch milliseconds. */
  datatype TimeRange = TimeRange(start: int, end: int)

  /** `toAnomalyOffset`: how many units of the metric's unit the anomaly window reaches
      back. Any unit outside the table falls back to -1. */
  function AnomalyOffset(u: Option<Unit>): (r: int)
    ensures -120 <= r <= -1
  {
    match u
    case Some(Minute) => -120
    case Some(Hour) => -3
    case Some(Day) => -1
    case _ => -1
  }

  /** `toAnalysisOffset`: how many days before the anomaly's day the analysis window
      starts. Any unit outside the table falls back to -1. */
  function AnalysisOffset(u: Option<Unit>): (r: int)
    ensures -7 <= r <= -1
  {
    match u
    case Some(Minute) => -1
    case Some(Hour) => -2
    case Some(Day) => -7
    case _ => -1
  }

  /** `toAnalysisRangeArray(anomalyStart, anomalyEnd, metricGranularity)`: from
      `-AnalysisOffset` days before the day of `anomalyStart` to the end of the day of
      `anomalyEnd`. */
  function AnalysisRange(anomalyStart: int, anomalyEnd: int, u: Option<Unit>): (r: TimeRange)
    ensures r.start % DayMs == 0 && r.end % DayMs == 0
    ensures r.start / DayMs == anomalyStart / DayMs + AnalysisOffset(u)
    ensures r.end / DayMs == anomalyEnd / DayMs + 1
    ensures anomalyEnd < r.end <= anomalyEnd + DayMs
    ensures anomalyStart - 8 * DayMs < r.start < anomalyStart
    ensures anomalyStart <= anomalyEnd ==> r.start < r.end
  {
    var offset := AnalysisOffset(u);
    var end := Add(StartOf(anomalyEnd, Day), 1, Day);
    var start := Add(StartOf(anomalyStart, Day), offset, Day);
    DivModUnique(end, DayMs, anomalyEnd / DayMs + 1, 0);
    DivModUnique(start, DayMs, anomalyStart / DayMs + offset, 0);
    TimeRange(start, end)
  }

  /** The metric branch's anomaly window: it ends at the snapped maximum time (taking
      `startOf` again changes nothing) and reaches back `-AnomalyOffset` units: two
      hours of minutes, three hours, or one day. */
  function MetricAnomalyRange(maxTime: int, count: int, u: Unit): (r: TimeRange)
    requires u in {Minute, Hour, Day} && count != 0
    ensures r.end == AdjustMaxTime(maxTime, count, u)
    ensures r.start < r.end <= maxTime
    ensures r.start % Length(u) == 0 && r.end % Length(u) == 0
    ensures u == Minute ==> r.end - r.start == 120 * MinuteMs
    ensures u == Hour ==> r.end - r.start == 3 * HourMs
    ensures u == Day ==> r.end - r.start == DayMs
  {
    var maxTimeSnapped := AdjustMaxTime(maxTime, count, u);
    var end := StartOf(maxTimeSnapped, u);
    var start := Add(end, AnomalyOffset(Some(u)), u);
    assert start == end + AnomalyOffset(Some(u)) * Length(u);
    DivModUnique(start, Length(u), end / Length(u) + AnomalyOffset(Some(u)), 0);
    TimeRange(start, end)
  }

  /** A negative count gives the window its absolute value gives. */
  lemma MetricAnomalyRangeNegated(maxTime: int, count: int, u: Unit)
    requires u in {Minute, Hour, Day} && count != 0
    ensures MetricAnomalyRange(maxTime, -count, u) == MetricAnomalyRange(maxTime, count, u)
  {
    AdjustMaxTimeNegated(maxTime, count, u);
  }

  /** The default anomaly window of `afterModel`: the three whole hours before the
      start of the current hour. */
  function DefaultAnomalyRange(now: int): (r: TimeRange)
    ensures r.start % HourMs == 0 && r.end % HourMs == 0
    ensures r.end <= now < r.end + HourMs
    ensures r.end - r.start == 3 * HourMs
  {
    TimeRange(Add(StartOf(now, Hour), -3, Hour), StartOf(now, Hour))
  }

  /** The default analysis window of `afterModel`: the six days before today and
      today itself. */
  function DefaultAnalysisRange(now: int): (r: TimeRange)
    ensures r.start % DayMs == 0 && r.end % DayMs == 0
    ensures r.start + 6 * DayMs <= now < r.end
    ensures r.end - r.start == 7 * DayMs
  {
    TimeRange(Add(StartOf(now, Day), -6, Day), Add(StartOf(now, Day), 1, Day))
  }

  /** A daily metric's window is the whole day before the day holding `maxTime`. */
  lemma DailyAnomalyRange(maxTime: int)
    ensures MetricAnomalyRange(maxTime, 1, Day) == TimeRange(StartOf(maxTime, Day) - DayMs, StartOf(maxTime, Day))
  {
  }

  /** A daily metric is analysed over the seven days before the day holding `maxTime`
      and that day itself. */
  lemma DailyAnalysisRange(maxTime: int)
    ensures var w := MetricAnomalyRange(maxTime, 1, Day);
      AnalysisRange(w.end, w.end, Some(Day)) ==
        TimeRange(StartOf(maxTime, Day) - 7 * DayMs, StartOf(maxTime, Day) + DayMs)
  {
    var day := StartOf(maxTime, Day);
    DailyAnomalyRange(maxTime);
    assert StartOf(day, Day) == day;
  }

  /** A five-minute metric's window is the two hours before the last five-minute
      boundary at or before `maxTime`. */
  lemma FiveMinuteAnomalyRange(maxTime: int)
    ensures MetricAnomalyRange(maxTime, 5, Minute) ==
      TimeRange(FiveMinuteFloor(maxTime) - 120 * MinuteMs, FiveMinuteFloor(maxTime))
  {
    FiveMinuteSnap(maxTime);
  }
}
