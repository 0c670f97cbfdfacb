/**
 * Traffic-record selection (`Repo._validate_date`): pick the entry of a views
 * or clones series whose timestamp falls on the target date.
 */
module Traffic {
  import opened Wrappers
  import opened JsonValues

  /** The two traffic series the tracker reads. */
  datatype Metric = Views | Clones

  /** The key holding the series, which is also the endpoint's last path segment. */
  function MetricName(m: Metric): string
  {
    match m
    case Views => "views"
    case Clones => "clones"
  }

  /** What `_get_data` and `_query` hand on: the decoded body on status 200, None on any other status. */
  function Received(status: int, body: Json): Json
  {
    if status == 200 then body else Null
  }

  /** The record the loop substitutes when an entry is not on the target date. */
  function ZeroRecord(target: string): Json
  {
    Obj(map["timestamp" := Str(target), "count" := Num(0), "uniques" := Num(0)])
  }

  /** `entry["timestamp"][:10]` */
  function DateOf(entry: Json): Result<Json, PyError>
  {
    var timestamp :- Subscript(entry, "timestamp");
    SliceTo(timestamp, 10)
  }

  /** `date == target_date` once `date` has been computed; a list slice never equals a str. */
  function Matches(entry: Json, target: string): Result<bool, PyError>
  {
    var date :- DateOf(entry);
    Ok(date == Str(target))
  }

  /**
   * The `for key in data[metric]` loop over a list. `data` is the loop's
   * reassigned variable: it starts as the whole response and becomes the
   * zero record after the first entry that is not on the target date.
   */
  function Scan(entries: seq<Json>, target: string, data: Json): Result<Json, PyError>
    decreases |entries|
  {
    if |entries| == 0 then Ok(data)
    else
      var hit :- Matches(entries[0], target);
      if hit then Ok(entries[0]) else Scan(entries[1..], target, ZeroRecord(target))
  }

  /**
   * `_validate_date(data, metric)` with the target date passed in. Iterating a
   * dict or a str yields str items, which the loop body cannot subscript with
   * "timestamp"; iterating anything else raises at once.
   */
  function ValidateDate(data: Json, metric: string, target: string): Result<Json, PyError>
  {
    var series :- Subscript(data, metric);
    match series
    case Arr(entries) => Scan(entries, target, data)
    case Obj(fields) => if |fields| == 0 then Ok(data) else Err(TypeError)
    case Str(s) => if |s| == 0 then Ok(data) else Err(TypeError)
    case _ => Err(TypeError)
  }

  /** The first `i` entries were read without error and none is on the target date. */
  ghost predicate SkippedUpTo(entries: seq<Json>, target: string, i: int)
  {
    && 0 <= i <= |entries|
    && forall j :: 0 <= j < i ==> Matches(entries[j], target) == Ok(false)
  }

  /**
   * What the loop returns, decided by the first entry it does not skip: that
   * entry if it is on the target date, its exception if reading it raises, and
   * when every entry is skipped the zero record (or `data` itself when there
   * were no entries at all).
   */
  lemma {:induction false} ScanOutcome(entries: seq<Json>, target: string, data: Json, i: int)
    requires SkippedUpTo(entries, target, i)
    ensures i == |entries| == 0 ==> Scan(entries, target, data) == Ok(data)
    ensures 0 < i == |entries| ==> Scan(entries, target, data) == Ok(ZeroRecord(target))
    ensures i < |entries| && Matches(entries[i], target) == Ok(true) ==>
      Scan(entries, target, data) == Ok(entries[i])
    ensures i < |entries| && Matches(entries[i], target).Err? ==>
      Scan(entries, target, data) == Err(Matches(entries[i], target).error)
    decreases i
  {
    if i > 0 {
      var rest := entries[1..];
      forall j | 0 <= j < i - 1
        ensures Matches(rest[j], target) == Ok(false)
      {
        assert rest[j] == entries[j + 1];
      }
      ScanOutcome(rest, target, ZeroRecord(target), i - 1);
      if i < |entries| {
        assert rest[i - 1] == entries[i];
      }
    }
  }

  /** `timestamp[:10]` on a timestamp known to be a str. */
  function Prefix10(s: string): string
  {
    if |s| <= 10 then s else s[..10]
  }

  /** One entry of a traffic series as the platform sends it. */
  datatype TrafficDay = TrafficDay(timestamp: string, count: int, uniques: int)

  /** A traffic response: totals over the reporting window and the daily series. */
  datatype TrafficReport = TrafficReport(count: int, uniques: int, days: seq<TrafficDay>)

  function DayJson(d: TrafficDay): Json
  {
    Obj(map["timestamp" := Str(d.timestamp), "count" := Num(d.count), "uniques" := Num(d.uniques)])
  }

  function ReportJson(metric: Metric, r: TrafficReport): Json
  {
    Obj(map[
      "count" := Num(r.count),
      "uniques" := Num(r.uniques),
      MetricName(metric) := Arr(seq(|r.days|, i requires 0 <= i < |r.days| => DayJson(r.days[i])))
    ])
  }

  lemma DayMatches(d: TrafficDay, target: string)
    ensures Matches(DayJson(d), target) == Ok(Prefix10(d.timestamp) == target)
  {
  }

  /** With a well-formed series, the first day dated `target`, in received order, is returned unchanged. */
  lemma SelectsFirstDayOnTarget(metric: Metric, report: TrafficReport, target: string, i: nat)
    requires i < |report.days|
    requires Prefix10(report.days[i].timestamp) == target
    requires forall j :: 0 <= j < i ==> Prefix10(report.days[j].timestamp) != target
    ensures ValidateDate(ReportJson(metric, report), MetricName(metric), target) == Ok(DayJson(report.days[i]))
  {
    var data := ReportJson(metric, report);
    var entries := data.fields[MetricName(metric)].items;
    forall j | 0 <= j < i
      ensures Matches(entries[j], target) == Ok(false)
    {
      DayMatches(report.days[j], target);
    }
    DayMatches(report.days[i], target);
    ScanOutcome(entries, target, data, i);
  }

  /** A non-empty series with no day dated `target` yields zeros dated `target`. */
  lemma NoDayOnTargetGivesZeros(metric: Metric, report: TrafficReport, target: string)
    requires |report.days| > 0
    requires forall j :: 0 <= j < |report.days| ==> Prefix10(report.days[j].timestamp) != target
    ensures ValidateDate(ReportJson(metric, report), MetricName(metric), target) == Ok(ZeroRecord(target))
    ensures ZeroRecord(target) == DayJson(TrafficDay(target, 0, 0))
  {
    var data := ReportJson(metric, report);
    var entries := data.fields[MetricName(metric)].items;
    forall j | 0 <= j < |entries|
      ensures Matches(entries[j], target) == Ok(false)
    {
      DayMatches(report.days[j], target);
    }
    ScanOutcome(entries, target, data, |entries|);
  }

  /**
   * An empty series hands back the whole response, not the zero record: the
   * loop body that would build the zero record never runs.
   */
  lemma EmptySeriesReturnsResponse(metric: Metric, report: TrafficReport, target: string)
    requires report.days == []
    ensures ValidateDate(ReportJson(metric, report), MetricName(metric), target) == Ok(ReportJson(metric, report))
    ensures ReportJson(metric, report) != ZeroRecord(target)
  {
    var data := ReportJson(metric, report);
    assert MetricName(metric) in data.fields && MetricName(metric) !in ZeroRecord(target).fields;
  }

  /** A failed request leaves None, and `None[metric]` raises. */
  lemma UnavailableDataRaises(status: int, body: Json, metric: Metric, target: string)
    requires status != 200
    ensures ValidateDate(Received(status, body), MetricName(metric), target) == Err(TypeError)
  {
  }

  /** A response without the series key raises KeyError rather than defaulting. */
  lemma MissingSeriesRaises(fields: map<string, Json>, metric: Metric, target: string)
    requires MetricName(metric) !in fields
    ensures ValidateDate(Obj(fields), MetricName(metric), target) == Err(KeyError(MetricName(metric)))
  {
  }
}
